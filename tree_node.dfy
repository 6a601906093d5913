/** The `<paper-tree-node>` element: one entry of the tree, its expand/collapse
    state derived from the data record it is given, the marker class and row it
    renders, and the `select` and `toggle` events it dispatches. */
module TreeNode {
  import opened Js

  /** The plain record a node displays. `icon` is absent or a string (""
      counts as absent, being falsy); an absent or false `open` hint is `false`;
      `children` is absent or an array of records. */
  datatype NodeRecord = NodeRecord(
    name: string,
    icon: Option<string>,
    open: bool,
    children: Option<seq<NodeRecord>>)

  /** The record a node holds before the host assigns one: `{ children: [] }`
      (its missing name renders as the empty string). */
  const InitialRecord := NodeRecord("", None, false, Some([]))

  /** The icon shown when the record names none. */
  const DefaultIcon := "folder"

  /** The marker classes of the twisty control in front of the icon. */
  const PreiconClass := "node-preicon "
  const ExpandedClass := PreiconClass + "expanded"
  const CollapsedClass := PreiconClass + "collapsed"

  /** The record lists at least one child. */
  predicate HasChildRecords(r: NodeRecord) {
    r.children.Some? && |r.children.value| > 0
  }

  /** `t` occurs in `s` as a contiguous piece. */
  predicate HasSubstring(s: string, t: string) {
    exists i | 0 <= i <= |s| :: t <= s[i..]
  }

  /** A piece that holds a character `s` lacks is not a substring of `s`. */
  lemma MissingCharNotSubstring(s: string, t: string, c: char)
    requires c in t && c !in s
    ensures !HasSubstring(s, t)
  {
  }

  // ---------------------------------------------------------------------------
  // Pure rules of the node

  /** The icon name handed to the icon element: the record's icon when it is
      truthy, "folder" otherwise. */
  function ShownIcon(r: NodeRecord): (icon: string)
    ensures icon != ""
    ensures icon == DefaultIcon || r.icon == Some(icon)
    ensures TruthyString(r.icon) ==> icon == r.icon.value
  {
    if TruthyString(r.icon) then r.icon.value else DefaultIcon
  }

  /** The value `toggleChildren` gives to `open`, computed from the record's
      own `children` (not the derived list); it throws when the node is closed
      and holds no record, because `data.children` is then read off `null`. */
  function NextOpen(open: bool, data: Option<NodeRecord>): (r: Result<bool>)
    ensures r.Thrown? <==> !open && data.None?
    ensures open ==> r == Ok(false)
    ensures !open && data.Some? ==> (r == Ok(true) <==> HasChildRecords(data.value))
  {
    if open then Ok(false)
    else match data
      case None => Thrown(TypeError)
      case Some(rec) => Ok(HasChildRecords(rec))
  }

  /** The `open` value after `k` successive toggles, or the error that stopped them. */
  function ToggleTimes(open: bool, data: Option<NodeRecord>, k: nat): Result<bool>
    decreases k
  {
    if k == 0 then Ok(open)
    else match NextOpen(open, data)
      case Ok(next) => ToggleTimes(next, data, k - 1)
      case Thrown(e) => Thrown(e)
  }

  /** A node whose record has no children never ends up open by toggling: after
      at least one toggle (or from closed) it is closed, whatever the count. */
  lemma {:induction false} ChildlessToggleStaysClosed(open: bool, r: NodeRecord, k: nat)
    requires !HasChildRecords(r)
    requires !open || k > 0
    ensures ToggleTimes(open, Some(r), k) == Ok(false)
  {
    if k > 0 {
      assert NextOpen(open, Some(r)) == Ok(false);
      ChildlessToggleStaysClosed(false, r, k - 1);
    }
  }

  /** A node whose record has children alternates: an odd number of toggles
      flips `open`, an even number restores it. */
  lemma {:induction false} ToggleAlternates(open: bool, r: NodeRecord, k: nat)
    requires HasChildRecords(r)
    ensures ToggleTimes(open, Some(r), k) == Ok(if k % 2 == 0 then open else !open)
    decreases k
  {
    if k > 0 {
      assert NextOpen(open, Some(r)) == Ok(!open);
      ToggleAlternates(!open, r, k - 1);
    }
  }

  /** The derived `children` list after `updated`: replaced by the record's
      `children` when the record changed and carries one (an empty array is
      truthy too), kept otherwise. */
  function SyncedChildren(children: seq<NodeRecord>, data: Option<NodeRecord>, dataChanged: bool): (r: seq<NodeRecord>)
    ensures r == children || (dataChanged && data.Some? && data.value.children == Some(r))
    ensures dataChanged && data.Some? && data.value.children.Some? ==> r == data.value.children.value
  {
    if dataChanged && data.Some? && data.value.children.Some? then data.value.children.value else children
  }

  /** The `open` flag after `updated`: data can force it open, never closed. */
  function SyncedOpen(open: bool, data: Option<NodeRecord>, dataChanged: bool): (r: bool)
    ensures open ==> r
    ensures r && !open ==> dataChanged && data.Some? && data.value.open
    ensures dataChanged && data.Some? && data.value.open ==> r
  {
    if dataChanged && data.Some? && data.value.open then true else open
  }

  /** Nothing is synchronised when `data` did not change or is `null`/`undefined`. */
  lemma SyncIdleWithoutNewData(children: seq<NodeRecord>, open: bool, data: Option<NodeRecord>, dataChanged: bool)
    requires !dataChanged || data.None?
    ensures SyncedChildren(children, data, dataChanged) == children
    ensures SyncedOpen(open, data, dataChanged) == open
  {
  }

  /** Assigning a record with `open: true` and children to a closed node opens
      it and makes its derived list the record's children, in order. */
  lemma DataReassignmentOpens(children: seq<NodeRecord>, r: NodeRecord)
    requires r.open && r.children.Some?
    ensures SyncedOpen(false, Some(r), true)
    ensures SyncedChildren(children, Some(r), true) == r.children.value
  {
  }

  // ---------------------------------------------------------------------------
  // Events and rendering

  datatype EventKind = SelectEvent | ToggleEvent

  /** A dispatched `CustomEvent`: its type, its `detail` (the dispatching
      node) and its `bubbles`/`composed` options. */
  datatype Event = Event(kind: EventKind, detail: PaperTreeNode, bubbles: bool, composed: bool)

  /** The events dispatched so far, in order; listeners see them as they are appended. */
  class EventLog {
    var events: seq<Event>

    constructor()
      ensures events == []
    {
      events := [];
    }
  }

  /** What one render of a node shows: the marker class, the icon name, the
      label and, only when open, the records handed to one child node each. */
  datatype Row = Row(preiconClass: string, icon: string, name: string, childData: Option<seq<NodeRecord>>)

  class PaperTreeNode {
    /** The record assigned by the host or the parent; `None` when it is `null`/`undefined`. */
    var data: Option<NodeRecord>
    /** The child records derived from `data`. */
    var children: seq<NodeRecord>
    /** Whether the node is expanded. */
    var open: bool

    constructor()
      ensures data == Some(InitialRecord) && children == [] && !open
    {
      data := Some(InitialRecord);
      children := [];
      open := false;
    }

    /** The lifecycle hook run after a property change: resynchronises
        `children` and `open` from `data` when `data` is among the changes. */
    method Updated(dataChanged: bool)
      modifies this`children, this`open
      ensures children == SyncedChildren(old(children), data, dataChanged)
      ensures open == SyncedOpen(old(open), data, dataChanged)
      ensures old(open) ==> open
    {
      if dataChanged && data.Some? {
        if data.value.children.Some? {
          children := data.value.children.value;
        }
        if data.value.open {
          open := true;
        }
      }
    }

    /** The class of the twisty control: "expanded" when open with children,
        "collapsed" when closed with children, no marker without children. */
    function ComputeClass(): (cls: string)
      reads this
      ensures PreiconClass <= cls
      ensures cls == ExpandedClass <==> open && |children| > 0
      ensures cls == CollapsedClass <==> !open && |children| > 0
      ensures cls == PreiconClass <==> |children| == 0
    {
      PreiconClass + (if open && |children| > 0 then "expanded" else if |children| > 0 then "collapsed" else "")
    }

    /** Dispatches a bubbling, composed `select` event carrying this node; the
        node's own state is untouched. */
    method Select(log: EventLog)
      modifies log
      ensures log.events == old(log.events) + [Event(SelectEvent, this, true, true)]
      ensures unchanged(this)
    {
      log.events := log.events + [Event(SelectEvent, this, true, true)];
    }

    /** Flips the expansion, computed from `data.children`, then dispatches a
        bubbling, composed `toggle` event carrying this node. Throws, changing
        nothing, when the node is closed and holds no record. */
    method ToggleChildren(log: EventLog) returns (r: Result<()>)
      modifies this`open, log
      ensures r.Thrown? <==> NextOpen(old(open), data).Thrown?
      ensures r.Ok? ==> open == NextOpen(old(open), data).value
      ensures r.Ok? ==> log.events == old(log.events) + [Event(ToggleEvent, this, true, true)]
      ensures r.Thrown? ==> open == old(open) && log.events == old(log.events)
      ensures data == old(data) && children == old(children)
    {
      if !open && data.None? {
        return Thrown(TypeError);
      }
      open := !open && HasChildRecords(data.value);
      log.events := log.events + [Event(ToggleEvent, this, true, true)];
      r := Ok(());
    }

    /** The row a render shows; reading `data.icon` throws when there is no record. */
    function Render(): (r: Result<Row>)
      reads this
      ensures r.Thrown? <==> data.None?
      ensures r.Ok? ==> r.value.preiconClass == ComputeClass() && r.value.name == data.value.name
      ensures r.Ok? ==> r.value.icon == ShownIcon(data.value)
      ensures r.Ok? ==> (r.value.childData.Some? <==> open)
      ensures r.Ok? && open ==> r.value.childData == Some(children)
      ensures r.Ok? && r.value.childData.Some? && |r.value.childData.value| > 0 ==> r.value.preiconClass == ExpandedClass
      ensures r.Ok? && r.value.preiconClass == CollapsedClass ==> r.value.childData.None?
    {
      match data
      case None => Thrown(TypeError)
      case Some(rec) =>
        Ok(Row(ComputeClass(), ShownIcon(rec), rec.name, if open then Some(children) else None))
    }
  }

  /** A node without derived children shows neither marker, open or not. */
  lemma ChildlessShowsNoMarker(n: PaperTreeNode)
    requires n.children == []
    ensures !HasSubstring(n.ComputeClass(), "expanded")
    ensures !HasSubstring(n.ComputeClass(), "collapsed")
  {
    assert n.ComputeClass() == PreiconClass;
    MissingCharNotSubstring(PreiconClass, "expanded", 'x');
    MissingCharNotSubstring(PreiconClass, "collapsed", 'l');
  }

  /** A node with derived children shows exactly one of the two markers:
      "expanded" when open, "collapsed" when closed. */
  lemma MarkerFollowsOpen(n: PaperTreeNode)
    requires |n.children| > 0
    ensures HasSubstring(n.ComputeClass(), "expanded") <==> n.open
    ensures HasSubstring(n.ComputeClass(), "collapsed") <==> !n.open
  {
    var cls := n.ComputeClass();
    if n.open {
      assert cls == ExpandedClass;
      assert "expanded" <= cls[|PreiconClass|..];
      MissingCharNotSubstring(cls, "collapsed", 'l');
    } else {
      assert cls == CollapsedClass;
      assert "collapsed" <= cls[|PreiconClass|..];
      MissingCharNotSubstring(cls, "expanded", 'x');
    }
  }
}
