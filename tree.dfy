/** The `<paper-tree>` element: it hosts the root node and keeps a single
    node selected by handling the `select` events that bubble up to it. */
module Tree {
  import opened Js
  import opened Selection
  import opened TreeNode

  /** A `select` event as the tree's listener receives it: its `detail` and
      whether its propagation has been stopped. */
  class SelectNotification {
    const detail: Detail<PaperTreeNode>
    var propagationStopped: bool

    constructor(detail: Detail<PaperTreeNode>)
      ensures this.detail == detail && !propagationStopped
    {
      this.detail := detail;
      propagationStopped := false;
    }
  }

  class PaperTree {
    /** The node last selected, if any. */
    var selected: Option<PaperTreeNode>
    /** Whether each node's class list holds "selected". */
    var flags: map<PaperTreeNode, bool>

    /** A new tree has nothing selected and no node carries the class. */
    constructor()
      ensures selected == None && flags == map[]
      ensures Valid()
    {
      selected := None;
      flags := map[];
    }

    function State(): SelectionState<PaperTreeNode>
      reads this
    {
      SelectionState(selected, flags)
    }

    /** Only the selected node carries the "selected" class. */
    ghost predicate Valid()
      reads this
    {
      OnlySelectedFlagged(State())
    }

    /** The `select` listener: stops the event, clears the previous node's
        class, then selects and toggles the class of a tree-node payload or
        clears `selected` for any other payload. */
    method SelectNode(e: SelectNotification)
      modifies this, e
      ensures e.propagationStopped
      ensures State() == SelectStep(old(State()), e.detail)
      ensures old(Valid()) ==> Valid() && AtMostOneFlagged(flags)
    {
      e.propagationStopped := true;
      if selected.Some? {
        flags := flags[selected.value := false];
      }
      if e.detail.TreeNode? {
        selected := Some(e.detail.node);
        flags := flags[e.detail.node := !Flagged(flags, e.detail.node)];
      } else {
        selected := None;
      }
      if old(Valid()) {
        SelectKeepsSingleSelection(old(State()), e.detail);
      }
    }

    /** Delivery of a dispatched event to the tree: only `select` events reach
        the listener, with the dispatching node as their payload. */
    method Deliver(ev: Event)
      modifies this
      ensures ev.kind == SelectEvent ==> State() == SelectStep(old(State()), TreeNode(ev.detail))
      ensures ev.kind == ToggleEvent ==> State() == old(State())
      ensures old(Valid()) ==> Valid()
    {
      if ev.kind == SelectEvent {
        var e := new SelectNotification(TreeNode(ev.detail));
        SelectNode(e);
      }
    }
  }
}
