/** The single-selection rule of `<paper-tree>` on values: which node is the
    tree's `selected` one, and for each node whether its class list holds
    "selected". Node identities are a type parameter, so the rule and its
    invariants hold for any kind of node reference. */
module Selection {
  import opened Js

  /** The `detail` of a `select` event reaching the tree: missing, some
      element other than a tree node, or a tree node. */
  datatype Detail<N> = Missing | OtherElement | TreeNode(node: N)

  /** The tree's `selected` reference, and the "selected" class flag of each
      node (a node absent from the map does not carry the class). */
  datatype SelectionState<N> = SelectionState(selected: Option<N>, flags: map<N, bool>)

  /** The class list of `n` holds "selected". */
  predicate Flagged<N>(flags: map<N, bool>, n: N) {
    n in flags && flags[n]
  }

  /** Only the node the tree references as selected may carry the flag. */
  ghost predicate OnlySelectedFlagged<N>(s: SelectionState<N>) {
    forall n | n in s.flags :: s.flags[n] ==> s.selected == Some(n)
  }

  /** At most one node carries the flag. */
  ghost predicate AtMostOneFlagged<N>(flags: map<N, bool>) {
    forall a, b | a in flags && b in flags :: flags[a] && flags[b] ==> a == b
  }

  /** One handled `select` event: the previous selection loses its flag, then
      a tree-node payload becomes `selected` and has its flag toggled, while
      any other payload leaves nothing selected. */
  function SelectStep<N>(s: SelectionState<N>, detail: Detail<N>): (t: SelectionState<N>)
    ensures detail.TreeNode? ==> t.selected == Some(detail.node)
    ensures !detail.TreeNode? ==> t.selected == None
    ensures detail.TreeNode? ==>
      (Flagged(t.flags, detail.node) <==> s.selected == Some(detail.node) || !Flagged(s.flags, detail.node))
    ensures s.selected.Some? && detail != TreeNode(s.selected.value) ==> !Flagged(t.flags, s.selected.value)
    ensures forall n | n in s.flags.Keys + t.flags.Keys ::
      Some(n) != s.selected && detail != TreeNode(n) ==> Flagged(t.flags, n) == Flagged(s.flags, n)
  {
    var cleared := if s.selected.Some? then s.flags[s.selected.value := false] else s.flags;
    match detail
    case TreeNode(n) => SelectionState(Some(n), cleared[n := !Flagged(cleared, n)])
    case _ => SelectionState(None, cleared)
  }

  /** Handles a series of `select` events in order. */
  function SelectAll<N>(s: SelectionState<N>, details: seq<Detail<N>>): SelectionState<N>
    decreases |details|
  {
    if details == [] then s else SelectAll(SelectStep(s, details[0]), details[1..])
  }

  /** From a state where only the selected node is flagged, one step yields a
      state where a node is flagged exactly when it is the selected one. */
  lemma SelectKeepsSingleSelection<N>(s: SelectionState<N>, detail: Detail<N>)
    requires OnlySelectedFlagged(s)
    ensures forall n :: Flagged(SelectStep(s, detail).flags, n) <==> SelectStep(s, detail).selected == Some(n)
    ensures OnlySelectedFlagged(SelectStep(s, detail))
    ensures AtMostOneFlagged(SelectStep(s, detail).flags)
  {
  }

  /** Any series of `select` events, from a state where only the selected node
      is flagged, keeps at most one node flagged. */
  lemma {:induction false} SelectionStaysSingle<N>(s: SelectionState<N>, details: seq<Detail<N>>)
    requires OnlySelectedFlagged(s)
    ensures OnlySelectedFlagged(SelectAll(s, details))
    ensures AtMostOneFlagged(SelectAll(s, details).flags)
    decreases |details|
  {
    if details == [] {
      assert AtMostOneFlagged(s.flags) by {
        forall a, b | Flagged(s.flags, a) && Flagged(s.flags, b) ensures a == b {
          assert s.selected == Some(a) && s.selected == Some(b);
        }
      }
    } else {
      SelectKeepsSingleSelection(s, details[0]);
      SelectionStaysSingle(SelectStep(s, details[0]), details[1..]);
    }
  }

  /** Selecting the node that is already selected leaves it selected and
      flagged: its flag is removed and then toggled back on. */
  lemma ReselectKeepsSelected<N>(s: SelectionState<N>, n: N)
    requires s.selected == Some(n)
    ensures SelectStep(s, TreeNode(n)).selected == Some(n)
    ensures Flagged(SelectStep(s, TreeNode(n)).flags, n)
  {
  }

  /** Selecting the same node twice in a row, from any state, ends with that
      node selected and flagged. */
  lemma SelectTwiceKeepsSelected<N>(s: SelectionState<N>, n: N)
    ensures SelectAll(s, [TreeNode(n), TreeNode(n)]).selected == Some(n)
    ensures Flagged(SelectAll(s, [TreeNode(n), TreeNode(n)]).flags, n)
  {
    var once := SelectStep(s, TreeNode(n));
    assert [TreeNode(n), TreeNode(n)][1..] == [TreeNode(n)];
    assert SelectAll(once, [TreeNode(n)]) == SelectStep(once, TreeNode(n));
  }

  /** A payload that is not a tree node clears the selection and leaves no
      node flagged, when only the selected node was flagged before. */
  lemma NonNodeClearsSelection<N>(s: SelectionState<N>, detail: Detail<N>)
    requires OnlySelectedFlagged(s) && !detail.TreeNode?
    ensures SelectStep(s, detail).selected == None
    ensures forall n :: !Flagged(SelectStep(s, detail).flags, n)
  {
  }
}
