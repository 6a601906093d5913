# paper-tree: the node state machine and single selection

This project models the logic of two lit-element web components.
`<paper-tree-node>` is one entry of a tree. It holds a data record, a list of child records derived from it, and an `open` flag. From these it computes its twisty marker class and the row it renders. It dispatches `select` and `toggle` events.
`<paper-tree>` hosts the root node. It keeps at most one node carrying the "selected" class by handling the `select` events that bubble up to it.

Modules:

- `Js` (js.dfy) covers absent values (`null`/`undefined`), the `TypeError` raised by reading a property of one, and string truthiness.
- `TreeNode` (tree_node.dfy) holds the `NodeRecord` datatype and the class `PaperTreeNode`. The class has the source's three fields `data`, `children` and `open`. `Updated` resynchronises `children` and `open` from `data` in place. `ToggleChildren` updates `open` in place and appends a `toggle` event to an `EventLog`. `Select` only appends a `select` event and changes no field. `ComputeClass` and `Render` are functions of the fields. Beside the class are the pure rules the methods are proved against: `NextOpen`, `SyncedChildren` and `SyncedOpen`.
- `Selection` (selection.dfy) states the tree's selection rule on values as `SelectStep`, with the single-selection invariants proved about it.
- `Tree` (tree.dfy) holds the class `PaperTree`. It has the `selected` field and a map recording which nodes' class lists hold "selected". Its `SelectNode` is proved to perform exactly `SelectStep`.

JavaScript values are modelled as follows:

- A record's `open` hint is a `bool`: an absent or falsy hint is `false`.
- The node's `open` field is a `bool` even though `toggleChildren` can store a number or `undefined` in it. Only its truthiness is ever read.
- `data.children` is `None` when absent. A present array, even an empty one, is truthy and replaces the derived list.
- An empty `icon` string is falsy, like an absent one.

Re-selecting the selected node does not deselect it. `_selectNode` removes the class (paper-tree.ts:50) and then toggles it back on (paper-tree.ts:56). See `Selection.ReselectKeepsSelected` and `Selection.SelectTwiceKeepsSelected`.

The documented and the actual default selection background differ. The doc comment gives `rgba(200, 200, 200, 0.5)`; the style sheet uses `rgba(0, 136, 255, 0.18)`. Styling is not modelled either way.

## Model

| member | source | states |
|---|---|---|
| `TreeNode.PaperTreeNode.constructor` | paper-tree-node.ts:137-139 | A new node holds the record `{ children: [] }`, an empty derived list and `open` false. |
| `TreeNode.SyncedChildren` | paper-tree-node.ts:165-169 | After a data change the derived list is either kept or copied from the changed record. A record that carries `children` (even an empty one) always replaces it. |
| `TreeNode.SyncedOpen` | paper-tree-node.ts:165-173 | Data never forces a node closed. A node becomes open only through a changed record whose `open` hint is truthy, and such a record always opens it. |
| `TreeNode.SyncIdleWithoutNewData` | paper-tree-node.ts:166 | When `data` did not change, or is `null`/`undefined`, neither `children` nor `open` changes. |
| `TreeNode.DataReassignmentOpens` | paper-tree-node.ts:165-174 | Assigning a record with `open: true` and children to a closed node opens it. Its derived list then equals the record's children in the same order. |
| `TreeNode.PaperTreeNode.Updated` | paper-tree-node.ts:165-174 | The hook sets `children` and `open` to `SyncedChildren` and `SyncedOpen` of the old state and the current record. An open node stays open. |
| `TreeNode.PaperTreeNode.ComputeClass` | paper-tree-node.ts:176-187 | The class always starts with "node-preicon ". It is "expanded" iff open with derived children, "collapsed" iff closed with derived children, and carries no marker iff there are no derived children. |
| `TreeNode.ChildlessShowsNoMarker` | paper-tree-node.ts:176-186 | With an empty derived list, the class contains neither "expanded" nor "collapsed", whatever `open` is. |
| `TreeNode.MarkerFollowsOpen` | paper-tree-node.ts:176-186 | With derived children, the class contains "expanded" iff the node is open and "collapsed" iff it is closed. |
| `TreeNode.PaperTreeNode.Select` | paper-tree-node.ts:192-200 | Appends exactly one bubbling, composed `select` event whose detail is this node. No node state changes. |
| `TreeNode.NextOpen` | paper-tree-node.ts:220 | An open node always closes. A closed node with a record opens iff the record (not the derived list) has children. A closed node without a record throws a `TypeError`. |
| `TreeNode.ChildlessToggleStaysClosed` | paper-tree-node.ts:220 | If the record's `children` is absent or empty, any number of toggles leaves the node closed. |
| `TreeNode.ToggleAlternates` | paper-tree-node.ts:220 | If the record has children, an odd number of toggles flips `open` and an even number restores it. |
| `TreeNode.PaperTreeNode.ToggleChildren` | paper-tree-node.ts:219-228 | Sets `open` to `NextOpen` of the old flag and the record, then appends exactly one bubbling, composed `toggle` event carrying this node. `data` and `children` do not change. When `NextOpen` throws, nothing changes and no event is appended. |
| `TreeNode.ShownIcon` | paper-tree-node.ts:116 | The icon name is never empty. It is the record's icon when that is truthy and "folder" otherwise. |
| `TreeNode.PaperTreeNode.Render` | paper-tree-node.ts:113-132 | The row shows `ComputeClass`, the icon from `ShownIcon` and the record's name, and throws iff there is no record. The child records are the derived list, in order, iff the node is open, and there is no child region when it is closed. A non-empty child region comes with the "expanded" marker; a "collapsed" marker never comes with one. |
| `Selection.SelectStep` | paper-tree.ts:47-60 | A tree-node payload becomes `selected`. Its flag ends set iff it was the previous selection or was not flagged. Any other payload leaves `selected` null. The previous selection loses its flag unless it is the payload. Every other node's flag is untouched. |
| `Selection.SelectKeepsSingleSelection` | paper-tree.ts:49-60 | If only the selected node was flagged, then afterwards a node is flagged exactly when it is the selected node, so at most one node is flagged. |
| `Selection.SelectionStaysSingle` | paper-tree.ts:47-60 | From a state where only the selected node is flagged, any series of `select` events keeps at most one node flagged. |
| `Selection.ReselectKeepsSelected` | paper-tree.ts:49-56 | Selecting the node that is already selected leaves it selected and flagged. |
| `Selection.SelectTwiceKeepsSelected` | paper-tree.ts:49-56 | Selecting the same node twice in a row ends with it selected and flagged. |
| `Selection.NonNodeClearsSelection` | paper-tree.ts:49-58 | A missing or non-node payload leaves `selected` null and no node flagged. |
| `Tree.PaperTree.constructor` | paper-tree.ts:27 | A new tree has nothing selected and no node carries the class. |
| `Tree.PaperTree.SelectNode` | paper-tree.ts:47-60 | The listener stops the event's propagation. It changes `selected` and the flags exactly as `SelectStep` does, and so keeps the single-selection invariant. |
| `Tree.PaperTree.Deliver` | paper-tree.ts:38-40 | Only `select` events reach the listener, with the dispatching node as payload. A `toggle` event leaves the tree unchanged. |

## Left out

- Templates, CSS and the styling custom properties (paper-tree-node.ts:32-135) are presentation only. `Render` keeps only the marker class, the icon name, the label and the open-gated child list.
- Lit-element lifecycle and reactivity are not modelled: `@property`, render scheduling and `customElements.define`. `updated` is a method called with a "data changed" flag.
- Mounting and unmounting child elements is not modelled. A child node is a separate `PaperTreeNode` whose state a caller syncs from its record, so the loss of a collapsed subtree's local state is lit-element's behaviour and not stated here.
- DOM event dispatch and bubbling are not modelled. Dispatching appends to an `EventLog`, and delivery to the tree is the direct call `Deliver`/`SelectNode`.
- `TreeNode.PaperTreeNode.ToggleChildren`: the contract cannot show that the event is dispatched after `open` is updated, since listeners are not modelled. The method body performs the update first.
- `Tree.PaperTree.SelectNode`: the contract cannot show that propagation is stopped before the other effects. The method body stops it first.
- Records are immutable values, so in-place changes to a record are not modelled. Neither is the sharing that paper-tree-node.ts:168 creates between the node's `children` and `data.children`: in the source, entries a host pushes into that array (for example to load children lazily after a `toggle` event) show at the next render. In the model `children` is a copy, and it changes only through `Updated`.
- `getChildren` (paper-tree-node.ts:212-214) is left out. It is a shadow-DOM query with no logic of its own.
- `getParent` (paper-tree-node.ts:205-207) is left out. It only compares the element's tag name and returns the node itself.
- The `actions` list and the tree's `data` (paper-tree.ts:26, 28) are left out. Both are only passed to the root node.
- `iron-icon` rendering is left out. Only the icon-name fallback is modelled.
- Non-array `children` values, and `open` values that are numbers or `undefined`, are left out. They are reduced to `Option<seq<NodeRecord>>` and `bool`.
