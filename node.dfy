/**
 * Node handles and arena nodes (src/core/node.rs). A `NodeId` wraps a slot
 * index, so two ids are equal exactly when their indices are. A node's
 * accessors `bounds()`, `children()` and `parent()` are its datatype fields.
 */
module Nodes {
  import opened Prims
  import opened Geometry

  datatype NodeId = NodeId(index: nat)

  datatype Node<W> = Node(widget: W, children: seq<NodeId>, parent: Option<NodeId>, bounds: Rect)

  /** `Node::new`: a detached leaf with default bounds. */
  function NewNode<W>(widget: W): (n: Node<W>)
    ensures n.widget == widget
    ensures n.children == [] && n.parent == None
    ensures n.bounds == DefaultRect
  {
    Node(widget, [], None, DefaultRect)
  }

  /** `index()` gives back the wrapped index, and ids are equal exactly when their indices are. */
  lemma {:induction false} IdIsIndex(a: NodeId, b: NodeId)
    ensures NodeId(a.index) == a
    ensures a == b <==> a.index == b.index
  {
  }
}
