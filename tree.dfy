/**
 * `UiTree` (src/core/tree.rs): an arena of node slots with a LIFO free
 * list, a root, and the four interaction singletons.
 *
 * `stamp` and `clock` are ghost bookkeeping: the time each slot was last
 * filled. They exist only to prove that the depth-first walks terminate.
 */
module Tree {
  import opened Prims
  import opened Geometry
  import opened Nodes
  import opened WidgetCore
  import opened TreeArena

  class UiTree<W> {
    var nodes: Slots<W>
    var freeList: seq<nat>
    var root: Option<NodeId>
    var hovered: Option<NodeId>
    var pressed: Option<NodeId>
    var focused: Option<NodeId>
    var captured: Option<NodeId>
    ghost var stamp: seq<nat>
    ghost var clock: nat

    ghost function Ord(): Order
      reads this
    {
      Order(stamp, clock)
    }

    ghost predicate Valid()
      reads this
    {
      && Wf(nodes, Ord())
      && (forall j :: 0 <= j < |freeList| ==> freeList[j] < |nodes|)
    }

    /** `UiTree::new`. */
    constructor ()
      ensures Valid()
      ensures nodes == [] && freeList == []
      ensures root == None && hovered == None && pressed == None && focused == None && captured == None
    {
      nodes := [];
      freeList := [];
      root := None;
      hovered := None;
      pressed := None;
      focused := None;
      captured := None;
      stamp := [];
      clock := 0;
    }

    /** The slot `allocate_slot` fills next: the top of the free list, else a new slot at the end. */
    function NextIndex(): nat
      reads this
    {
      if freeList == [] then |nodes| else freeList[|freeList| - 1]
    }

    /**
     * The slot `allocate_slot` would reuse is really vacant. This fails only
     * after `remove` was called on an already-vacant in-range id, which pushes
     * that index a second time (see `TreeArena.RemoveVacant`).
     */
    predicate NextSlotVacant()
      reads this
    {
      freeList == [] || (NextIndex() < |nodes| && nodes[NextIndex()].None?)
    }

    /** `allocate_slot`: pop the most recently freed index, else append. */
    method AllocateSlot(node: Node<W>) returns (id: NodeId)
      requires Valid() && NextSlotVacant() && node.children == []
      modifies this
      ensures id.index == old(NextIndex()) && Vacant(old(nodes), id.index)
      ensures nodes == Put(old(nodes), id.index, Some(node))
      ensures Ord() == Stamped(old(Ord()), id.index)
      ensures freeList == if old(freeList) == [] then [] else old(freeList[..|freeList| - 1])
      ensures StateRefs() == old(StateRefs())
      ensures Valid() && Fresh(nodes, Ord(), id)
    {
      ghost var nodes0, o0 := nodes, Ord();
      var index;
      if freeList != [] {
        index := freeList[|freeList| - 1];
        freeList := freeList[..|freeList| - 1];
        nodes := nodes[index := Some(node)];
        stamp := stamp[index := clock];
      } else {
        index := |nodes|;
        nodes := nodes + [Some(node)];
        stamp := stamp + [clock];
      }
      clock := clock + 1;
      id := NodeId(index);
      FilledWf(nodes0, o0, index, node);
    }

    /**
     * `add_boxed`: place a fresh node in a slot, then link it under `parent`
     * (appending it to the parent's children when the parent is live); with
     * no parent it becomes the root if there is none yet.
     */
    method Add(widget: W, parent: Option<NodeId>) returns (id: NodeId)
      requires Valid() && NextSlotVacant()
      requires parent.Some? ==> parent.value.index != NextIndex()
      modifies this
      ensures Valid()
      ensures id.index == old(NextIndex()) && Vacant(old(nodes), id.index)
      ensures nodes == Linked(Put(old(nodes), id.index, Some(NewNode(widget))), id, parent)
      ensures freeList == if old(freeList) == [] then [] else old(freeList[..|freeList| - 1])
      ensures root == if parent == None && old(root) == None then Some(id) else old(root)
      ensures hovered == old(hovered) && pressed == old(pressed)
      ensures focused == old(focused) && captured == old(captured)
      ensures StateRefs() == AddedRefs(old(StateRefs()), id, parent)
      ensures old(RefsLive(nodes, StateRefs())) ==> RefsLive(nodes, StateRefs())
    {
      ghost var nodes0, refs0 := nodes, StateRefs();
      id := AllocateSlot(NewNode(widget));
      ghost var nodes1 := nodes;
      if parent.Some? {
        var p := parent.value;
        if p.index < |nodes| && nodes[p.index].Some? {
          var pn := nodes[p.index].value;
          nodes := nodes[p.index := Some(pn.(children := pn.children + [id]))];
        }
        var me := nodes[id.index].value;
        nodes := nodes[id.index := Some(me.(parent := parent))];
      } else if root.None? {
        root := Some(id);
      }
      LinkedWf(nodes1, Ord(), id, parent);
      if RefsLive(nodes0, refs0) {
        AddKeepsRefsLive(nodes0, id.index, widget, parent, refs0);
      }
    }

    /** The five singleton references, bundled. */
    function StateRefs(): Refs
      reads this
    {
      Refs(root, hovered, pressed, focused, captured)
    }

    /**
     * `remove`: remove the children's subtrees, unlink `id` from its parent,
     * clear every singleton naming a removed id, and vacate the slot.
     * An in-range slot is vacated and pushed even when it was already empty.
     */
    method Remove(id: NodeId)
      requires Valid()
      modifies this
      decreases Rank(nodes, Ord(), id), 1
      ensures Valid()
      ensures stamp == old(stamp) && clock == old(clock)
      ensures nodes == AfterRemove(old(nodes), old(Ord()), id)
      ensures freeList == old(freeList) + Freed(old(nodes), old(Ord()), id)
      ensures StateRefs() == old(StateRefs()).ClearedAll(id, Freed(old(nodes), old(Ord()), id))
    {
      ghost var nodes0, o, refs0 := nodes, Ord(), StateRefs();
      if Get(id).Some? {
        RemoveChildren(id);
        RemoveLiveTail(nodes0, o, id, nodes);
        ClearFinish(refs0, id, FreedPrefix(nodes0, o, id, |Kids(nodes0, id)|), [id.index]);
        Detach(id);
      } else {
        RemoveVacant(nodes0, o, id);
        ClearFinish(refs0, id, [], if id.index < |nodes0| then [id.index] else []);
        Detach(id);
      }
    }

    /**
     * The first half of `remove` for a live node: remove each child's subtree
     * in turn, from a copy of the children list taken before the loop.
     */
    method RemoveChildren(id: NodeId)
      requires Valid() && Live(nodes, id)
      modifies this
      decreases Rank(nodes, Ord(), id), 0
      ensures Valid()
      ensures stamp == old(stamp) && clock == old(clock)
      ensures nodes == Pruned(old(nodes), old(Ord()), id, |Kids(old(nodes), id)|)
      ensures freeList == old(freeList) + FreedPrefix(old(nodes), old(Ord()), id, |Kids(old(nodes), id)|)
      ensures StateRefs() == old(StateRefs()).ClearAllIn(FreedPrefix(old(nodes), old(Ord()), id, |Kids(old(nodes), id)|))
    {
      ghost var nodes0, o, free0, refs0 := nodes, Ord(), freeList, StateRefs();
      var children := Get(id).value.children;
      PrunedStart(nodes0, o, id);
      var i := 0;
      while i < |children|
        invariant 0 <= i <= |children| && children == Kids(nodes0, id)
        invariant Valid() && RemovedUpTo(nodes0, o, free0, refs0, id, i)
      {
        var c := children[i];
        ChildStep(nodes0, o, id, i);
        ClearStep(refs0, c, FreedPrefix(nodes0, o, id, i), Freed(nodes0, o, c));
        AppendAssoc(free0, FreedPrefix(nodes0, o, id, i), Freed(nodes0, o, c));
        Remove(c);
        i := i + 1;
      }
    }

    /** The state `RemoveChildren` has reached once the first `i` children's subtrees are gone. */
    ghost predicate RemovedUpTo(nodes0: Slots<W>, o: Order, free0: seq<nat>, refs0: Refs, id: NodeId, i: nat)
      reads this
    {
      && Wf(nodes0, o) && Live(nodes0, id) && i <= |Kids(nodes0, id)| && Ord() == o
      && nodes == Pruned(nodes0, o, id, i)
      && freeList == free0 + FreedPrefix(nodes0, o, id, i)
      && StateRefs() == refs0.ClearAllIn(FreedPrefix(nodes0, o, id, i))
    }

    /**
     * The tail of `remove`, once the children are gone: drop `id` from its
     * parent's children list, clear the state references naming it, and free
     * its slot (pushing the index whenever it is in range).
     */
    method Detach(id: NodeId)
      modifies this
      ensures nodes == if Live(old(nodes), id) then Unlinked(old(nodes), id)
                       else if id.index < |old(nodes)| then old(nodes)[id.index := None]
                       else old(nodes)
      ensures freeList == old(freeList) + if id.index < |old(nodes)| then [id.index] else []
      ensures StateRefs() == old(StateRefs()).DropAll(id)
      ensures stamp == old(stamp) && clock == old(clock)
    {
      // Remove from the parent's children list.
      match Get(id) {
        case Some(node) =>
          match node.parent {
            case Some(parentId) =>
              match Get(parentId) {
                case Some(pn) =>
                  nodes := nodes[parentId.index := Some(pn.(children := Without(pn.children, id)))];
                case None =>
              }
            case None =>
          }
        case None =>
      }
      ClearStateRefs(id);
      // Free the slot.
      if id.index < |nodes| {
        nodes := nodes[id.index := None];
        freeList := freeList + [id.index];
      }
    }

    /** Clear every state reference (root, hovered, pressed, focused, captured) that names `id`. */
    method ClearStateRefs(id: NodeId)
      modifies this`root, this`hovered, this`pressed, this`focused, this`captured
      ensures StateRefs() == old(StateRefs()).DropAll(id)
    {
      if root == Some(id) { root := None; }
      if hovered == Some(id) { hovered := None; }
      if pressed == Some(id) { pressed := None; }
      if focused == Some(id) { focused := None; }
      if captured == Some(id) { captured := None; }
    }

    /** `get`. */
    function Get(id: NodeId): (r: Option<Node<W>>)
      reads this
      ensures r == Lookup(nodes, id)
    {
      Lookup(nodes, id)
    }

    /** `set_bounds`: replace the bounds of a live node; a vacant id changes nothing. */
    method SetBounds(id: NodeId, bounds: Rect)
      requires Valid()
      modifies this
      ensures Valid() && stamp == old(stamp) && clock == old(clock)
      ensures |nodes| == old(|nodes|)
      ensures forall k :: 0 <= k < |nodes| ==>
        nodes[k] == if k == id.index && old(nodes)[k].Some? then Some(old(nodes)[k].value.(bounds := bounds)) else old(nodes)[k]
      ensures freeList == old(freeList) && root == old(root) && hovered == old(hovered)
      ensures pressed == old(pressed) && focused == old(focused) && captured == old(captured)
    {
      match Get(id) {
        case Some(n) =>
          nodes := nodes[id.index := Some(n.(bounds := bounds))];
          assert Wf(nodes, Ord()) by {
            forall i, k | 0 <= i < |nodes| && nodes[i].Some? && 0 <= k < |nodes[i].value.children|
              ensures ChildOk(nodes, Ord(), i, nodes[i].value.children[k])
            {
              assert ChildOk(old(nodes), Ord(), i, old(nodes)[i].value.children[k]);
            }
          }
        case None =>
      }
    }

    method SetRoot(id: Option<NodeId>)
      modifies this`root
      ensures root == id
    {
      root := id;
    }

    method SetHovered(id: Option<NodeId>)
      modifies this`hovered
      ensures hovered == id
    {
      hovered := id;
    }

    method SetPressed(id: Option<NodeId>)
      modifies this`pressed
      ensures pressed == id
    {
      pressed := id;
    }

    method SetFocused(id: Option<NodeId>)
      modifies this`focused
      ensures focused == id
    {
      focused := id;
    }

    method SetCaptured(id: Option<NodeId>)
      modifies this`captured
      ensures captured == id
    {
      captured := id;
    }

    /** `hit_test`: the deepest node under the point, starting from the root. */
    function HitTest(x: int, y: int): (r: Option<NodeId>)
      reads this
      requires Valid()
      ensures root.None? ==> r.None?
      ensures r.Some? ==> Live(nodes, r.value) && nodes[r.value.index].value.bounds.Contains(x, y)
      ensures r.Some? ==> Live(nodes, root.value) && nodes[root.value.index].value.bounds.Contains(x, y)
    {
      match root
      case None => None
      case Some(r) => HitTestNode(nodes, Ord(), r, x, y)
    }

    /** `draw`: the widget draw calls, in the order the walk from the root makes them. */
    function Draw(): (r: seq<Visit>)
      reads this
      requires Valid()
      ensures root.None? ==> r == []
      ensures root.Some? && Live(nodes, root.value) ==> |r| > 0 && r[0].id == root.value
      ensures forall v :: v in r ==> VisitOk(nodes, hovered, pressed, focused, v)
    {
      match root
      case None => []
      case Some(r) => DrawNode(nodes, Ord(), hovered, pressed, focused, r)
    }

    /** `View::size`: the root's width and height, or (0, 0) without a live root. */
    function Size(): (r: (nat, nat))
      reads this
      ensures root.Some? && Live(nodes, root.value) ==>
                r == (nodes[root.value.index].value.bounds.width, nodes[root.value.index].value.bounds.height)
      ensures !(root.Some? && Live(nodes, root.value)) ==> r == (0, 0)
    {
      match root
      case None => (0, 0)
      case Some(r) =>
        match Get(r)
        case None => (0, 0)
        case Some(n) => (n.bounds.width, n.bounds.height)
    }
  }
}
