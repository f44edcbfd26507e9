/**
 * The slot array behind the widget tree (src/core/tree.rs), as values.
 *
 * A tree is a sequence of slots, each empty or holding a node; a node names
 * its children and its parent by slot index. The ghost creation `Order`
 * gives every occupied slot the time it was filled. A child is always filled
 * after its parent, so following child edges strictly increases the stamp,
 * and the depth-first walks of the source terminate. The walks and the
 * removal effect are defined here on values so that states before and
 * after a change can be compared.
 */
module TreeArena {
  import opened Prims
  import opened Geometry
  import opened Nodes
  import opened WidgetCore

  type Slots<W> = seq<Option<Node<W>>>

  /** Creation stamps of the slots and the next stamp to hand out. */
  datatype Order = Order(stamp: seq<nat>, clock: nat)

  /** `get(id).is_some()`. */
  predicate Live<W>(nodes: Slots<W>, id: NodeId) {
    id.index < |nodes| && nodes[id.index].Some?
  }

  /** `get`: the node in the slot, or None for an empty or out-of-range slot. */
  function Lookup<W>(nodes: Slots<W>, id: NodeId): (r: Option<Node<W>>)
    ensures r.Some? <==> Live(nodes, id)
    ensures r.Some? ==> r == nodes[id.index]
  {
    if id.index < |nodes| then nodes[id.index] else None
  }

  function Kids<W>(nodes: Slots<W>, id: NodeId): seq<NodeId>
    requires Live(nodes, id)
  {
    nodes[id.index].value.children
  }

  ghost predicate Distinct<T>(s: seq<T>) {
    forall a, b :: 0 <= a < b < |s| ==> s[a] != s[b]
  }

  /** `c`, listed as a child of slot `i`, is live, points back to `i`, and was created later. */
  ghost predicate ChildOk<W>(nodes: Slots<W>, o: Order, i: nat, c: NodeId)
    requires i < |nodes| && |o.stamp| == |nodes|
  {
    && Live(nodes, c)
    && nodes[c.index].value.parent == Some(NodeId(i))
    && o.stamp[c.index] > o.stamp[i]
  }

  /**
   * The shape every reachable tree state has: children lists hold live,
   * distinct nodes whose parent field names their owner, and stamps grow
   * along child edges. A parent field may still name a slot that does not
   * list the node (a node added under a stale parent).
   */
  ghost predicate Wf<W>(nodes: Slots<W>, o: Order) {
    && |o.stamp| == |nodes|
    && (forall i :: 0 <= i < |nodes| && nodes[i].Some? ==> o.stamp[i] < o.clock)
    && (forall i, k :: 0 <= i < |nodes| && nodes[i].Some? && 0 <= k < |nodes[i].value.children| ==>
          ChildOk(nodes, o, i, nodes[i].value.children[k]))
    && (forall i :: 0 <= i < |nodes| && nodes[i].Some? ==> Distinct(nodes[i].value.children))
  }

  /** Termination measure of the walks: larger for older live nodes, 0 for vacant ids. */
  ghost function Rank<W>(nodes: Slots<W>, o: Order, id: NodeId): nat
    requires Wf(nodes, o)
  {
    if Live(nodes, id) then o.clock - o.stamp[id.index] else 0
  }

  lemma {:induction false} ChildRank<W>(nodes: Slots<W>, o: Order, id: NodeId, k: nat)
    requires Wf(nodes, o) && Live(nodes, id) && k < |Kids(nodes, id)|
    ensures ChildOk(nodes, o, id.index, Kids(nodes, id)[k])
    ensures Rank(nodes, o, Kids(nodes, id)[k]) < Rank(nodes, o, id)
  {
    assert ChildOk(nodes, o, id.index, nodes[id.index].value.children[k]);
  }

  // ---------------------------------------------------------------------
  // Removal

  /**
   * The slot indices `remove(id)` pushes onto the free list, in push order:
   * the children's subtrees left to right (post-order), then `id` itself
   * whenever its index is in range, occupied or not.
   */
  ghost function Freed<W>(nodes: Slots<W>, o: Order, id: NodeId): (r: seq<nat>)
    requires Wf(nodes, o)
    ensures forall k :: k in r ==> k < |nodes|
    decreases Rank(nodes, o, id), 1, 0
  {
    if Live(nodes, id) then FreedPrefix(nodes, o, id, |Kids(nodes, id)|) + [id.index]
    else if id.index < |nodes| then [id.index]
    else []
  }

  /** What removing the first `n` children of `owner` pushes. */
  ghost function FreedPrefix<W>(nodes: Slots<W>, o: Order, owner: NodeId, n: nat): (r: seq<nat>)
    requires Wf(nodes, o) && Live(nodes, owner) && n <= |Kids(nodes, owner)|
    ensures forall k :: k in r ==> k < |nodes|
    decreases Rank(nodes, o, owner), 0, n
  {
    if n == 0 then []
    else
      ChildRank(nodes, o, owner, n - 1);
      FreedPrefix(nodes, o, owner, n - 1) + Freed(nodes, o, Kids(nodes, owner)[n - 1])
  }

  /** `Vec::retain(|&c| c != x)`. */
  function Without(cs: seq<NodeId>, x: NodeId): (r: seq<NodeId>)
    ensures forall c :: c in r <==> c in cs && c != x
    ensures |r| <= |cs|
  {
    if cs == [] then []
    else (if cs[0] == x then [] else [cs[0]]) + Without(cs[1..], x)
  }

  /** The slots after `remove(id)`. */
  ghost function AfterRemove<W>(nodes: Slots<W>, o: Order, id: NodeId): (r: Slots<W>)
    requires Wf(nodes, o)
    ensures |r| == |nodes|
  {
    var gone := Freed(nodes, o, id);
    seq(|nodes|, k requires 0 <= k < |nodes| =>
      if k in gone then None
      else if Live(nodes, id) && nodes[id.index].value.parent == Some(NodeId(k)) && nodes[k].Some? then
        Some(nodes[k].value.(children := Without(nodes[k].value.children, id)))
      else nodes[k])
  }

  /**
   * What `remove(id)` leaves: every freed slot (the subtree of a live `id`,
   * or just `id` when it is in range) is empty, no remaining node lists `id`
   * as a child, and every other slot keeps its node apart from its children.
   */
  lemma {:induction false} RemoveClears<W>(nodes: Slots<W>, o: Order, id: NodeId)
    requires Wf(nodes, o)
    ensures id.index < |nodes| ==> id.index in Freed(nodes, o, id)
    ensures forall k :: k in Freed(nodes, o, id) ==> AfterRemove(nodes, o, id)[k].None?
    ensures forall k :: 0 <= k < |nodes| && AfterRemove(nodes, o, id)[k].Some? ==>
              && nodes[k].Some?
              && id !in AfterRemove(nodes, o, id)[k].value.children
              && AfterRemove(nodes, o, id)[k].value.(children := nodes[k].value.children) == nodes[k].value
  {
    var after := AfterRemove(nodes, o, id);
    forall k | 0 <= k < |nodes| && after[k].Some?
      ensures id !in after[k].value.children
    {
      if id in nodes[k].value.children {
        var j :| 0 <= j < |nodes[k].value.children| && nodes[k].value.children[j] == id;
        assert ChildOk(nodes, o, k, nodes[k].value.children[j]);
      }
    }
  }

  /** A singleton reference after its target slots in `gone` are vacated. */
  function ClearIn(s: Option<NodeId>, gone: seq<nat>): Option<NodeId> {
    if s.Some? && s.value.index in gone then None else s
  }

  /** A singleton reference after `remove(id)`: cleared when it names `id` or a freed slot. */
  function Cleared(s: Option<NodeId>, id: NodeId, gone: seq<nat>): Option<NodeId> {
    if s == Some(id) then None else ClearIn(s, gone)
  }

  /** `if s == Some(id) { s = None }`. */
  function Drop(s: Option<NodeId>, id: NodeId): Option<NodeId> {
    if s == Some(id) then None else s
  }

  /** The tree's five singleton references. */
  datatype Refs = Refs(root: Option<NodeId>, hovered: Option<NodeId>, pressed: Option<NodeId>,
                       focused: Option<NodeId>, captured: Option<NodeId>)
  {
    function ClearAllIn(gone: seq<nat>): Refs {
      Refs(ClearIn(root, gone), ClearIn(hovered, gone), ClearIn(pressed, gone),
           ClearIn(focused, gone), ClearIn(captured, gone))
    }

    function ClearedAll(id: NodeId, gone: seq<nat>): Refs {
      Refs(Cleared(root, id, gone), Cleared(hovered, id, gone), Cleared(pressed, id, gone),
           Cleared(focused, id, gone), Cleared(captured, id, gone))
    }

    function DropAll(id: NodeId): Refs {
      Refs(Drop(root, id), Drop(hovered, id), Drop(pressed, id), Drop(focused, id), Drop(captured, id))
    }
  }

  /** A singleton reference is None or names an occupied slot. */
  predicate RefLive<W>(nodes: Slots<W>, s: Option<NodeId>) {
    s.Some? ==> Live(nodes, s.value)
  }

  /** The tree invariant on the five singletons: each is None or names an occupied slot. */
  predicate RefsLive<W>(nodes: Slots<W>, r: Refs) {
    && RefLive(nodes, r.root) && RefLive(nodes, r.hovered) && RefLive(nodes, r.pressed)
    && RefLive(nodes, r.focused) && RefLive(nodes, r.captured)
  }

  /** One reference that survives `remove(id)` still names an occupied slot. */
  lemma {:induction false} RemoveKeepsRefLive<W>(nodes: Slots<W>, o: Order, id: NodeId, s: Option<NodeId>)
    requires Wf(nodes, o) && RefLive(nodes, s)
    ensures RefLive(AfterRemove(nodes, o, id), Cleared(s, id, Freed(nodes, o, id)))
  {
    var t := Cleared(s, id, Freed(nodes, o, id));
    if t.Some? {
      assert t == s && t.value.index !in Freed(nodes, o, id);
      assert AfterRemove(nodes, o, id)[t.value.index].Some?;
    }
  }

  /**
   * `remove` keeps the tree invariant: a singleton that was None or named an
   * occupied slot is afterwards None or names a slot that is still occupied.
   */
  lemma {:induction false} RemoveKeepsRefsLive<W>(nodes: Slots<W>, o: Order, id: NodeId, r: Refs)
    requires Wf(nodes, o) && RefsLive(nodes, r)
    ensures RefsLive(AfterRemove(nodes, o, id), r.ClearedAll(id, Freed(nodes, o, id)))
  {
    RemoveKeepsRefLive(nodes, o, id, r.root);
    RemoveKeepsRefLive(nodes, o, id, r.hovered);
    RemoveKeepsRefLive(nodes, o, id, r.pressed);
    RemoveKeepsRefLive(nodes, o, id, r.focused);
    RemoveKeepsRefLive(nodes, o, id, r.captured);
  }

  // ---------------------------------------------------------------------
  // Facts about what a removal frees

  lemma {:induction false} FreedPrefixWhich<W>(nodes: Slots<W>, o: Order, owner: NodeId, n: nat, k: nat) returns (j: nat)
    requires Wf(nodes, o) && Live(nodes, owner) && n <= |Kids(nodes, owner)|
    requires k in FreedPrefix(nodes, o, owner, n)
    ensures j < n && k in Freed(nodes, o, Kids(nodes, owner)[j])
    decreases n
  {
    ChildRank(nodes, o, owner, n - 1);
    if k in Freed(nodes, o, Kids(nodes, owner)[n - 1]) {
      j := n - 1;
    } else {
      j := FreedPrefixWhich(nodes, o, owner, n - 1, k);
    }
  }

  lemma {:induction false} FreedPrefixHasChild<W>(nodes: Slots<W>, o: Order, owner: NodeId, n: nat, j: nat, k: nat)
    requires Wf(nodes, o) && Live(nodes, owner) && j < n <= |Kids(nodes, owner)|
    requires k in Freed(nodes, o, Kids(nodes, owner)[j])
    ensures k in FreedPrefix(nodes, o, owner, n)
    decreases n
  {
    ChildRank(nodes, o, owner, n - 1);
    if j < n - 1 {
      FreedPrefixHasChild(nodes, o, owner, n - 1, j, k);
    }
  }

  /** Everything a removal of a live node frees was live and was created no earlier than it. */
  lemma {:induction false} FreedInside<W>(nodes: Slots<W>, o: Order, c: NodeId, k: nat)
    requires Wf(nodes, o) && Live(nodes, c) && k in Freed(nodes, o, c)
    ensures k < |nodes| && nodes[k].Some? && o.stamp[k] >= o.stamp[c.index]
    decreases Rank(nodes, o, c)
  {
    if k != c.index {
      var j := FreedPrefixWhich(nodes, o, c, |Kids(nodes, c)|, k);
      ChildRank(nodes, o, c, j);
      FreedInside(nodes, o, Kids(nodes, c)[j], k);
    }
  }

  /** A freed slot other than the removal's own has its owner among the freed slots, created earlier. */
  lemma {:induction false} FreedOwner<W>(nodes: Slots<W>, o: Order, c: NodeId, k: nat) returns (q: nat)
    requires Wf(nodes, o) && Live(nodes, c) && k in Freed(nodes, o, c) && k != c.index
    ensures q in Freed(nodes, o, c) && q < |nodes| && nodes[q].Some?
    ensures k < |nodes| && nodes[k].Some? && nodes[k].value.parent == Some(NodeId(q))
    ensures o.stamp[q] < o.stamp[k]
    decreases Rank(nodes, o, c)
  {
    var n := |Kids(nodes, c)|;
    var j := FreedPrefixWhich(nodes, o, c, n, k);
    var child := Kids(nodes, c)[j];
    ChildRank(nodes, o, c, j);
    if k == child.index {
      q := c.index;
    } else {
      q := FreedOwner(nodes, o, child, k);
      FreedPrefixHasChild(nodes, o, c, n, j, q);
    }
  }

  /** Two removals that free a common slot are nested: one of the roots is inside the other's subtree. */
  lemma {:induction false} NoCommon<W>(nodes: Slots<W>, o: Order, a: NodeId, b: NodeId, k: nat)
    requires Wf(nodes, o) && Live(nodes, a) && Live(nodes, b)
    requires k in Freed(nodes, o, a) && k in Freed(nodes, o, b)
    ensures a.index in Freed(nodes, o, b) || b.index in Freed(nodes, o, a)
    decreases o.stamp[k]
  {
    if k != a.index && k != b.index {
      var qa := FreedOwner(nodes, o, a, k);
      var qb := FreedOwner(nodes, o, b, k);
      assert qa == qb;
      FreedInside(nodes, o, a, k);
      NoCommon(nodes, o, a, b, qa);
    }
  }

  /** Removing one child never frees its parent, and siblings free disjoint slot sets. */
  lemma {:induction false} SiblingsApart<W>(nodes: Slots<W>, o: Order, owner: NodeId, i: nat, j: nat, k: nat)
    requires Wf(nodes, o) && Live(nodes, owner)
    requires i < |Kids(nodes, owner)| && j < |Kids(nodes, owner)| && i != j
    requires k in Freed(nodes, o, Kids(nodes, owner)[i])
    ensures k !in Freed(nodes, o, Kids(nodes, owner)[j])
    ensures k != owner.index
  {
    var ci := Kids(nodes, owner)[i];
    var cj := Kids(nodes, owner)[j];
    ChildRank(nodes, o, owner, i);
    ChildRank(nodes, o, owner, j);
    FreedInside(nodes, o, ci, k);
    if k in Freed(nodes, o, cj) {
      NoCommon(nodes, o, ci, cj, k);
      if cj.index in Freed(nodes, o, ci) {
        var q := FreedOwner(nodes, o, ci, cj.index);
        FreedInside(nodes, o, ci, q);
        assert false;
      } else {
        var q := FreedOwner(nodes, o, cj, ci.index);
        FreedInside(nodes, o, cj, q);
        assert false;
      }
    }
  }

  /** Removal results depend only on the slots the removal frees. */
  lemma {:induction false} FreedFrame<W>(n1: Slots<W>, n2: Slots<W>, o: Order, id: NodeId)
    requires Wf(n1, o) && Wf(n2, o) && |n1| == |n2|
    requires forall k :: k in Freed(n1, o, id) ==> n2[k] == n1[k]
    ensures Freed(n2, o, id) == Freed(n1, o, id)
    decreases Rank(n1, o, id), 1, 0
  {
    if Live(n1, id) {
      FreedPrefixFrame(n1, n2, o, id, |Kids(n1, id)|);
    }
  }

  lemma {:induction false} FreedPrefixFrame<W>(n1: Slots<W>, n2: Slots<W>, o: Order, owner: NodeId, n: nat)
    requires Wf(n1, o) && Wf(n2, o) && |n1| == |n2|
    requires Live(n1, owner) && n2[owner.index] == n1[owner.index] && n <= |Kids(n1, owner)|
    requires forall k :: k in FreedPrefix(n1, o, owner, n) ==> n2[k] == n1[k]
    ensures FreedPrefix(n2, o, owner, n) == FreedPrefix(n1, o, owner, n)
    decreases Rank(n1, o, owner), 0, n
  {
    if n > 0 {
      ChildRank(n1, o, owner, n - 1);
      var c := Kids(n1, owner)[n - 1];
      forall k | k in Freed(n1, o, c) ensures n2[k] == n1[k] {
        FreedPrefixHasChild(n1, o, owner, n, n - 1, k);
      }
      FreedFrame(n1, n2, o, c);
      FreedPrefixFrame(n1, n2, o, owner, n - 1);
    }
  }

  lemma {:induction false} ChildFreesNotOwner<W>(nodes: Slots<W>, o: Order, owner: NodeId, i: nat, k: nat)
    requires Wf(nodes, o) && Live(nodes, owner) && i < |Kids(nodes, owner)|
    requires k in Freed(nodes, o, Kids(nodes, owner)[i])
    ensures k != owner.index
  {
    ChildRank(nodes, o, owner, i);
    FreedInside(nodes, o, Kids(nodes, owner)[i], k);
  }

  lemma {:induction false} WithoutAbsent(cs: seq<NodeId>, x: NodeId)
    requires x !in cs
    ensures Without(cs, x) == cs
  {
    if cs != [] {
      WithoutAbsent(cs[1..], x);
    }
  }

  lemma {:induction false} WithoutDistinct(cs: seq<NodeId>, x: NodeId)
    requires Distinct(cs)
    ensures Distinct(Without(cs, x))
  {
    if cs != [] {
      WithoutDistinct(cs[1..], x);
      var rest := Without(cs[1..], x);
      assert cs[0] !in rest;
    }
  }

  /**
   * The slots part-way through `remove(id)`'s loop: the subtrees of the
   * first `i` children are gone and `id` still lists the others.
   */
  ghost function Pruned<W>(nodes: Slots<W>, o: Order, id: NodeId, i: nat): (r: Slots<W>)
    requires Wf(nodes, o) && Live(nodes, id) && i <= |Kids(nodes, id)|
    ensures |r| == |nodes|
  {
    var gone := FreedPrefix(nodes, o, id, i);
    var n := nodes[id.index].value;
    seq(|nodes|, k requires 0 <= k < |nodes| =>
      if k in gone then None
      else if k == id.index then Some(n.(children := n.children[i..]))
      else nodes[k])
  }

  lemma {:induction false} PrunedStart<W>(nodes: Slots<W>, o: Order, id: NodeId)
    requires Wf(nodes, o) && Live(nodes, id)
    ensures Pruned(nodes, o, id, 0) == nodes
  {
    var p := Pruned(nodes, o, id, 0);
    assert |p| == |nodes|;
    forall k | 0 <= k < |nodes| ensures p[k] == nodes[k] {
      if k == id.index {
        var n := nodes[id.index].value;
        assert n.children[0..] == n.children;
      }
    }
  }

  /** What child `i` frees is untouched while the loop prunes its earlier siblings. */
  lemma {:induction false} PrunedKeeps<W>(nodes: Slots<W>, o: Order, id: NodeId, i: nat, k: nat)
    requires Wf(nodes, o) && Live(nodes, id) && i < |Kids(nodes, id)|
    requires k in Freed(nodes, o, Kids(nodes, id)[i])
    ensures k !in FreedPrefix(nodes, o, id, i) && k != id.index
    ensures k < |nodes| && Pruned(nodes, o, id, i)[k] == nodes[k]
  {
    ChildFreesNotOwner(nodes, o, id, i, k);
    if k in FreedPrefix(nodes, o, id, i) {
      var j := FreedPrefixWhich(nodes, o, id, i, k);
      SiblingsApart(nodes, o, id, i, j, k);
    }
  }

  lemma {:induction false} PrunedFreedSame<W>(nodes: Slots<W>, o: Order, id: NodeId, i: nat)
    requires Wf(nodes, o) && Live(nodes, id) && i < |Kids(nodes, id)|
    requires Wf(Pruned(nodes, o, id, i), o)
    ensures Freed(Pruned(nodes, o, id, i), o, Kids(nodes, id)[i]) == Freed(nodes, o, Kids(nodes, id)[i])
  {
    var p := Pruned(nodes, o, id, i);
    var c := Kids(nodes, id)[i];
    forall k | k in Freed(nodes, o, c) ensures p[k] == nodes[k] {
      PrunedKeeps(nodes, o, id, i, k);
    }
    FreedFrame(nodes, p, o, c);
  }

  /** One turn of `remove(id)`'s loop: removing child `i` from the part-pruned slots prunes one more. */
  lemma {:induction false} PrunedStep<W>(nodes: Slots<W>, o: Order, id: NodeId, i: nat)
    requires Wf(nodes, o) && Live(nodes, id) && i < |Kids(nodes, id)|
    requires Wf(Pruned(nodes, o, id, i), o)
    ensures Freed(Pruned(nodes, o, id, i), o, Kids(nodes, id)[i]) == Freed(nodes, o, Kids(nodes, id)[i])
    ensures AfterRemove(Pruned(nodes, o, id, i), o, Kids(nodes, id)[i]) == Pruned(nodes, o, id, i + 1)
  {
    var p := Pruned(nodes, o, id, i);
    var c := Kids(nodes, id)[i];
    var gone := FreedPrefix(nodes, o, id, i);
    var freedC := Freed(nodes, o, c);
    PrunedFreedSame(nodes, o, id, i);
    ChildRank(nodes, o, id, i);
    assert c.index in freedC;
    PrunedKeeps(nodes, o, id, i, c.index);
    var n := nodes[id.index].value;
    assert Without(n.children[i..], c) == n.children[i + 1..] by {
      assert Distinct(n.children);
      assert n.children[i..] == [c] + n.children[i + 1..];
      assert c !in n.children[i + 1..];
      WithoutAbsent(n.children[i + 1..], c);
    }
    var after := AfterRemove(p, o, c);
    var next := Pruned(nodes, o, id, i + 1);
    assert FreedPrefix(nodes, o, id, i + 1) == gone + freedC;
    forall k | 0 <= k < |nodes| ensures after[k] == next[k] {
      if k in freedC {
        assert after[k] == None;
      } else if k == id.index {
        if k in gone {
          var j := FreedPrefixWhich(nodes, o, id, i, k);
          ChildFreesNotOwner(nodes, o, id, j, k);
        }
        assert p[k] == Some(n.(children := n.children[i..]));
      } else {
        assert after[k] == p[k];
      }
    }
  }

  /** The last steps of `remove(id)`: drop `id` from its parent's children, then vacate its slot. */
  ghost function Unlinked<W>(nodes: Slots<W>, id: NodeId): (r: Slots<W>)
    requires Live(nodes, id)
    ensures |r| == |nodes|
  {
    var p := nodes[id.index].value.parent;
    var linked :=
      if p.Some? && Live(nodes, p.value) then
        nodes[p.value.index := Some(nodes[p.value.index].value.(children := Without(nodes[p.value.index].value.children, id)))]
      else nodes;
    linked[id.index := None]
  }

  lemma {:induction false} UnlinkedResult<W>(nodes: Slots<W>, o: Order, id: NodeId)
    requires Wf(nodes, o) && Live(nodes, id)
    ensures Live(Pruned(nodes, o, id, |Kids(nodes, id)|), id)
    ensures Kids(Pruned(nodes, o, id, |Kids(nodes, id)|), id) == []
    ensures Unlinked(Pruned(nodes, o, id, |Kids(nodes, id)|), id) == AfterRemove(nodes, o, id)
  {
    var n := |Kids(nodes, id)|;
    var p := Pruned(nodes, o, id, n);
    var gone := FreedPrefix(nodes, o, id, n);
    forall k | k in gone ensures k != id.index {
      var j := FreedPrefixWhich(nodes, o, id, n, k);
      ChildFreesNotOwner(nodes, o, id, j, k);
    }
    var u := Unlinked(p, id);
    var a := AfterRemove(nodes, o, id);
    forall k | 0 <= k < |nodes| ensures u[k] == a[k] {
    }
  }

  /** Unlinking a childless live node keeps the tree well formed. */
  lemma {:induction false} UnlinkedWf<W>(nodes: Slots<W>, o: Order, id: NodeId)
    requires Wf(nodes, o) && Live(nodes, id) && Kids(nodes, id) == []
    ensures Wf(Unlinked(nodes, id), o)
  {
    var u := Unlinked(nodes, id);
    var par := nodes[id.index].value.parent;
    forall i, k | 0 <= i < |u| && u[i].Some? && 0 <= k < |u[i].value.children|
      ensures ChildOk(u, o, i, u[i].value.children[k])
    {
      var x := u[i].value.children[k];
      if par.Some? && Live(nodes, par.value) && i == par.value.index {
        assert x in nodes[i].value.children;
        var k0 :| 0 <= k0 < |nodes[i].value.children| && nodes[i].value.children[k0] == x;
        assert ChildOk(nodes, o, i, nodes[i].value.children[k0]);
      } else {
        assert u[i] == nodes[i];
        assert ChildOk(nodes, o, i, nodes[i].value.children[k]);
        assert x != id;
      }
    }
    forall i | 0 <= i < |u| && u[i].Some? ensures Distinct(u[i].value.children) {
      assert Distinct(nodes[i].value.children);
      if par.Some? && Live(nodes, par.value) && i == par.value.index {
        WithoutDistinct(nodes[i].value.children, id);
      }
    }
  }

  /** One turn of the loop in `remove`: removing child `i` from the partly pruned tree. */
  lemma {:induction false} ChildStep<W>(nodes: Slots<W>, o: Order, id: NodeId, i: nat)
    requires Wf(nodes, o) && Live(nodes, id) && i < |Kids(nodes, id)|
    requires Wf(Pruned(nodes, o, id, i), o)
    ensures Rank(Pruned(nodes, o, id, i), o, Kids(nodes, id)[i]) < Rank(nodes, o, id)
    ensures Kids(nodes, id)[i].index in Freed(nodes, o, Kids(nodes, id)[i])
    ensures Freed(Pruned(nodes, o, id, i), o, Kids(nodes, id)[i]) == Freed(nodes, o, Kids(nodes, id)[i])
    ensures AfterRemove(Pruned(nodes, o, id, i), o, Kids(nodes, id)[i]) == Pruned(nodes, o, id, i + 1)
    ensures FreedPrefix(nodes, o, id, i + 1) == FreedPrefix(nodes, o, id, i) + Freed(nodes, o, Kids(nodes, id)[i])
  {
    var c := Kids(nodes, id)[i];
    ChildRank(nodes, o, id, i);
    PrunedStep(nodes, o, id, i);
    PrunedKeeps(nodes, o, id, i, c.index);
  }

  /** The end of `remove` on a live node, once its children's subtrees are gone. */
  lemma {:induction false} RemoveLiveTail<W>(nodes: Slots<W>, o: Order, id: NodeId, pruned: Slots<W>)
    requires Wf(nodes, o) && Live(nodes, id)
    requires pruned == Pruned(nodes, o, id, |Kids(nodes, id)|) && Wf(pruned, o)
    ensures Live(pruned, id) && Unlinked(pruned, id) == AfterRemove(nodes, o, id)
    ensures Wf(AfterRemove(nodes, o, id), o)
    ensures Freed(nodes, o, id) == FreedPrefix(nodes, o, id, |Kids(nodes, id)|) + [id.index]
  {
    UnlinkedResult(nodes, o, id);
    UnlinkedWf(pruned, o, id);
  }

  /** `remove` on a vacant id only vacates (again) an in-range slot. */
  lemma {:induction false} RemoveVacant<W>(nodes: Slots<W>, o: Order, id: NodeId)
    requires Wf(nodes, o) && !Live(nodes, id)
    ensures AfterRemove(nodes, o, id) == if id.index < |nodes| then nodes[id.index := None] else nodes
    ensures Freed(nodes, o, id) == if id.index < |nodes| then [id.index] else []
    ensures Wf(AfterRemove(nodes, o, id), o)
  {
    var a := AfterRemove(nodes, o, id);
    forall i, k | 0 <= i < |a| && a[i].Some? && 0 <= k < |a[i].value.children|
      ensures ChildOk(a, o, i, a[i].value.children[k])
    {
      assert a[i] == nodes[i];
      assert ChildOk(nodes, o, i, nodes[i].value.children[k]);
    }
    forall i | 0 <= i < |a| && a[i].Some? ensures Distinct(a[i].value.children) {
      assert a[i] == nodes[i];
    }
  }

  /** Clearing the references for one child's subtree after the earlier children's subtrees. */
  lemma {:induction false} ClearStep(r: Refs, c: NodeId, before: seq<nat>, fc: seq<nat>)
    requires c.index in fc
    ensures r.ClearAllIn(before).ClearedAll(c, fc) == r.ClearAllIn(before + fc)
  {
  }

  /** Dropping the references to `id` itself, after its descendants' slots were cleared. */
  lemma {:induction false} ClearFinish(r: Refs, id: NodeId, before: seq<nat>, last: seq<nat>)
    requires last == [] || last == [id.index]
    ensures r.ClearAllIn(before).DropAll(id) == r.ClearedAll(id, before + last)
  {
  }

  // ---------------------------------------------------------------------
  // Adding

  /** `nodes[i] = x`, or `push(x)` when `i` is one past the end. */
  function Put<T>(s: seq<T>, i: nat, x: T): (r: seq<T>)
    requires i <= |s|
    ensures |r| == if i == |s| then |s| + 1 else |s|
    ensures r[i] == x && forall k :: 0 <= k < |s| && k != i ==> r[k] == s[k]
  {
    if i == |s| then s + [x] else s[i := x]
  }

  /** Slot `i` may be filled: it is empty, or it is the next slot past the end. */
  predicate Vacant<W>(nodes: Slots<W>, i: nat) {
    i == |nodes| || (i < |nodes| && nodes[i].None?)
  }

  /** The ghost order after slot `i` is filled at the current clock. */
  function Stamped(o: Order, i: nat): Order
    requires i <= |o.stamp|
  {
    Order(Put(o.stamp, i, o.clock), o.clock + 1)
  }

  /** `id` is a newly filled node: childless, listed by nobody, and newer than every other live node. */
  ghost predicate Fresh<W>(nodes: Slots<W>, o: Order, id: NodeId)
    requires |o.stamp| == |nodes|
  {
    && Live(nodes, id) && Kids(nodes, id) == []
    && (forall i :: 0 <= i < |nodes| && nodes[i].Some? ==> id !in nodes[i].value.children)
    && (forall i :: 0 <= i < |nodes| && nodes[i].Some? && i != id.index ==> o.stamp[i] < o.stamp[id.index])
  }

  /** `allocate_slot` keeps the tree well formed when the slot it fills was vacant. */
  lemma {:induction false} FilledWf<W>(nodes: Slots<W>, o: Order, i: nat, node: Node<W>)
    requires Wf(nodes, o) && Vacant(nodes, i) && node.children == []
    ensures Wf(Put(nodes, i, Some(node)), Stamped(o, i))
    ensures Fresh(Put(nodes, i, Some(node)), Stamped(o, i), NodeId(i))
  {
    var u, o' := Put(nodes, i, Some(node)), Stamped(o, i);
    forall j, k | 0 <= j < |u| && u[j].Some? && 0 <= k < |u[j].value.children|
      ensures ChildOk(u, o', j, u[j].value.children[k])
    {
      assert j != i;
      assert ChildOk(nodes, o, j, nodes[j].value.children[k]);
    }
    forall j | 0 <= j < |u| && u[j].Some? && j != i ensures NodeId(i) !in u[j].value.children {
      forall k | 0 <= k < |nodes[j].value.children| ensures nodes[j].value.children[k] != NodeId(i) {
        assert ChildOk(nodes, o, j, nodes[j].value.children[k]);
      }
    }
    forall j | 0 <= j < |u| && u[j].Some? ensures Distinct(u[j].value.children) {
      assert j != i ==> Distinct(nodes[j].value.children);
    }
  }

  /** The last steps of `add_boxed`: append `id` to a live `parent`'s children, then record any given parent, live or not. */
  ghost function Linked<W>(nodes: Slots<W>, id: NodeId, parent: Option<NodeId>): (r: Slots<W>)
    requires Live(nodes, id)
    ensures |r| == |nodes|
  {
    var linked :=
      if parent.Some? && Live(nodes, parent.value) then
        nodes[parent.value.index := Some(nodes[parent.value.index].value.(children := Kids(nodes, parent.value) + [id]))]
      else nodes;
    if parent.Some? then linked[id.index := Some(linked[id.index].value.(parent := parent))] else linked
  }

  /**
   * Linking a fresh node under any parent other than itself keeps the tree
   * well formed, even when the parent id is stale.
   */
  lemma {:induction false} LinkedWf<W>(nodes: Slots<W>, o: Order, id: NodeId, parent: Option<NodeId>)
    requires Wf(nodes, o) && Fresh(nodes, o, id) && parent != Some(id)
    ensures Wf(Linked(nodes, id, parent), o)
  {
    var u := Linked(nodes, id, parent);
    forall i, k | 0 <= i < |u| && u[i].Some? && 0 <= k < |u[i].value.children|
      ensures ChildOk(u, o, i, u[i].value.children[k])
    {
      var x := u[i].value.children[k];
      if parent.Some? && Live(nodes, parent.value) && i == parent.value.index && k == |Kids(nodes, parent.value)| {
        assert x == id;
      } else {
        assert i != id.index;
        assert x == nodes[i].value.children[k];
        assert ChildOk(nodes, o, i, x);
        assert x != id;
      }
    }
    forall i | 0 <= i < |u| && u[i].Some? ensures Distinct(u[i].value.children) {
      assert i != id.index ==> Distinct(nodes[i].value.children);
    }
  }

  /**
   * What `add_boxed` does to the slots: the new node sits in slot `i` with
   * no children and the given parent; a live parent lists it last; no other
   * slot changes.
   */
  lemma {:induction false} AddEffect<W>(nodes: Slots<W>, i: nat, widget: W, parent: Option<NodeId>)
    requires Vacant(nodes, i) && parent != Some(NodeId(i))
    ensures Live(Put(nodes, i, Some(NewNode(widget))), NodeId(i))
    ensures var r := Linked(Put(nodes, i, Some(NewNode(widget))), NodeId(i), parent);
      && |r| == (if i == |nodes| then |nodes| + 1 else |nodes|)
      && r[i] == Some(NewNode(widget).(parent := parent))
      && forall k :: 0 <= k < |nodes| && k != i ==>
           r[k] == if parent == Some(NodeId(k)) && nodes[k].Some? then
                     Some(nodes[k].value.(children := nodes[k].value.children + [NodeId(i)]))
                   else nodes[k]
  {
  }

  /** The singletons after `add_boxed`: a parentless node becomes the root when there is none. */
  function AddedRefs(r: Refs, id: NodeId, parent: Option<NodeId>): Refs {
    if parent == None && r.root == None then r.(root := Some(id)) else r
  }

  /** One reference to an occupied slot still names an occupied slot after `add_boxed` fills slot `i`. */
  lemma {:induction false} AddKeepsRefLive<W>(nodes: Slots<W>, i: nat, widget: W, parent: Option<NodeId>, s: Option<NodeId>)
    requires Vacant(nodes, i) && parent != Some(NodeId(i)) && RefLive(nodes, s)
    ensures RefLive(Linked(Put(nodes, i, Some(NewNode(widget))), NodeId(i), parent), s)
  {
    AddEffect(nodes, i, widget, parent);
    if s.Some? {
      assert s.value.index != i;
    }
  }

  /**
   * `add_boxed` keeps the tree invariant: references that named occupied
   * slots still do, and a root it sets names the newly filled slot.
   */
  lemma {:induction false} AddKeepsRefsLive<W>(nodes: Slots<W>, i: nat, widget: W, parent: Option<NodeId>, r: Refs)
    requires Vacant(nodes, i) && parent != Some(NodeId(i)) && RefsLive(nodes, r)
    ensures RefsLive(Linked(Put(nodes, i, Some(NewNode(widget))), NodeId(i), parent), AddedRefs(r, NodeId(i), parent))
  {
    AddKeepsRefLive(nodes, i, widget, parent, r.root);
    AddKeepsRefLive(nodes, i, widget, parent, r.hovered);
    AddKeepsRefLive(nodes, i, widget, parent, r.pressed);
    AddKeepsRefLive(nodes, i, widget, parent, r.focused);
    AddKeepsRefLive(nodes, i, widget, parent, r.captured);
  }

  // ---------------------------------------------------------------------
  // Hit testing and drawing

  /** `hit_test_node`: the deepest node under the point, trying the last child first. */
  function HitTestNode<W>(nodes: Slots<W>, ghost o: Order, id: NodeId, x: int, y: int): (r: Option<NodeId>)
    requires Wf(nodes, o)
    ensures r.Some? ==> Live(nodes, id) && nodes[id.index].value.bounds.Contains(x, y)
    ensures r.Some? ==> Live(nodes, r.value) && nodes[r.value.index].value.bounds.Contains(x, y)
    decreases Rank(nodes, o, id), 1, 0
  {
    match Lookup(nodes, id)
    case None => None
    case Some(n) =>
      if !n.bounds.Contains(x, y) then None
      else
        match HitChildren(nodes, o, id, |n.children|, x, y)
        case Some(h) => Some(h)
        case None => Some(id)
  }

  /** The first hit among children `n-1, n-2, ..., 0` of `owner`. */
  function HitChildren<W>(nodes: Slots<W>, ghost o: Order, owner: NodeId, n: nat, x: int, y: int): (r: Option<NodeId>)
    requires Wf(nodes, o) && Live(nodes, owner) && n <= |Kids(nodes, owner)|
    ensures r.Some? ==> Live(nodes, r.value) && nodes[r.value.index].value.bounds.Contains(x, y)
    decreases Rank(nodes, o, owner), 0, n
  {
    if n == 0 then None
    else
      ChildRank(nodes, o, owner, n - 1);
      match HitTestNode(nodes, o, Kids(nodes, owner)[n - 1], x, y)
      case Some(h) => Some(h)
      case None => HitChildren(nodes, o, owner, n - 1, x, y)
  }

  /** The node a hit test returns lies in the subtree of the node it started from. */
  lemma {:induction false} HitInSubtree<W>(nodes: Slots<W>, o: Order, id: NodeId, x: int, y: int)
    requires Wf(nodes, o) && HitTestNode(nodes, o, id, x, y).Some?
    ensures HitTestNode(nodes, o, id, x, y).value.index in Freed(nodes, o, id)
    decreases Rank(nodes, o, id), 1, 0
  {
    var n := |Kids(nodes, id)|;
    if HitChildren(nodes, o, id, n, x, y).Some? {
      HitChildrenInPrefix(nodes, o, id, n, x, y);
    }
  }

  lemma {:induction false} HitChildrenInPrefix<W>(nodes: Slots<W>, o: Order, owner: NodeId, n: nat, x: int, y: int)
    requires Wf(nodes, o) && Live(nodes, owner) && n <= |Kids(nodes, owner)|
    requires HitChildren(nodes, o, owner, n, x, y).Some?
    ensures HitChildren(nodes, o, owner, n, x, y).value.index in FreedPrefix(nodes, o, owner, n)
    decreases Rank(nodes, o, owner), 0, n
  {
    ChildRank(nodes, o, owner, n - 1);
    var c := Kids(nodes, owner)[n - 1];
    if HitTestNode(nodes, o, c, x, y).Some? {
      HitInSubtree(nodes, o, c, x, y);
    } else {
      HitChildrenInPrefix(nodes, o, owner, n - 1, x, y);
    }
  }

  /** When no child among the first `n` is hit, every one of them misses. */
  lemma {:induction false} NoChildHit<W>(nodes: Slots<W>, o: Order, owner: NodeId, n: nat, x: int, y: int)
    requires Wf(nodes, o) && Live(nodes, owner) && n <= |Kids(nodes, owner)|
    requires HitChildren(nodes, o, owner, n, x, y).None?
    ensures forall k :: 0 <= k < n ==> HitTestNode(nodes, o, Kids(nodes, owner)[k], x, y).None?
    decreases n
  {
    if n > 0 {
      NoChildHit(nodes, o, owner, n - 1, x, y);
    }
  }

  /**
   * Children are examined front to back: the hit comes from the last child
   * among the first `n` that is hit at all, and every later one misses.
   */
  lemma {:induction false} LastChildWins<W>(nodes: Slots<W>, o: Order, owner: NodeId, n: nat, x: int, y: int) returns (j: nat)
    requires Wf(nodes, o) && Live(nodes, owner) && n <= |Kids(nodes, owner)|
    requires HitChildren(nodes, o, owner, n, x, y).Some?
    ensures j < n && HitTestNode(nodes, o, Kids(nodes, owner)[j], x, y) == HitChildren(nodes, o, owner, n, x, y)
    ensures forall k :: j < k < n ==> HitTestNode(nodes, o, Kids(nodes, owner)[k], x, y).None?
    decreases n
  {
    if HitTestNode(nodes, o, Kids(nodes, owner)[n - 1], x, y).Some? {
      j := n - 1;
    } else {
      j := LastChildWins(nodes, o, owner, n - 1, x, y);
    }
  }

  /** The hit node is the deepest: none of its own children is hit at the point. */
  lemma {:induction false} HitIsDeepest<W>(nodes: Slots<W>, o: Order, id: NodeId, x: int, y: int)
    requires Wf(nodes, o) && HitTestNode(nodes, o, id, x, y).Some?
    ensures var h := HitTestNode(nodes, o, id, x, y).value;
      forall k :: 0 <= k < |Kids(nodes, h)| ==> HitTestNode(nodes, o, Kids(nodes, h)[k], x, y).None?
    decreases Rank(nodes, o, id), 1, 0
  {
    var n := |Kids(nodes, id)|;
    if HitChildren(nodes, o, id, n, x, y).Some? {
      var j := LastChildWins(nodes, o, id, n, x, y);
      ChildRank(nodes, o, id, j);
      HitIsDeepest(nodes, o, Kids(nodes, id)[j], x, y);
    } else {
      NoChildHit(nodes, o, id, n, x, y);
    }
  }

  /** A live node containing the point is the answer exactly when none of its children is hit. */
  lemma {:induction false} HitSelf<W>(nodes: Slots<W>, o: Order, id: NodeId, x: int, y: int)
    requires Wf(nodes, o) && Live(nodes, id) && nodes[id.index].value.bounds.Contains(x, y)
    ensures HitTestNode(nodes, o, id, x, y) == Some(id) <==>
      forall k :: 0 <= k < |Kids(nodes, id)| ==> HitTestNode(nodes, o, Kids(nodes, id)[k], x, y).None?
  {
    var n := |Kids(nodes, id)|;
    if HitChildren(nodes, o, id, n, x, y).Some? {
      var j := LastChildWins(nodes, o, id, n, x, y);
      var h := HitChildren(nodes, o, id, n, x, y).value;
      HitChildrenInPrefix(nodes, o, id, n, x, y);
      var i := FreedPrefixWhich(nodes, o, id, n, h.index);
      ChildFreesNotOwner(nodes, o, id, i, h.index);
    } else {
      NoChildHit(nodes, o, id, n, x, y);
    }
  }

  /** One `widget.draw(canvas, bounds, state)` call made by `draw_node`. */
  datatype Visit = Visit(id: NodeId, bounds: Rect, state: WidgetState)

  /** The state `draw_node` hands to the widget of `id`. */
  function StateOf(hovered: Option<NodeId>, pressed: Option<NodeId>, focused: Option<NodeId>, id: NodeId): WidgetState {
    WidgetState(hovered == Some(id), pressed == Some(id), focused == Some(id))
  }

  /** A draw call for a live node, with that node's bounds and interaction state. */
  ghost predicate VisitOk<W>(nodes: Slots<W>, hovered: Option<NodeId>, pressed: Option<NodeId>,
                             focused: Option<NodeId>, v: Visit) {
    Live(nodes, v.id) && v.bounds == nodes[v.id.index].value.bounds && v.state == StateOf(hovered, pressed, focused, v.id)
  }

  /** `draw_node` as the sequence of widget draw calls it makes: the node first, then each child's subtree in order. */
  function DrawNode<W>(nodes: Slots<W>, ghost o: Order, hovered: Option<NodeId>, pressed: Option<NodeId>,
                       focused: Option<NodeId>, id: NodeId): (r: seq<Visit>)
    requires Wf(nodes, o)
    ensures Live(nodes, id) ==> |r| > 0 && r[0].id == id
    ensures forall v :: v in r ==> VisitOk(nodes, hovered, pressed, focused, v)
    decreases Rank(nodes, o, id), 1, 0
  {
    match Lookup(nodes, id)
    case None => []
    case Some(n) =>
      [Visit(id, n.bounds, StateOf(hovered, pressed, focused, id))]
      + DrawChildren(nodes, o, hovered, pressed, focused, id, |n.children|)
  }

  /** The draw calls for children `0 .. n-1` of `owner`, in insertion order. */
  function DrawChildren<W>(nodes: Slots<W>, ghost o: Order, hovered: Option<NodeId>, pressed: Option<NodeId>,
                           focused: Option<NodeId>, owner: NodeId, n: nat): (r: seq<Visit>)
    requires Wf(nodes, o) && Live(nodes, owner) && n <= |Kids(nodes, owner)|
    ensures forall v :: v in r ==> VisitOk(nodes, hovered, pressed, focused, v)
    decreases Rank(nodes, o, owner), 0, n
  {
    if n == 0 then []
    else
      ChildRank(nodes, o, owner, n - 1);
      DrawChildren(nodes, o, hovered, pressed, focused, owner, n - 1)
      + DrawNode(nodes, o, hovered, pressed, focused, Kids(nodes, owner)[n - 1])
  }

  /** The slot indices of a sequence of draw calls. */
  function Ids(vs: seq<Visit>): (r: seq<nat>)
    ensures |r| == |vs| && forall i :: 0 <= i < |vs| ==> r[i] == vs[i].id.index
  {
    if vs == [] then [] else [vs[0].id.index] + Ids(vs[1..])
  }

  lemma {:induction false} IdsAppend(a: seq<Visit>, b: seq<Visit>)
    ensures Ids(a + b) == Ids(a) + Ids(b)
  {
    assert |Ids(a + b)| == |Ids(a) + Ids(b)|;
    forall i | 0 <= i < |a + b| ensures Ids(a + b)[i] == (Ids(a) + Ids(b))[i] {
      if i < |a| {
      } else {
        assert (a + b)[i] == b[i - |a|];
      }
    }
  }

  /**
   * Drawing a live node draws exactly the nodes of its subtree: the same
   * slots, counted with multiplicity, that removing it would free.
   */
  lemma {:induction false} DrawCoversSubtree<W>(nodes: Slots<W>, o: Order, hovered: Option<NodeId>,
                                                 pressed: Option<NodeId>, focused: Option<NodeId>, id: NodeId)
    requires Wf(nodes, o) && Live(nodes, id)
    ensures multiset(Ids(DrawNode(nodes, o, hovered, pressed, focused, id))) == multiset(Freed(nodes, o, id))
    decreases Rank(nodes, o, id), 1, 0
  {
    var n := |Kids(nodes, id)|;
    var head := [Visit(id, nodes[id.index].value.bounds, StateOf(hovered, pressed, focused, id))];
    var rest := DrawChildren(nodes, o, hovered, pressed, focused, id, n);
    IdsAppend(head, rest);
    DrawChildrenCover(nodes, o, hovered, pressed, focused, id, n);
  }

  lemma {:induction false} DrawChildrenCover<W>(nodes: Slots<W>, o: Order, hovered: Option<NodeId>,
                                                 pressed: Option<NodeId>, focused: Option<NodeId>, owner: NodeId, n: nat)
    requires Wf(nodes, o) && Live(nodes, owner) && n <= |Kids(nodes, owner)|
    ensures multiset(Ids(DrawChildren(nodes, o, hovered, pressed, focused, owner, n))) == multiset(FreedPrefix(nodes, o, owner, n))
    decreases Rank(nodes, o, owner), 0, n
  {
    if n > 0 {
      var m: nat := n - 1;
      DrawChildrenCover(nodes, o, hovered, pressed, focused, owner, m);
      ChildRank(nodes, o, owner, m);
      var c := Kids(nodes, owner)[m];
      DrawCoversSubtree(nodes, o, hovered, pressed, focused, c);
      assert DrawChildren(nodes, o, hovered, pressed, focused, owner, n)
          == DrawChildren(nodes, o, hovered, pressed, focused, owner, m) + DrawNode(nodes, o, hovered, pressed, focused, c);
      assert FreedPrefix(nodes, o, owner, n) == FreedPrefix(nodes, o, owner, m) + Freed(nodes, o, c);
      CoverAppend(DrawChildren(nodes, o, hovered, pressed, focused, owner, m), DrawNode(nodes, o, hovered, pressed, focused, c),
                  FreedPrefix(nodes, o, owner, m), Freed(nodes, o, c));
    }
  }

  lemma {:induction false} CoverAppend(a: seq<Visit>, b: seq<Visit>, fa: seq<nat>, fb: seq<nat>)
    requires multiset(Ids(a)) == multiset(fa) && multiset(Ids(b)) == multiset(fb)
    ensures multiset(Ids(a + b)) == multiset(fa + fb)
  {
    IdsAppend(a, b);
  }

  /** A live node's subtree lists every slot once. */
  lemma {:induction false} FreedDistinct<W>(nodes: Slots<W>, o: Order, id: NodeId)
    requires Wf(nodes, o)
    ensures Distinct(Freed(nodes, o, id))
    decreases Rank(nodes, o, id), 1, 0
  {
    if Live(nodes, id) {
      var n := |Kids(nodes, id)|;
      FreedPrefixDistinct(nodes, o, id, n);
      forall k | k in FreedPrefix(nodes, o, id, n) ensures k !in [id.index] {
        var j := FreedPrefixWhich(nodes, o, id, n, k);
        ChildFreesNotOwner(nodes, o, id, j, k);
      }
      DistinctAppend(FreedPrefix(nodes, o, id, n), [id.index]);
    }
  }

  lemma {:induction false} FreedPrefixDistinct<W>(nodes: Slots<W>, o: Order, owner: NodeId, n: nat)
    requires Wf(nodes, o) && Live(nodes, owner) && n <= |Kids(nodes, owner)|
    ensures Distinct(FreedPrefix(nodes, o, owner, n))
    decreases Rank(nodes, o, owner), 0, n
  {
    if n > 0 {
      ChildRank(nodes, o, owner, n - 1);
      var c := Kids(nodes, owner)[n - 1];
      var a, b := FreedPrefix(nodes, o, owner, n - 1), Freed(nodes, o, c);
      FreedPrefixDistinct(nodes, o, owner, n - 1);
      FreedDistinct(nodes, o, c);
      forall k | k in a ensures k !in b {
        var j := FreedPrefixWhich(nodes, o, owner, n - 1, k);
        SiblingsApart(nodes, o, owner, j, n - 1, k);
      }
      DistinctAppend(a, b);
    }
  }

  lemma {:induction false} DistinctAppend<T>(a: seq<T>, b: seq<T>)
    requires Distinct(a) && Distinct(b) && forall k :: k in a ==> k !in b
    ensures Distinct(a + b)
  {
    forall i, j | 0 <= i < j < |a + b| ensures (a + b)[i] != (a + b)[j] {
      if j >= |a| && i < |a| {
        assert (a + b)[i] in a && (a + b)[j] in b;
      }
    }
  }

  /** An element of a sequence without repeats occurs in it exactly once. */
  lemma {:induction false} DistinctOnce<T>(s: seq<T>, k: T)
    requires Distinct(s) && k in s
    ensures multiset(s)[k] == 1
  {
    assert s == [s[0]] + s[1..];
    if s[0] == k {
      assert k !in s[1..];
    } else {
      DistinctOnce(s[1..], k);
    }
  }

  /** Drawing from a live node calls `draw` exactly once for each node of its subtree, and never for another. */
  lemma {:induction false} DrawOnce<W>(nodes: Slots<W>, o: Order, hovered: Option<NodeId>, pressed: Option<NodeId>,
                    focused: Option<NodeId>, id: NodeId, k: nat)
    requires Wf(nodes, o) && Live(nodes, id)
    ensures k in Freed(nodes, o, id) ==> multiset(Ids(DrawNode(nodes, o, hovered, pressed, focused, id)))[k] == 1
    ensures k !in Freed(nodes, o, id) ==> k !in Ids(DrawNode(nodes, o, hovered, pressed, focused, id))
  {
    DrawCoversSubtree(nodes, o, hovered, pressed, focused, id);
    FreedDistinct(nodes, o, id);
    if k in Freed(nodes, o, id) {
      DistinctOnce(Freed(nodes, o, id), k);
    } else {
      assert multiset(Freed(nodes, o, id))[k] == 0;
    }
  }
}
