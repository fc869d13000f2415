/** The buddy allocator of memory_manager.c: a mutable binary tree with parent pointers.
    The ghost map `nodes` gives the tree position of every block reachable from the root. */
module BuddyAllocator {
  import opened Wrappers
  import opened Blocks
  import opened FirstFit
  import opened BlockCells
  import opened CellRuns
  import opened SplitsAndMerges

  // Largest request whose rounding stays inside a 32-bit int.
  const MAX_REQUEST: int := 0x4000_0000

  lemma DoublingStaysBelow(k: nat, x: int)
    requires Pow2(k) < x <= MAX_REQUEST
    ensures 2 * Pow2(k) <= MAX_REQUEST
  {
    Pow2Sum(10, 20);
    Pow2Sum(10, 10);
    assert Pow2(10) == 1024;
    Pow2Order(k, 30);
    Pow2Monotone(k, 30);
  }

  lemma FirstPowerIsCeilLog(k: nat, x: int)
    requires x <= Pow2(k) && (k > 0 ==> Pow2(k - 1) < x)
    ensures CeilLog(x) == k
  {
    CeilLogLeast(x, k);
    if CeilLog(x) < k - 1 { Pow2Monotone(CeilLog(x), k - 1); }
  }

  method HighestPowerOf2(x: int) returns (power: int)
    requires x <= MAX_REQUEST
    ensures power == Pow2(CeilLog(x))
    ensures power <= MAX_REQUEST
  {
    if x <= 0 { return 1; }
    power := 1;
    ghost var k := 0;
    while power < x
      invariant power == Pow2(k) <= MAX_REQUEST
      invariant k > 0 ==> Pow2(k - 1) < x
      decreases MAX_REQUEST - power
    {
      DoublingStaysBelow(k, x);
      power := power * 2;
      k := k + 1;
    }
    FirstPowerIsCeilLog(k, x);
  }

  class MemoryBlock {
    var size: int
    var allocatedBytes: int
    var parent: MemoryBlock?
    var leftChild: MemoryBlock?
    var rightChild: MemoryBlock?
    var processPid: int
    var idFromFile: int
    ghost const pos: Blk  // the interval this block stands for

    constructor (size: int, ghost pos: Blk)
      ensures this.size == size && this.pos == pos
      ensures allocatedBytes == 0 && processPid == -1 && idFromFile == -1
      ensures parent == null && leftChild == null && rightChild == null
    {
      this.size := size;
      this.pos := pos;
      allocatedBytes, processPid, idFromFile := 0, -1, -1;
      parent, leftChild, rightChild := null, null, null;
    }

    ghost function Content(): Cell
      reads this
    {
      Cell(idFromFile, processPid, allocatedBytes)
    }
  }

  // after keeps every block of before where it was.
  ghost predicate Extends(before: Tree, after: Tree) {
    && after.top == before.top
    && forall b :: b in before.nodes ==> b in after.nodes && after.nodes[b] == before.nodes[b]
  }

  // The blocks reachable from the root by position, and what each records.
  datatype Tree = Tree(top: Blk, nodes: map<Blk, MemoryBlock>, cells: Cells) {
    // b's block has the size, content and neighbours that its position calls for.
    ghost predicate Linked(b: Blk)
      requires b in nodes
      reads nodes[b]
    {
      var node := nodes[b];
      && node.pos == b && b.k <= top.k && node.size == b.Size()
      && b in cells && cells[b] == node.Content()
      && (b != top ==> b.k < top.k && b.Parent() in nodes && node.parent == nodes[b.Parent()])
      && node.leftChild == (if b.k > 0 && b.Left() in nodes then nodes[b.Left()] else null)
      && node.rightChild == (if b.k > 0 && b.Right() in nodes then nodes[b.Right()] else null)
    }

    ghost predicate Shape(repr: set<MemoryBlock>)
      reads repr
    {
      && top in nodes && nodes[top] in repr && nodes[top].parent == null
      && nodes.Keys == cells.Keys
      && forall b {:trigger Linked(b)} :: b in nodes ==> nodes[b] in repr && Linked(b)
    }

    ghost predicate Has(node: MemoryBlock) { node.pos in nodes && nodes[node.pos] == node }

    ghost function Live(): Live { LiveOf(cells) }

    lemma ParentPresent(c: Blk, repr: set<MemoryBlock>)
      requires Shape(repr)
      ensures c in nodes && c != top ==> c.Parent() in nodes
    {
      if c in nodes { assert Linked(c); }
    }

    lemma Neighbours(b: Blk, repr: set<MemoryBlock>)
      requires Shape(repr) && b in nodes
      ensures b.k <= top.k && Linked(b)
      ensures var l := nodes[b].leftChild; l != null ==> b.k > 0 && l in repr && Has(l) && l.pos == b.Left()
      ensures var r := nodes[b].rightChild; r != null ==> b.k > 0 && r in repr && Has(r) && r.pos == b.Right()
    {
      assert Linked(b);
      if b.k > 0 && b.Left() in nodes { assert Linked(b.Left()); }
      if b.k > 0 && b.Right() in nodes { assert Linked(b.Right()); }
    }

    lemma {:induction false} InsideRoot(b: Blk, repr: set<MemoryBlock>)
      requires Shape(repr) && b in nodes
      ensures Inside(b, top)
      decreases top.k - b.k
    {
      assert Linked(b);
      if b != top { InsideRoot(b.Parent(), repr); }
    }

    lemma ShapeClosed(repr: set<MemoryBlock>)
      requires Shape(repr)
      ensures Closed(cells, top)
    {
      forall c | c in cells ensures Inside(c, top) && (c != top ==> c.Parent() in cells) {
        InsideRoot(c, repr);
        ParentPresent(c, repr);
      }
    }

    lemma {:induction false} NothingOnAbsentSpines(b: Blk, repr: set<MemoryBlock>)
      requires Shape(repr)
      requires b !in nodes && b.k < top.k
      ensures LeftUsed(Live(), b) == 0 && RightUsed(Live(), b) == 0
      decreases b.k
    {
      if b.k > 0 {
        HalfParents(b);
        ParentPresent(b.Left(), repr);
        ParentPresent(b.Right(), repr);
        NothingOnAbsentSpines(b.Left(), repr);
        NothingOnAbsentSpines(b.Right(), repr);
      }
    }

    lemma SpineStep(b: Blk, repr: set<MemoryBlock>)
      requires Shape(repr) && b in nodes && nodes[b] in repr
      ensures var node := nodes[b];
              LeftUsed(Live(), b) == (if node.processPid != -1 then node.allocatedBytes else 0)
                                   + (if node.leftChild == null then 0 else LeftUsed(Live(), node.leftChild.pos))
      ensures var node := nodes[b];
              RightUsed(Live(), b) == (if node.processPid != -1 then node.allocatedBytes else 0)
                                    + (if node.rightChild == null then 0 else RightUsed(Live(), node.rightChild.pos))
      ensures var node := nodes[b];
              UsedSpace(Live(), b) == (if node.leftChild == null then 0 else LeftUsed(Live(), node.leftChild.pos))
                                    + (if node.rightChild == null then 0 else RightUsed(Live(), node.rightChild.pos))
    {
      Neighbours(b, repr);
      if b.k > 0 && nodes[b].leftChild == null { NothingOnAbsentSpines(b.Left(), repr); }
      if b.k > 0 && nodes[b].rightChild == null { NothingOnAbsentSpines(b.Right(), repr); }
    }

    // The tree with b's block recording something else.
    ghost function Marked(b: Blk, cell: Cell): Tree { Tree(top, nodes, cells[b := cell]) }

    lemma MarkedShape(b: Blk, cell: Cell, repr: set<MemoryBlock>)
      requires top in nodes && nodes[top] in repr && nodes[top].parent == null && nodes.Keys == cells.Keys
      requires forall d :: d in nodes ==> nodes[d] in repr && (d != b ==> Linked(d))
      requires b in nodes && Marked(b, cell).Linked(b)
      ensures Marked(b, cell).Shape(repr)
    {
      forall d | d in nodes ensures Marked(b, cell).Linked(d) {}
    }

    // The tree with everything strictly below b cut off.
    ghost function Pruned(b: Blk): Tree {
      Tree(top,
           map c | c in nodes && (Inside(c, b) ==> c == b) :: nodes[c],
           CutBelow(cells, b))
    }

    lemma PrunedLinked(b: Blk, d: Blk)
      requires d in nodes && d != b && Linked(d) && (Inside(d, b) ==> d == b)
      ensures Pruned(b).Linked(d)
    {
      if d != top && Inside(d.Parent(), b) { InsideWithin(d.Parent(), b); }
      if d.k > 0 { HalfParents(d); }
    }

    // b's block is in order except that both child pointers have been cleared.
    ghost predicate LeafAt(b: Blk)
      requires b in nodes
      reads nodes[b]
    {
      var node := nodes[b];
      && node.pos == b && b.k <= top.k && node.size == b.Size()
      && b in cells && cells[b] == node.Content()
      && (b != top ==> b.k < top.k && b.Parent() in nodes && node.parent == nodes[b.Parent()])
      && node.leftChild == null && node.rightChild == null
    }

    lemma PrunedLeaf(b: Blk)
      requires b in nodes && LeafAt(b)
      ensures Pruned(b).Linked(b)
    {
      if Inside(b.Parent(), b) { InsideWithin(b.Parent(), b); }
      if b.k > 0 {
        HalfParents(b);
        assert Inside(b.Left(), b) && Inside(b.Right(), b);
      }
    }

    // Dropping both children of b's block makes the pruned tree well formed.
    lemma PruneShape(b: Blk, repr: set<MemoryBlock>)
      requires top in nodes && nodes[top] in repr && nodes[top].parent == null && nodes.Keys == cells.Keys
      requires forall d :: d in nodes ==> nodes[d] in repr && (d != b ==> Linked(d))
      requires b in nodes && Inside(b, top) && LeafAt(b)
      ensures Pruned(b).Shape(repr)
    {
      var p := Pruned(b);
      if Inside(top, b) { InsideAntisymmetric(top, b); }
      PrunedLeaf(b);
      forall d | d in p.nodes ensures p.nodes[d] in repr && p.Linked(d) {
        if d != b { PrunedLinked(b, d); }
      }
    }

    // The pointers to and below the buddy show whether it can be merged with.
    lemma BuddyLinked(b: Blk, repr: set<MemoryBlock>)
      requires Shape(repr) && b in nodes && b != top
      ensures b.k < top.k && b.Parent() in nodes && nodes[b.Parent()] in repr
      ensures var p, s := nodes[b.Parent()], Buddy(b);
              && (if p.leftChild == nodes[b] then p.rightChild else p.leftChild)
                 == (if s in nodes then nodes[s] else null)
      ensures var s := Buddy(b);
              BuddyFree(cells, b) <==> s in nodes && nodes[s] in repr && nodes[s].allocatedBytes == 0
                                       && nodes[s].leftChild == null && nodes[s].rightChild == null
    {
      Neighbours(b, repr);
      Neighbours(b.Parent(), repr);
      ParentHalves(b);
      HalfParents(b.Parent());
      if Buddy(b) in nodes { Neighbours(Buddy(b), repr); }
    }

    // The tree with a free block added at c.
    ghost function Grown(c: Blk, child: MemoryBlock): Tree {
      Tree(top, nodes[c := child], cells[c := FREE])
    }

    lemma VacantHalf(b: Blk, c: Blk, repr: set<MemoryBlock>)
      requires Shape(repr) && b in nodes && b.k > 0 && c !in nodes
      requires c == b.Left() || c == b.Right()
      ensures c != top && c.k < top.k && c.Parent() == b
      ensures c.k > 0 ==> c.Left() !in nodes && c.Right() !in nodes
    {
      HalfParents(b);
      Neighbours(b, repr);
      if c.k > 0 {
        HalfParents(c);
        ParentPresent(c.Left(), repr);
        ParentPresent(c.Right(), repr);
      }
    }

    lemma GrownLinked(b: Blk, c: Blk, child: MemoryBlock, d: Blk)
      requires d in nodes && d != b && Linked(d) && d != c
      requires c.Parent() == b && c != top && c !in nodes
      ensures Grown(c, child).Linked(d)
    {
      if d.k > 0 { HalfParents(d); }
    }

    // Hanging a new free block c under b's block makes the grown tree well formed.
    lemma GrowShape(b: Blk, c: Blk, child: MemoryBlock, repr: set<MemoryBlock>)
      requires top in nodes && nodes[top] in repr && nodes[top].parent == null && nodes.Keys == cells.Keys
      requires forall d :: d in nodes ==> nodes[d] in repr && (d != b ==> Linked(d))
      requires b in nodes && b.k > 0 && c !in nodes && c != top && c.k < top.k && c.Parent() == b
      requires c.k > 0 ==> c.Left() !in nodes && c.Right() !in nodes
      requires child.pos == c && child.size == c.Size() && child.Content() == FREE && child.parent == nodes[b]
      requires child.leftChild == null && child.rightChild == null
      requires Grown(c, child).Linked(b)
      ensures Grown(c, child).Shape(repr + {child})
    {
      var g := Grown(c, child);
      forall d | d in g.nodes ensures g.nodes[d] in repr + {child} && g.Linked(d) {
        if d != b && d != c { GrownLinked(b, c, child, d); }
      }
    }
  }

  // A pending block that gets its pid is a request granted.
  lemma RequestedInTwo(cells: Cells, root: Blk, id: int, pid: int, bytes: int)
    requires Books(cells) && id != -1 && pid > 0 && bytes >= 1
    requires IdFresh(LiveOf(cells), id) && PidFresh(LiveOf(cells), pid)
    ensures Books(Requested(cells, root, id, pid, bytes))
    ensures var n := CeilLog(bytes);
            var grown, f := WithFree(cells, Visited(LiveOf(cells), root, n)), Find(LiveOf(cells), root, n);
            Requested(cells, root, id, pid, bytes)
            == if f.Some? then grown[f.value := Cell(id, -1, bytes)][f.value := Cell(id, pid, bytes)] else grown
  {
    RequestedBooks(cells, root, id, pid, bytes);
  }

  class Allocator {
    const root: MemoryBlock
    ghost var tree: Tree
    ghost var repr: set<MemoryBlock>

    ghost predicate Shape()
      reads this, repr
    {
      tree.Shape(repr) && tree.nodes[tree.top] == root
    }

    ghost predicate Valid()
      reads this, repr
    {
      Shape() && Books(tree.cells)
    }

    // The abstract state: which positions are live, and for whom.
    ghost function Live(): Live
      reads this
    {
      tree.Live()
    }

    constructor (totalSize: int, ghost k: nat)
      requires totalSize == Pow2(k)
      ensures Valid() && tree.top == Blk(k, 0) && tree.cells == map[Blk(k, 0) := FREE] && fresh(repr)
      ensures Live() == map[]
    {
      var block := new MemoryBlock(totalSize, Blk(k, 0));
      root := block;
      tree := Tree(Blk(k, 0), map[Blk(k, 0) := block], map[Blk(k, 0) := FREE]);
      repr := {block};
    }

    // ---------- get_used_space ----------

    method GetUsedSpace(node: MemoryBlock) returns (used: int)
      requires Shape() && tree.Has(node)
      ensures used == UsedSpace(Live(), node.pos)
    {
      used := 0;
      tree.Neighbours(node.pos, repr);
      tree.SpineStep(node.pos, repr);
      ghost var lefts := if node.leftChild == null then 0 else LeftUsed(Live(), node.leftChild.pos);
      ghost var rights := if node.rightChild == null then 0 else RightUsed(Live(), node.rightChild.pos);
      var left := node.leftChild;
      while left != null
        invariant Shape()
        invariant left != null ==> tree.Has(left)
        invariant used + (if left == null then 0 else LeftUsed(Live(), left.pos)) == lefts
        decreases if left == null then 0 else left.pos.k + 1
      {
        tree.Neighbours(left.pos, repr);
        tree.SpineStep(left.pos, repr);
        if left.processPid != -1 { used := used + left.allocatedBytes; }
        left := left.leftChild;
      }
      var right := node.rightChild;
      while right != null
        invariant Shape()
        invariant right != null ==> tree.Has(right)
        invariant used + (if right == null then 0 else RightUsed(Live(), right.pos)) == lefts + rights
        decreases if right == null then 0 else right.pos.k + 1
      {
        tree.Neighbours(right.pos, repr);
        tree.SpineStep(right.pos, repr);
        if right.processPid != -1 { used := used + right.allocatedBytes; }
        right := right.rightChild;
      }
    }

    // ---------- traverse_MemorySegment ----------

    // initialize_memory_Block, and its parent pointer.
    method NewChild(node: MemoryBlock, ghost c: Blk) returns (child: MemoryBlock)
      ensures fresh(child) && child.pos == c && child.size == node.size / 2 && child.Content() == FREE
      ensures child.parent == node && child.leftChild == null && child.rightChild == null
    {
      child := new MemoryBlock(node.size / 2, c);
      child.parent := node;
    }

    method CreateLeft(node: MemoryBlock)
      requires Shape() && tree.Has(node) && node in repr && node.leftChild == null && node.pos.k > 0
      modifies this`tree, this`repr, node`leftChild
      ensures Shape() && node.leftChild != null && fresh(node.leftChild) && node.leftChild.pos == node.pos.Left()
      ensures repr == old(repr) + {node.leftChild}
      ensures tree == old(tree).Grown(node.pos.Left(), node.leftChild) && node.pos.Left() !in old(tree.nodes)
    {
      ghost var t, b, c := tree, node.pos, node.pos.Left();
      tree.Neighbours(b, repr);
      tree.VacantHalf(b, c, repr);
      var child := NewChild(node, c);
      node.leftChild := child;
      forall d | d in t.nodes ensures t.nodes[d] in repr && (d != b ==> t.Linked(d)) {
        assert old(t.Linked(d));
      }
      t.GrowShape(b, c, child, repr);
      tree, repr := t.Grown(c, child), repr + {child};
    }

    method EnsureLeft(node: MemoryBlock)
      requires Shape() && tree.Has(node) && node in repr && node.pos.k > 0
      modifies this`tree, this`repr, node`leftChild
      ensures Shape() && old(repr) <= repr && forall o :: o in repr ==> o in old(repr) || fresh(o)
      ensures Extends(old(tree), tree) && tree.cells == WithFree(old(tree.cells), {node.pos.Left()})
      ensures node.leftChild != null && node.leftChild in repr
      ensures tree.Has(node.leftChild) && node.leftChild.pos == node.pos.Left()
    {
      if node.leftChild == null {
        CreateLeft(node);
      } else {
        tree.Neighbours(node.pos, repr);
      }
    }

    method CreateRight(node: MemoryBlock)
      requires Shape() && tree.Has(node) && node in repr && node.rightChild == null && node.pos.k > 0
      modifies this`tree, this`repr, node`rightChild
      ensures Shape() && node.rightChild != null && fresh(node.rightChild) && node.rightChild.pos == node.pos.Right()
      ensures repr == old(repr) + {node.rightChild}
      ensures tree == old(tree).Grown(node.pos.Right(), node.rightChild) && node.pos.Right() !in old(tree.nodes)
    {
      ghost var t, b, c := tree, node.pos, node.pos.Right();
      tree.Neighbours(b, repr);
      tree.VacantHalf(b, c, repr);
      var child := NewChild(node, c);
      node.rightChild := child;
      forall d | d in t.nodes ensures t.nodes[d] in repr && (d != b ==> t.Linked(d)) {
        assert old(t.Linked(d));
      }
      t.GrowShape(b, c, child, repr);
      tree, repr := t.Grown(c, child), repr + {child};
    }

    method EnsureRight(node: MemoryBlock)
      requires Shape() && tree.Has(node) && node in repr && node.pos.k > 0
      modifies this`tree, this`repr, node`rightChild
      ensures Shape() && old(repr) <= repr && forall o :: o in repr ==> o in old(repr) || fresh(o)
      ensures Extends(old(tree), tree) && tree.cells == WithFree(old(tree.cells), {node.pos.Right()})
      ensures node.rightChild != null && node.rightChild in repr
      ensures tree.Has(node.rightChild) && node.rightChild.pos == node.pos.Right()
    {
      if node.rightChild == null {
        CreateRight(node);
      } else {
        tree.Neighbours(node.pos, repr);
      }
    }

    // What a search below position b must return.
    ghost predicate Found(found: MemoryBlock?, wanted: Option<Blk>)
      reads this
    {
      match wanted
      case None => found == null
      case Some(c) => found != null && found in repr && tree.Has(found) && found.pos == c
    }

    method Traverse(node: MemoryBlock?, needed: int, ghost n: nat) returns (found: MemoryBlock?)
      requires Shape() && needed == Pow2(n)
      requires node != null ==> tree.Has(node) && node in repr
      modifies this`tree, this`repr, repr
      ensures Shape() && old(repr) <= repr && (forall o :: o in repr ==> o in old(repr) || fresh(o))
      ensures Extends(old(tree), tree)
      ensures tree.cells == if node == null then old(tree.cells)
                            else WithFree(old(tree.cells), Visited(old(Live()), node.pos, n))
      ensures Found(found, if node == null then None else Find(old(Live()), node.pos, n))
      decreases if node == null then 0 else node.pos.k + 1, 2
    {
      if node == null { return null; }
      tree.Neighbours(node.pos, repr);
      Pow2Order(node.pos.k, n);
      WithFreeNothing(tree.cells);
      if node.size < needed || node.processPid != -1 { return null; }
      if node.size == needed && node.processPid == -1 {
        var used := GetUsedSpace(node);
        if node.size - used >= needed { return node; }
      }
      found := TraverseHalves(node, needed, n);
    }

    // Left child first, then right, each created if it is missing.
    method TraverseHalves(node: MemoryBlock, needed: int, ghost n: nat) returns (found: MemoryBlock?)
      requires Shape() && needed == Pow2(n)
      requires tree.Has(node) && node in repr && node.pos.k > 0 && GoesOn(Live(), node.pos, n)
      modifies this`tree, this`repr, repr
      ensures Shape() && old(repr) <= repr && (forall o :: o in repr ==> o in old(repr) || fresh(o))
      ensures Extends(old(tree), tree)
      ensures tree.cells == WithFree(old(tree.cells), Visited(old(Live()), node.pos, n))
      ensures Found(found, Find(old(Live()), node.pos, n))
      decreases node.pos.k + 1, 1
    {
      ghost var cells, b := tree.cells, node.pos;
      found := TraverseLeft(node, needed, n);
      WithFreeBooks(cells, {b.Left()} + Visited(LiveOf(cells), b.Left(), n));
      if found == null {
        found := TraverseRight(node, needed, n);
        WithFreeTwice(cells, {b.Left()} + Visited(LiveOf(cells), b.Left(), n),
                      {b.Right()} + Visited(LiveOf(cells), b.Right(), n));
      }
    }

    method TraverseLeft(node: MemoryBlock, needed: int, ghost n: nat) returns (found: MemoryBlock?)
      requires Shape() && needed == Pow2(n)
      requires tree.Has(node) && node in repr && node.pos.k > 0
      modifies this`tree, this`repr, repr
      ensures Shape() && old(repr) <= repr && (forall o :: o in repr ==> o in old(repr) || fresh(o))
      ensures Extends(old(tree), tree)
      ensures tree.cells == WithFree(old(tree.cells), {node.pos.Left()} + Visited(old(Live()), node.pos.Left(), n))
      ensures Found(found, Find(old(Live()), node.pos.Left(), n))
      decreases node.pos.k + 1, 0
    {
      ghost var cells, l := tree.cells, node.pos.Left();
      EnsureLeft(node);
      WithFreeBooks(cells, {l});
      found := Traverse(node.leftChild, needed, n);
      WithFreeTwice(cells, {l}, Visited(LiveOf(cells), l, n));
    }

    method TraverseRight(node: MemoryBlock, needed: int, ghost n: nat) returns (found: MemoryBlock?)
      requires Shape() && needed == Pow2(n)
      requires tree.Has(node) && node in repr && node.pos.k > 0
      modifies this`tree, this`repr, repr
      ensures Shape() && old(repr) <= repr && (forall o :: o in repr ==> o in old(repr) || fresh(o))
      ensures Extends(old(tree), tree)
      ensures tree.cells == WithFree(old(tree.cells), {node.pos.Right()} + Visited(old(Live()), node.pos.Right(), n))
      ensures Found(found, Find(old(Live()), node.pos.Right(), n))
      decreases node.pos.k + 1, 0
    {
      ghost var cells, r := tree.cells, node.pos.Right();
      EnsureRight(node);
      WithFreeBooks(cells, {r});
      found := Traverse(node.rightChild, needed, n);
      WithFreeTwice(cells, {r}, Visited(LiveOf(cells), r, n));
    }

    // ---------- is_in_subtree, get_block_address ----------

    // Succeeds exactly for the blocks of the tree below node; a block of another tree is never found.
    method IsInSubtree(node: MemoryBlock?, target: MemoryBlock) returns (inside: bool)
      requires Shape()
      requires node != null ==> tree.Has(node)
      ensures inside <==> node != null && tree.Has(target) && Inside(target.pos, node.pos)
      decreases if node == null then 0 else node.pos.k + 1
    {
      if node == null { return false; }
      if node == target { return true; }
      ghost var b := node.pos;
      tree.Neighbours(b, repr);
      inside := IsInSubtree(node.leftChild, target);
      if !inside { inside := IsInSubtree(node.rightChild, target); }
      if tree.Has(target) { BelowIsBelowAHalf(target.pos, b); }
    }

    lemma BelowIsBelowAHalf(c: Blk, b: Blk)
      requires Shape() && c in tree.nodes && b in tree.nodes && c != b
      ensures var node := tree.nodes[b];
              node in repr &&
              (Inside(c, b) <==> ((node.leftChild != null && Inside(c, node.leftChild.pos)) ||
                                  (node.rightChild != null && Inside(c, node.rightChild.pos))))
    {
      tree.Neighbours(b, repr);
      if b.k > 0 {
        if Inside(c, b) {
          InsideHalf(c, b);
          var h := if Inside(c, b.Left()) then b.Left() else b.Right();
          HalfParents(b);
          tree.InsideRoot(b, repr);
          InsideTransitive(h, b, tree.top);
          tree.ShapeClosed(repr);
          AncestorsPresent(tree.cells, tree.top, c, h);
        } else {
          HalfInside'(c, b);
        }
      }
    }

    lemma HalfInside'(c: Blk, b: Blk)
      requires b.k > 0 && !Inside(c, b)
      ensures !Inside(c, b.Left()) && !Inside(c, b.Right())
    {
      if Inside(c, b.Left()) || Inside(c, b.Right()) { HalfInside(c, b); }
    }

    // The address range of a block of the tree, found by descending from the root; -1 for no block or a foreign one.
    method GetBlockAddress(block: MemoryBlock?) returns (start: int, end: int)
      requires Shape() && tree.top.j == 0
      ensures if block != null && tree.Has(block) then start == block.pos.Start() && end == block.pos.End() - 1
              else start == end == -1
    {
      tree.Neighbours(tree.top, repr);
      if block == null { return -1, -1; }
      if root == block { return 0, root.size - 1; }
      if tree.Has(block) { tree.InsideRoot(block.pos, repr); }
      start, end := Descend(block);
    }

    // Its loop.
    method Descend(block: MemoryBlock) returns (start: int, end: int)
      requires Shape() && tree.top.j == 0 && (tree.Has(block) ==> Inside(block.pos, tree.top))
      ensures if tree.Has(block) then start == block.pos.Start() && end == block.pos.End() - 1 else start == end == -1
    {
      tree.Neighbours(tree.top, repr);
      var base, size := 0, root.size;
      var current: MemoryBlock := root;
      while current != block
        invariant tree.Has(current) && (tree.Has(block) ==> Inside(block.pos, current.pos))
        invariant base == current.pos.Start() && size == current.pos.Size()
        decreases current.pos.k
      {
        ghost var b := current.pos;
        tree.Neighbours(b, repr);
        if b.k > 0 { HalvesOf(b); }
        size := size / 2;
        var left, right := current.leftChild, current.rightChild;
        var inLeft := IsInSubtree(left, block);
        if inLeft {
          current := left;
        } else {
          var inRight := IsInSubtree(right, block);
          if inRight {
            current := right;
            base := base + size;
          } else {
            if tree.Has(block) { BelowIsBelowAHalf(block.pos, b); }
            return -1, -1;
          }
        }
      }
      tree.Neighbours(block.pos, repr);
      start, end := base, base + block.size - 1;
    }

    // ---------- get_Process_Memory_Segment ----------

    method GetSegment(node: MemoryBlock?, id: int, pid: int) returns (found: MemoryBlock?)
      requires Shape()
      requires node != null ==> tree.Has(node)
      ensures found != null ==> node != null && tree.Has(found) && found in repr && found.Content().Matches(id, pid)
                                && Inside(found.pos, node.pos)
      ensures found == null && node != null ==>
                forall c :: c in tree.nodes && Inside(c, node.pos) ==> !tree.cells[c].Matches(id, pid)
      decreases if node == null then 0 else node.pos.k + 1
    {
      if node == null { return null; }
      tree.Neighbours(node.pos, repr);
      var left, right := node.leftChild, node.rightChild;
      if (id != -1 && node.idFromFile == id) || (pid != -1 && node.processPid == pid) { return node; }
      found := GetSegment(left, id, pid);
      if found == null { found := GetSegment(right, id, pid); }
      if found != null {
        BelowIsBelowAHalf(found.pos, node.pos);
        return;
      }
      forall c | c in tree.nodes && c != node.pos { BelowIsBelowAHalf(c, node.pos); }
    }

    // ---------- allocate_memory, update_id ----------

    method SetContent(block: MemoryBlock, id: int, pid: int, bytes: int)
      requires Shape() && tree.Has(block) && block in repr
      modifies this`tree, block`idFromFile, block`processPid, block`allocatedBytes
      ensures Shape() && tree == old(tree).Marked(block.pos, Cell(id, pid, bytes))
    {
      block.idFromFile, block.processPid, block.allocatedBytes := id, pid, bytes;
      ghost var t := tree;
      forall d | d in t.nodes ensures t.nodes[d] in repr && (d != block.pos ==> t.Linked(d)) {
        assert old(t.Linked(d));
      }
      assert old(t.Linked(block.pos));
      t.MarkedShape(block.pos, block.Content(), repr);
      tree := t.Marked(block.pos, block.Content());
    }

    method Allocate(id: int, bytes: int) returns (ok: bool, start: int, end: int)
      requires Valid() && tree.top.j == 0
      requires 1 <= bytes <= MAX_REQUEST && id != -1
      requires IdFresh(Live(), id)
      modifies this`tree, this`repr, repr
      ensures Shape() && forall o :: o in repr ==> o in old(repr) || fresh(o)
      ensures tree.top == old(tree.top) && Live() == old(Live())
      ensures var grown := WithFree(old(tree.cells), Visited(old(Live()), tree.top, CeilLog(bytes)));
              match Find(old(Live()), tree.top, CeilLog(bytes))
              case None => !ok && start == -1 && tree.cells == grown && Valid()
              case Some(c) => ok && tree.cells == grown[c := Cell(id, -1, bytes)]
                              && (forall d :: d in tree.cells && tree.cells[d].id == id ==> d == c)
                              && start == c.Start() && end == c.End() - 1
      ensures forall d :: d in tree.cells <==>
                d in old(tree.cells) || IsSplitOff(old(Live()), tree.top, CeilLog(bytes), d)
    {
      ghost var cells, live, n := tree.cells, Live(), CeilLog(bytes);
      var needed := HighestPowerOf2(bytes);
      tree.Neighbours(tree.top, repr);
      var block := Traverse(root, needed, n);
      WithFreeBooks(cells, Visited(live, tree.top, n));
      forall d ensures d in tree.cells <==> d in cells || IsSplitOff(live, tree.top, n, d) {
        SearchCreates(cells, tree.top, n, d);
      }
      start, end := -1, -1;
      if block != null {
        FindReturnsUnowned(live, tree.top, n);
        start, end := Reserve(block, id, bytes);
      }
      ok := block != null;
    }

    // The block found is marked with the id and the size; it is live once it has a pid.
    method Reserve(block: MemoryBlock, id: int, bytes: int) returns (start: int, end: int)
      requires Valid() && tree.top.j == 0 && tree.Has(block) && block in repr && block.pos !in Live()
      requires id != -1 && bytes >= 1 && IdFresh(Live(), id)
      modifies this`tree, block`idFromFile, block`processPid, block`allocatedBytes
      ensures Shape() && tree.top == old(tree.top) && Live() == old(Live())
      ensures tree.cells == old(tree.cells)[block.pos := Cell(id, -1, bytes)]
      ensures forall d :: d in tree.cells && tree.cells[d].id == id ==> d == block.pos
      ensures start == block.pos.Start() && end == block.pos.End() - 1
    {
      tree.Neighbours(block.pos, repr);
      PendingIsAlone(tree.cells, block.pos, id, bytes);
      SetContent(block, id, block.processPid, bytes);
      start, end := GetBlockAddress(block);
    }

    // c is the position whose block carries the id, if any; without one nothing happens.
    method UpdateId(id: int, pid: int, ghost c: Option<Blk>)
      requires Shape()
      requires match c
               case None => forall b :: b in tree.cells ==> id == -1 || tree.cells[b].id != id
               case Some(b) => b in tree.cells && id != -1 && tree.cells[b].id == id
                               && forall d :: d in tree.cells && tree.cells[d].id == id ==> d == b
      modifies this`tree, repr
      ensures Shape() && repr == old(repr)
      ensures tree == match c case None => old(tree)
                              case Some(b) => old(tree).Marked(b, old(tree.cells)[b].(pid := pid))
    {
      tree.Neighbours(tree.top, repr);
      var found := GetSegment(root, id, -1);
      if c.Some? { tree.InsideRoot(c.value, repr); }
      if found != null {
        tree.Neighbours(found.pos, repr);
        SetContent(found, found.idFromFile, pid, found.allocatedBytes);
      }
    }

    // The two calls as their callers make them, with the process created in between.
    method Admit(id: int, pid: int, bytes: int) returns (ok: bool, start: int)
      requires Valid() && tree.top.j == 0
      requires 1 <= bytes <= MAX_REQUEST && id != -1 && IdFresh(Live(), id)
      requires pid > 0 && PidFresh(Live(), pid)
      modifies this`tree, this`repr, repr
      ensures Valid() && forall o :: o in repr ==> o in old(repr) || fresh(o)
      ensures tree.top == old(tree.top) && tree.cells == Requested(old(tree.cells), tree.top, id, pid, bytes)
      ensures match Find(old(Live()), tree.top, CeilLog(bytes))
              case None => !ok && start == -1
              case Some(c) => ok && start == c.Start()
    {
      ghost var cells, c := tree.cells, Find(Live(), tree.top, CeilLog(bytes));
      RequestedInTwo(cells, tree.top, id, pid, bytes);
      var end;
      ok, start, end := Allocate(id, bytes);
      if ok { UpdateId(id, pid, c); }
    }

    // ---------- merge_buddy_blocks, deallocate_memory ----------

    method MergeBuddyBlocks(block: MemoryBlock)
      requires Shape() && tree.Has(block)
      modifies this`tree, repr
      ensures Shape() && tree.top == old(tree.top)
      ensures tree.cells == Merged(old(tree.cells), tree.top, block.pos)
      decreases tree.top.k - block.pos.k
    {
      ghost var b := block.pos;
      tree.Neighbours(b, repr);
      if block.parent == null { return; }
      assert b != tree.top;
      tree.Neighbours(b.Parent(), repr);
      var parent := block.parent;
      var buddy := if parent.leftChild == block then parent.rightChild else parent.leftChild;
      tree.BuddyLinked(b, repr);
      if buddy != null && buddy.allocatedBytes == 0 && buddy.leftChild == null && buddy.rightChild == null {
        CutChildren(parent);
        MergeBuddyBlocks(parent);
      }
    }

    method CutChildren(parent: MemoryBlock)
      requires Shape() && tree.Has(parent)
      modifies this`tree, repr
      ensures Shape() && tree == old(tree).Pruned(parent.pos)
    {
      tree.Neighbours(parent.pos, repr);
      tree.InsideRoot(parent.pos, repr);
      parent.leftChild, parent.rightChild := null, null;
      ghost var t := tree;
      forall d | d in t.nodes ensures t.nodes[d] in repr && (d != parent.pos ==> t.Linked(d)) {
        assert old(t.Linked(d));
      }
      t.PruneShape(parent.pos, repr);
      tree := t.Pruned(parent.pos);
    }

    // Removes the block of pid, and nothing else exactly when no other live block lies below the one made whole
    // by merging. An overlap-free live set loses nothing else, however far the merging goes.
    method Deallocate(pid: int) returns (ok: bool, start: int, end: int)
      requires Valid() && tree.top.j == 0
      modifies this`tree, repr
      ensures Valid() && tree.top == old(tree.top) && tree.cells == Exited(old(tree.cells), tree.top, pid)
      ensures ok <==> !PidFresh(old(Live()), pid)
      ensures ok ==> exists b :: b in old(Live()) && old(Live())[b].pid == pid
                              && start == b.Start() && end == b.End() - 1
                              && MergedSomehow(old(tree.cells)[b := FREE], tree.top, b, tree.cells)
      ensures Submap(Live(), Free(old(Live()), pid))
      ensures Live() == Free(old(Live()), pid) <==> NothingCovered(old(tree.cells), tree.top, pid)
      ensures Safe(old(Live())) ==> Live() == Free(old(Live()), pid)
    {
      tree.Neighbours(tree.top, repr);
      tree.ShapeClosed(repr);
      ExitedBooks(tree.cells, tree.top, pid);
      if Safe(Live()) { SafeCoversNothing(tree.cells, tree.top, pid); }
      var found := GetSegment(root, -1, pid);
      if found == null {
        forall b | b in Live() ensures Live()[b].pid != pid { tree.InsideRoot(b, repr); }
        return false, -1, -1;
      }
      tree.Neighbours(found.pos, repr);
      assert found.pos in Live();
      ExitedBlock(tree.cells, tree.top, found.pos);
      ExitLeaves(tree.cells, tree.top, found.pos, Exited(tree.cells, tree.top, pid));
      start, end := ClearAndMerge(found);
      ok := true;
    }

    method ClearAndMerge(block: MemoryBlock) returns (start: int, end: int)
      requires Shape() && tree.top.j == 0 && tree.Has(block) && block in repr
      modifies this`tree, repr
      ensures Shape() && tree.top == old(tree.top)
      ensures tree.cells == Merged(old(tree.cells)[block.pos := FREE], tree.top, block.pos)
      ensures start == block.pos.Start() && end == block.pos.End() - 1
    {
      start, end := GetBlockAddress(block);
      SetContent(block, -1, -1, 0);
      MergeBuddyBlocks(block);
    }
  }
}
