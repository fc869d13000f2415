/** Which sets of request sizes keep every run of the allocator free of overlaps, and which keep every exit harmless. */
module SafeSizes {
  import opened Blocks
  import opened FirstFit
  import opened BlockCells
  import opened CellRuns
  import opened Overlaps

  // Every request of the run asks for a size of the set.
  ghost predicate Asks(ops: seq<Op>, sizes: set<int>) {
    forall i :: 0 <= i < |ops| && ops[i].Request? ==> ops[i].bytes in sizes
  }

  ghost predicate HasSizes(live: Live, sizes: set<int>) { forall b :: b in live ==> live[b].bytes in sizes }

  // ---------- no overlap ----------

  // Any two sizes that fit round to the same or to adjacent powers of two.
  ghost predicate Adjacent(root: Blk, sizes: set<int>) {
    forall a, b :: a in sizes && b in sizes && CeilLog(b) <= root.k ==> CeilLog(b) <= CeilLog(a) + 1
  }

  // No proper run from an empty memory that asks for these sizes ever overlaps.
  ghost predicate SafeForEveryRun(root: Blk, sizes: set<int>) {
    forall ops :: Asks(ops, sizes) && ProperRun(map[root := FREE], root, ops) ==> TreeSafe(map[root := FREE], root, ops)
  }

  lemma NoHitBesideSimilar(live: Live, root: Blk, sizes: set<int>, n: nat)
    requires WellSized(live, root) && HasSizes(live, sizes)
    requires n <= root.k ==> forall a :: a in sizes ==> n <= CeilLog(a) + 1
    ensures !InteriorHit(live, root, n)
  {
    if n <= root.k {
      forall b | b in live ensures b.k + 1 >= n { assert live[b].bytes in sizes; }
      HalfSizedNeighboursAreSafe(live, root, n);
    } else {
      forall c | Inside(c, root) ensures c.k <= root.k { InsideWithin(c, root); }
    }
  }

  lemma OpKeepsSizes(cells: Cells, root: Blk, sizes: set<int>, op: Op)
    requires TreeOk(cells, root) && ProperOp(LiveOf(cells), op) && HasSizes(LiveOf(cells), sizes)
    requires op.Request? ==> op.bytes in sizes
    ensures TreeOk(ApplyCells(cells, root, op), root) && HasSizes(LiveOf(ApplyCells(cells, root, op)), sizes)
  {
    ApplyKeepsTree(cells, root, op);
  }

  lemma {:induction false} AdjacentSizesAreSafe(cells: Cells, root: Blk, sizes: set<int>, ops: seq<Op>)
    requires TreeOk(cells, root) && Safe(LiveOf(cells)) && HasSizes(LiveOf(cells), sizes)
    requires Adjacent(root, sizes) && Asks(ops, sizes) && ProperRun(cells, root, ops)
    ensures TreeSafe(cells, root, ops)
    decreases |ops|
  {
    if ops != [] {
      var op := ops[0];
      OpKeepsSizes(cells, root, sizes, op);
      SafeOp(cells, root, op);
      if op.Request? {
        NoHitBesideSimilar(LiveOf(cells), root, sizes, CeilLog(op.bytes));
        AdmitSafeIff(LiveOf(cells), root, op.id, op.pid, op.bytes);
      }
      AdjacentSizesAreSafe(ApplyCells(cells, root, op), root, sizes, ops[1..]);
    }
  }

  // A set of request sizes never leads to an overlap, in any proper run of the tree from an empty memory,
  // exactly when the sizes that fit round to at most two adjacent powers of two.
  lemma SizesSafeIff(root: Blk, sizes: set<int>)
    requires root.j == 0 && forall x :: x in sizes ==> x >= 1
    ensures SafeForEveryRun(root, sizes) <==> Adjacent(root, sizes)
  {
    if Adjacent(root, sizes) {
      forall ops | Asks(ops, sizes) && ProperRun(map[root := FREE], root, ops)
        ensures TreeSafe(map[root := FREE], root, ops)
      {
        AdjacentSizesAreSafe(map[root := FREE], root, sizes, ops);
      }
    } else {
      var a, b :| a in sizes && b in sizes && CeilLog(b) <= root.k && CeilLog(b) > CeilLog(a) + 1;
      SizesApartOverlap(root, a, b);
      assert Asks(OverlapRun(a, b), sizes);
    }
  }

  // ---------- no exit that costs another process its block ----------

  // The same of the sizes that fit into half of the memory: a block of the whole memory may lie over any other.
  ghost predicate Near(root: Blk, sizes: set<int>) {
    forall a, b :: a in sizes && b in sizes && CeilLog(b) < root.k ==> CeilLog(b) <= CeilLog(a) + 1
  }

  // No two live blocks other than the whole memory overlap.
  ghost predicate SafeBelow(live: Live, root: Blk) {
    forall a, b :: a in live && b in live && a != b && a != root && b != root ==> Disjoint(a, b)
  }

  ghost predicate HarmlessForEveryRun(root: Blk, sizes: set<int>) {
    forall ops :: Asks(ops, sizes) && ProperRun(map[root := FREE], root, ops) ==>
      HarmlessExits(map[root := FREE], root, ops)
  }

  // Merging from below the root never looks at the root's own cell.
  lemma {:induction false} MergeTopOverlooksRoot(cells: Cells, root: Blk, b: Blk)
    requires root in cells
    ensures MergeTop(cells[root := FREE], root, b) == MergeTop(cells, root, b)
    decreases root.k - b.k
  {
    if b.k < root.k {
      assert Buddy(b).k < root.k;
      if BuddyFree(cells, b) { MergeTopOverlooksRoot(cells, root, b.Parent()); }
    }
  }

  lemma RootClearedBooks(cells: Cells, root: Blk)
    requires Books(cells) && root in cells
    ensures Books(cells[root := FREE])
    ensures forall c :: c in LiveOf(cells[root := FREE]) <==> c in LiveOf(cells) && c != root
  {
    if root in LiveOf(cells) { FreedBooks(cells, root); } else { assert cells[root := FREE] == cells; }
  }

  // With the block of b cleared, and the root's, nothing live overlaps b.
  lemma QuietBelow(cells: Cells, root: Blk, b: Blk)
    requires Books(cells) && root in cells && SafeBelow(LiveOf(cells), root) && b in LiveOf(cells) && b != root
    ensures var bare := cells[b := FREE][root := FREE];
            && Books(bare) && Quiet(LiveOf(bare), b)
            && forall c :: c in LiveOf(cells) ==> c == b || c == root || c in LiveOf(bare)
  {
    var freed := cells[b := FREE];
    FreedBooks(cells, b);
    RootClearedBooks(freed, root);
    var bare := freed[root := FREE];
    forall c | c in LiveOf(bare) ensures !Inside(c, b) && !Inside(b, c) {
      assert c in LiveOf(cells) && c != b && c != root;
      OverlapNested(c, b);
    }
  }

  // As long as no two blocks other than the whole memory overlap, an exit removes only its own.
  lemma SafeBelowCoversNothing(cells: Cells, root: Blk, pid: int)
    requires Closed(cells, root) && Books(cells) && SafeBelow(LiveOf(cells), root)
    ensures NothingCovered(cells, root, pid)
  {
    forall b | b in LiveOf(cells) && cells[b].pid == pid
      ensures var m := MergeTop(cells[b := FREE], root, b);
              m == b || forall c :: c in LiveOf(cells) && Inside(c, m) ==> c == m || c == b
    {
      if b != root { BelowCoversNothing(cells, root, b); }
    }
  }

  lemma BelowCoversNothing(cells: Cells, root: Blk, b: Blk)
    requires Closed(cells, root) && Books(cells) && SafeBelow(LiveOf(cells), root) && b in LiveOf(cells) && b != root
    ensures var m := MergeTop(cells[b := FREE], root, b);
            forall c :: c in LiveOf(cells) && Inside(c, m) ==> c == m || c == b
  {
    var freed := cells[b := FREE];
    var bare, m := freed[root := FREE], MergeTop(freed, root, b);
    QuietBelow(cells, root, b);
    MergeTopOverlooksRoot(freed, root, b);
    assert Closed(bare, root);
    QuietMergeTop(bare, root, b);
    InsideWithin(b, root);
    forall c | c in LiveOf(cells) && Inside(c, m) ensures c == m || c == b {
      if c == root { InsideWithin(root, m); }
    }
  }

  lemma OpKeepsSafeBelow(cells: Cells, root: Blk, sizes: set<int>, op: Op)
    requires TreeOk(cells, root) && ProperOp(LiveOf(cells), op) && HasSizes(LiveOf(cells), sizes)
    requires SafeBelow(LiveOf(cells), root) && Near(root, sizes) && (op.Request? ==> op.bytes in sizes)
    ensures SafeBelow(LiveOf(ApplyCells(cells, root, op)), root)
  {
    ApplyKeepsTree(cells, root, op);
    if op.Request? { AdmitKeepsSafeBelow(LiveOf(cells), root, sizes, op.id, op.pid, op.bytes); }
  }

  lemma AdmitKeepsSafeBelow(live: Live, root: Blk, sizes: set<int>, id: int, pid: int, bytes: int)
    requires WellSized(live, root) && HasSizes(live, sizes) && SafeBelow(live, root)
    requires Near(root, sizes) && bytes in sizes
    ensures SafeBelow(Admit(live, root, id, pid, bytes), root)
  {
    var n := CeilLog(bytes);
    if Find(live, root, n).Some? {
      var c := Find(live, root, n).value;
      GrantIsLowestFreeIff(live, root, n);
      InsideWithin(c, root);
      if n < root.k {
        NoHitBesideSimilar(live, root, sizes, n);
      } else {
        assert c == root by { SameSizeInside(c, root); }
      }
    }
  }

  lemma SameSizeInside(c: Blk, root: Blk)
    requires Inside(c, root) && c.k >= root.k
    ensures c == root
  {
    InsideWithin(c, root);
  }

  lemma {:induction false} NearSizesAreHarmless(cells: Cells, root: Blk, sizes: set<int>, ops: seq<Op>)
    requires TreeOk(cells, root) && SafeBelow(LiveOf(cells), root) && HasSizes(LiveOf(cells), sizes)
    requires Near(root, sizes) && Asks(ops, sizes) && ProperRun(cells, root, ops)
    ensures HarmlessExits(cells, root, ops)
    decreases |ops|
  {
    if ops != [] {
      var op := ops[0];
      if op.Exit? { SafeBelowCoversNothing(cells, root, op.pid); }
      OpKeepsSizes(cells, root, sizes, op);
      OpKeepsSafeBelow(cells, root, sizes, op);
      NearSizesAreHarmless(ApplyCells(cells, root, op), root, sizes, ops[1..]);
    }
  }

  lemma {:induction false} HarmlessLater(cells: Cells, root: Blk, ops: seq<Op>, more: seq<Op>)
    requires HarmlessExits(cells, root, ops + more)
    ensures HarmlessExits(CellsAfter(cells, root, ops), root, more)
    decreases |ops|
  {
    if ops == [] {
      assert ops + more == more;
    } else {
      assert (ops + more)[1..] == ops[1..] + more;
      HarmlessLater(ApplyCells(cells, root, ops[0]), root, ops[1..], more);
    }
  }

  lemma LossRunHarms(root: Blk, small: int, large: int)
    requires root.j == 0 && 1 <= small && CeilLog(small) + 2 <= CeilLog(large) < root.k
    ensures ProperRun(map[root := FREE], root, LossRun(small, large))
    ensures !HarmlessExits(map[root := FREE], root, LossRun(small, large))
  {
    var ops := LossRun(small, large);
    var before := ExitCostsAnotherBlock(root, small, large);
    assert ops == ops[..6] + [Exit(104)];
    if HarmlessExits(map[root := FREE], root, ops) {
      HarmlessLater(map[root := FREE], root, ops[..6], [Exit(104)]);
    }
  }

  // A set of request sizes never lets an exit cost another process its block, in any proper run from an empty memory,
  // exactly when the sizes that fit into half of it round to no more than twice any other.
  lemma SizesHarmlessIff(root: Blk, sizes: set<int>)
    requires root.j == 0 && forall x :: x in sizes ==> x >= 1
    ensures HarmlessForEveryRun(root, sizes) <==> Near(root, sizes)
  {
    if Near(root, sizes) {
      forall ops | Asks(ops, sizes) && ProperRun(map[root := FREE], root, ops)
        ensures HarmlessExits(map[root := FREE], root, ops)
      {
        NearSizesAreHarmless(map[root := FREE], root, sizes, ops);
      }
    } else {
      var a, b :| a in sizes && b in sizes && CeilLog(b) < root.k && CeilLog(b) > CeilLog(a) + 1;
      LossRunHarms(root, a, b);
      assert Asks(LossRun(a, b), sizes);
    }
  }
}
