/** Which blocks the tree consists of: exactly the ones a request creates, and exactly the ones an exit merges away. */
module SplitsAndMerges {
  import opened Wrappers
  import opened Blocks
  import opened FirstFit
  import opened BlockCells
  import opened CellRuns

  // ---------- what a request creates ----------

  // A live block inside top covers c.
  ghost predicate Covered(live: Live, c: Blk, top: Blk) { exists x :: x in live && Inside(c, x) && Inside(x, top) }

  // d ends before the block found, or contains it; if none is found, any d will do.
  ghost predicate Before(d: Blk, found: Option<Blk>) {
    match found case None => true case Some(c) => d.End() <= c.Start() || Inside(c, d)
  }

  // A half of a block large enough that no live block covers, no further than the search gets.
  ghost predicate IsSplitOff(live: Live, top: Blk, n: nat, d: Blk) {
    && Inside(d, top) && d != top && d.Parent().k >= n && !Covered(live, d.Parent(), top)
    && Before(d, Find(live, top, n))
  }

  lemma StrictlyInside(d: Blk, b: Blk)
    requires Inside(d, b) && d != b
    ensures d.k < b.k && Inside(d.Parent(), b) && d.Parent() != d
    ensures d != b.Left() && d != b.Right() && Inside(d, b.Left()) ==> Inside(d.Parent(), b.Left())
    ensures d != b.Left() && d != b.Right() && Inside(d, b.Right()) ==> Inside(d.Parent(), b.Right())
  {
  }

  // The search does not go on below b: nothing below b is split off.
  lemma NothingSplitOff(live: Live, b: Blk, n: nat, d: Blk)
    requires !GoesOn(live, b, n)
    ensures !IsSplitOff(live, b, n, d)
  {
    if Inside(d, b) && d != b {
      StrictlyInside(d, b);
      InsideWithin(d, b);
      if b in live {
        assert Inside(b, b) && Covered(live, d.Parent(), b);
      } else if b.k >= n {
        assert Find(live, b, n) == Some(b);
        if Inside(b, d) { InsideAntisymmetric(b, d); }
      }
    }
  }

  // Seen from a half, a block is covered as it is from the whole.
  lemma CoveredInHalf(live: Live, c: Blk, b: Blk, h: Blk)
    requires b.k > 0 && b !in live && (h == b.Left() || h == b.Right()) && Inside(c, h)
    ensures Covered(live, c, b) <==> Covered(live, c, h)
  {
    HalvesOf(b);
    if x :| x in live && Inside(c, x) && Inside(x, h) {
      HalfInside(x, b);
      assert Covered(live, c, b);
    }
    if x :| x in live && Inside(c, x) && Inside(x, b) {
      InsideHalf(x, b);
      if !Inside(x, h) {
        var o := if h == b.Left() then b.Right() else b.Left();
        InsideTransitive(c, x, o);
        InsideWithin(c, b.Left());
        InsideWithin(c, b.Right());
      }
      assert Covered(live, c, h);
    }
  }

  // The two halves themselves.
  lemma HalvesSplitOff(live: Live, b: Blk, n: nat)
    requires GoesOn(live, b, n) && b.k > 0
    ensures IsSplitOff(live, b, n, b.Left())
    ensures IsSplitOff(live, b, n, b.Right()) <==> Find(live, b.Left(), n).None?
  {
    var l, r, f := b.Left(), b.Right(), Find(live, b, n);
    HalfParents(b);
    NotCovered(live, b);
    FindInside(live, l, n);
    FindInside(live, r, n);
    BeforeHalves(b, f);
    if f.Some? { OneHalf(f.value, b); }
    assert Inside(b, b) && Inside(l, b) && Inside(r, b);
  }

  lemma NotCovered(live: Live, b: Blk)
    requires b !in live
    ensures !Covered(live, b, b)
  {
    forall x | x in live && Inside(b, x) && Inside(x, b) ensures false { InsideAntisymmetric(b, x); }
  }

  lemma OneHalf(c: Blk, b: Blk)
    requires b.k > 0
    ensures !(Inside(c, b.Left()) && Inside(c, b.Right()))
  {
    HalvesOf(b);
    if Inside(c, b.Left()) && Inside(c, b.Right()) {
      InsideWithin(c, b.Left());
      InsideWithin(c, b.Right());
    }
  }

  lemma BeforeHalves(b: Blk, found: Option<Blk>)
    requires b.k > 0 && (found.Some? ==> Inside(found.value, b.Left()) || Inside(found.value, b.Right()))
    ensures Before(b.Left(), found)
    ensures Before(b.Right(), found) <==> found.None? || Inside(found.value, b.Right())
  {
    HalvesOf(b);
    if found.Some? {
      if Inside(found.value, b.Left()) { InsideWithin(found.value, b.Left()); }
      if Inside(found.value, b.Right()) { InsideWithin(found.value, b.Right()); }
    }
  }

  // What lies in the left half is split off by the search there.
  lemma LeftSplitOff(live: Live, b: Blk, n: nat, d: Blk)
    requires GoesOn(live, b, n) && b.k > 0 && Inside(d, b.Left()) && d != b.Left()
    ensures IsSplitOff(live, b, n, d) <==> IsSplitOff(live, b.Left(), n, d)
  {
    var l, r := b.Left(), b.Right();
    HalvesOf(b);
    HalfInside(d, b);
    StrictlyInside(d, l);
    CoveredInHalf(live, d.Parent(), b, l);
    FindInside(live, r, n);
    InsideWithin(d, l);
    if Find(live, l, n).None? && Find(live, r, n).Some? { InsideWithin(Find(live, r, n).value, r); }
  }

  // What lies in the right half, only if the left one offers nothing.
  lemma RightSplitOff(live: Live, b: Blk, n: nat, d: Blk)
    requires GoesOn(live, b, n) && b.k > 0 && Inside(d, b.Right()) && d != b.Right()
    ensures IsSplitOff(live, b, n, d) <==> Find(live, b.Left(), n).None? && IsSplitOff(live, b.Right(), n, d)
  {
    var l, r := b.Left(), b.Right();
    HalvesOf(b);
    HalfInside(d, b);
    StrictlyInside(d, r);
    CoveredInHalf(live, d.Parent(), b, r);
    FindInside(live, l, n);
    InsideWithin(d, r);
    if Find(live, l, n).Some? {
      var c := Find(live, l, n).value;
      InsideWithin(c, l);
      if Inside(c, d) { InsideWithin(c, d); }
    }
  }

  // The search visits, and creates where missing, exactly the blocks that are split off.
  lemma {:induction false} VisitedExactly(live: Live, b: Blk, n: nat, d: Blk)
    ensures d in Visited(live, b, n) <==> IsSplitOff(live, b, n, d)
    decreases b.k
  {
    VisitedInside(live, b, n);
    if !GoesOn(live, b, n) {
      NothingSplitOff(live, b, n, d);
    } else if Inside(d, b) && d != b {
      var l, r := b.Left(), b.Right();
      HalvesSplitOff(live, b, n);
      VisitedInside(live, l, n);
      VisitedInside(live, r, n);
      VisitedExactly(live, l, n, d);
      VisitedExactly(live, r, n, d);
      InsideHalf(d, b);
      HalvesOf(b);
      if Inside(d, l) && d != l { LeftSplitOff(live, b, n, d); }
      if Inside(d, r) && d != r { RightSplitOff(live, b, n, d); }
    }
  }

  // What allocate_memory leaves: the blocks there were, and those split off.
  lemma SearchCreates(cells: Cells, root: Blk, n: nat, d: Blk)
    ensures d in WithFree(cells, Visited(LiveOf(cells), root, n))
       <==> d in cells || IsSplitOff(LiveOf(cells), root, n, d)
  {
    VisitedExactly(LiveOf(cells), root, n, d);
  }

  // What a request leaves, block by block: the new ones are free, the one found is the owner's, the others are as
  // before.
  lemma RequestLeaves(cells: Cells, root: Blk, id: int, pid: int, bytes: int, d: Blk)
    requires Closed(cells, root)
    ensures var found, after := Find(LiveOf(cells), root, CeilLog(bytes)), Requested(cells, root, id, pid, bytes);
            && (d in after <==> d in cells || IsSplitOff(LiveOf(cells), root, CeilLog(bytes), d))
            && (d in after ==> after[d] == if found == Some(d) then Cell(id, pid, bytes)
                                           else if d in cells then cells[d] else FREE)
  {
    var live, n := LiveOf(cells), CeilLog(bytes);
    SearchCreates(cells, root, n, d);
    if Find(live, root, n).Some? {
      FoundPresent(live, root, n);
      SearchCreates(cells, root, n, Find(live, root, n).value);
    }
  }

  // ---------- what an exit merges away ----------

  // The other half of m's parent has been created, is free and has no halves of its own.
  ghost predicate FreeLeafBeside(cells: Cells, m: Blk) {
    exists s :: s in cells && s != m && s.Parent() == m.Parent() && cells[s].bytes == 0
                && (s.k > 0 ==> s.Left() !in cells && s.Right() !in cells)
  }

  lemma BesideIsBuddy(cells: Cells, m: Blk)
    ensures FreeLeafBeside(cells, m) <==> BuddyFree(cells, m)
  {
    ParentHalves(m);
    HalvesOf(m.Parent());
    var o := Buddy(m);
    assert o != m && o.Parent() == m.Parent();
    forall s | s != m && s.Parent() == m.Parent() ensures s == o { ParentHalves(s); }
  }

  // If m is not b itself, the blocks strictly below m are gone, and nothing else; m is the whole memory or has no free
  // leaf beside it any more; and every block on the way from b to m had one.
  ghost predicate MergedUpTo(freed: Cells, root: Blk, b: Blk, m: Blk, after: Cells) {
    && Inside(b, m) && Inside(m, root)
    && (forall c :: c in after <==> c in freed && (m != b && Inside(c, m) ==> c == m))
    && (forall c :: c in after ==> after[c] == freed[c])
    && (m == root || !FreeLeafBeside(after, m))
    && forall d :: Inside(b, d) && Inside(d, m) && d != m ==> FreeLeafBeside(freed, d)
  }

  lemma {:induction false} MergeTopInRoot(cells: Cells, root: Blk, b: Blk)
    requires Inside(b, root)
    ensures Inside(MergeTop(cells, root, b), root)
    decreases root.k - b.k
  {
    InsideWithin(b, root);
    if b.k < root.k && BuddyFree(cells, b) { MergeTopInRoot(cells, root, b.Parent()); }
  }

  // The highest block made whole has nothing left to merge with.
  lemma {:induction false} MergedAsFarAsPossible(cells: Cells, root: Blk, b: Blk)
    ensures var m := MergeTop(cells, root, b); m.k >= root.k || !BuddyFree(Merged(cells, root, b), m)
    decreases root.k - b.k
  {
    if b.k < root.k && BuddyFree(cells, b) {
      CutKeepsMergeTop(cells, root, b.Parent(), b.Parent());
      MergedAsFarAsPossible(CutBelow(cells, b.Parent()), root, b.Parent());
    }
  }

  // Merging passes a block only because of the free leaf beside it.
  lemma {:induction false} MergedNoFurther(cells: Cells, root: Blk, b: Blk, d: Blk)
    requires Inside(b, d) && Inside(d, MergeTop(cells, root, b)) && d != MergeTop(cells, root, b)
    ensures BuddyFree(cells, d)
    decreases root.k - b.k
  {
    if b == d {
      if b.k >= root.k || !BuddyFree(cells, b) { InsideAntisymmetric(b, d); }
    } else {
      StrictlyInside(b, d);
      InsideWithin(d, MergeTop(cells, root, b));
      MergedNoFurther(cells, root, b.Parent(), d);
    }
  }

  lemma MergedSomeWay(freed: Cells, root: Blk, b: Blk)
    requires Inside(b, root)
    ensures MergedUpTo(freed, root, b, MergeTop(freed, root, b), Merged(freed, root, b))
  {
    var m, after := MergeTop(freed, root, b), Merged(freed, root, b);
    MergedInOneCut(freed, root, b);
    MergeTopInRoot(freed, root, b);
    MergedAsFarAsPossible(freed, root, b);
    BesideIsBuddy(after, m);
    WholeIsRoot(m, root);
    forall d | Inside(b, d) && Inside(d, m) && d != m ensures FreeLeafBeside(freed, d) {
      MergedNoFurther(freed, root, b, d);
      BesideIsBuddy(freed, d);
    }
  }

  lemma WholeIsRoot(m: Blk, root: Blk)
    requires Inside(m, root)
    ensures m.k >= root.k <==> m == root
  {
    InsideWithin(m, root);
  }

  lemma FreeLeafStays(freed: Cells, m: Blk, b: Blk, after: Cells)
    requires FreeLeafBeside(freed, m)
    requires forall c :: c in after <==> c in freed && (m != b && Inside(c, m) ==> c == m)
    requires forall c :: c in after ==> after[c] == freed[c]
    ensures FreeLeafBeside(after, m)
  {
    var s :| s in freed && s != m && s.Parent() == m.Parent() && freed[s].bytes == 0
             && (s.k > 0 ==> s.Left() !in freed && s.Right() !in freed);
    if Inside(s, m) { InsideWithin(s, m); }
    assert s in after;
  }

  // That says all there is to say: there is one way to merge.
  lemma OneWayToMerge(freed: Cells, root: Blk, b: Blk, m: Blk, after: Cells, m': Blk, after': Cells)
    requires MergedUpTo(freed, root, b, m, after) && MergedUpTo(freed, root, b, m', after') && m.k <= m'.k
    ensures m == m' && after == after'
  {
    AncestorsNested(b, m, m');
    if m == root { InsideAntisymmetric(m, m'); }
    if m != m' { FreeLeafStays(freed, m, b, after); }
  }

  lemma AncestorsNested(b: Blk, m: Blk, m': Blk)
    requires Inside(b, m) && Inside(b, m') && m.k <= m'.k
    ensures Inside(m, m')
  {
    InsideWithin(b, m);
    InsideWithin(b, m');
    NestedOrDisjoint(m, m');
  }

  ghost predicate MergedSomehow(freed: Cells, root: Blk, b: Blk, after: Cells) {
    exists m :: MergedUpTo(freed, root, b, m, after)
  }

  // What an exit leaves, exactly: its block is cleared, and merged as far as possible and no further.
  lemma ExitLeaves(cells: Cells, root: Blk, b: Blk, after: Cells)
    requires Books(cells) && Closed(cells, root) && b in LiveOf(cells)
    ensures after == Exited(cells, root, cells[b].pid) <==> MergedSomehow(cells[b := FREE], root, b, after)
  {
    var freed := cells[b := FREE];
    var top, done := MergeTop(freed, root, b), Merged(freed, root, b);
    ExitedBlock(cells, root, b);
    MergedSomeWay(freed, root, b);
    if m :| MergedUpTo(freed, root, b, m, after) {
      if top.k <= m.k {
        OneWayToMerge(freed, root, b, top, done, m, after);
      } else {
        OneWayToMerge(freed, root, b, m, after, top, done);
      }
    }
  }
}
