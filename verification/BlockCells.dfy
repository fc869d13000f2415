/** What the blocks of the allocator's tree record, by position, and what merging does to it. */
module BlockCells {
  import opened Blocks
  import opened FirstFit

  // What a block records about its owner.
  datatype Cell = Cell(id: int, pid: int, bytes: int) {
    ghost predicate IsFree() { this == FREE }

    ghost predicate IsOwned() { pid > 0 && id != -1 && bytes >= 1 }

    predicate Matches(wantedId: int, wantedPid: int) {
      (wantedId != -1 && id == wantedId) || (wantedPid != -1 && pid == wantedPid)
    }
  }

  const FREE := Cell(-1, -1, 0)

  type Cells = map<Blk, Cell>

  ghost function LiveOf(cells: Cells): Live {
    map b | b in cells && cells[b].pid != -1 :: Owner(cells[b].id, cells[b].pid, cells[b].bytes)
  }

  // No id and no pid names both a and b.
  ghost predicate OwnNames(cells: Cells, a: Blk, b: Blk)
    requires a in cells && b in cells
  {
    a != b ==> && (cells[a].id == cells[b].id ==> cells[a].id == -1)
               && (cells[a].pid == cells[b].pid ==> cells[a].pid == -1)
  }

  // Every cell is free or owned; ids and pids name at most one cell.
  ghost predicate Books(cells: Cells) {
    && (forall b :: b in cells ==> cells[b].IsFree() || cells[b].IsOwned())
    && forall a, b {:trigger OwnNames(cells, a, b)} :: a in cells && b in cells ==> OwnNames(cells, a, b)
  }

  // Between allocate_memory and update_id: a free cell marked with a new id leaves the live blocks alone,
  // and is the only one with that id.
  lemma PendingIsAlone(cells: Cells, c: Blk, id: int, bytes: int)
    requires Books(cells) && c in cells && c !in LiveOf(cells)
    requires id != -1 && IdFresh(LiveOf(cells), id)
    ensures LiveOf(cells[c := Cell(id, -1, bytes)]) == LiveOf(cells)
    ensures forall d :: d in cells && cells[d].id == id ==> d == c
  {
    forall b | b in cells ensures cells[b].id != id {
      if b !in LiveOf(cells) { assert cells[b].IsFree(); }
    }
  }

  lemma OneBlockPerPid(cells: Cells, b: Blk)
    requires Books(cells) && b in LiveOf(cells)
    ensures forall c :: c in LiveOf(cells) && cells[c].pid == cells[b].pid <==> c == b
  {
    forall c | c in LiveOf(cells) ensures OwnNames(cells, c, b) {}
  }

  // Clearing an owner's cell frees exactly that owner.
  lemma FreedBooks(cells: Cells, c: Blk)
    requires Books(cells) && c in LiveOf(cells)
    ensures Books(cells[c := FREE])
    ensures LiveOf(cells[c := FREE]) == Free(LiveOf(cells), cells[c].pid)
    ensures Safe(LiveOf(cells)) ==> Quiet(LiveOf(cells[c := FREE]), c)
  {
    OneBlockPerPid(cells, c);
    forall a, b | a in cells && b in cells ensures OwnNames(cells[c := FREE], a, b) { assert OwnNames(cells, a, b); }
    if Safe(LiveOf(cells)) { FreedIsQuiet(LiveOf(cells), c, cells[c].pid); }
  }

  lemma FreedIsQuiet(live: Live, c: Blk, pid: int)
    requires Safe(live) && c in live && live[c].pid == pid
    ensures Quiet(Free(live, pid), c)
  {
    forall b | b in Free(live, pid) ensures !Inside(b, c) && !Inside(c, b) { OverlapNested(b, c); }
  }

  // No live block overlaps b.
  ghost predicate Quiet(live: Live, b: Blk) {
    forall c :: c in live ==> !Inside(c, b) && !Inside(b, c)
  }

  // ---------- merge_buddy_blocks ----------

  ghost function Buddy(b: Blk): Blk {
    if b.Parent().Left() == b then b.Parent().Right() else b.Parent().Left()
  }

  ghost predicate Leaf(cells: Cells, b: Blk) {
    b in cells && (b.k > 0 ==> b.Left() !in cells && b.Right() !in cells)
  }

  // b's buddy has been created, is free and has no children.
  ghost predicate BuddyFree(cells: Cells, b: Blk) {
    Leaf(cells, Buddy(b)) && cells[Buddy(b)].bytes == 0
  }

  // Everything strictly below b is dropped.
  ghost function CutBelow(cells: Cells, b: Blk): Cells {
    map c | c in cells && (Inside(c, b) ==> c == b) :: cells[c]
  }

  // The cells after merging upward from b, one level at a time.
  ghost function Merged(cells: Cells, top: Blk, b: Blk): Cells
    decreases top.k - b.k
  {
    if b.k >= top.k || !BuddyFree(cells, b) then cells
    else Merged(CutBelow(cells, b.Parent()), top, b.Parent())
  }

  // The highest block that the merging makes whole: b itself if its buddy is in use or was never created.
  ghost function MergeTop(cells: Cells, top: Blk, b: Blk): (m: Blk)
    ensures Inside(b, m) && (b.k <= top.k ==> m.k <= top.k)
    decreases top.k - b.k
  {
    if b.k >= top.k || !BuddyFree(cells, b) then b
    else
      var m := MergeTop(cells, top, b.Parent());
      ParentInside(b, m);
      m
  }

  lemma BuddyOutside(b: Blk, c: Blk)
    requires Inside(c, Buddy(b))
    ensures !Inside(c, b) && c != b
  {
    ParentHalves(b);
    HalvesOf(b.Parent());
    InsideWithin(c, Buddy(b));
    if Inside(c, b) { InsideWithin(c, b); }
  }

  // Cutting below b does not change what its ancestors find beside them.
  lemma {:induction false} CutKeepsMergeTop(cells: Cells, top: Blk, b: Blk, q: Blk)
    requires Inside(b, q)
    ensures MergeTop(CutBelow(cells, b), top, q) == MergeTop(cells, top, q)
    decreases top.k - q.k
  {
    var s := Buddy(q);
    forall c | Inside(c, s) ensures !Inside(c, b) {
      BuddyOutside(q, c);
      if Inside(c, b) { InsideTransitive(c, b, q); }
    }
    if s.k > 0 { HalfParents(s); }
    if q.k < top.k && BuddyFree(cells, q) {
      InsideParent(b, q);
      CutKeepsMergeTop(cells, top, b, q.Parent());
    }
  }

  lemma InsideParent(b: Blk, q: Blk)
    requires Inside(b, q)
    ensures Inside(b, q.Parent())
  {
    InsideWithin(b, q);
    InsideTransitive(b, q, q.Parent());
  }

  lemma CutTwice(cells: Cells, b: Blk, m: Blk)
    requires Inside(b, m)
    ensures CutBelow(CutBelow(cells, b), m) == CutBelow(cells, m)
  {
    forall c | Inside(c, b) ensures Inside(c, m) && (c == m ==> c == b) {
      InsideTransitive(c, b, m);
      if c == m { InsideAntisymmetric(b, m); }
    }
  }

  // Level by level, merging drops everything below one block, or nothing.
  lemma {:induction false} MergedInOneCut(cells: Cells, top: Blk, b: Blk)
    ensures var m := MergeTop(cells, top, b);
            Merged(cells, top, b) == if m == b then cells else CutBelow(cells, m)
    decreases top.k - b.k
  {
    if b.k < top.k && BuddyFree(cells, b) {
      var p := b.Parent();
      var less := CutBelow(cells, p);
      CutKeepsMergeTop(cells, top, p, p);
      MergedInOneCut(less, top, p);
      var m := MergeTop(cells, top, p);
      InsideWithin(p, m);
      CutTwice(cells, p, m);
    }
  }

  // Merging is harmless exactly when nothing live lies below the block it makes whole.
  lemma MergeLosesNothingIff(cells: Cells, top: Blk, b: Blk)
    ensures LiveOf(Merged(cells, top, b)) == LiveOf(cells) <==>
            (var m := MergeTop(cells, top, b);
             m == b || forall c :: c in LiveOf(cells) && Inside(c, m) ==> c == m)
  {
    MergedInOneCut(cells, top, b);
    var m := MergeTop(cells, top, b);
    if LiveOf(CutBelow(cells, m)) == LiveOf(cells) {
      forall c | c in LiveOf(cells) && Inside(c, m) ensures c == m { assert c in LiveOf(CutBelow(cells, m)); }
    }
  }

  // No live block but pid's own lies strictly below the block that merging makes whole once pid's is free.
  ghost predicate NothingCovered(cells: Cells, top: Blk, pid: int) {
    forall b :: b in LiveOf(cells) && cells[b].pid == pid ==>
      var m := MergeTop(cells[b := FREE], top, b);
      m == b || forall c :: c in LiveOf(cells) && Inside(c, m) ==> c == m || c == b
  }

  lemma FreeingLosesNothingIff(cells: Cells, top: Blk, b: Blk)
    requires Books(cells) && b in LiveOf(cells)
    ensures LiveOf(Merged(cells[b := FREE], top, b)) == Free(LiveOf(cells), cells[b].pid)
       <==> NothingCovered(cells, top, cells[b].pid)
  {
    var pid, m := cells[b].pid, MergeTop(cells[b := FREE], top, b);
    FreedBooks(cells, b);
    MergeLosesNothingIff(cells[b := FREE], top, b);
    OneBlockPerPid(cells, b);
    assert NothingCovered(cells, top, pid) <==>
           (m == b || forall c :: c in LiveOf(cells) && Inside(c, m) ==> c == m || c == b);
    forall c ensures c in LiveOf(cells[b := FREE]) <==> c in LiveOf(cells) && c != b {}
  }

  // A live block covered by another is lost when the other is freed and its buddy can be merged with.
  lemma CoveredBlockIsLost(cells: Cells, top: Blk, big: Blk, inner: Blk)
    requires Books(cells) && big in LiveOf(cells) && inner in LiveOf(cells)
    requires Inside(inner, big) && inner != big && big.k < top.k && BuddyFree(cells[big := FREE], big)
    ensures inner !in LiveOf(Merged(cells[big := FREE], top, big)) && !NothingCovered(cells, top, cells[big].pid)
  {
    var freed := cells[big := FREE];
    var m := MergeTop(freed, top, big);
    InsideWithin(big.Parent(), m);
    InsideWithin(inner, big);
    InsideTransitive(inner, big, m);
    MergedInOneCut(freed, top, big);
    FreeingLosesNothingIff(cells, top, big);
    assert inner in Free(LiveOf(cells), cells[big].pid) by { OneBlockPerPid(cells, big); }
  }
}
