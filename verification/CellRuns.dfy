/** What requests and exits do to the blocks of the tree, exactly: which blocks a search splits off,
    and what an exit merges away. */
module CellRuns {
  import opened Wrappers
  import opened Blocks
  import opened FirstFit
  import opened BlockCells

  // ---------- the blocks a search splits off ----------

  // The positions strictly below b that the search for a block of 2^n bytes visits, creating what is missing.
  ghost function Visited(live: Live, b: Blk, n: nat): set<Blk>
    decreases b.k
  {
    if !GoesOn(live, b, n) then {}
    else {b.Left()} + Visited(live, b.Left(), n)
         + if Find(live, b.Left(), n).Some? then {} else {b.Right()} + Visited(live, b.Right(), n)
  }

  // The search goes on in the halves of b: b is large enough, not owned, and no answer itself.
  predicate GoesOn(live: Live, b: Blk, n: nat) {
    b.k >= n && b !in live && !(b.k == n && b.Size() - UsedSpace(live, b) >= Pow2(n))
  }

  // The cells with a free block at every position of s that had none.
  ghost function WithFree(cells: Cells, s: set<Blk>): Cells {
    map c | c in cells.Keys + s :: if c in cells then cells[c] else FREE
  }

  lemma WithFreeNothing(cells: Cells)
    ensures WithFree(cells, {}) == cells
  {
  }

  lemma WithFreeTwice(cells: Cells, s: set<Blk>, t: set<Blk>)
    ensures WithFree(WithFree(cells, s), t) == WithFree(cells, s + t)
  {
  }

  lemma WithFreeBooks(cells: Cells, s: set<Blk>)
    ensures LiveOf(WithFree(cells, s)) == LiveOf(cells)
    ensures Books(cells) ==> Books(WithFree(cells, s))
  {
    if Books(cells) {
      forall a, b | a in cells.Keys + s && b in cells.Keys + s ensures OwnNames(WithFree(cells, s), a, b) {
        if a in cells && b in cells { assert OwnNames(cells, a, b); }
      }
    }
  }

  // Everything visited lies below b.
  lemma {:induction false} VisitedInside(live: Live, b: Blk, n: nat)
    ensures forall d :: d in Visited(live, b, n) ==> Inside(d, b) && d != b
    decreases b.k
  {
    if GoesOn(live, b, n) {
      var l, r := b.Left(), b.Right();
      VisitedInside(live, l, n);
      VisitedInside(live, r, n);
      forall d | Inside(d, l) || Inside(d, r) ensures Inside(d, b) && d != b { HalfInside(d, b); }
    }
  }

  lemma {:induction false} FindInside(live: Live, b: Blk, n: nat)
    ensures var f := Find(live, b, n); f.Some? ==> Inside(f.value, b)
    decreases b.k
  {
    if GoesOn(live, b, n) {
      var l, r := b.Left(), b.Right();
      FindInside(live, l, n);
      FindInside(live, r, n);
      forall d | Inside(d, l) || Inside(d, r) ensures Inside(d, b) { HalfInside(d, b); }
    }
  }

  // A search that succeeds has split off nothing to the right of what it found, and nothing below it.
  lemma {:induction false} VisitedUpTo(live: Live, b: Blk, n: nat, d: Blk)
    requires Find(live, b, n).Some? && d in Visited(live, b, n)
    ensures var c := Find(live, b, n).value; d.End() <= c.Start() || Inside(c, d)
    decreases b.k
  {
    var l, r := b.Left(), b.Right();
    HalvesOf(b);
    FindInside(live, l, n);
    FindInside(live, r, n);
    VisitedInside(live, l, n);
    if Find(live, l, n).Some? {
      if d != l { VisitedUpTo(live, l, n, d); }
    } else {
      InsideWithin(Find(live, r, n).value, r);
      if d in Visited(live, l, n) { InsideWithin(d, l); }
      if d != l && d != r && d !in Visited(live, l, n) { VisitedUpTo(live, r, n, d); }
    }
  }

  // ---------- the tree stays a tree ----------

  // Every block but the root has its parent, and all lie inside the root.
  ghost predicate Closed(cells: Cells, root: Blk) {
    root in cells && forall c :: c in cells ==> Inside(c, root) && (c != root ==> c.Parent() in cells)
  }

  lemma {:induction false} VisitedClosed(live: Live, b: Blk, n: nat)
    ensures forall d :: d in Visited(live, b, n) ==> d.Parent() == b || d.Parent() in Visited(live, b, n)
    decreases b.k
  {
    if GoesOn(live, b, n) {
      HalfParents(b);
      VisitedClosed(live, b.Left(), n);
      VisitedClosed(live, b.Right(), n);
    }
  }

  lemma SearchKeepsClosed(cells: Cells, root: Blk, n: nat)
    requires Closed(cells, root)
    ensures Closed(WithFree(cells, Visited(LiveOf(cells), root, n)), root)
  {
    VisitedInside(LiveOf(cells), root, n);
    VisitedClosed(LiveOf(cells), root, n);
  }

  lemma CutKeepsClosed(cells: Cells, root: Blk, b: Blk)
    requires Closed(cells, root) && Inside(b, root)
    ensures Closed(CutBelow(cells, b), root)
  {
    var less := CutBelow(cells, b);
    if Inside(root, b) { InsideAntisymmetric(root, b); }
    forall c | c in less && c != root ensures c.Parent() in less {
      if Inside(c.Parent(), b) { ParentInside(c, b); InsideWithin(c.Parent(), b); }
    }
  }

  lemma {:induction false} AncestorsPresent(cells: Cells, root: Blk, c: Blk, p: Blk)
    requires Closed(cells, root) && c in cells && Inside(c, p) && Inside(p, root)
    ensures p in cells
    decreases p.k - c.k
  {
    InsideWithin(c, p);
    if c != p {
      InsideWithin(p, root);
      AncestorsPresent(cells, root, c.Parent(), p);
    }
  }

  // In a tree nothing lies below a leaf.
  lemma NothingBelowLeaf(cells: Cells, root: Blk, b: Blk, c: Blk)
    requires Closed(cells, root) && Leaf(cells, b) && c in cells && Inside(c, b)
    ensures c == b
  {
    if c != b {
      InsideHalf(c, b);
      HalfParents(b);
      var h := if Inside(c, b.Left()) then b.Left() else b.Right();
      InsideTransitive(h, b, root);
      AncestorsPresent(cells, root, c, h);
    }
  }

  // ---------- without overlaps merging covers nothing ----------

  lemma QuietParent(cells: Cells, root: Blk, b: Blk)
    requires Closed(cells, root) && Books(cells) && b in cells && b.k < root.k
    requires Quiet(LiveOf(cells), b) && BuddyFree(cells, b)
    ensures Quiet(LiveOf(cells), b.Parent())
  {
    var p, live := b.Parent(), LiveOf(cells);
    assert Buddy(b) !in live;
    forall c | c in live ensures !Inside(c, p) && !Inside(p, c) {
      if Inside(p, c) { ParentInside(b, c); }
      if Inside(c, p) { BelowParent(b, c); }
      if Inside(c, Buddy(b)) { NothingBelowLeaf(cells, root, Buddy(b), c); }
    }
  }

  lemma BelowParent(b: Blk, c: Blk)
    requires Inside(c, b.Parent())
    ensures c == b.Parent() || Inside(c, b) || Inside(c, Buddy(b))
  {
    ParentHalves(b);
    HalfParents(b.Parent());
    if c != b.Parent() { InsideHalf(c, b.Parent()); }
  }

  lemma {:induction false} QuietMergeTop(cells: Cells, root: Blk, b: Blk)
    requires Closed(cells, root) && Books(cells) && b in cells && Quiet(LiveOf(cells), b)
    ensures Quiet(LiveOf(cells), MergeTop(cells, root, b))
    decreases root.k - b.k
  {
    if b.k < root.k && BuddyFree(cells, b) {
      QuietParent(cells, root, b);
      QuietMergeTop(cells, root, b.Parent());
    }
  }

  // While no two live blocks overlap, an exit removes only its own.
  lemma SafeCoversNothing(cells: Cells, root: Blk, pid: int)
    requires Closed(cells, root) && Books(cells) && Safe(LiveOf(cells))
    ensures NothingCovered(cells, root, pid)
  {
    forall b | b in LiveOf(cells) && cells[b].pid == pid
      ensures var m := MergeTop(cells[b := FREE], root, b);
              forall c :: c in LiveOf(cells) && Inside(c, m) ==> c == m || c == b
    {
      var freed := cells[b := FREE];
      FreedBooks(cells, b);
      QuietMergeTop(freed, root, b);
      OneBlockPerPid(cells, b);
      forall c | c in LiveOf(cells) && c != b ensures c in LiveOf(freed) {}
    }
  }

  // ---------- requests and exits ----------

  // allocate_memory followed by update_id.
  ghost function Requested(cells: Cells, root: Blk, id: int, pid: int, bytes: int): Cells {
    var live, n := LiveOf(cells), CeilLog(bytes);
    var grown := WithFree(cells, Visited(live, root, n));
    match Find(live, root, n)
    case None => grown
    case Some(c) => grown[c := Cell(id, pid, bytes)]
  }

  // deallocate_memory: the block of pid is cleared and merged upward.
  ghost function Exited(cells: Cells, root: Blk, pid: int): Cells {
    if b :| b in LiveOf(cells) && cells[b].pid == pid then Merged(cells[b := FREE], root, b) else cells
  }

  lemma RequestedLive(cells: Cells, root: Blk, id: int, pid: int, bytes: int)
    requires pid != -1
    ensures LiveOf(Requested(cells, root, id, pid, bytes)) == Admit(LiveOf(cells), root, id, pid, bytes)
  {
    WithFreeBooks(cells, Visited(LiveOf(cells), root, CeilLog(bytes)));
  }

  lemma RequestedBooks(cells: Cells, root: Blk, id: int, pid: int, bytes: int)
    requires Books(cells) && id != -1 && pid > 0 && bytes >= 1
    requires IdFresh(LiveOf(cells), id) && PidFresh(LiveOf(cells), pid)
    ensures Books(Requested(cells, root, id, pid, bytes))
  {
    var live, n := LiveOf(cells), CeilLog(bytes);
    var grown := WithFree(cells, Visited(live, root, n));
    WithFreeBooks(cells, Visited(live, root, n));
    if Find(live, root, n).Some? {
      FindReturnsUnowned(live, root, n);
      NewOwnerBooks(grown, Find(live, root, n).value, Cell(id, pid, bytes));
    }
  }

  lemma NewOwnerBooks(cells: Cells, c: Blk, cell: Cell)
    requires Books(cells) && c !in LiveOf(cells) && cell.IsOwned()
    requires IdFresh(LiveOf(cells), cell.id) && PidFresh(LiveOf(cells), cell.pid)
    ensures Books(cells[c := cell])
  {
    forall b | b in cells ensures cells[b].id != cell.id && cells[b].pid != cell.pid {
      if b !in LiveOf(cells) { assert cells[b].IsFree(); }
    }
    var more := cells[c := cell];
    forall a, b | a in more && b in more ensures OwnNames(more, a, b) {
      if a in cells && b in cells { assert OwnNames(cells, a, b); }
    }
  }

  lemma RequestedClosed(cells: Cells, root: Blk, id: int, pid: int, bytes: int)
    requires Closed(cells, root)
    ensures Closed(Requested(cells, root, id, pid, bytes), root)
  {
    var live, n := LiveOf(cells), CeilLog(bytes);
    SearchKeepsClosed(cells, root, n);
    if Find(live, root, n).Some? { FoundPresent(live, root, n); }
  }

  // What is found is the starting point of the search or has been visited.
  lemma {:induction false} FoundPresent(live: Live, b: Blk, n: nat)
    requires Find(live, b, n).Some?
    ensures var c := Find(live, b, n).value; c == b || c in Visited(live, b, n)
    decreases b.k
  {
    if !(b.k == n && b.Size() - UsedSpace(live, b) >= Pow2(n)) {
      if Find(live, b.Left(), n).Some? { FoundPresent(live, b.Left(), n); } else { FoundPresent(live, b.Right(), n); }
    }
  }

  // The block of a known pid, and what its exit leaves.
  lemma ExitedBlock(cells: Cells, root: Blk, b: Blk)
    requires Books(cells) && b in LiveOf(cells)
    ensures Exited(cells, root, cells[b].pid) == Merged(cells[b := FREE], root, b)
  {
    OneBlockPerPid(cells, b);
  }

  lemma MergedBooks(cells: Cells, root: Blk, b: Blk)
    requires Books(cells)
    ensures Books(Merged(cells, root, b)) && Submap(LiveOf(Merged(cells, root, b)), LiveOf(cells))
  {
    MergedInOneCut(cells, root, b);
    var less := Merged(cells, root, b);
    forall c, d | c in less && d in less ensures OwnNames(less, c, d) { assert OwnNames(cells, c, d); }
  }

  lemma {:induction false} MergedClosed(cells: Cells, root: Blk, b: Blk)
    requires Closed(cells, root) && b in cells
    ensures Closed(Merged(cells, root, b), root)
    decreases root.k - b.k
  {
    if b.k < root.k && BuddyFree(cells, b) {
      CutKeepsClosed(cells, root, b.Parent());
      MergedClosed(CutBelow(cells, b.Parent()), root, b.Parent());
    }
  }

  // An exit keeps the books, never adds or moves a block, and removes exactly its own if nothing is covered.
  lemma ExitedBooks(cells: Cells, root: Blk, pid: int)
    requires Books(cells)
    ensures Books(Exited(cells, root, pid))
    ensures Submap(LiveOf(Exited(cells, root, pid)), Free(LiveOf(cells), pid))
    ensures LiveOf(Exited(cells, root, pid)) == Free(LiveOf(cells), pid) <==> NothingCovered(cells, root, pid)
  {
    if b :| b in LiveOf(cells) && cells[b].pid == pid {
      ExitedBlock(cells, root, b);
      FreedBooks(cells, b);
      MergedBooks(cells[b := FREE], root, b);
      FreeingLosesNothingIff(cells, root, b);
    }
  }

  lemma ExitedClosed(cells: Cells, root: Blk, pid: int)
    requires Closed(cells, root)
    ensures Closed(Exited(cells, root, pid), root)
  {
    if b :| b in LiveOf(cells) && cells[b].pid == pid && Exited(cells, root, pid) == Merged(cells[b := FREE], root, b) {
      MergedClosed(cells[b := FREE], root, b);
    }
  }

  // ---------- whole runs ----------

  ghost function ApplyCells(cells: Cells, root: Blk, op: Op): Cells {
    match op
    case Request(id, pid, bytes) => Requested(cells, root, id, pid, bytes)
    case Exit(pid) => Exited(cells, root, pid)
  }

  ghost function CellsAfter(cells: Cells, root: Blk, ops: seq<Op>): Cells
    decreases |ops|
  {
    if ops == [] then cells else CellsAfter(ApplyCells(cells, root, ops[0]), root, ops[1..])
  }

  // A request is made for a process that holds nothing yet.
  ghost predicate ProperOp(live: Live, op: Op) {
    op.Request? ==>
      && op.id != -1 && op.bytes >= 1 && IdFresh(live, op.id) && op.pid > 0 && PidFresh(live, op.pid)
  }

  ghost predicate ProperRun(cells: Cells, root: Blk, ops: seq<Op>)
    decreases |ops|
  {
    ops != [] ==> ProperOp(LiveOf(cells), ops[0]) && ProperRun(ApplyCells(cells, root, ops[0]), root, ops[1..])
  }

  lemma ApplyKeepsBooks(cells: Cells, root: Blk, op: Op)
    requires Books(cells) && Closed(cells, root) && ProperOp(LiveOf(cells), op)
    ensures Books(ApplyCells(cells, root, op)) && Closed(ApplyCells(cells, root, op), root)
  {
    match op {
      case Request(id, pid, bytes) =>
        RequestedBooks(cells, root, id, pid, bytes);
        RequestedClosed(cells, root, id, pid, bytes);
      case Exit(pid) =>
        ExitedBooks(cells, root, pid);
        ExitedClosed(cells, root, pid);
    }
  }

  // No exit of the run removes more than its own block.
  ghost predicate HarmlessExits(cells: Cells, root: Blk, ops: seq<Op>)
    decreases |ops|
  {
    ops != [] ==>
      && (ops[0].Exit? ==> NothingCovered(cells, root, ops[0].pid))
      && HarmlessExits(ApplyCells(cells, root, ops[0]), root, ops[1..])
  }

  // Throughout the run the tree has the live blocks that first fit leaves on the set of live blocks alone.
  ghost predicate TreeHidden(cells: Cells, live: Live, root: Blk, ops: seq<Op>)
    decreases |ops|
  {
    && LiveOf(cells) == live
    && (ops != [] ==> TreeHidden(ApplyCells(cells, root, ops[0]), Apply(live, root, ops[0]), root, ops[1..]))
  }

  // The split and merged tree never shows exactly when no exit costs another process its block.
  lemma {:induction false} TreeHiddenIff(cells: Cells, root: Blk, ops: seq<Op>)
    requires Books(cells) && Closed(cells, root) && ProperRun(cells, root, ops)
    ensures TreeHidden(cells, LiveOf(cells), root, ops) <==> HarmlessExits(cells, root, ops)
    decreases |ops|
  {
    if ops != [] {
      var op := ops[0];
      var next := ApplyCells(cells, root, op);
      ApplyKeepsBooks(cells, root, op);
      if op.Request? { RequestedLive(cells, root, op.id, op.pid, op.bytes); } else { ExitedBooks(cells, root, op.pid); }
      if LiveOf(next) == Apply(LiveOf(cells), root, op) {
        TreeHiddenIff(next, root, ops[1..]);
      } else {
        NotHidden(next, Apply(LiveOf(cells), root, op), root, ops[1..]);
      }
    }
  }

  lemma NotHidden(cells: Cells, live: Live, root: Blk, ops: seq<Op>)
    requires LiveOf(cells) != live
    ensures !TreeHidden(cells, live, root, ops)
  {
  }

  // ---------- runs of the tree without overlaps ----------

  // Every state of the run is free of overlaps.
  ghost predicate TreeSafe(cells: Cells, root: Blk, ops: seq<Op>)
    decreases |ops|
  {
    Safe(LiveOf(cells)) && (ops != [] ==> TreeSafe(ApplyCells(cells, root, ops[0]), root, ops[1..]))
  }

  // No request of the run is made in a state with an interior hit for its size.
  ghost predicate TreeMeetsNoHit(cells: Cells, root: Blk, ops: seq<Op>)
    decreases |ops|
  {
    ops != [] ==>
      && (ops[0].Request? ==> !InteriorHit(LiveOf(cells), root, CeilLog(ops[0].bytes)))
      && TreeMeetsNoHit(ApplyCells(cells, root, ops[0]), root, ops[1..])
  }

  // What holds of the tree at every point of a proper run, overlapping or not.
  ghost predicate TreeOk(cells: Cells, root: Blk) {
    Books(cells) && Closed(cells, root) && WellSized(LiveOf(cells), root)
  }

  lemma ApplyKeepsTree(cells: Cells, root: Blk, op: Op)
    requires TreeOk(cells, root) && ProperOp(LiveOf(cells), op)
    ensures TreeOk(ApplyCells(cells, root, op), root)
    ensures op.Request? ==> LiveOf(ApplyCells(cells, root, op)) == Apply(LiveOf(cells), root, op)
    ensures op.Exit? ==> Submap(LiveOf(ApplyCells(cells, root, op)), LiveOf(cells))
  {
    ApplyKeepsBooks(cells, root, op);
    ApplyWellSized(LiveOf(cells), root, op);
    if op.Request? { RequestedLive(cells, root, op.id, op.pid, op.bytes); } else { ExitedBooks(cells, root, op.pid); }
  }

  // Over every proper run the tree stays a tree, names are unique, and every live block is the least power of two
  // that holds its bytes, inside the memory.
  lemma {:induction false} RunKeepsTree(cells: Cells, root: Blk, ops: seq<Op>)
    requires TreeOk(cells, root) && ProperRun(cells, root, ops)
    ensures TreeOk(CellsAfter(cells, root, ops), root)
    decreases |ops|
  {
    if ops != [] {
      ApplyKeepsTree(cells, root, ops[0]);
      RunKeepsTree(ApplyCells(cells, root, ops[0]), root, ops[1..]);
    }
  }

  // Without overlaps an operation on the tree does to the live blocks what first fit on the live blocks does.
  lemma SafeOp(cells: Cells, root: Blk, op: Op)
    requires Books(cells) && Closed(cells, root) && ProperOp(LiveOf(cells), op) && Safe(LiveOf(cells))
    ensures Books(ApplyCells(cells, root, op)) && Closed(ApplyCells(cells, root, op), root)
    ensures LiveOf(ApplyCells(cells, root, op)) == Apply(LiveOf(cells), root, op)
    ensures op.Exit? ==> NothingCovered(cells, root, op.pid)
  {
    ApplyKeepsBooks(cells, root, op);
    if op.Request? {
      RequestedLive(cells, root, op.id, op.pid, op.bytes);
    } else {
      SafeCoversNothing(cells, root, op.pid);
      ExitedBooks(cells, root, op.pid);
    }
  }

  // Whether a run stays disjoint is decided by the live blocks it starts from, not by how they are split or merged.
  lemma {:induction false} TreeSafeFromLive(cells: Cells, root: Blk, ops: seq<Op>)
    requires Books(cells) && Closed(cells, root) && ProperRun(cells, root, ops)
    ensures TreeSafe(cells, root, ops) <==> AllSafe(LiveOf(cells), root, ops)
    decreases |ops|
  {
    if ops != [] && Safe(LiveOf(cells)) {
      SafeOp(cells, root, ops[0]);
      TreeSafeFromLive(ApplyCells(cells, root, ops[0]), root, ops[1..]);
    }
  }

  lemma {:induction false} ProperIsPositive(cells: Cells, root: Blk, ops: seq<Op>)
    requires ProperRun(cells, root, ops)
    ensures PositiveRequests(ops)
    decreases |ops|
  {
    if ops != [] {
      ProperIsPositive(ApplyCells(cells, root, ops[0]), root, ops[1..]);
      forall i | 0 <= i < |ops| && ops[i].Request? ensures ops[i].bytes >= 1 {
        if i > 0 { assert ops[1..][i - 1] == ops[i]; }
      }
    }
  }

  lemma {:induction false} TreeSafeHere(cells: Cells, root: Blk, ops: seq<Op>)
    requires TreeOk(cells, root) && ProperRun(cells, root, ops) && Safe(LiveOf(cells))
    ensures TreeSafe(cells, root, ops) <==> TreeMeetsNoHit(cells, root, ops)
    decreases |ops|
  {
    if ops != [] {
      var op, next := ops[0], ApplyCells(cells, root, ops[0]);
      ApplyKeepsTree(cells, root, op);
      if op.Request? { AdmitSafeIff(LiveOf(cells), root, op.id, op.pid, op.bytes); }
      if Safe(LiveOf(next)) { TreeSafeHere(next, root, ops[1..]); }
    }
  }

  // Live blocks stay disjoint over the whole run of the tree exactly when no request of it meets an interior hit;
  // equivalently, when none does in the run of first fit on the live blocks alone.
  lemma TreeSafeIff(cells: Cells, root: Blk, ops: seq<Op>)
    requires TreeOk(cells, root) && ProperRun(cells, root, ops) && Safe(LiveOf(cells))
    ensures TreeSafe(cells, root, ops) <==> TreeMeetsNoHit(cells, root, ops)
    ensures TreeSafe(cells, root, ops) <==> NoInteriorHits(LiveOf(cells), root, ops)
  {
    TreeSafeHere(cells, root, ops);
    TreeSafeFromLive(cells, root, ops);
    ProperIsPositive(cells, root, ops);
    RunSafeIff(LiveOf(cells), root, ops);
  }

  lemma {:induction false} SafeRunsAreHarmless(cells: Cells, root: Blk, ops: seq<Op>)
    requires Books(cells) && Closed(cells, root) && ProperRun(cells, root, ops) && TreeSafe(cells, root, ops)
    ensures HarmlessExits(cells, root, ops)
    decreases |ops|
  {
    if ops != [] {
      SafeOp(cells, root, ops[0]);
      SafeRunsAreHarmless(ApplyCells(cells, root, ops[0]), root, ops[1..]);
    }
  }

  // ---------- which runs are proper ----------

  ghost predicate GoodNames(op: Op) { op.Request? ==> op.id != -1 && op.pid > 0 && op.bytes >= 1 }

  ghost predicate Apart(a: Op, b: Op) { a.Request? && b.Request? ==> a.id != b.id && a.pid != b.pid }

  // No id and no pid is asked for twice.
  ghost predicate DistinctNames(ops: seq<Op>) {
    && (forall i :: 0 <= i < |ops| ==> GoodNames(ops[i]))
    && forall i, j :: 0 <= i < j < |ops| ==> Apart(ops[i], ops[j])
  }

  ghost predicate Unused(live: Live, op: Op) { op.Request? ==> IdFresh(live, op.id) && PidFresh(live, op.pid) }

  lemma StaysUnused(cells: Cells, root: Blk, op: Op, later: Op)
    requires TreeOk(cells, root) && ProperOp(LiveOf(cells), op)
    requires Unused(LiveOf(cells), later) && Apart(op, later)
    ensures Unused(LiveOf(ApplyCells(cells, root, op)), later)
  {
    ApplyKeepsTree(cells, root, op);
  }

  // Such a run is proper.
  lemma {:induction false} DistinctNamesAreProper(cells: Cells, root: Blk, ops: seq<Op>)
    requires TreeOk(cells, root) && DistinctNames(ops)
    requires forall i :: 0 <= i < |ops| ==> Unused(LiveOf(cells), ops[i])
    ensures ProperRun(cells, root, ops)
    decreases |ops|
  {
    if ops != [] {
      var op, rest, next := ops[0], ops[1..], ApplyCells(cells, root, ops[0]);
      assert GoodNames(op) && Unused(LiveOf(cells), op);
      ApplyKeepsTree(cells, root, op);
      forall i | 0 <= i < |rest| ensures Unused(LiveOf(next), rest[i]) {
        assert Apart(ops[0], ops[i + 1]) && Unused(LiveOf(cells), ops[i + 1]);
        StaysUnused(cells, root, op, rest[i]);
      }
      assert DistinctNames(rest) by {
        forall i, j | 0 <= i < j < |rest| ensures Apart(rest[i], rest[j]) { assert Apart(ops[i + 1], ops[j + 1]); }
      }
      DistinctNamesAreProper(next, root, rest);
    }
  }
}
