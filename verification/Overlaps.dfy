/** Runs in which the spine check lets one live block be placed over another, for every pair of sizes that allows it,
    and runs in which an exit then costs a third process its block. */
module Overlaps {
  import opened Wrappers
  import opened Blocks
  import opened FirstFit
  import opened BlockCells
  import opened CellRuns

  // ---------- the first blocks of a level ----------

  lemma {:induction false} FirstInside(m: nat, k: nat)
    requires m <= k
    ensures Inside(Blk(m, 0), Blk(k, 0))
    decreases k - m
  {
    if m < k { FirstInside(m + 1, k); }
  }

  lemma SecondInside(m: nat, k: nat)
    requires m < k
    ensures Inside(Blk(m, 1), Blk(k, 0))
  {
    FirstInside(m + 1, k);
  }

  // Where the first two blocks of a level lie.
  lemma FirstTwo(m: nat, a: Blk, b: Blk)
    requires a == Blk(m, 0) && b == Blk(m, 1)
    ensures a.Start() == 0 && a.End() == Pow2(m) == b.Start() && b.End() == Pow2(m + 1) == 2 * Pow2(m)
    ensures forall d: Blk :: d.k == m ==> d.Start() >= 0 && (d != a ==> d.Start() >= b.Start())
  {
    forall d: Blk | d.k == m ensures d.Start() >= 0 && (d != a ==> d.Start() >= b.Start()) {
      if d.j > 0 { ScaledStep(0, d.j, Pow2(m)); }
    }
  }

  // ---------- what the search finds in four states ----------

  // With the first block of its own size taken, a request is given the second.
  lemma SecondGrant(live: Live, root: Blk, m: nat, a: Blk, b: Blk)
    requires root.j == 0 && m < root.k && a == Blk(m, 0) && b == Blk(m, 1)
    requires live.Keys == {a} && live[a].bytes >= 1
    ensures Find(live, root, m) == Some(b)
  {
    FirstTwo(m, a, b);
    assert root == Blk(root.k, 0);
    FirstInside(m, root.k);
    SecondInside(m, root.k);
    assert !Inside(a, b) && !Inside(b, a);
    forall d | Inside(d, root) && d.k == m && EdgeClear(live, d) ensures b.Start() <= d.Start() {
      assert d != a;
    }
    FindAt(live, root, m, b);
  }

  // With two smaller blocks at the start, a larger request is given the second block of its size.
  lemma LargeGrantBeside(live: Live, root: Blk, m: nat, n: nat, a: Blk, b: Blk, first: Blk, second: Blk)
    requires root.j == 0 && m < n < root.k && a == Blk(m, 0) && b == Blk(m, 1)
    requires first == Blk(n, 0) && second == Blk(n, 1)
    requires live.Keys == {a, b} && live[a].bytes >= 1 && live[b].bytes >= 1
    ensures Find(live, root, n) == Some(second)
  {
    FirstTwo(m, a, b);
    FirstTwo(n, first, second);
    assert root == Blk(root.k, 0);
    FirstInside(m, root.k);
    SecondInside(m, root.k);
    SecondInside(n, root.k);
    FirstInside(m, n);
    SecondInside(m, n);
    SameLevelDisjoint(first, second);
    forall c | c == a || c == b ensures !Inside(c, second) && !Inside(second, c) {
      InsideWithin(c, first);
      if Inside(c, second) { InsideWithin(c, second); }
      if Inside(second, c) { InsideWithin(second, c); }
    }
    forall d | Inside(d, root) && d.k == n && EdgeClear(live, d) ensures second.Start() <= d.Start() {
      assert TouchesEdge(a, first);
      assert d != first;
    }
    FindAt(live, root, n, second);
  }

  // With a smaller block left just inside the start, a request four times as large is placed over it.
  lemma LargeGrantOver(live: Live, root: Blk, m: nat, n: nat, b: Blk, first: Blk)
    requires root.j == 0 && m + 2 <= n <= root.k && b == Blk(m, 1) && first == Blk(n, 0)
    requires live.Keys == {b} && live[b].bytes >= 1
    ensures Find(live, root, n) == Some(first) && Inside(b, first)
  {
    FirstTwo(m, Blk(m, 0), b);
    FirstTwo(n, first, Blk(n, 1));
    assert root == Blk(root.k, 0);
    FirstInside(n, root.k);
    SecondInside(m, root.k);
    SecondInside(m, n);
    Pow2Monotone(m + 1, n);
    if Inside(first, b) { InsideWithin(first, b); }
    assert !TouchesEdge(b, first);
    FindAt(live, root, n, first);
  }

  lemma Granted(live: Live, root: Blk, op: Op, n: nat, c: Blk)
    requires op.Request? && CeilLog(op.bytes) == n && Find(live, root, n) == Some(c)
    ensures Apply(live, root, op) == live[c := Owner(op.id, op.pid, op.bytes)]
  {
  }

  // ---------- runs from an empty memory ----------

  // The run `ops`, from an empty memory, is proper and ends in `cells`.
  ghost predicate Leads(root: Blk, ops: seq<Op>, cells: Cells) {
    ProperRun(map[root := FREE], root, ops) && CellsAfter(map[root := FREE], root, ops) == cells
  }

  lemma {:induction false} RunsCompose(cells: Cells, root: Blk, ops: seq<Op>, more: seq<Op>)
    ensures CellsAfter(cells, root, ops + more) == CellsAfter(CellsAfter(cells, root, ops), root, more)
    ensures ProperRun(cells, root, ops + more)
       <==> ProperRun(cells, root, ops) && ProperRun(CellsAfter(cells, root, ops), root, more)
    decreases |ops|
  {
    if ops == [] {
      assert ops + more == more;
    } else {
      assert (ops + more)[1..] == ops[1..] + more;
      RunsCompose(ApplyCells(cells, root, ops[0]), root, ops[1..], more);
    }
  }

  lemma LeadsOn(root: Blk, ops: seq<Op>, i: nat, cells: Cells)
    requires i < |ops| && Leads(root, ops[..i], cells) && ProperOp(LiveOf(cells), ops[i])
    ensures Leads(root, ops[..i + 1], ApplyCells(cells, root, ops[i]))
  {
    assert ops[..i + 1] == ops[..i] + [ops[i]];
    RunsCompose(map[root := FREE], root, ops[..i], [ops[i]]);
  }

  lemma LeadsToBooks(root: Blk, ops: seq<Op>, cells: Cells)
    requires Leads(root, ops, cells)
    ensures Books(cells) && Closed(cells, root)
  {
    RunKeepsTree(map[root := FREE], root, ops);
  }

  // If the operation is a request, it is granted a block to the left of d.
  ghost predicate StaysLeftOf(live: Live, root: Blk, op: Op, d: Blk) {
    op.Request? ==> var f := Find(live, root, CeilLog(op.bytes)); f.Some? && f.value.End() <= d.Start()
  }

  // Such operations never create d.
  lemma NeverCreated(cells: Cells, root: Blk, op: Op, d: Blk)
    requires Books(cells) && d !in cells && StaysLeftOf(LiveOf(cells), root, op, d)
    ensures d !in ApplyCells(cells, root, op)
  {
    match op {
      case Request(id, pid, bytes) =>
        var n := CeilLog(bytes);
        var c := Find(LiveOf(cells), root, n).value;
        assert c != d;
        if d in Visited(LiveOf(cells), root, n) {
          VisitedUpTo(LiveOf(cells), root, n, d);
          if Inside(c, d) { InsideWithin(c, d); }
        }
      case Exit(pid) =>
        if b :| b in LiveOf(cells) && cells[b].pid == pid {
          ExitedBlock(cells, root, b);
          MergedInOneCut(cells[b := FREE], root, b);
        }
    }
  }

  // One operation further along the run, while nothing overlaps.
  lemma SafeStep(root: Blk, ops: seq<Op>, i: nat, cells: Cells, live: Live, after: Live, d: Blk)
    returns (next: Cells)
    requires i < |ops| && Leads(root, ops[..i], cells) && LiveOf(cells) == live && ProperOp(live, ops[i])
    requires Safe(live) || ops[i].Request?
    requires Apply(live, root, ops[i]) == after && d !in cells && StaysLeftOf(live, root, ops[i], d)
    ensures Leads(root, ops[..i + 1], next) && LiveOf(next) == after && d !in next
  {
    LeadsToBooks(root, ops[..i], cells);
    NeverCreated(cells, root, ops[i], d);
    LeadsOn(root, ops, i, cells);
    next := ApplyCells(cells, root, ops[i]);
    if ops[i].Request? {
      RequestedLive(cells, root, ops[i].id, ops[i].pid, ops[i].bytes);
    } else {
      SafeOp(cells, root, ops[i]);
    }
  }

  // ---------- the overlap ----------

  // Two small processes, the exit of the first, and a large one.
  function OverlapRun(small: int, large: int): seq<Op> {
    [Request(1, 101, small), Request(2, 102, small), Exit(101), Request(4, 104, large)]
  }

  lemma {:induction false} TreeSafeAtEnd(cells: Cells, root: Blk, ops: seq<Op>)
    requires TreeSafe(cells, root, ops)
    ensures Safe(LiveOf(CellsAfter(cells, root, ops)))
    decreases |ops|
  {
    if ops != [] { TreeSafeAtEnd(ApplyCells(cells, root, ops[0]), root, ops[1..]); }
  }

  function AfterOverlap(b: Blk, first: Blk, small: int, large: int): Live {
    map[b := Owner(2, 102, small), first := Owner(4, 104, large)]
  }

  // The live blocks after each operation of the run: a and b are the first two of the small size.
  ghost predicate OverlapChain(root: Blk, ops: seq<Op>, a: Blk, b: Blk, first: Blk, small: int, large: int) {
    var e := Blk(first.k, 1);
    var one: Live := map[a := Owner(1, 101, small)];
    var two: Live := map[a := Owner(1, 101, small), b := Owner(2, 102, small)];
    var left: Live := map[b := Owner(2, 102, small)];
    && |ops| == 4 && Apply(map[], root, ops[0]) == one && Apply(one, root, ops[1]) == two
    && Apply(two, root, ops[2]) == left && Apply(left, root, ops[3]) == AfterOverlap(b, first, small, large)
    && Disjoint(a, b) && e != root && StaysLeftOf(map[], root, ops[0], e) && StaysLeftOf(one, root, ops[1], e)
    && StaysLeftOf(two, root, ops[2], e) && StaysLeftOf(left, root, ops[3], e)
  }

  lemma OverlapIsReached(root: Blk, small: int, large: int, a: Blk, b: Blk, first: Blk)
    requires root.j == 0 && 1 <= small && CeilLog(small) + 2 <= CeilLog(large) <= root.k
    requires a == Blk(CeilLog(small), 0) && b == Blk(CeilLog(small), 1) && first == Blk(CeilLog(large), 0)
    ensures OverlapChain(root, OverlapRun(small, large), a, b, first, small, large)
    ensures Inside(b, first) && b != first && large > 1
  {
    var m, n, ops := CeilLog(small), CeilLog(large), OverlapRun(small, large);
    var one: Live := map[a := Owner(1, 101, small)];
    var left: Live := map[b := Owner(2, 102, small)];
    assert root == Blk(root.k, 0);
    EmptyGrantsAtZero(root.k, m);
    Granted(map[], root, ops[0], m, a);
    SecondGrant(one, root, m, a, b);
    Granted(one, root, ops[1], m, b);
    assert Free(one[b := Owner(2, 102, small)], 101) == left;
    LargeGrantOver(left, root, m, n, b, first);
    Granted(left, root, ops[3], n, first);
    SameLevelDisjoint(a, b);
    FirstTwo(m, a, b);
    FirstTwo(n, first, Blk(n, 1));
    Pow2Monotone(m + 1, n);
  }

  lemma FourSteps(root: Blk, ops: seq<Op>, a: Live, b: Live, c: Live, d: Live, e: Blk)
    requires |ops| == 4 && Apply(map[], root, ops[0]) == a && Apply(a, root, ops[1]) == b
    requires Apply(b, root, ops[2]) == c && Apply(c, root, ops[3]) == d && Safe(b)
    requires ProperOp(map[], ops[0]) && ProperOp(a, ops[1]) && ProperOp(b, ops[2]) && ProperOp(c, ops[3])
    requires ops[0].Request? && ops[1].Request? && ops[3].Request?
    requires e != root && StaysLeftOf(map[], root, ops[0], e) && StaysLeftOf(a, root, ops[1], e)
    requires StaysLeftOf(b, root, ops[2], e) && StaysLeftOf(c, root, ops[3], e)
    ensures Leads(root, ops, CellsAfter(map[root := FREE], root, ops))
    ensures LiveOf(CellsAfter(map[root := FREE], root, ops)) == d && e !in CellsAfter(map[root := FREE], root, ops)
  {
    var cells := SafeStep(root, ops, 0, map[root := FREE], map[], a, e);
    cells := SafeStep(root, ops, 1, cells, a, b, e);
    cells := SafeStep(root, ops, 2, cells, b, c, e);
    cells := SafeStep(root, ops, 3, cells, c, d, e);
    assert ops[..4] == ops;
  }

  lemma OverlapRuns(root: Blk, small: int, large: int, a: Blk, b: Blk, first: Blk)
    requires 1 <= small && 1 < large && OverlapChain(root, OverlapRun(small, large), a, b, first, small, large)
    ensures ProperRun(map[root := FREE], root, OverlapRun(small, large))
    ensures LiveOf(CellsAfter(map[root := FREE], root, OverlapRun(small, large)))
         == AfterOverlap(b, first, small, large)
    ensures Blk(first.k, 1) !in CellsAfter(map[root := FREE], root, OverlapRun(small, large))
  {
    var one: Live := map[a := Owner(1, 101, small)];
    var two: Live := map[a := Owner(1, 101, small), b := Owner(2, 102, small)];
    var left: Live := map[b := Owner(2, 102, small)];
    FourSteps(root, OverlapRun(small, large), one, two, left, AfterOverlap(b, first, small, large), Blk(first.k, 1));
  }

  // Any two sizes at least two powers apart, the larger of which fits, overlap at the end of this run.
  lemma SizesApartOverlap(root: Blk, small: int, large: int)
    requires root.j == 0 && 1 <= small && CeilLog(small) + 2 <= CeilLog(large) <= root.k
    ensures var b, first, ops := Blk(CeilLog(small), 1), Blk(CeilLog(large), 0), OverlapRun(small, large);
            && ProperRun(map[root := FREE], root, ops) && !TreeSafe(map[root := FREE], root, ops)
            && LiveOf(CellsAfter(map[root := FREE], root, ops)) == AfterOverlap(b, first, small, large)
            && Inside(b, first) && Blk(CeilLog(large), 1) !in CellsAfter(map[root := FREE], root, ops)
  {
    var a, b, first := Blk(CeilLog(small), 0), Blk(CeilLog(small), 1), Blk(CeilLog(large), 0);
    OverlapIsReached(root, small, large, a, b, first);
    OverlapRuns(root, small, large, a, b, first);
    OverlapNested(b, first);
    assert b in AfterOverlap(b, first, small, large) && first in AfterOverlap(b, first, small, large);
    if TreeSafe(map[root := FREE], root, OverlapRun(small, large)) {
      TreeSafeAtEnd(map[root := FREE], root, OverlapRun(small, large));
    }
  }

  // Within the documented limits: on 1024 bytes a process of 256 is placed over one of 64.
  lemma SpineCheckMissesInnerBlock(root: Blk)
    requires root.k == 10 && root.j == 0
    ensures ProperRun(map[root := FREE], root, OverlapRun(64, 256))
    ensures LiveOf(CellsAfter(map[root := FREE], root, OverlapRun(64, 256)))
         == AfterOverlap(Blk(6, 1), Blk(8, 0), 64, 256)
    ensures Inside(Blk(6, 1), Blk(8, 0))
  {
    Logs();
    SizesApartOverlap(root, 64, 256);
  }

  lemma Logs()
    ensures CeilLog(64) == 6 && CeilLog(256) == 8
  {
    assert Pow2(4) == 16;
    assert Pow2(6) == 4 * Pow2(4);
    assert Pow2(8) == 4 * Pow2(6);
    CeilLogLeast(64, 6);
    CeilLogLeast(256, 8);
    assert Pow2(5) == 32 && Pow2(7) == 128;
  }

  // ---------- an exit that costs another process its block ----------

  // Two small processes, a large one that leaves its half split off, the exits of the large one and of the first
  // small one; then a large process, placed over the second small one, and its exit.
  function LossRun(small: int, large: int): seq<Op> {
    [Request(1, 101, small), Request(2, 102, small), Request(3, 103, large), Exit(103), Exit(101),
     Request(4, 104, large), Exit(104)]
  }

  // A search that gives c leaves `second` unsplit.
  ghost predicate Grants(live: Live, root: Blk, n: nat, c: Blk, second: Blk) {
    && Find(live, root, n) == Some(c)
    && (second.k > 0 ==>
          && second.Left() !in Visited(live, root, n) && second.Right() !in Visited(live, root, n)
          && c != second.Left() && c != second.Right())
  }

  // That is so for a block to the left of it, and for `second` itself.
  lemma GrantLeavesWhole(live: Live, root: Blk, n: nat, c: Blk, second: Blk)
    requires Find(live, root, n) == Some(c) && (c == second || c.End() <= second.Start())
    ensures Grants(live, root, n, c, second)
  {
    if second.k > 0 {
      HalvesOf(second);
      forall h | h == second.Left() || h == second.Right() ensures h !in Visited(live, root, n) && h != c {
        if h in Visited(live, root, n) {
          VisitedUpTo(live, root, n, h);
          if Inside(c, h) { InsideWithin(c, h); }
        }
      }
    }
  }

  // How the four blocks of the run lie: a and b are the first two of the small size, first and second of the large.
  ghost predicate Layout(root: Blk, a: Blk, b: Blk, first: Blk, second: Blk) {
    && Buddy(a) == b && Buddy(first) == second && Buddy(second) == first
    && 0 < first.k < root.k && second.k < root.k && a != b && b != first && second != a && second != b
    && Inside(b, first.Left()) && Inside(first.Left(), root) && Inside(b, first) && first != second
  }

  // The four grants of the run.
  ghost predicate RunGrants(root: Blk, small: int, large: int, a: Blk, b: Blk, first: Blk, second: Blk) {
    var o1, o2, m, n := Owner(1, 101, small), Owner(2, 102, small), CeilLog(small), CeilLog(large);
    && Grants(map[], root, m, a, second) && Grants(map[a := o1], root, m, b, second)
    && Grants(map[a := o1][b := o2], root, n, second, second) && Grants(map[b := o2], root, n, first, second)
  }

  lemma RunIsLaidOut(root: Blk, small: int, large: int, a: Blk, b: Blk, first: Blk, second: Blk)
    requires root.j == 0 && 1 <= small && CeilLog(small) + 2 <= CeilLog(large) < root.k
    requires a == Blk(CeilLog(small), 0) && b == Blk(CeilLog(small), 1)
    requires first == Blk(CeilLog(large), 0) && second == Blk(CeilLog(large), 1)
    ensures Layout(root, a, b, first, second) && large > 1
  {
    var h := first.Left();
    assert root == Blk(root.k, 0) && h == Blk(first.k - 1, 0);
    SecondInside(b.k, h.k);
    SecondInside(b.k, first.k);
    FirstInside(h.k, root.k);
  }

  lemma RunIsGranted(root: Blk, small: int, large: int, a: Blk, b: Blk, first: Blk, second: Blk)
    requires root.j == 0 && 1 <= small && CeilLog(small) + 2 <= CeilLog(large) < root.k
    requires a == Blk(CeilLog(small), 0) && b == Blk(CeilLog(small), 1)
    requires first == Blk(CeilLog(large), 0) && second == Blk(CeilLog(large), 1)
    ensures RunGrants(root, small, large, a, b, first, second)
  {
    var o1, o2, m, n := Owner(1, 101, small), Owner(2, 102, small), CeilLog(small), CeilLog(large);
    FirstTwo(m, a, b);
    FirstTwo(n, first, second);
    Pow2Monotone(m + 1, n);
    assert root == Blk(root.k, 0);
    EmptyGrantsAtZero(root.k, m);
    GrantLeavesWhole(map[], root, m, a, second);
    SecondGrant(map[a := o1], root, m, a, b);
    GrantLeavesWhole(map[a := o1], root, m, b, second);
    LargeGrantBeside(map[a := o1][b := o2], root, m, n, a, b, first, second);
    GrantLeavesWhole(map[a := o1][b := o2], root, n, second, second);
    LargeGrantOver(map[b := o2], root, m, n, b, first);
    GrantLeavesWhole(map[b := o2], root, n, first, second);
  }

  lemma RunBlocks(root: Blk, small: int, large: int) returns (a: Blk, b: Blk, first: Blk, second: Blk)
    requires root.j == 0 && 1 <= small && CeilLog(small) + 2 <= CeilLog(large) < root.k
    ensures Layout(root, a, b, first, second) && RunGrants(root, small, large, a, b, first, second) && large > 1
  {
    a, b := Blk(CeilLog(small), 0), Blk(CeilLog(small), 1);
    first, second := Blk(CeilLog(large), 0), Blk(CeilLog(large), 1);
    RunIsLaidOut(root, small, large, a, b, first, second);
    RunIsGranted(root, small, large, a, b, first, second);
  }

  // The cells reached: who is live, and that `second` has never been split.
  ghost predicate Reached(cells: Cells, live: Live, second: Blk) {
    LiveOf(cells) == live && (second.k > 0 ==> second.Left() !in cells && second.Right() !in cells)
  }

  lemma AncestorInRun(root: Blk, ops: seq<Op>, cells: Cells, c: Blk, p: Blk)
    requires Leads(root, ops, cells) && c in cells && Inside(c, p) && Inside(p, root)
    ensures p in cells
  {
    LeadsToBooks(root, ops, cells);
    AncestorsPresent(cells, root, c, p);
  }

  // One admission further along the run.
  lemma AdmittedNext(root: Blk, ops: seq<Op>, i: nat, cells: Cells, live: Live, second: Blk, c: Blk)
    returns (next: Cells)
    requires i < |ops| && Leads(root, ops[..i], cells) && Reached(cells, live, second)
    requires ops[i].Request? && ProperOp(live, ops[i])
    requires Grants(live, root, CeilLog(ops[i].bytes), c, second)
    ensures Leads(root, ops[..i + 1], next) && c in next && (forall d :: d in cells ==> d in next)
    ensures Reached(next, live[c := Owner(ops[i].id, ops[i].pid, ops[i].bytes)], second)
  {
    var op := ops[i];
    RequestedLive(cells, root, op.id, op.pid, op.bytes);
    LeadsOn(root, ops, i, cells);
    next := ApplyCells(cells, root, op);
  }

  // One exit further along the run; its buddy is in use or split, so nothing merges.
  lemma ExitedNext(root: Blk, ops: seq<Op>, i: nat, cells: Cells, live: Live, second: Blk, c: Blk) returns (next: Cells)
    requires i < |ops| && Leads(root, ops[..i], cells) && Reached(cells, live, second)
    requires ops[i].Exit? && c in live && live[c].pid == ops[i].pid && !BuddyFree(cells[c := FREE], c)
    ensures Leads(root, ops[..i + 1], next) && next.Keys == cells.Keys
    ensures Reached(next, Free(live, ops[i].pid), second)
  {
    LeadsToBooks(root, ops[..i], cells);
    ExitedBlock(cells, root, c);
    FreedBooks(cells, c);
    LeadsOn(root, ops, i, cells);
    next := ApplyCells(cells, root, ops[i]);
  }

  lemma TwoAdmitted(root: Blk, small: int, large: int, a: Blk, b: Blk, first: Blk, second: Blk) returns (cells: Cells)
    requires 1 <= small && Layout(root, a, b, first, second) && RunGrants(root, small, large, a, b, first, second)
    ensures Leads(root, LossRun(small, large)[..2], cells) && Reached(cells, TwoSmall(a, b, small), second)
  {
    var ops, one := LossRun(small, large), map[a := Owner(1, 101, small)];
    cells := AdmittedNext(root, ops, 0, map[root := FREE], map[], second, a);
    cells := AdmittedNext(root, ops, 1, cells, one, second, b);
  }

  // The two small processes and the large one are admitted side by side.
  lemma ThreeAdmitted(root: Blk, small: int, large: int, a: Blk, b: Blk, first: Blk, second: Blk) returns (cells: Cells)
    requires 1 <= small && 1 < large
    requires Layout(root, a, b, first, second) && RunGrants(root, small, large, a, b, first, second)
    ensures Leads(root, LossRun(small, large)[..3], cells) && second in cells
    ensures Reached(cells, TwoSmall(a, b, small)[second := Owner(3, 103, large)], second)
  {
    cells := TwoAdmitted(root, small, large, a, b, first, second);
    cells := AdmittedNext(root, LossRun(small, large), 2, cells, TwoSmall(a, b, small), second, second);
  }

  function TwoSmall(a: Blk, b: Blk, small: int): Live { map[a := Owner(1, 101, small)][b := Owner(2, 102, small)] }

  // The exit of the large process merges nothing, for the other half has been split.
  lemma LargeExited(root: Blk, small: int, large: int, a: Blk, b: Blk, first: Blk, second: Blk, c3: Cells)
    returns (cells: Cells)
    requires Layout(root, a, b, first, second) && Leads(root, LossRun(small, large)[..3], c3) && second in c3
    requires Reached(c3, TwoSmall(a, b, small)[second := Owner(3, 103, large)], second)
    ensures Leads(root, LossRun(small, large)[..4], cells) && second in cells
    ensures Reached(cells, TwoSmall(a, b, small), second)
  {
    var three := TwoSmall(a, b, small)[second := Owner(3, 103, large)];
    assert b in LiveOf(c3);
    AncestorInRun(root, LossRun(small, large)[..3], c3, b, first.Left());
    cells := ExitedNext(root, LossRun(small, large), 3, c3, three, second, second);
    assert Free(three, 103) == TwoSmall(a, b, small);
  }

  // Nor does the exit of the first small process, for the second is its buddy.
  lemma SmallExited(root: Blk, small: int, large: int, a: Blk, b: Blk, second: Blk, c4: Cells) returns (cells: Cells)
    requires small >= 1 && a != b && Buddy(a) == b && second in c4
    requires Leads(root, LossRun(small, large)[..4], c4) && Reached(c4, TwoSmall(a, b, small), second)
    ensures Leads(root, LossRun(small, large)[..5], cells) && second in cells
    ensures Reached(cells, map[b := Owner(2, 102, small)], second)
  {
    assert b in LiveOf(c4) && LiveOf(c4)[b].bytes == small;
    cells := ExitedNext(root, LossRun(small, large), 4, c4, TwoSmall(a, b, small), second, a);
    assert Free(TwoSmall(a, b, small), 101) == map[b := Owner(2, 102, small)];
  }

  // Then a second large process is placed over the small one.
  lemma BeforeLastExit(root: Blk, small: int, large: int, a: Blk, b: Blk, first: Blk, second: Blk)
    returns (cells: Cells)
    requires 1 <= small && 1 < large
    requires Layout(root, a, b, first, second) && RunGrants(root, small, large, a, b, first, second)
    ensures Leads(root, LossRun(small, large)[..6], cells) && second in cells
    ensures Reached(cells, map[b := Owner(2, 102, small)][first := Owner(4, 104, large)], second)
  {
    cells := ThreeAdmitted(root, small, large, a, b, first, second);
    cells := LargeExited(root, small, large, a, b, first, second, cells);
    cells := SmallExited(root, small, large, a, b, second, cells);
    cells := AdmittedNext(root, LossRun(small, large), 5, cells, map[b := Owner(2, 102, small)], second, first);
  }

  lemma LastExit(root: Blk, ops: seq<Op>, cells: Cells, pid: int, b: Blk, first: Blk, second: Blk)
    requires Leads(root, ops, cells) && first in LiveOf(cells) && b in LiveOf(cells) && cells[first].pid == pid
    requires Inside(b, first) && b != first && first != second && first.k < root.k
    requires Buddy(first) == second && second in cells && second !in LiveOf(cells)
    requires Reached(cells, LiveOf(cells), second)
    ensures !NothingCovered(cells, root, pid) && b !in LiveOf(Exited(cells, root, pid))
    ensures Submap(LiveOf(Exited(cells, root, pid)), Free(LiveOf(cells), pid))
  {
    LeadsToBooks(root, ops, cells);
    assert cells[second].IsFree();
    CoveredBlockIsLost(cells, root, first, b);
    ExitedBlock(cells, root, first);
    ExitedBooks(cells, root, pid);
  }

  lemma NoneLeft(live: Live, after: Live, pid: int, b: Blk, first: Blk)
    requires live.Keys == {b, first} && live[first].pid == pid && b !in after && Submap(after, Free(live, pid))
    ensures after == map[]
  {
    forall c ensures c !in after { assert c in after ==> c in Free(live, pid); }
  }

  // The last exit merges with the free large block and cuts off the block of the second small process,
  // which has not exited: nothing is live, although one process still runs.
  lemma LossOf(root: Blk, small: int, large: int, a: Blk, b: Blk, first: Blk, second: Blk) returns (before: Cells)
    requires 1 <= small && 1 < large
    requires Layout(root, a, b, first, second) && RunGrants(root, small, large, a, b, first, second)
    ensures Leads(root, LossRun(small, large)[..6], before) && !NothingCovered(before, root, 104)
    ensures LiveOf(before) == map[b := Owner(2, 102, small)][first := Owner(4, 104, large)]
    ensures Leads(root, LossRun(small, large), Exited(before, root, 104)) && LiveOf(Exited(before, root, 104)) == map[]
  {
    before := BeforeLastExit(root, small, large, a, b, first, second);
    assert second !in LiveOf(before);
    LastExit(root, LossRun(small, large)[..6], before, 104, b, first, second);
    NoneLeft(LiveOf(before), LiveOf(Exited(before, root, 104)), 104, b, first);
    LossEnds(root, small, large, before);
  }

  lemma LossEnds(root: Blk, small: int, large: int, before: Cells)
    requires Leads(root, LossRun(small, large)[..6], before)
    ensures Leads(root, LossRun(small, large), Exited(before, root, 104))
  {
    LeadsOn(root, LossRun(small, large), 6, before);
    assert LossRun(small, large)[..7] == LossRun(small, large);
  }

  // Any two sizes at least two powers apart, the larger of which fits into half of the memory.
  lemma ExitCostsAnotherBlock(root: Blk, small: int, large: int) returns (before: Cells)
    requires root.j == 0 && 1 <= small && CeilLog(small) + 2 <= CeilLog(large) < root.k
    ensures Leads(root, LossRun(small, large)[..6], before) && !NothingCovered(before, root, 104)
    ensures exists b :: b in LiveOf(before) && LiveOf(before)[b] == Owner(2, 102, small)
    ensures ProperRun(map[root := FREE], root, LossRun(small, large))
    ensures LiveOf(CellsAfter(map[root := FREE], root, LossRun(small, large))) == map[]
  {
    var a, b, first, second := RunBlocks(root, small, large);
    before := LossOf(root, small, large, a, b, first, second);
    assert b in LiveOf(before);
  }

  // ---------- two trees that show the same live blocks ----------

  // A block whose buddy has never been created is freed without merging.
  lemma LoneExit(cells: Cells, root: Blk, pid: int, first: Blk)
    requires Books(cells) && first in LiveOf(cells) && cells[first].pid == pid && Buddy(first) !in cells
    ensures LiveOf(Exited(cells, root, pid)) == Free(LiveOf(cells), pid)
  {
    OneBlockPerPid(cells, first);
    ExitedBooks(cells, root, pid);
  }

  lemma BeforeLoss(root: Blk, small: int, large: int, b: Blk, first: Blk, second: Blk) returns (one: Cells)
    requires root.j == 0 && 1 <= small && CeilLog(small) + 2 <= CeilLog(large) < root.k
    requires b == Blk(CeilLog(small), 1) && first == Blk(CeilLog(large), 0) && second == Blk(CeilLog(large), 1)
    ensures Leads(root, LossRun(small, large)[..6], one) && LiveOf(one) == AfterOverlap(b, first, small, large)
    ensures LiveOf(Exited(one, root, 104)) == map[] && Buddy(first) == second
  {
    var a := Blk(CeilLog(small), 0);
    RunIsLaidOut(root, small, large, a, b, first, second);
    RunIsGranted(root, small, large, a, b, first, second);
    one := LossOf(root, small, large, a, b, first, second);
  }

  lemma AfterOverlapRun(root: Blk, small: int, large: int, b: Blk, first: Blk, second: Blk) returns (two: Cells)
    requires root.j == 0 && 1 <= small && CeilLog(small) + 2 <= CeilLog(large) <= root.k
    requires b == Blk(CeilLog(small), 1) && first == Blk(CeilLog(large), 0) && second == Blk(CeilLog(large), 1)
    ensures Leads(root, OverlapRun(small, large), two) && LiveOf(two) == AfterOverlap(b, first, small, large)
    ensures second !in two
  {
    SizesApartOverlap(root, small, large);
    two := CellsAfter(map[root := FREE], root, OverlapRun(small, large));
  }

  lemma LoneExitKeeps(root: Blk, ops: seq<Op>, cells: Cells, small: int, large: int, b: Blk, first: Blk)
    requires Leads(root, ops, cells) && LiveOf(cells) == AfterOverlap(b, first, small, large)
    requires b != first && Buddy(first) !in cells
    ensures LiveOf(Exited(cells, root, 104)) == map[b := Owner(2, 102, small)]
  {
    LeadsToBooks(root, ops, cells);
    assert first in LiveOf(cells) && LiveOf(cells)[first].pid == 104;
    LoneExit(cells, root, 104, first);
    assert Free(LiveOf(cells), 104) == map[b := Owner(2, 102, small)];
  }

  // After LossRun, short of its last exit, and after OverlapRun the live blocks are the same;
  // but the exit of process 4 then leaves process 2 its block only in the second case.
  lemma TwoHistories(root: Blk, small: int, large: int) returns (one: Cells, two: Cells, b: Blk)
    requires root.j == 0 && 1 <= small && CeilLog(small) + 2 <= CeilLog(large) < root.k
    ensures Leads(root, LossRun(small, large)[..6], one) && Leads(root, OverlapRun(small, large), two)
    ensures LiveOf(one) == LiveOf(two) && (exists c :: c in LiveOf(one) && LiveOf(one)[c].pid == 104)
    ensures LiveOf(Exited(one, root, 104)) == map[] && LiveOf(Exited(two, root, 104)) == map[b := Owner(2, 102, small)]
  {
    b := Blk(CeilLog(small), 1);
    var first, second := Blk(CeilLog(large), 0), Blk(CeilLog(large), 1);
    one := BeforeLoss(root, small, large, b, first, second);
    two := AfterOverlapRun(root, small, large, b, first, second);
    LoneExitKeeps(root, OverlapRun(small, large), two, small, large, b, first);
    assert first in LiveOf(one) && LiveOf(one)[first].pid == 104;
  }

  // ---------- the same run, one operation at a time ----------

  ghost function CellsAt(root: Blk, small: int, large: int, i: nat): Cells
    requires i <= 7
  {
    CellsAfter(map[root := FREE], root, LossRun(small, large)[..i])
  }

  lemma CellsNext(root: Blk, small: int, large: int, i: nat)
    requires i < 7
    ensures CellsAt(root, small, large, i + 1)
         == ApplyCells(CellsAt(root, small, large, i), root, LossRun(small, large)[i])
  {
    var ops := LossRun(small, large);
    assert ops[..i + 1] == ops[..i] + [ops[i]];
    RunsCompose(map[root := FREE], root, ops[..i], [ops[i]]);
  }

  ghost predicate GrantedAt(root: Blk, small: int, large: int, i: nat, bytes: int)
    requires i <= 7
  {
    Find(LiveOf(CellsAt(root, small, large, i)), root, CeilLog(bytes)).Some?
  }

  // Every request of the run is granted.
  lemma RequestsGranted(root: Blk, small: int, large: int)
    requires root.j == 0 && 1 <= small && CeilLog(small) + 2 <= CeilLog(large) < root.k
    ensures GrantedAt(root, small, large, 0, small) && GrantedAt(root, small, large, 1, small)
    ensures GrantedAt(root, small, large, 2, large) && GrantedAt(root, small, large, 5, large)
  {
    var ops := LossRun(small, large);
    var a, b, first, second := RunBlocks(root, small, large);
    var cells := AdmittedNext(root, ops, 0, map[root := FREE], map[], second, a);
    cells := TwoAdmitted(root, small, large, a, b, first, second);
    cells := ThreeAdmitted(root, small, large, a, b, first, second);
    cells := LargeExited(root, small, large, a, b, first, second, cells);
    cells := SmallExited(root, small, large, a, b, second, cells);
  }

  // What the last exit of the run does.
  lemma LastExitLoses(root: Blk, small: int, large: int)
    requires root.j == 0 && 1 <= small && CeilLog(small) + 2 <= CeilLog(large) < root.k
    ensures !NothingCovered(CellsAt(root, small, large, 6), root, 104)
    ensures LiveOf(CellsAt(root, small, large, 7)) == map[]
  {
    var before := ExitCostsAnotherBlock(root, small, large);
    assert LossRun(small, large)[..7] == LossRun(small, large);
  }

  // Within the documented limits: on 1024 bytes, with processes of 64 and 256.
  lemma ExitCostsAnotherBlockHere(root: Blk) returns (before: Cells)
    requires root.k == 10 && root.j == 0
    ensures Leads(root, LossRun(64, 256)[..6], before)
    ensures exists b :: b in LiveOf(before) && LiveOf(before)[b] == Owner(2, 102, 64)
    ensures LiveOf(CellsAfter(map[root := FREE], root, LossRun(64, 256))) == map[]
  {
    Logs();
    before := ExitCostsAnotherBlock(root, 64, 256);
  }
}
