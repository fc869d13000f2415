/** Whole runs of the allocator: what the tree answers and how it ends is a function of what its blocks record,
    and of the live blocks alone as long as no exit costs another process its block. */
module Representation {
  import opened Wrappers
  import opened Blocks
  import opened FirstFit
  import opened BlockCells
  import opened CellRuns
  import opened Overlaps
  import opened BuddyAllocator

  // The addresses handed out and the pids found, -1 for a refusal or an unknown pid.
  function Answer(live: Live, root: Blk, op: Op): int {
    match op
    case Request(id, pid, bytes) =>
      (match Find(live, root, CeilLog(bytes)) case None => -1 case Some(c) => c.Start())
    case Exit(pid) => if exists b :: b in live && live[b].pid == pid then pid else -1
  }

  ghost function Answers(cells: Cells, root: Blk, ops: seq<Op>): seq<int>
    decreases |ops|
  {
    if ops == [] then []
    else [Answer(LiveOf(cells), root, ops[0])] + Answers(ApplyCells(cells, root, ops[0]), root, ops[1..])
  }

  ghost function FirstFitAnswers(live: Live, root: Blk, ops: seq<Op>): seq<int>
    decreases |ops|
  {
    if ops == [] then [] else [Answer(live, root, ops[0])] + FirstFitAnswers(Apply(live, root, ops[0]), root, ops[1..])
  }

  method Perform(a: Allocator, op: Op) returns (answer: int)
    requires a.Valid() && a.tree.top.j == 0 && ProperOp(a.Live(), op)
    requires op.Request? ==> op.bytes <= MAX_REQUEST
    modifies a, a.repr
    ensures a.Valid() && a.tree.top == old(a.tree.top) && forall o :: o in a.repr ==> o in old(a.repr) || fresh(o)
    ensures a.tree.cells == ApplyCells(old(a.tree.cells), a.tree.top, op)
    ensures answer == Answer(old(a.Live()), a.tree.top, op)
  {
    answer := -1;
    match op {
      case Request(id, pid, bytes) =>
        var ok, start := a.Admit(id, pid, bytes);
        answer := start;
      case Exit(pid) =>
        var ok, start, end := a.Deallocate(pid);
        if ok { answer := pid; }
    }
  }

  // Every run of requests and exits, overlapping or not.
  method Replay(a: Allocator, ops: seq<Op>) returns (answers: seq<int>)
    requires a.Valid() && a.tree.top.j == 0 && ProperRun(a.tree.cells, a.tree.top, ops)
    requires forall i :: 0 <= i < |ops| && ops[i].Request? ==> ops[i].bytes <= MAX_REQUEST
    modifies a, a.repr
    ensures a.Valid() && a.tree.top == old(a.tree.top) && forall o :: o in a.repr ==> o in old(a.repr) || fresh(o)
    ensures a.tree.cells == CellsAfter(old(a.tree.cells), a.tree.top, ops)
    ensures answers == Answers(old(a.tree.cells), a.tree.top, ops)
    decreases |ops|
  {
    if ops == [] { return []; }
    var answer := Perform(a, ops[0]);
    var rest := Replay(a, ops[1..]);
    answers := [answer] + rest;
  }

  // While no exit costs another process its block, two trees with the same live blocks answer alike,
  // however differently they are split or merged: as first fit does on the live blocks.
  lemma {:induction false} AnswersFromLive(cells: Cells, root: Blk, ops: seq<Op>)
    requires Books(cells) && Closed(cells, root) && ProperRun(cells, root, ops) && HarmlessExits(cells, root, ops)
    ensures Answers(cells, root, ops) == FirstFitAnswers(LiveOf(cells), root, ops)
    ensures LiveOf(CellsAfter(cells, root, ops)) == StateAfter(LiveOf(cells), root, ops)
    decreases |ops|
  {
    if ops != [] {
      var op := ops[0];
      ApplyKeepsBooks(cells, root, op);
      if op.Request? { RequestedLive(cells, root, op.id, op.pid, op.bytes); } else { ExitedBooks(cells, root, op.pid); }
      AnswersFromLive(ApplyCells(cells, root, op), root, ops[1..]);
    }
  }

  // One operation has the same answer and leaves the same live blocks on two trees that show the same ones,
  // if neither loses another block by it.
  lemma SameOp(a: Cells, b: Cells, root: Blk, op: Op)
    requires Books(a) && Books(b) && LiveOf(a) == LiveOf(b) && ProperOp(LiveOf(a), op)
    requires op.Exit? ==> NothingCovered(a, root, op.pid) && NothingCovered(b, root, op.pid)
    ensures LiveOf(ApplyCells(a, root, op)) == LiveOf(ApplyCells(b, root, op))
  {
    if op.Request? {
      RequestedLive(a, root, op.id, op.pid, op.bytes);
      RequestedLive(b, root, op.id, op.pid, op.bytes);
    } else {
      ExitedBooks(a, root, op.pid);
      ExitedBooks(b, root, op.pid);
    }
  }

  lemma {:induction false} ProperOnBoth(a: Cells, b: Cells, root: Blk, ops: seq<Op>)
    requires Books(a) && Closed(a, root) && Books(b) && Closed(b, root) && LiveOf(a) == LiveOf(b)
    requires ProperRun(a, root, ops) && HarmlessExits(a, root, ops) && HarmlessExits(b, root, ops)
    ensures ProperRun(b, root, ops)
    decreases |ops|
  {
    if ops != [] {
      ApplyKeepsBooks(a, root, ops[0]);
      ApplyKeepsBooks(b, root, ops[0]);
      SameOp(a, b, root, ops[0]);
      ProperOnBoth(ApplyCells(a, root, ops[0]), ApplyCells(b, root, ops[0]), root, ops[1..]);
    }
  }

  // Two trees that show the same live blocks answer a run alike and show the same live blocks after it,
  // however differently they are split or merged, if no exit of the run costs another process its block in either.
  lemma TwoTreesAgree(a: Cells, b: Cells, root: Blk, ops: seq<Op>)
    requires Books(a) && Closed(a, root) && Books(b) && Closed(b, root) && LiveOf(a) == LiveOf(b)
    requires ProperRun(a, root, ops) && HarmlessExits(a, root, ops) && HarmlessExits(b, root, ops)
    ensures ProperRun(b, root, ops) && Answers(a, root, ops) == Answers(b, root, ops)
    ensures LiveOf(CellsAfter(a, root, ops)) == LiveOf(CellsAfter(b, root, ops))
  {
    ProperOnBoth(a, b, root, ops);
    AnswersFromLive(a, root, ops);
    AnswersFromLive(b, root, ops);
  }

  lemma {:induction false} SafeOnBoth(a: Cells, b: Cells, root: Blk, ops: seq<Op>)
    requires Books(a) && Closed(a, root) && Books(b) && Closed(b, root) && LiveOf(a) == LiveOf(b)
    requires ProperRun(a, root, ops) && AllSafe(LiveOf(a), root, ops)
    ensures ProperRun(b, root, ops) && TreeSafe(a, root, ops) && TreeSafe(b, root, ops)
    decreases |ops|
  {
    if ops != [] {
      SafeOp(a, root, ops[0]);
      SafeOp(b, root, ops[0]);
      SafeOnBoth(ApplyCells(a, root, ops[0]), ApplyCells(b, root, ops[0]), root, ops[1..]);
    }
  }

  // So it is whenever first fit on the common live blocks never overlaps: a condition on those blocks alone.
  lemma SafeTreesAgree(a: Cells, b: Cells, root: Blk, ops: seq<Op>)
    requires Books(a) && Closed(a, root) && Books(b) && Closed(b, root) && LiveOf(a) == LiveOf(b)
    requires ProperRun(a, root, ops) && AllSafe(LiveOf(a), root, ops)
    ensures ProperRun(b, root, ops) && Answers(a, root, ops) == Answers(b, root, ops)
    ensures LiveOf(CellsAfter(a, root, ops)) == LiveOf(CellsAfter(b, root, ops))
  {
    SafeOnBoth(a, b, root, ops);
    SafeRunsAreHarmless(a, root, ops);
    SafeRunsAreHarmless(b, root, ops);
    TwoTreesAgree(a, b, root, ops);
  }

  // The condition is needed: two proper runs can lead to the same live blocks and then be answered differently,
  // because one tree remembers a split that the other never made.
  lemma SameLiveOtherAnswers(root: Blk, small: int, large: int) returns (a: Cells, b: Cells)
    requires root.j == 0 && 1 <= small && CeilLog(small) + 2 <= CeilLog(large) < root.k
    ensures Leads(root, LossRun(small, large)[..6], a) && Leads(root, OverlapRun(small, large), b)
    ensures LiveOf(a) == LiveOf(b)
    ensures Answers(a, root, [Exit(104), Exit(102)]) == [104, -1]
    ensures Answers(b, root, [Exit(104), Exit(102)]) == [104, 102]
  {
    var inner;
    a, b, inner := TwoHistories(root, small, large);
    TwoExits(a, root, map[], 104, 102);
    TwoExits(b, root, map[inner := Owner(2, 102, small)], 104, 102);
    assert inner in LiveOf(Exited(b, root, 104));
  }

  lemma TwoExits(cells: Cells, root: Blk, next: Live, p: int, q: int)
    requires LiveOf(Exited(cells, root, p)) == next
    ensures Answers(cells, root, [Exit(p), Exit(q)])
         == [Answer(LiveOf(cells), root, Exit(p)), Answer(next, root, Exit(q))]
  {
    var after := Exited(cells, root, p);
    assert [Exit(p), Exit(q)][1..] == [Exit(q)] && [Exit(q)][1..] == [];
    assert Answers(after, root, [Exit(q)]) == [Answer(next, root, Exit(q))] + Answers(Exited(after, root, q), root, []);
    assert Answers(cells, root, [Exit(p), Exit(q)])
        == [Answer(LiveOf(cells), root, Exit(p))] + Answers(after, root, [Exit(q)]);
  }
}
