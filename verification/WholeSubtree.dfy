/** The usage check the allocator means to make, over the whole subtree of a candidate instead of its outer spines,
    and exactly when the check as written gives the same answer. */
module WholeSubtree {
  import opened Wrappers
  import opened Blocks
  import opened FirstFit
  import opened BlockCells
  import opened CellRuns

  // Bytes live at b and anywhere below it.
  function AllUsed(live: Live, b: Blk): int
    decreases b.k
  {
    (if b in live then live[b].bytes else 0)
    + if b.k == 0 then 0 else AllUsed(live, b.Left()) + AllUsed(live, b.Right())
  }

  function UsedBelow(live: Live, b: Blk): int {
    if b.k == 0 then 0 else AllUsed(live, b.Left()) + AllUsed(live, b.Right())
  }

  // The search with that check.
  function FindFree(live: Live, b: Blk, n: nat): Option<Blk>
    decreases b.k
  {
    if b.k < n || b in live then None
    else if b.k == n && b.Size() - UsedBelow(live, b) >= Pow2(n) then Some(b)
    else
      match FindFree(live, b.Left(), n)
      case Some(c) => Some(c)
      case None => FindFree(live, b.Right(), n)
  }

  function AdmitFree(live: Live, root: Blk, id: int, pid: int, bytes: int): Live {
    match FindFree(live, root, CeilLog(bytes))
    case None => live
    case Some(c) => live[c := Owner(id, pid, bytes)]
  }

  lemma {:induction false} AllUsedZero(live: Live, b: Blk)
    requires Positive(live)
    ensures AllUsed(live, b) >= 0
    ensures AllUsed(live, b) == 0 <==> forall a :: a in live ==> !Inside(a, b)
    decreases b.k
  {
    if b.k > 0 {
      AllUsedZero(live, b.Left());
      AllUsedZero(live, b.Right());
    }
    forall a | Inside(a, b) && a != b ensures b.k > 0 && (Inside(a, b.Left()) || Inside(a, b.Right())) {
      InsideHalf(a, b);
    }
    if b.k > 0 {
      forall a | Inside(a, b.Left()) || Inside(a, b.Right()) ensures Inside(a, b) { HalfInside(a, b); }
    }
  }

  lemma UsedBelowZero(live: Live, b: Blk)
    requires Positive(live) && b !in live
    ensures UsedBelow(live, b) >= 0
    ensures UsedBelow(live, b) == 0 <==> forall a :: a in live ==> !Inside(a, b)
  {
    AllUsedZero(live, b);
    if b.k > 0 {
      AllUsedZero(live, b.Left());
      AllUsedZero(live, b.Right());
    }
  }

  ghost predicate LowestClear(live: Live, b: Blk, n: nat, c: Blk) {
    && Inside(c, b) && c.k == n && Clear(live, c)
    && forall d :: Inside(d, b) && d.k == n && Clear(live, d) ==> c.Start() <= d.Start()
  }

  // With the whole subtree counted, the search is first fit over free intervals: it fails only when there is none,
  // and otherwise returns the lowest.
  lemma {:induction false} FindFreeIsFirstFit(live: Live, b: Blk, n: nat)
    requires Positive(live)
    requires forall a :: a in live && Inside(b, a) ==> a == b
    ensures FindFree(live, b, n).None? ==> forall c :: Inside(c, b) && c.k == n ==> !Clear(live, c)
    ensures FindFree(live, b, n).Some? ==> LowestClear(live, b, n, FindFree(live, b, n).value)
    decreases b.k
  {
    forall a, c | a in live ensures Disjoint(a, c) <==> !Inside(a, c) && !Inside(c, a) { OverlapNested(a, c); }
    forall c | Inside(c, b) { InsideWithin(c, b); }
    if b.k < n || b in live {
    } else if b.k == n {
      UsedBelowZero(live, b);
    } else {
      HalvesOf(b);
      FindFreeIsFirstFit(live, b.Left(), n);
      FindFreeIsFirstFit(live, b.Right(), n);
      forall c | Inside(c, b) && c.k == n
        ensures Inside(c, b.Left()) || Inside(c, b.Right())
      {
        InsideHalf(c, b);
      }
      forall c | Inside(c, b.Left()) || Inside(c, b.Right()) { HalfInside(c, b); }
      forall c | Inside(c, b.Left()) { InsideWithin(c, b.Left()); }
      forall c | Inside(c, b.Right()) { InsideWithin(c, b.Right()); }
    }
  }

  lemma FindFreeFromRoot(live: Live, root: Blk, n: nat)
    requires Positive(live) && Under(live, root)
    ensures FindFree(live, root, n).None? ==> forall c :: Inside(c, root) && c.k == n ==> !Clear(live, c)
    ensures FindFree(live, root, n).Some? ==> LowestClear(live, root, n, FindFree(live, root, n).value)
  {
    forall a | a in live && Inside(root, a) ensures a == root { InsideAntisymmetric(root, a); }
    FindFreeIsFirstFit(live, root, n);
  }

  lemma BothRefuse(live: Live, root: Blk, n: nat)
    requires Positive(live) && Under(live, root) && Find(live, root, n).None?
    ensures FindFree(live, root, n).None? && !InteriorHit(live, root, n)
  {
    FindFromRoot(live, root, n);
    RefusesOnlyWhenNothingFits(live, root, n);
    FindFreeFromRoot(live, root, n);
  }

  // The two searches agree exactly when the spines hide nothing.
  lemma SpinesSufficeIff(live: Live, root: Blk, n: nat)
    requires Positive(live) && Under(live, root)
    ensures Find(live, root, n) == FindFree(live, root, n) <==> !InteriorHit(live, root, n)
  {
    if Find(live, root, n).None? {
      BothRefuse(live, root, n);
    } else {
      var c := Find(live, root, n).value;
      GrantIsLowestFreeIff(live, root, n);
      FindFreeFromRoot(live, root, n);
      if LowestClear(live, root, n, c) { LowestClearIsUnique(live, root, n, c); }
    }
  }

  lemma LowestClearIsUnique(live: Live, root: Blk, n: nat, c: Blk)
    requires FindFree(live, root, n).Some? && LowestClear(live, root, n, FindFree(live, root, n).value)
    requires LowestClear(live, root, n, c)
    ensures c == FindFree(live, root, n).value
  {
    var d := FindFree(live, root, n).value;
    if c != d { SameLevelDisjoint(c, d); }
  }

  // ---------- runs with the intended check ----------

  function ApplyFree(live: Live, root: Blk, op: Op): Live {
    match op
    case Request(id, pid, bytes) => AdmitFree(live, root, id, pid, bytes)
    case Exit(pid) => Free(live, pid)
  }

  function StateAfterFree(live: Live, root: Blk, ops: seq<Op>): Live
    decreases |ops|
  {
    if ops == [] then live else StateAfterFree(ApplyFree(live, root, ops[0]), root, ops[1..])
  }

  lemma ApplyFreeSafe(live: Live, root: Blk, op: Op)
    requires WellSized(live, root) && Safe(live) && (op.Request? ==> op.bytes >= 1)
    ensures WellSized(ApplyFree(live, root, op), root) && Safe(ApplyFree(live, root, op))
  {
    if op.Request? && FindFree(live, root, CeilLog(op.bytes)).Some? {
      var c := FindFree(live, root, CeilLog(op.bytes)).value;
      FindFreeFromRoot(live, root, CeilLog(op.bytes));
      if c in live { OverlapNested(c, c); }
      AddedBlockSafeIff(live, c, Owner(op.id, op.pid, op.bytes));
    }
  }

  // With the intended check live blocks never overlap, whatever is requested and freed.
  lemma {:induction false} RunFreeSafe(live: Live, root: Blk, ops: seq<Op>)
    requires WellSized(live, root) && Safe(live) && PositiveRequests(ops)
    ensures WellSized(StateAfterFree(live, root, ops), root) && Safe(StateAfterFree(live, root, ops))
    decreases |ops|
  {
    if ops != [] {
      ApplyFreeSafe(live, root, ops[0]);
      RunFreeSafe(ApplyFree(live, root, ops[0]), root, ops[1..]);
    }
  }

  // At every point of the run the tree shows the live blocks that the intended check would leave.
  ghost predicate FollowsIntended(cells: Cells, live: Live, root: Blk, ops: seq<Op>)
    decreases |ops|
  {
    && LiveOf(cells) == live
    && (ops != [] ==> FollowsIntended(ApplyCells(cells, root, ops[0]), ApplyFree(live, root, ops[0]), root, ops[1..]))
  }

  // An admission under the two checks leaves the same live blocks exactly without an interior hit.
  lemma AdmitsAlikeIff(live: Live, root: Blk, id: int, pid: int, bytes: int)
    requires Positive(live) && Under(live, root)
    ensures Admit(live, root, id, pid, bytes) == AdmitFree(live, root, id, pid, bytes)
       <==> !InteriorHit(live, root, CeilLog(bytes))
  {
    var n := CeilLog(bytes);
    SpinesSufficeIff(live, root, n);
    if Find(live, root, n) != FindFree(live, root, n) {
      if Find(live, root, n).None? { BothRefuse(live, root, n); }
      var c := Find(live, root, n).value;
      FindReturnsUnowned(live, root, n);
      assert c in Admit(live, root, id, pid, bytes) && c !in AdmitFree(live, root, id, pid, bytes);
    }
  }

  // A run of the tree as written goes through the very states of the intended one
  // exactly when none of its requests meets an interior hit.
  lemma {:induction false} TreeFollowsIff(cells: Cells, root: Blk, ops: seq<Op>)
    requires TreeOk(cells, root) && ProperRun(cells, root, ops) && Safe(LiveOf(cells))
    ensures FollowsIntended(cells, LiveOf(cells), root, ops) <==> TreeMeetsNoHit(cells, root, ops)
    decreases |ops|
  {
    if ops != [] {
      var op, next := ops[0], ApplyCells(cells, root, ops[0]);
      ApplyKeepsTree(cells, root, op);
      SafeOp(cells, root, op);
      if op.Request? {
        AdmitsAlikeIff(LiveOf(cells), root, op.id, op.pid, op.bytes);
        AdmitSafeIff(LiveOf(cells), root, op.id, op.pid, op.bytes);
      }
      if LiveOf(next) == ApplyFree(LiveOf(cells), root, op) { TreeFollowsIff(next, root, ops[1..]); }
    }
  }
}
