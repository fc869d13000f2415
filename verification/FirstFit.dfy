/** What the buddy allocator computes, stated on the set of live blocks alone.
    The C code keeps a tree of split blocks; the live blocks are the tree positions whose process_pid is set. */
module FirstFit {
  import opened Wrappers
  import opened Blocks
  import opened Sums

  datatype Owner = Owner(id: int, pid: int, bytes: int)

  type Live = map<Blk, Owner>

  // ---------- the search, as the code performs it ----------

  // Bytes found walking down from l through left children only.
  function LeftUsed(live: Live, l: Blk): int
    decreases l.k
  {
    (if l in live then live[l].bytes else 0) + if l.k == 0 then 0 else LeftUsed(live, l.Left())
  }

  function RightUsed(live: Live, r: Blk): int
    decreases r.k
  {
    (if r in live then live[r].bytes else 0) + if r.k == 0 then 0 else RightUsed(live, r.Right())
  }

  // get_used_space: the left spine of the left child and the right spine of the right child, nothing else.
  function UsedSpace(live: Live, b: Blk): int {
    if b.k == 0 then 0 else LeftUsed(live, b.Left()) + RightUsed(live, b.Right())
  }

  // traverse_MemorySegment for a block of 2^n bytes below b.
  function Find(live: Live, b: Blk, n: nat): Option<Blk>
    decreases b.k
  {
    if b.k < n || b in live then None
    else if b.k == n && b.Size() - UsedSpace(live, b) >= Pow2(n) then Some(b)
    else
      match Find(live, b.Left(), n)
      case Some(c) => Some(c)
      case None => Find(live, b.Right(), n)
  }

  // allocate_memory followed by update_id.
  function Admit(live: Live, root: Blk, id: int, pid: int, bytes: int): Live {
    match Find(live, root, CeilLog(bytes))
    case None => live
    case Some(c) => live[c := Owner(id, pid, bytes)]
  }

  // deallocate_memory, when no live block contains another.
  function Free(live: Live, pid: int): Live {
    map b | b in live && live[b].pid != pid :: live[b]
  }

  ghost predicate Submap(a: Live, b: Live) { forall x :: x in a ==> x in b && a[x] == b[x] }

  lemma {:induction false} FindReturnsUnowned(live: Live, b: Blk, n: nat)
    ensures Find(live, b, n).Some? ==> Find(live, b, n).value !in live && Find(live, b, n).value.k == n
    decreases b.k
  {
    if b.k >= n && b !in live && !(b.k == n && b.Size() - UsedSpace(live, b) >= Pow2(n)) {
      FindReturnsUnowned(live, b.Left(), n);
      FindReturnsUnowned(live, b.Right(), n);
    }
  }

  // ---------- the search, as intervals ----------

  ghost predicate Positive(live: Live) { forall b :: b in live ==> live[b].bytes >= 1 }

  ghost predicate IdFresh(live: Live, id: int) { forall b :: b in live ==> live[b].id != id }

  ghost predicate PidFresh(live: Live, pid: int) { forall b :: b in live ==> live[b].pid != pid }

  ghost predicate Under(live: Live, root: Blk) { forall b :: b in live ==> Inside(b, root) }

  // b lies strictly inside c and shares c's first or last address.
  predicate TouchesEdge(b: Blk, c: Blk) {
    Inside(b, c) && b != c && (b.Start() == c.Start() || b.End() == c.End())
  }

  // No live block covers c, and none inside c touches either of its ends.
  ghost predicate EdgeClear(live: Live, c: Blk) {
    forall b :: b in live ==> !Inside(c, b) && !TouchesEdge(b, c)
  }

  // No live block overlaps c.
  ghost predicate Clear(live: Live, c: Blk) {
    forall b :: b in live ==> Disjoint(b, c)
  }

  ghost predicate LowestEdgeClear(live: Live, root: Blk, n: nat, c: Blk) {
    && Inside(c, root) && c.k == n && EdgeClear(live, c)
    && forall d :: Inside(d, root) && d.k == n && EdgeClear(live, d) ==> c.Start() <= d.Start()
  }

  // The live blocks never overlap.
  ghost predicate Safe(live: Live) {
    forall a, b :: a in live && b in live && a != b ==> Disjoint(a, b)
  }

  // The lowest block of the size with clear ends hides a live block in its interior.
  ghost predicate InteriorHit(live: Live, root: Blk, n: nat) {
    exists c, b :: LowestEdgeClear(live, root, n, c) && b in live && Inside(b, c)
  }

  lemma LeftEdgeStep(b: Blk, l: Blk)
    ensures (Inside(b, l) && b != l && b.Start() == l.Start())
       <==> (l.k > 0 && Inside(b, l.Left()) && b.Start() == l.Left().Start())
  {
    if l.k > 0 {
      HalvesOf(l);
      if Inside(b, l.Left()) { HalfInside(b, l); }
    }
    if Inside(b, l) && b != l {
      InsideHalf(b, l);
      if Inside(b, l.Right()) { InsideWithin(b, l.Right()); }
    }
  }

  lemma RightEdgeStep(b: Blk, r: Blk)
    ensures (Inside(b, r) && b != r && b.End() == r.End())
       <==> (r.k > 0 && Inside(b, r.Right()) && b.End() == r.Right().End())
  {
    if r.k > 0 {
      HalvesOf(r);
      if Inside(b, r.Right()) { HalfInside(b, r); }
    }
    if Inside(b, r) && b != r {
      InsideHalf(b, r);
      if Inside(b, r.Left()) { InsideWithin(b, r.Left()); }
    }
  }

  lemma {:induction false} LeftUsedZero(live: Live, l: Blk)
    requires Positive(live)
    ensures LeftUsed(live, l) >= 0
    ensures LeftUsed(live, l) == 0 <==> forall b :: b in live ==> !(Inside(b, l) && b.Start() == l.Start())
    decreases l.k
  {
    if l.k > 0 { LeftUsedZero(live, l.Left()); }
    forall b { LeftEdgeStep(b, l); }
  }

  lemma {:induction false} RightUsedZero(live: Live, r: Blk)
    requires Positive(live)
    ensures RightUsed(live, r) >= 0
    ensures RightUsed(live, r) == 0 <==> forall b :: b in live ==> !(Inside(b, r) && b.End() == r.End())
    decreases r.k
  {
    if r.k > 0 { RightUsedZero(live, r.Right()); }
    forall b { RightEdgeStep(b, r); }
  }

  // The usage guard passes exactly when nothing live inside touches an end of the block.
  lemma UsedSpaceZero(live: Live, c: Blk)
    requires Positive(live)
    ensures UsedSpace(live, c) >= 0
    ensures UsedSpace(live, c) == 0 <==> forall b :: b in live ==> !TouchesEdge(b, c)
  {
    if c.k > 0 {
      LeftUsedZero(live, c.Left());
      RightUsedZero(live, c.Right());
    }
    forall b: Blk
      ensures TouchesEdge(b, c) <==> c.k > 0 && ((Inside(b, c.Left()) && b.Start() == c.Left().Start())
                                              || (Inside(b, c.Right()) && b.End() == c.Right().End()))
    {
      LeftEdgeStep(b, c);
      RightEdgeStep(b, c);
    }
  }

  // The tree search is first fit over edge-clear blocks: it returns the lowest one, and fails only if there is none.
  lemma {:induction false} FindIsFirstFit(live: Live, b: Blk, n: nat)
    requires Positive(live)
    requires forall a :: a in live && Inside(b, a) ==> a == b
    ensures Find(live, b, n).None? ==> forall c :: Inside(c, b) && c.k == n ==> !EdgeClear(live, c)
    ensures Find(live, b, n).Some? ==> LowestEdgeClear(live, b, n, Find(live, b, n).value)
    decreases b.k
  {
    forall c | Inside(c, b) { InsideWithin(c, b); }
    if b.k < n || b in live {
    } else if b.k == n {
      UsedSpaceZero(live, b);
    } else {
      HalvesOf(b);
      FindIsFirstFit(live, b.Left(), n);
      FindIsFirstFit(live, b.Right(), n);
      forall c | Inside(c, b) && c.k == n
        ensures Inside(c, b.Left()) || Inside(c, b.Right())
      {
        InsideHalf(c, b);
      }
      forall c | Inside(c, b.Left()) || Inside(c, b.Right()) { HalfInside(c, b); }
      forall c | Inside(c, b.Left()) { InsideWithin(c, b.Left()); }
      forall c | Inside(c, b.Right()) { InsideWithin(c, b.Right()); }
    }
  }

  lemma FindFromRoot(live: Live, root: Blk, n: nat)
    requires Positive(live) && Under(live, root)
    ensures Find(live, root, n).None? ==> forall c :: Inside(c, root) && c.k == n ==> !EdgeClear(live, c)
    ensures Find(live, root, n).Some? ==> LowestEdgeClear(live, root, n, Find(live, root, n).value)
  {
    forall a | a in live && Inside(root, a) ensures a == root {
      InsideAntisymmetric(root, a);
    }
    FindIsFirstFit(live, root, n);
  }

  lemma LowestIsUnique(live: Live, root: Blk, n: nat, c: Blk, d: Blk)
    requires LowestEdgeClear(live, root, n, c) && LowestEdgeClear(live, root, n, d)
    ensures c == d
  {
    if c != d { SameLevelDisjoint(c, d); }
  }

  lemma FindAt(live: Live, root: Blk, n: nat, c: Blk)
    requires Positive(live) && Under(live, root)
    requires LowestEdgeClear(live, root, n, c)
    ensures Find(live, root, n) == Some(c)
  {
    FindFromRoot(live, root, n);
    LowestIsUnique(live, root, n, c, Find(live, root, n).value);
  }

  lemma OverlapNested(a: Blk, b: Blk)
    ensures !Disjoint(a, b) <==> Inside(a, b) || Inside(b, a)
  {
    if a.k <= b.k { NestedOrDisjoint(a, b); }
    if b.k <= a.k { NestedOrDisjoint(b, a); }
    if Inside(a, b) { InsideWithin(a, b); }
    if Inside(b, a) { InsideWithin(b, a); }
  }

  lemma ClearIsEdgeClear(live: Live, c: Blk)
    requires Clear(live, c)
    ensures EdgeClear(live, c)
  {
    forall b | b in live ensures !Inside(c, b) && !TouchesEdge(b, c) { OverlapNested(b, c); }
  }

  // ---------- completeness, lowest address, exact safety ----------

  // A refusal means that no free aligned interval of the rounded size exists. No condition on the live set.
  lemma RefusesOnlyWhenNothingFits(live: Live, root: Blk, n: nat)
    requires Positive(live) && Under(live, root)
    requires Find(live, root, n).None?
    ensures forall c :: Inside(c, root) && c.k == n ==> !Clear(live, c)
  {
    FindFromRoot(live, root, n);
    forall c | Inside(c, root) && c.k == n && Clear(live, c) ensures false { ClearIsEdgeClear(live, c); }
  }

  // A grant overlaps nothing exactly when the lowest edge-clear block has a clear interior;
  // it is then the free aligned interval of least address.
  lemma GrantIsLowestFreeIff(live: Live, root: Blk, n: nat)
    requires Positive(live) && Under(live, root)
    requires Find(live, root, n).Some?
    ensures var c := Find(live, root, n).value;
            Inside(c, root) && c.k == n && c !in live
    ensures var c := Find(live, root, n).value;
            !InteriorHit(live, root, n) <==>
            (Clear(live, c) && forall d :: Inside(d, root) && d.k == n && Clear(live, d) ==> c.Start() <= d.Start())
  {
    FindFromRoot(live, root, n);
    var c := Find(live, root, n).value;
    forall b | b in live ensures Disjoint(b, c) <==> !Inside(b, c) { OverlapNested(b, c); }
    forall d | Clear(live, d) ensures EdgeClear(live, d) { ClearIsEdgeClear(live, d); }
    forall d | LowestEdgeClear(live, root, n, d) ensures d == c { LowestIsUnique(live, root, n, c, d); }
  }

  lemma AddedBlockSafeIff(live: Live, c: Blk, o: Owner)
    requires Safe(live) && c !in live
    ensures Safe(live[c := o]) <==> Clear(live, c)
  {
    var more := live[c := o];
    if Safe(more) {
      forall b | b in live ensures Disjoint(b, c) { assert b in more && c in more; }
    }
  }

  // A live set that does not overlap stays so after an admission exactly when there is no interior hit.
  lemma AdmitSafeIff(live: Live, root: Blk, id: int, pid: int, bytes: int)
    requires Positive(live) && Under(live, root) && Safe(live)
    ensures Safe(Admit(live, root, id, pid, bytes)) <==> !InteriorHit(live, root, CeilLog(bytes))
  {
    var n := CeilLog(bytes);
    FindFromRoot(live, root, n);
    if Find(live, root, n).Some? {
      var c := Find(live, root, n).value;
      GrantIsLowestFreeIff(live, root, n);
      AddedBlockSafeIff(live, c, Owner(id, pid, bytes));
      forall d | Clear(live, d) ensures EdgeClear(live, d) { ClearIsEdgeClear(live, d); }
    }
  }

  lemma HalfTouchesEdge(b: Blk, c: Blk)
    requires Inside(b, c) && b != c && b.k + 1 >= c.k
    ensures TouchesEdge(b, c)
  {
    ParentHalves(b);
    HalvesOf(c);
  }

  // Sufficient in practice: every live block has at least half of the rounded request.
  lemma HalfSizedNeighboursAreSafe(live: Live, root: Blk, n: nat)
    requires forall b :: b in live ==> b.k + 1 >= n
    ensures !InteriorHit(live, root, n)
  {
    forall c, b | LowestEdgeClear(live, root, n, c) && b in live
      ensures !Inside(b, c)
    {
      if Inside(b, c) && b != c { HalfTouchesEdge(b, c); }
    }
  }

  // A failed request keeps failing while blocks are only added.
  lemma RefusalIsMonotone(live: Live, more: Live, root: Blk, n: nat)
    requires Positive(live) && Under(live, root) && Positive(more) && Under(more, root)
    requires live.Keys <= more.Keys
    requires Find(live, root, n).None?
    ensures Find(more, root, n).None?
  {
    FindFromRoot(live, root, n);
    FindFromRoot(more, root, n);
    if Find(more, root, n).Some? {
      assert EdgeClear(live, Find(more, root, n).value);
    }
  }

  // Once everything is freed, any request up to the root size succeeds at address 0.
  lemma {:induction false} EmptyGrantsAtZero(k: nat, n: nat)
    requires n <= k
    ensures Find(map[], Blk(k, 0), n) == Some(Blk(n, 0)) && Blk(n, 0).Start() == 0
  {
    var none: Live := map[];
    UsedSpaceZero(none, Blk(k, 0));
    if n < k { EmptyGrantsAtZero(k - 1, n); }
  }

  // ---------- whole runs ----------

  datatype Op = Request(id: int, pid: int, bytes: int) | Exit(pid: int)

  function Apply(live: Live, root: Blk, op: Op): Live {
    match op
    case Request(id, pid, bytes) => Admit(live, root, id, pid, bytes)
    case Exit(pid) => Free(live, pid)
  }

  function StateAfter(live: Live, root: Blk, ops: seq<Op>): Live
    decreases |ops|
  {
    if ops == [] then live else StateAfter(Apply(live, root, ops[0]), root, ops[1..])
  }

  // Every block is inside the root and is the least power of two holding its bytes.
  ghost predicate WellSized(live: Live, root: Blk) {
    forall b :: b in live ==> Inside(b, root) && live[b].bytes >= 1 && b.k == CeilLog(live[b].bytes)
  }

  ghost predicate PositiveRequests(ops: seq<Op>) {
    forall i :: 0 <= i < |ops| && ops[i].Request? ==> ops[i].bytes >= 1
  }

  lemma ApplyWellSized(live: Live, root: Blk, op: Op)
    requires WellSized(live, root)
    requires op.Request? ==> op.bytes >= 1
    ensures WellSized(Apply(live, root, op), root)
  {
    if op.Request? && Find(live, root, CeilLog(op.bytes)).Some? {
      GrantIsLowestFreeIff(live, root, CeilLog(op.bytes));
    }
  }

  // Every state of the run is free of overlaps.
  ghost predicate AllSafe(live: Live, root: Blk, ops: seq<Op>)
    decreases |ops|
  {
    Safe(live) && (ops != [] ==> AllSafe(Apply(live, root, ops[0]), root, ops[1..]))
  }

  // No request of the run is made in a state with an interior hit for its size.
  ghost predicate NoInteriorHits(live: Live, root: Blk, ops: seq<Op>)
    decreases |ops|
  {
    ops != [] ==>
      && (ops[0].Request? ==> !InteriorHit(live, root, CeilLog(ops[0].bytes)))
      && NoInteriorHits(Apply(live, root, ops[0]), root, ops[1..])
  }

  // Over any run, live blocks stay disjoint exactly when no request meets an interior hit.
  lemma {:induction false} RunSafeIff(live: Live, root: Blk, ops: seq<Op>)
    requires WellSized(live, root) && Safe(live) && PositiveRequests(ops)
    ensures AllSafe(live, root, ops) <==> NoInteriorHits(live, root, ops)
    decreases |ops|
  {
    if ops != [] {
      var next := Apply(live, root, ops[0]);
      ApplyWellSized(live, root, ops[0]);
      if ops[0].Request? {
        AdmitSafeIff(live, root, ops[0].id, ops[0].pid, ops[0].bytes);
      }
      if Safe(next) {
        RunSafeIff(next, root, ops[1..]);
      }
    }
  }

  // ---------- capacity ----------

  ghost function SizeSum(s: set<Blk>): int { Sum(s, (b: Blk) => b.Size()) }

  ghost function Part(s: set<Blk>, half: Blk): set<Blk> { set b | b in s && Inside(b, half) }

  lemma SplitByHalves(s: set<Blk>, root: Blk)
    requires root.k > 0
    requires forall b :: b in s ==> Inside(b, root) && b != root
    ensures SizeSum(s) == SizeSum(Part(s, root.Left())) + SizeSum(Part(s, root.Right()))
  {
    var lo, hi := Part(s, root.Left()), Part(s, root.Right());
    forall b | b in s ensures b in lo <==> b !in hi { InsideHalf(b, root); }
    assert s == lo + hi;
    SumUnion(lo, hi, (b: Blk) => b.Size());
  }

  lemma {:induction false} DisjointBlocksFit(s: set<Blk>, root: Blk)
    requires forall b :: b in s ==> Inside(b, root)
    requires forall a, b :: a in s && b in s && a != b ==> Disjoint(a, b)
    ensures SizeSum(s) <= root.Size()
    decreases root.k
  {
    if root in s {
      forall b | b in s ensures b == root { OverlapNested(b, root); }
      assert s == {root};
      SumRemove(s, (b: Blk) => b.Size(), root);
    } else if s != {} {
      var any :| any in s;
      InsideHalf(any, root);
      SplitByHalves(s, root);
      DisjointBlocksFit(Part(s, root.Left()), root.Left());
      DisjointBlocksFit(Part(s, root.Right()), root.Right());
    }
  }

  lemma RoundingWastesUnderHalf(bytes: int)
    requires bytes >= 1
    ensures bytes <= Pow2(CeilLog(bytes)) < 2 * bytes
  {
  }

  // While nothing overlaps, the live blocks fit in the root and waste less than the bytes asked for.
  lemma CapacityBound(live: Live, root: Blk)
    requires WellSized(live, root) && Safe(live)
    ensures SizeSum(live.Keys) <= root.Size()
    ensures live != map[] ==>
              SizeSum(live.Keys) < 2 * Sum(live.Keys, (b: Blk) => if b in live then live[b].bytes else 0)
  {
    DisjointBlocksFit(live.Keys, root);
    var bytes := (b: Blk) => if b in live then live[b].bytes else 0;
    var twice := (b: Blk) => 2 * bytes(b);
    if live != map[] {
      var some :| some in live.Keys;
      forall b | b in live.Keys ensures b.Size() < twice(b) { RoundingWastesUnderHalf(live[b].bytes); }
      SumMonotone(live.Keys, (b: Blk) => b.Size(), twice);
      SumScale(live.Keys, bytes, twice);
    }
  }

  lemma {:induction false} SumScale(s: set<Blk>, f: Blk -> int, g: Blk -> int)
    requires forall b :: b in s ==> g(b) == 2 * f(b)
    ensures Sum(s, g) == 2 * Sum(s, f)
    decreases s
  {
    if s != {} {
      var b :| b in s;
      SumRemove(s, f, b);
      SumRemove(s, g, b);
      SumScale(s - {b}, f, g);
    }
  }
}
