/** The scheduler of scheduler.c: its globals as fields, its functions as methods.
    The ghost field `sys` is the abstract state; every method is proved to make one step of SchedulerModel. */
module Scheduler {
  import opened Wrappers
  import opened Processes
  import opened PcbQueue
  import opened ReadyHeap
  import opened SchedulerModel
  import opened SchedulerInvariant
  import opened SchedulerWork

  ghost predicate Labelled<T>(s: seq<T>, m: map<T, int>) { forall i :: 0 <= i < |s| ==> s[i] in m }

  // The ids of a sequence of control blocks, read off a snapshot of the pointers.
  ghost function Labels<T>(s: seq<T>, m: map<T, int>): (r: seq<int>)
    requires Labelled(s, m)
  {
    seq(|s|, i requires 0 <= i < |s| => m[s[i]])
  }

  ghost function Without<T>(s: seq<T>, k: nat): seq<T>
    requires k < |s|
  {
    s[..k] + s[k + 1..]
  }

  lemma TakenOut<T>(s: seq<T>, k: nat)
    requires k < |s|
    ensures multiset(s) == multiset{s[k]} + multiset(Without(s, k))
  {
    assert s == s[..k] + [s[k]] + s[k + 1..];
  }

  lemma LabelTakenOut<T>(s: seq<T>, m: map<T, int>, k: nat)
    requires k < |s| && Labelled(s, m)
    ensures Labelled(Without(s, k), m)
    ensures multiset(Labels(s, m)) == multiset{m[s[k]]} + multiset(Labels(Without(s, k), m))
  {
    TakenOut(Labels(s, m), k);
    assert Labels(Without(s, k), m) == Without(Labels(s, m), k);
  }

  lemma SameWithout<T>(a: seq<T>, b: seq<T>, i: nat, k: nat)
    requires multiset(a) == multiset(b) && i < |a| && k < |b| && a[i] == b[k]
    ensures multiset(Without(a, i)) == multiset(Without(b, k))
  {
    TakenOut(a, i);
    TakenOut(b, k);
    assert multiset(a) - multiset{a[i]} == multiset(Without(a, i));
    assert multiset(b) - multiset{a[i]} == multiset(Without(b, k));
  }

  lemma IndexIn<T>(a: seq<T>, b: seq<T>) returns (k: nat)
    requires multiset(a) == multiset(b) && a != []
    ensures k < |b| && b[k] == a[0]
  {
    assert a[0] in multiset(b);
    k :| 0 <= k < |b| && b[k] == a[0];
  }

  // A permutation permutes the labels.
  lemma {:induction false} LabelsFollow<T>(a: seq<T>, b: seq<T>, m: map<T, int>)
    requires multiset(a) == multiset(b) && Labelled(a, m) && Labelled(b, m)
    ensures multiset(Labels(a, m)) == multiset(Labels(b, m))
    decreases |a|
  {
    assert |multiset(a)| == |a| && |multiset(b)| == |b|;
    if a == [] {
      assert b == [];
    } else {
      var k := IndexIn(a, b);
      SameWithout(a, b, 0, k);
      LabelTakenOut(a, m, 0);
      LabelTakenOut(b, m, k);
      LabelsFollow(Without(a, 0), Without(b, k), m);
    }
  }

  // The ready entries, as values, are those of the abstract state.
  ghost predicate Shown(v: seq<Pcb>, s: Sys) {
    && |v| == |s.ready|
    && forall k :: 0 <= k < |v| ==> s.ready[k] == v[k].id && v[k].id in s.procs && s.procs[v[k].id].pcb == v[k]
  }

  // Heap contents that are a permutation of one another show the same ids.
  lemma PermutedIds(a: seq<PcbRef>, b: seq<PcbRef>, va: seq<Pcb>, vb: seq<Pcb>, m: map<PcbRef, int>)
    requires multiset(a) == multiset(b) && |va| == |a| && |vb| == |b|
    requires forall k :: 0 <= k < |a| ==> a[k] in m && m[a[k]] == va[k].id
    requires forall k :: 0 <= k < |b| ==> b[k] in m && m[b[k]] == vb[k].id
    ensures multiset(PcbIds(va)) == multiset(PcbIds(vb))
  {
    LabelsFollow(a, b, m);
    assert PcbIds(va) == Labels(a, m) && PcbIds(vb) == Labels(b, m);
  }

  ghost predicate Ided(a: seq<PcbRef>, v: seq<Pcb>, m: map<PcbRef, int>) {
    |v| == |a| && forall k :: 0 <= k < |a| ==> a[k] in m && m[a[k]] == v[k].id
  }

  lemma IdedMore(a: seq<PcbRef>, v: seq<Pcb>, m: map<PcbRef, int>, x: PcbRef, p: Pcb)
    requires Ided(a, v, m) && x in m && m[x] == p.id
    ensures Ided(a + [x], v + [p], m)
  {
  }

  // Taking a block out of the heap takes its id, and nothing else, out of the ids shown.
  lemma IdsTaken(a: seq<PcbRef>, v: seq<Pcb>, b: seq<PcbRef>, w: seq<Pcb>, x: PcbRef, p: Pcb, m: map<PcbRef, int>)
    requires Ided(a, v, m) && Ided(b, w, m) && x in m && m[x] == p.id
    requires x in a && multiset(b) == multiset(a) - multiset{x}
    ensures multiset(PcbIds(v)) == multiset(PcbIds(w)) + multiset{p.id}
  {
    IdedMore(b, w, m, x, p);
    assert multiset(a) == multiset(b + [x]);
    PermutedIds(a, b + [x], v, w + [p], m);
    assert PcbIds(w + [p]) == PcbIds(w) + [p.id];
  }

  lemma SameElements<T>(a: seq<T>, b: seq<T>)
    requires multiset(a) <= multiset(b)
    ensures forall x :: x in a ==> x in b
  {
    forall x | x in a ensures x in b { assert multiset(a)[x] > 0; }
  }

  // The blocks of `now`, a permutation of `all`, show what those of `all` show.
  lemma PermutedShown(all: seq<PcbRef>, u: seq<Pcb>, now: seq<PcbRef>, w: seq<Pcb>, m: map<PcbRef, Pcb>, target: Sys)
    requires multiset(all) == multiset(now) && Shown(u, target) && |u| == |all| && |w| == |now|
    requires forall k :: 0 <= k < |all| ==> all[k] in m && m[all[k]] == u[k]
    requires forall k :: 0 <= k < |now| ==> now[k] in m && m[now[k]] == w[k]
    ensures Shown(w, target.(ready := PcbIds(w)))
  {
    SameElements(now, all);
    forall k | 0 <= k < |w| ensures w[k].id in target.procs && target.procs[w[k].id].pcb == w[k] {
      assert now[k] in all;
      var i :| 0 <= i < |all| && all[i] == now[k];
      assert u[i] == w[k];
    }
  }

  // What preempting the current process does to the ready entries.
  lemma RequeueShown(v: seq<Pcb>, s: Sys)
    requires Shown(v, s) && Placed(s) && s.current.Some? && s.current.value in s.procs
    requires s.procs[s.current.value].pcb.id == s.current.value
    ensures var q := Requeue(s);
            && Shown(v + [q.procs[s.current.value].pcb], q) && Placed(q)
            && Segments(q.procs) == Segments(s.procs) && |q.procs| == |s.procs|
  {
    var q, c := Requeue(s), s.current.value;
    PlacedOnce(s);
    assert q.procs.Keys == s.procs.Keys && |q.procs.Keys| == |s.procs.Keys|;
    assert multiset(q.ready) == multiset(s.ready) + multiset{c};
  }

  // A step defined up to heap order, followed by a pick, is a pick from the step itself.
  lemma PicksUpToOrder(a: Sys, b: Sys, s': Sys)
    requires Known(a) && Known(b) && UpToOrder(a, b) && Picks(b, s')
    ensures Picks(a, s')
  {
    assert |multiset(a.ready)| == |multiset(b.ready)|;
    forall i ensures i in a.ready <==> i in b.ready { assert multiset(a.ready)[i] == multiset(b.ready)[i]; }
  }

  lemma TookThenRan(before: Sys, mid: Sys, x: int)
    requires Known(before) && before.current.None? && mid == before.(ready := mid.ready)
    requires Takes(before, before.ready, x, mid.ready) && x in before.procs
    ensures Picks(before, Dispatch(mid, x))
  {
    TakesCount(before, before.ready, x, mid.ready);
  }

  lemma SwitchFromRequeued(before: Sys, mid: Sys, s': Sys)
    requires Known(before) && before.current.Some? && before.procs[before.current.value].shared != 0
    requires UpToOrder(Requeue(Refresh(before)), mid) && Known(mid) && Picks(mid, s')
    ensures ContextSwitch(before, s')
  {
    RequeueRefreshed(before);
    PicksUpToOrder(Requeue(before), mid, s');
  }

  lemma RequeueRefreshed(s: Sys)
    requires s.current.Some? && s.current.value in s.procs
    ensures Requeue(Refresh(s)) == Requeue(s)
  {
    assert Requeue(Refresh(s)).procs == Requeue(s).procs;
  }

  // A process just dispatched is shown with its true remaining time, and with a new slice.
  lemma DispatchedIsFresh(before: Sys, s: Sys)
    requires Base(before) && Known(before) && before.current.None? && before.ready != [] && Picks(before, s)
    ensures s.current.Some? && Refresh(s) == s && s.sliceStart == s.clockValue
  {
    var x := s.current.value;
    TakesCount(before, before.ready, x, s.ready);
    Roles(before);
    assert s.procs[x].pcb.remaining == s.procs[x].shared;
    assert Refresh(s).procs == s.procs;
  }

  // A context switch leaves its process shown with its true remaining time, and so does keeping the current one.
  lemma SwitchLeavesFresh(r: Sys, s: Sys)
    requires Base(r) && Known(r) && NearClock(r) && r.ready != [] && ContextSwitch(r, s)
    ensures Refresh(s) == s
  {
    Roles(r);
    if r.current.None? {
      DispatchedIsFresh(r, s);
    } else {
      RequeueBase(r);
      Roles(Requeue(r));
      DispatchedIsFresh(Requeue(r), s);
    }
  }

  // After any of the algorithms the current process is shown with its true remaining time.
  lemma PolicyLeavesFresh(before: Sys, s: Sys)
    requires Base(before) && Known(before) && NearClock(before) && RunPolicy(before, s)
    ensures Refresh(s) == s
  {
    var r := Refresh(before);
    RefreshBase(before);
    RefreshFrame(before);
    if UpToOrder(r, s) {
      assert Refresh(s).procs == s.procs;
    } else {
      SwitchLeavesFresh(r, s);
    }
  }

  // A context switch from an idle processor.
  ghost predicate Dispatches(before: Sys, mid: Sys)
    requires Known(before)
  {
    && before.current.None? && ContextSwitch(before, mid) && SameFrame(before, mid)
    && mid.current.Some? && Refresh(mid) == mid && mid.sliceStart == mid.clockValue
  }

  ghost predicate AlgorithmRan(before: Sys, mid: Sys)
    requires Known(before)
  {
    match before.policy
    case HPF => if before.current.None? && before.ready != [] then Dispatches(before, mid) else mid == before
    case _ => RunPolicy(before, mid)
  }

  lemma TickFollows(before: Sys, mid: Sys, s': Sys)
    requires Base(before) && Known(before) && NearClock(before) && AlgorithmRan(before, mid)
    requires s' == Refresh(mid)
    ensures RunPolicy(before, s')
  {
    if !before.policy.HPF? { PolicyLeavesFresh(before, mid); }
  }

  lemma TickMade(s: Sys, w: Sys, s': Sys)
    requires Inv(s) && s.phase.BeforeWork? && s.clk != s.clockValue
    requires Known(s.(clockValue := s.clk)) && RunPolicy(s.(clockValue := s.clk), w)
    requires s' == w.(granted := w.current.Some?, phase := AfterWork)
    ensures SchedTick(s, s')
  {
    PlacedOnce(s);
    RunPolicyFrame(s.(clockValue := s.clk), w);
    assert w == s'.(granted := s.granted, phase := BeforeWork);
  }

  lemma SrtnFollows(before: Sys, r: Sys, s': Sys)
    requires Known(before) && Known(r) && before.policy.SRTN? && r == Refresh(before)
    requires if r.ready != [] && (r.current.None? || ShorterReady(r)) then ContextSwitch(r, s') else s' == r
    ensures RunPolicy(before, s')
  {
  }

  lemma RrFollows(before: Sys, mid: Sys, s': Sys)
    requires Known(before) && Known(mid) && before.policy.RR? && before.quantum > 0
    requires if before.current.None? && before.ready != [] then Dispatches(before, mid) else mid == before
    requires if mid.current.None? then s' == mid
             else Known(Refresh(mid)) && if mid.clockValue - mid.sliceStart >= mid.quantum && mid.ready != []
                                         then ContextSwitch(Refresh(mid), s') else s' == Refresh(mid)
    ensures RunPolicy(before, s')
  {
  }

  lemma SameQueuePlaced(a: Sys, order: seq<int>)
    requires Placed(a) && SameQueue(a, a.ready, order)
    ensures Placed(a.(ready := order)) && UpToOrder(a, a.(ready := order))
  {
  }

  lemma LeastKey(v: seq<Pcb>, s: Sys, x: int)
    requires Shown(v, s) && !s.policy.RR? && x in s.procs
    requires forall k :: 0 <= k < |v| ==> Compare(s.policy.SRTN?, s.procs[x].pcb, v[k]) <= 0
    ensures forall i :: i in s.ready ==> i in s.procs && Key(s, x) <= Key(s, i)
  {
  }

  // Taking x out of the ready structure leaves it in no place at all.
  lemma TakenPlaces(s: Sys, x: int, rest: seq<int>)
    requires Placed(s) && s.current.None? && multiset(s.ready) == multiset(rest) + multiset{x}
    ensures multiset(s.procs.Keys) == multiset(rest) + multiset{x} + multiset(Ids(s.finished))
    ensures x in s.procs && x !in rest
  {
    PlacedOnce(s);
    assert x in s.ready by { assert multiset(s.ready)[x] > 0; }
    assert multiset(s.procs.Keys)[x] == 1;
    assert multiset(rest)[x] == 0;
  }

  // Taking the first of the queue.
  lemma FrontTaken(s: Sys, v: seq<Pcb>)
    requires Shown(v, s) && Placed(s) && s.current.None? && v != [] && s.policy.RR?
    ensures var x, rest := v[0].id, s.ready[1..];
            && Shown(v[1..], s.(ready := rest)) && ReadyKnown(s) && Takes(s, s.ready, x, rest)
            && x in s.procs && s.procs[x].pcb == v[0] && x !in rest
            && multiset(s.procs.Keys) == multiset(rest) + multiset{x} + multiset(Ids(s.finished))
  {
    var x, rest := v[0].id, s.ready[1..];
    assert s.ready == [x] + rest;
    PlacedOnce(s);
    TakenPlaces(s, x, rest);
  }

  lemma EnrolSegments(s: Sys, p: Pcb)
    requires p.id !in s.procs
    ensures Segments(Enrol(s, p).procs) == Segments(s.procs)[p.id := p.exec]
  {
  }

  lemma EnrolEntries(v: seq<Pcb>, s: Sys, p: Pcb)
    requires Shown(v, s) && p.id !in s.procs
    ensures Shown(v + [Enrol(s, p).procs[p.id].pcb], Enrol(s, p))
  {
  }

  // An arrival joins the ready entries and disturbs no other process.
  lemma EnrolShown(v: seq<Pcb>, s: Sys, p: Pcb)
    requires Shown(v, s) && Placed(s) && p.id !in s.procs
    ensures var e := Enrol(s, p);
            && Shown(v + [e.procs[p.id].pcb], e) && Placed(e)
            && |e.procs| == |s.procs| + 1 && Segments(e.procs) == Segments(s.procs)[p.id := p.exec]
            && (s.current.Some? ==> s.current.value in s.procs && s.current.value != p.id)
  {
    PlacedOnce(s);
    EnrolPlaced(s, p);
    EnrolSegments(s, p);
    EnrolEntries(v, s, p);
  }

  // A completion leaves the ready entries alone and appends one record.
  lemma RetireShown(v: seq<Pcb>, s: Sys)
    requires Shown(v, s) && Placed(s) && s.current.Some? && s.current.value in s.procs
    ensures var r := Retire(s);
            && Shown(v, r) && Placed(r) && |r.procs| == |s.procs| && Segments(r.procs) == Segments(s.procs)
            && Turnarounds(r.finished) == Turnarounds(s.finished) + [r.finished[|s.finished|].turnaround]
            && Waits(r.finished) == Waits(s.finished) + [r.finished[|s.finished|].wait]
  {
    var r := Retire(s);
    PlacedOnce(s);
    IdsAppend(s.finished, r.finished[|s.finished|]);
    assert r.procs.Keys == s.procs.Keys && |r.procs.Keys| == |s.procs.Keys|;
    assert multiset(Ids(r.finished)) == multiset(Ids(s.finished)) + multiset{s.current.value};
  }

  // A run step only moves the clock and the segment of the current process.
  lemma WorkedShown(v: seq<Pcb>, s: Sys)
    requires Shown(v, s) && Placed(s) && s.current.Some? && s.current.value in s.procs
    ensures var c, w := s.current.value, Worked(s);
            && Shown(v, w) && Placed(w) && |w.procs| == |s.procs|
            && Segments(w.procs) == Segments(s.procs)[c := s.procs[c].shared - 1]
  {
    PlacedOnce(s);
    var w := Worked(s);
    assert w.procs.Keys == s.procs.Keys && |w.procs.Keys| == |s.procs.Keys|;
  }

  lemma SameMembers(a: Sys, b: Sys)
    requires UpToOrder(a, b)
    ensures |a.ready| == |b.ready| && forall i :: i in a.ready <==> i in b.ready
  {
    assert |multiset(a.ready)| == |multiset(b.ready)|;
    forall i ensures i in a.ready <==> i in b.ready { assert multiset(a.ready)[i] == multiset(b.ready)[i]; }
  }

  lemma ShorterUpToOrder(a: Sys, b: Sys)
    requires Known(a) && Known(b) && UpToOrder(a, b) && a.current.Some?
    ensures ShorterReady(a) <==> ShorterReady(b)
  {
    SameMembers(a, b);
  }

  // The order inside the heap does not matter to what an algorithm may do.
  lemma PolicyUpToOrder(a: Sys, b: Sys, s': Sys)
    requires Known(a) && Known(b) && UpToOrder(a, b) && RunPolicy(b, s')
    requires b.current.Some? ==> b.procs[b.current.value].shared != 0
    requires a.policy.SRTN? && a.current.Some?
    ensures RunPolicy(a, s')
  {
    var ra, rb := Refresh(a), Refresh(b);
    SameMembers(a, b);
    assert UpToOrder(ra, rb);
    ShorterUpToOrder(ra, rb);
    if b.ready != [] && ShorterReady(rb) { SwitchUpToOrder(ra, rb, s'); }
  }

  lemma SwitchUpToOrder(a: Sys, b: Sys, s': Sys)
    requires Known(a) && Known(b) && UpToOrder(a, b) && b.ready != [] && ContextSwitch(b, s')
    requires b.current.Some? ==> b.procs[b.current.value].shared != 0
    ensures ContextSwitch(a, s')
  {
    if a.current.None? {
      PicksUpToOrder(a, b, s');
    } else {
      assert multiset(Requeue(a).ready) == multiset(a.ready) + multiset{a.current.value};
      assert multiset(Requeue(b).ready) == multiset(b.ready) + multiset{a.current.value};
      PicksUpToOrder(Requeue(a), Requeue(b), s');
    }
  }

  lemma ArrivalMade(s: Sys, p: Pcb, mid: Sys, s': Sys)
    requires Inv(s) && Known(s) && s.phase.BeforeWork? && !s.generatorFinished && p.id !in s.procs && p.exec >= 1
    requires UpToOrder(Enrol(s, p), mid) && Known(mid)
    requires if s.current.None? then s' == mid.(clockValue := -1)
             else if s.policy.SRTN? then RunPolicy(mid, s') else s' == mid
    ensures Arrive(s, p, s') && Inv(s')
  {
    EnrolBase(s, p);
    PlacedOnce(Enrol(s, p));
    Roles(Enrol(s, p));
    if s.current.Some? && s.policy.SRTN? { PolicyUpToOrder(Enrol(s, p), mid, s'); }
    ArriveInv(s, p, s');
  }

  // Messages about distinct processes the scheduler does not know.
  ghost predicate NewMessages(s: Sys, messages: seq<Pcb>) {
    && (forall m :: m in messages ==> m.exec >= 1 && m.id !in s.procs)
    && forall i, j :: 0 <= i < j < |messages| ==> messages[i].id != messages[j].id
  }

  lemma ArrivalCounts(s: Sys, p: Pcb, s': Sys, messages: seq<Pcb>)
    requires Inv(s) && Inv(s') && Arrive(s, p, s')
    requires messages != [] && messages[0] == p && NewMessages(s, messages)
    ensures |s'.ready| == |s.ready| + 1 && NewMessages(s', messages[1..])
    ensures s'.phase == s.phase && s'.generatorFinished == s.generatorFinished
  {
    ArriveWork(s, p, s');
    PlacedOnce(s);
    PlacedOnce(s');
    EnrolPlaced(s, p);
    assert |s'.procs| == |s'.procs.Keys| == |Enrol(s, p).procs.Keys| == |s.procs| + 1;
  }

  ghost predicate ReadyFor(s: Sys, messages: seq<Pcb>) {
    && Inv(s) && s.phase.BeforeWork? && NewMessages(s, messages)
    && (messages != [] ==> !s.generatorFinished && (!s.policy.RR? ==> |s.ready| + |messages| < MAX_PROCESSES))
  }

  lemma ReceivedOne(s: Sys, messages: seq<Pcb>, i: nat, states: seq<Sys>, before: Sys, after: Sys)
    requires i < |messages| && ReadyFor(before, messages[i..])
    requires Received(s, messages[..i], states) && states[i] == before
    requires Inv(after) && Arrive(before, messages[i], after)
    ensures ReadyFor(after, messages[i + 1..]) && Received(s, messages[..i + 1], states + [after])
  {
    ArrivalCounts(before, messages[i], after, messages[i..]);
    ArriveWork(before, messages[i], after);
    assert messages[i..][1..] == messages[i + 1..];
    var more := states + [after];
    forall k | 0 <= k < i + 1 ensures Arrive(more[k], messages[..i + 1][k], more[k + 1]) {
      if k < i { assert messages[..i][k] == messages[k] && more[k] == states[k] && more[k + 1] == states[k + 1]; }
    }
  }

  // A tick in which nobody runs.
  function Idled(s: Sys): Sys {
    if s.current.Some? && s.current.value in s.procs then
      var p := s.procs[s.current.value];
      s.(clk := s.clk + 1, phase := BeforeWork, procs := s.procs[s.current.value := p.(stalls := p.stalls + 1)])
    else s.(clk := s.clk + 1, phase := BeforeWork)
  }

  lemma IdleShown(v: seq<Pcb>, s: Sys)
    requires Shown(v, s) && Placed(s)
    ensures var t := Idled(s);
            && Shown(v, t) && Placed(t) && |t.procs| == |s.procs| && Segments(t.procs) == Segments(s.procs)
            && (s.phase.AfterWork? && !s.granted ==> RunTick(s, t))
  {
    PlacedOnce(s);
    var t := Idled(s);
    assert t.procs.Keys == s.procs.Keys && |t.procs.Keys| == |s.procs.Keys|;
  }

  ghost function Turnarounds(f: seq<Record>): seq<int> { seq(|f|, i requires 0 <= i < |f| => f[i].turnaround) }

  ghost function Waits(f: seq<Record>): seq<int> { seq(|f|, i requires 0 <= i < |f| => f[i].wait) }

  ghost function Segments(procs: map<int, Proc>): map<int, int> { map i | i in procs :: procs[i].shared }

  // Rewriting the control block of a process that is not ready leaves the ready entries and the segments as they were.
  lemma OtherBlock(v: seq<Pcb>, s: Sys, t: Sys, x: int)
    requires Shown(v, s) && t.ready == s.ready && x in s.procs && x !in s.ready
    requires x in t.procs && t.procs == s.procs[x := t.procs[x]] && t.procs[x].shared == s.procs[x].shared
    ensures Shown(v, t) && Segments(t.procs) == Segments(s.procs)
    ensures t.procs.Keys == s.procs.Keys && |t.procs| == |s.procs|
  {
    assert t.procs.Keys == s.procs.Keys;
    assert |t.procs.Keys| == |t.procs|;
  }

  // A control block once its process is made current.
  function Dispatched(pcb: Pcb, now: int): Pcb {
    if pcb.start == -1 then pcb.(state := RUNNING, start := now, waiting := now - pcb.arrival)
    else pcb.(state := RUNNING, waiting := pcb.waiting + if pcb.lastPreempt != -1 then now - pcb.lastPreempt else 0)
  }

  class Scheduler {
    const policy: Policy
    const quantum: int
    const heap: Heap          // ready_Heap, used by HPF and SRTN
    const rr: Queue           // rr_queue, used by RR
    var current: PcbRef?        // current_process
    var processCount: nat
    var generatorFinished: bool
    var clockValue: int
    var timeSliceStart: int
    var startTime: int
    var activeCpuTime: int
    var turnaroundTimes: seq<int>
    var waitTimes: seq<int>
    // The surroundings: the clock, the shared remaining-time segments, and whether current's semaphore is raised.
    var clk: int
    var shared: map<int, int>
    var granted: bool

    ghost var sys: Sys
    ghost var repr: set<PcbRef>  // every control block the scheduler has allocated

    // The abstract state shows the globals; what remains of it is told apart below.
    ghost predicate LoopVarsShown()
      reads this
    {
      match sys
      case Sys(p, q, t, phase, cv, slice, begin, active, procs, ready, c, g, done, finished, executed, preempted) =>
        && p == policy && q == quantum && t == clk && cv == clockValue && slice == timeSliceStart
        && begin == startTime && active == activeCpuTime && g == granted && done == generatorFinished
        && processCount == |procs| && shared == Segments(procs)
        && turnaroundTimes == Turnarounds(finished) && waitTimes == Waits(finished)
    }

    // The blocks in the ready structure, in memory order.
    ghost function ReadyPcbs(): seq<Pcb>
      requires rr.Valid() && heap.Sized()
      reads rr, rr.data, heap, heap.processes, heap.Refs()
    {
      if policy.RR? then rr.Contents() else heap.Pcbs()
    }

    ghost predicate StoresOk()
      reads rr, rr.data, heap, heap.processes, heap.Refs()
    {
      rr.Valid() && heap.Valid() && heap.byRemaining == policy.SRTN?
      && (policy.RR? ==> heap.size == 0)
    }

    ghost predicate ReadyShown()
      reads this`sys, this`repr, rr, rr.data, heap, heap.processes, heap.Refs()
    {
      match policy
      case RR => StoresOk() && Shown(rr.Contents(), sys)
      case _ => StoresOk() && Shown(heap.Pcbs(), sys) && forall c :: c in heap.Refs() ==> c in repr
    }

    ghost predicate CurrentShown()
      reads this`sys, this`repr, this`current, current
    {
      match sys.current
      case None => current == null
      case Some(c) =>
        && current != null && current in repr && current.pcb.id == c && current.pcb.state == RUNNING
        && c in sys.procs && sys.procs[c].pcb == current.pcb
    }

    ghost predicate Valid()
      reads this, rr, rr.data, heap, heap.processes, heap.Refs(), current, repr
    {
      LoopVarsShown() && ReadyShown() && CurrentShown() && Placed(sys)
    }

    // Whatever storage was added is new.
    twostate predicate Grown()
      reads this`repr, rr
    {
      (rr.data == old(rr.data) || fresh(rr.data)) && forall c :: c in repr ==> c in old(repr) || fresh(c)
    }

    constructor (policy: Policy, quantum: int, clk: int)
      requires quantum > 0 && clk >= 0
      ensures Valid() && Init(sys) && sys.policy == policy && sys.quantum == quantum && sys.clk == clk
      ensures fresh(repr) && fresh(rr) && fresh(rr.data) && fresh(heap) && fresh(heap.processes)
    {
      this.policy, this.quantum := policy, quantum;
      heap := new Heap(policy.SRTN?);
      rr := new Queue(100);
      current, processCount, generatorFinished := null, 0, false;
      clockValue, timeSliceStart, startTime, activeCpuTime := clk - 1, -1, -1, 0;
      turnaroundTimes, waitTimes := [], [];
      this.clk, shared, granted := clk, map[], false;
      sys := Sys(policy, quantum, clk, BeforeWork, clk - 1, -1, -1, 0, map[], [], None, false, false, [], 0, 0);
      repr := {};
      new;
      assert multiset(sys.procs.Keys) == multiset{};
    }

    // A block whose process is not ready is not in the ready heap, so the heap order cannot see its keys change.
    lemma Apart(cell: PcbRef)
      requires ReadyShown() && cell.pcb.id !in sys.ready
      ensures !policy.RR? ==> cell !in heap.Refs()
    {
      if !policy.RR? {
        forall k | 0 <= k < heap.size ensures heap.Contents()[k] != cell {
          assert heap.Pcbs()[k].id in sys.ready;
        }
      }
    }

    // The ready structures only see what they hold.
    twostate lemma StoresUntouched()
      requires old(StoresOk())
      requires unchanged(rr) && unchanged(rr.data) && unchanged(heap) && unchanged(heap.processes)
      requires forall c :: c in old(heap.Refs()) ==> unchanged(c)
      ensures StoresOk() && ReadyPcbs() == old(ReadyPcbs()) && heap.Refs() == old(heap.Refs())
    {
      forall i | 0 <= i < heap.size ensures heap.Pcbs()[i] == old(heap.Pcbs())[i] {
        assert heap.Refs()[i] in old(heap.Refs());
      }
      assert heap.Pcbs() == old(heap.Pcbs());
      assert rr.Contents() == old(rr.Contents());
    }

    // Changing the loop's own variables leaves the rest of the abstract state shown as it was.
    twostate lemma StillShown()
      requires old(Valid()) && LoopVarsShown()
      requires unchanged(this`current) && unchanged(this`repr) && unchanged(old(repr))
      requires unchanged(rr) && unchanged(rr.data) && unchanged(heap) && unchanged(heap.processes)
      requires forall c :: c in old(heap.Refs()) ==> unchanged(c)
      requires old(current) != null ==> unchanged(old(current))
      requires sys.procs == old(sys.procs) && sys.ready == old(sys.ready) && sys.current == old(sys.current)
      requires sys.finished == old(sys.finished)
      ensures Valid()
    {
      StoresUntouched();
    }

    // Everything the scheduler owns.
    ghost function Footprint(): set<object>
      reads this, rr
    {
      {this, rr, rr.data, heap, heap.processes} + repr
    }

    // Whatever has been added to it is new.
    twostate predicate OnlyNew()
      reads this, rr
    {
      forall o :: o in Footprint() ==> o in old(Footprint()) || fresh(o)
    }

    // The scheduler only sees its own storage.
    twostate lemma Untouched()
      requires old(Valid()) && forall o :: o in old(Footprint()) ==> unchanged(o)
      ensures Valid() && sys == old(sys) && Footprint() == old(Footprint())
    {
      assert old(CurrentShown());
      assert this in old(Footprint()) && rr in old(Footprint()) && rr.data in old(Footprint());
      assert heap in old(Footprint()) && heap.processes in old(Footprint());
      forall c | c in old(repr) ensures unchanged(c) { assert c in old(Footprint()); }
      forall c | c in old(heap.Refs()) ensures unchanged(c) { assert c in old(repr); }
      StillShown();
    }

    // ---------- the process-level operations ----------

    // update_process_remaining_time
    method UpdateRemainingTime(process: PcbRef)
      requires process.pcb.id in shared
      modifies process
      ensures process.pcb == old(process.pcb).(remaining := shared[old(process.pcb.id)])
    {
      process.pcb := process.pcb.(remaining := shared[process.pcb.id]);
    }

    // start_process for a process that never ran, resume_process otherwise.
    method StartOrResume(process: PcbRef)
      modifies this`startTime, this`activeCpuTime, this`timeSliceStart, process
      ensures process.pcb == Dispatched(old(process.pcb), clockValue) && timeSliceStart == clockValue
      ensures startTime == if old(process.pcb.start) == -1 && old(startTime) == -1 then clockValue else old(startTime)
      ensures activeCpuTime == old(activeCpuTime) + if old(process.pcb.start) == -1 then old(process.pcb.exec) else 0
    {
      if process.pcb.start == -1 { StartProcess(process); } else { ResumeProcess(process); }
    }

    method StartProcess(process: PcbRef)
      modifies this`startTime, this`activeCpuTime, this`timeSliceStart, process
      ensures process.pcb == old(process.pcb).(state := RUNNING, start := clockValue,
                                               waiting := clockValue - old(process.pcb.arrival))
      ensures startTime == if old(startTime) == -1 then clockValue else old(startTime)
      ensures activeCpuTime == old(activeCpuTime) + old(process.pcb.exec) && timeSliceStart == clockValue
    {
      process.pcb := process.pcb.(state := RUNNING, start := clockValue);
      if startTime == -1 { startTime := process.pcb.start; }
      activeCpuTime := activeCpuTime + process.pcb.exec;
      process.pcb := process.pcb.(waiting := clockValue - process.pcb.arrival);
      timeSliceStart := clockValue;
    }

    method ResumeProcess(process: PcbRef)
      modifies this`timeSliceStart, process
      ensures process.pcb == old(process.pcb).(state := RUNNING, waiting := old(process.pcb.waiting) +
                if old(process.pcb.lastPreempt) != -1 then clockValue - old(process.pcb.lastPreempt) else 0)
      ensures timeSliceStart == clockValue
    {
      process.pcb := process.pcb.(state := RUNNING);
      if process.pcb.lastPreempt != -1 {
        process.pcb := process.pcb.(waiting := process.pcb.waiting + clockValue - process.pcb.lastPreempt);
      }
      timeSliceStart := clockValue;
    }

    method PreemptProcess(process: PcbRef)
      requires process.pcb.id in shared
      modifies process
      ensures process.pcb == old(process.pcb).(remaining := shared[old(process.pcb.id)], state := READY,
                                               lastPreempt := clockValue)
    {
      UpdateRemainingTime(process);
      process.pcb := process.pcb.(state := READY);
      process.pcb := process.pcb.(lastPreempt := clockValue);
    }

    // ---------- context_switching ----------

    // Nothing is current, and `next` has just been taken from the ready structure.
    ghost predicate Taken(next: PcbRef)
      reads this, rr, rr.data, heap, heap.processes, heap.Refs(), next, repr
    {
      && LoopVarsShown() && ReadyShown() && sys.current.None? && next in repr
      && next.pcb.id in sys.procs && sys.procs[next.pcb.id].pcb == next.pcb && next.pcb.id !in sys.ready
      && multiset(sys.procs.Keys) == multiset(sys.ready) + multiset{next.pcb.id} + multiset(Ids(sys.finished))
    }

    // The process becomes current and is started or resumed.
    method Launch(next: PcbRef)
      requires LoopVarsShown() && next.pcb.id in sys.procs && sys.procs[next.pcb.id].pcb == next.pcb
      requires var d := Dispatch(sys, next.pcb.id); |d.procs| == |sys.procs| && Segments(d.procs) == Segments(sys.procs)
      modifies this`current, this`startTime, this`activeCpuTime, this`timeSliceStart, this`sys, next
      ensures LoopVarsShown() && sys == Dispatch(old(sys), old(next.pcb.id)) && current == next
      ensures next.pcb == sys.procs[old(next.pcb.id)].pcb
      ensures next.pcb.id == old(next.pcb.id) && next.pcb.state == RUNNING
    {
      current := next;
      StartOrResume(next);
      sys := Dispatch(sys, next.pcb.id);
    }

    // The last third of context_switching.
    method MakeCurrent(next: PcbRef)
      requires Taken(next)
      modifies this`current, this`startTime, this`activeCpuTime, this`timeSliceStart, this`sys, next
      ensures Valid() && sys == Dispatch(old(sys), old(next.pcb.id))
    {
      Apart(next);
      OtherBlock(ReadyPcbs(), sys, Dispatch(sys, next.pcb.id), next.pcb.id);
      Launch(next);
      StoresUntouched();
    }

    // x is the id of a block just taken from the ready structure, leaving the one now in place.
    ghost predicate TookNext(before: Sys, next: PcbRef)
      reads this, rr, rr.data, heap, heap.processes, heap.Refs(), next, repr
    {
      && Taken(next) && ReadyKnown(before)
      && sys == before.(ready := sys.ready) && Takes(before, before.ready, next.pcb.id, sys.ready)
    }

    // queue_front and queue_dequeue: a private copy of the oldest entry.
    method CopyFront() returns (next: PcbRef)
      requires LoopVarsShown() && rr.Valid() && rr.size > 0 && sys.ready != []
      modifies this`sys, this`repr, rr
      ensures LoopVarsShown() && rr.Valid() && rr.data == old(rr.data)
      ensures fresh(next) && repr == old(repr) + {next} && sys == old(sys).(ready := old(sys).ready[1..])
      ensures next.pcb == old(rr.Contents())[0] && rr.Contents() == old(rr.Contents())[1..]
    {
      var front := rr.Front();
      rr.Dequeue();
      next := new PcbRef(front);
      sys, repr := sys.(ready := sys.ready[1..]), repr + {next};
    }

    method TakeFromQueue() returns (next: PcbRef)
      requires Valid() && current == null && policy.RR? && rr.size > 0
      modifies this`sys, this`repr, rr
      ensures TookNext(old(sys), next) && rr.data == old(rr.data) && Grown()
    {
      ghost var before, waiting := sys, rr.Contents();
      next := CopyFront();
      QueueTaken(before, waiting, next);
    }

    lemma QueueTaken(before: Sys, waiting: seq<Pcb>, next: PcbRef)
      requires LoopVarsShown() && StoresOk() && policy.RR? && next in repr
      requires Placed(before) && before.current.None? && Shown(waiting, before) && waiting != []
      requires sys == before.(ready := before.ready[1..])
      requires next.pcb == waiting[0] && rr.Contents() == waiting[1..]
      ensures TookNext(before, next)
    {
      FrontTaken(before, waiting);
    }

    // extract_min, with its effect on the ids shown.
    method ExtractLeast() returns (next: PcbRef)
      requires StoresOk() && heap.size > 0
      modifies heap, heap.processes
      ensures StoresOk() && next in old(heap.Refs())
      ensures forall c :: c in heap.Refs() ==> c in old(heap.Refs())
      ensures forall k :: 0 <= k < old(heap.size) ==> Compare(policy.SRTN?, next.pcb, old(heap.Pcbs())[k]) <= 0
      ensures multiset(PcbIds(old(heap.Pcbs()))) == multiset(PcbIds(heap.Pcbs())) + multiset{next.pcb.id}
    {
      ghost var cells := heap.Contents();
      ghost var v := heap.Values(cells);
      var least := heap.ExtractMin();
      next := least;
      ExtractedIds(cells, v, next);
    }

    lemma ExtractedIds(cells: seq<PcbRef>, v: seq<Pcb>, next: PcbRef)
      requires heap.Sized() && next in cells && multiset(heap.Contents()) == multiset(cells) - multiset{next}
      requires v == heap.Values(cells)
      ensures multiset(PcbIds(v)) == multiset(PcbIds(heap.Pcbs())) + multiset{next.pcb.id}
      ensures forall c :: c in heap.Refs() ==> c in cells
    {
      SameElements(heap.Contents(), cells);
      var m := map c | c in cells :: c.pcb.id;
      IdsTaken(cells, v, heap.Contents(), heap.Pcbs(), next, next.pcb, m);
    }

    // The same, with the ready entries of the abstract state in their new order.
    method TakeLeast() returns (next: PcbRef)
      requires LoopVarsShown() && StoresOk() && heap.size > 0
      modifies this`sys, heap, heap.processes
      ensures StoresOk() && LoopVarsShown() && sys == old(sys).(ready := PcbIds(heap.Pcbs()))
      ensures next in old(heap.Refs()) && forall c :: c in heap.Refs() ==> c in old(heap.Refs())
      ensures forall k :: 0 <= k < old(heap.size) ==> Compare(policy.SRTN?, next.pcb, old(heap.Pcbs())[k]) <= 0
      ensures multiset(PcbIds(old(heap.Pcbs()))) == multiset(PcbIds(heap.Pcbs())) + multiset{next.pcb.id}
    {
      next := ExtractLeast();
      sys := sys.(ready := PcbIds(heap.Pcbs()));
    }

    method TakeFromHeap() returns (next: PcbRef)
      requires Valid() && current == null && !policy.RR? && heap.size > 0
      modifies this`sys, heap, heap.processes
      ensures TookNext(old(sys), next)
    {
      ghost var before, cells := sys, heap.Contents();
      ghost var v := heap.Values(cells);
      next := TakeLeast();
      HeapTaken(before, cells, v, next);
    }

    lemma HeapTaken(before: Sys, cells: seq<PcbRef>, v: seq<Pcb>, next: PcbRef)
      requires LoopVarsShown() && StoresOk() && !policy.RR? && sys == before.(ready := PcbIds(heap.Pcbs()))
      requires Placed(before) && before.current.None?
      requires Shown(v, before) && v == heap.Values(cells)
      requires next in cells && forall k :: 0 <= k < |v| ==> Compare(policy.SRTN?, next.pcb, v[k]) <= 0
      requires (forall c :: c in heap.Refs() ==> c in cells) && forall c :: c in cells ==> c in repr
      requires multiset(PcbIds(v)) == multiset(PcbIds(heap.Pcbs())) + multiset{next.pcb.id}
      ensures TookNext(before, next)
    {
      var rest := PcbIds(heap.Pcbs());
      assert PcbIds(v) == before.ready;
      var j :| 0 <= j < |cells| && cells[j] == next;
      PlacedOnce(before);
      TakenPlaces(before, next.pcb.id, rest);
      LeastKey(v, before, next.pcb.id);
      forall k | 0 <= k < heap.size
        ensures var p := heap.Pcbs()[k]; p.id in sys.procs && sys.procs[p.id].pcb == p
      {
        assert heap.Refs()[k] in cells;
        var i :| 0 <= i < |cells| && cells[i] == heap.Refs()[k];
      }
    }

    // ---------- putting a process into the ready structure ----------

    // Inserting a block adds its id, and nothing else, to the ids shown.
    lemma InsertedIds(cells: seq<PcbRef>, v: seq<Pcb>, process: PcbRef, target: Sys)
      requires heap.Sized() && multiset(heap.Contents()) == multiset(cells) + multiset{process}
      requires v == heap.Values(cells) && Shown(v + [process.pcb], target)
      ensures multiset(PcbIds(heap.Pcbs())) == multiset(target.ready)
      ensures Shown(heap.Pcbs(), target.(ready := PcbIds(heap.Pcbs())))
      ensures forall c :: c in heap.Refs() ==> c in cells || c == process
    {
      var all, u := cells + [process], v + [process.pcb];
      assert multiset(all) == multiset(heap.Contents());
      SameElements(heap.Contents(), all);
      PermutedIds(heap.Contents(), all, heap.Pcbs(), u, map c | c in all :: c.pcb.id);
      assert PcbIds(u) == target.ready;
      PermutedShown(all, u, heap.Contents(), heap.Pcbs(), map c | c in all :: c.pcb, target);
    }

    method InsertIntoHeap(process: PcbRef, ghost target: Sys)
      requires StoresOk() && !policy.RR? && heap.size < MAX_PROCESSES
      requires Shown(heap.Pcbs() + [process.pcb], target)
      modifies heap, heap.processes
      ensures StoresOk() && multiset(PcbIds(heap.Pcbs())) == multiset(target.ready)
      ensures Shown(heap.Pcbs(), target.(ready := PcbIds(heap.Pcbs())))
      ensures forall c :: c in heap.Refs() ==> c in old(heap.Refs()) || c == process
    {
      ghost var cells := heap.Contents();
      ghost var v := heap.Values(cells);
      heap.Insert(process);
      InsertedIds(cells, v, process, target);
    }

    // queue_enqueue of a copy, or insert_process_min_heap of the pointer. `target` is the abstract state wanted;
    // `order` is the order its ready entries end up in.
    method StoreReady(process: PcbRef, ghost target: Sys) returns (ghost order: seq<int>)
      requires StoresOk() && target.policy == policy && (!policy.RR? ==> heap.size < MAX_PROCESSES)
      requires Shown(ReadyPcbs() + [process.pcb], target)
      modifies rr, rr.data, heap, heap.processes
      ensures StoresOk() && (rr.data == old(rr.data) || fresh(rr.data))
      ensures SameQueue(target, target.ready, order) && Shown(ReadyPcbs(), target.(ready := order))
      ensures forall c :: c in heap.Refs() ==> c in old(heap.Refs()) || c == process
    {
      if policy.RR? {
        rr.Enqueue(process.pcb);
        order := target.ready;
      } else {
        InsertIntoHeap(process, target);
        order := PcbIds(heap.Pcbs());
      }
    }

    ghost predicate Room()
      reads this`sys
    {
      !policy.RR? ==> |sys.ready| < MAX_PROCESSES
    }

    // The abstract state already counts `process` as ready, last in line; the ready structure does not hold it yet.
    ghost predicate Entering(process: PcbRef)
      reads this, rr, rr.data, heap, heap.processes, heap.Refs(), current, process, repr
    {
      && LoopVarsShown() && CurrentShown() && Placed(sys) && StoresOk()
      && Shown(ReadyPcbs() + [process.pcb], sys)
      && process in repr && forall c :: c in heap.Refs() ==> c in repr
    }

    method EnterReady(process: PcbRef)
      requires Entering(process) && (!policy.RR? ==> |sys.ready| <= MAX_PROCESSES)
      modifies this`sys, rr, rr.data, heap, heap.processes
      ensures Valid() && UpToOrder(old(sys), sys) && (rr.data == old(rr.data) || fresh(rr.data))
    {
      ghost var order := StoreReady(process, sys);
      Reorder(order);
    }

    // The ready entries of the abstract state take the order of the ready structure.
    ghost method Reorder(order: seq<int>)
      requires LoopVarsShown() && CurrentShown() && Placed(sys) && SameQueue(sys, sys.ready, order)
      requires StoresOk() && Shown(ReadyPcbs(), sys.(ready := order)) && forall c :: c in heap.Refs() ==> c in repr
      modifies this`sys
      ensures Valid() && UpToOrder(old(sys), sys)
    {
      SameQueuePlaced(sys, order);
      sys := sys.(ready := order);
    }

    method SetAside()
      requires LoopVarsShown() && current != null && sys.current == Some(current.pcb.id)
      requires current.pcb.id in sys.procs && sys.procs[current.pcb.id].pcb == current.pcb
      requires |Requeue(sys).procs| == |sys.procs| && Segments(Requeue(sys).procs) == Segments(sys.procs)
      modifies this`sys, this`current, current
      ensures LoopVarsShown() && sys == Requeue(old(sys)) && current == null
      ensures old(current).pcb == sys.procs[old(current.pcb.id)].pcb
    {
      PreemptProcess(current);
      current, sys := null, Requeue(sys);
    }

    // Preempts the current process, which is then in no place.
    method Suspend()
      requires Valid() && current != null
      modifies this`sys, this`current, current
      ensures Entering(old(current)) && current == null && sys == Requeue(old(sys))
      ensures heap.size == old(heap.size) && heap.Refs() == old(heap.Refs())
    {
      PlacedOnce(sys);
      Apart(current);
      RequeueShown(ReadyPcbs(), sys);
      SetAside();
      StoresUntouched();
    }

    // Preempts the current process and puts it back into the ready structure.
    method PutBack()
      requires Valid() && current != null && Room()
      modifies this`sys, this`current, current, rr, rr.data, heap, heap.processes
      ensures Valid() && current == null && UpToOrder(Requeue(old(sys)), sys)
      ensures rr.data == old(rr.data) || fresh(rr.data)
    {
      var process := current;
      Suspend();
      EnterReady(process);
    }

    // The process just taken from the ready structure is made current.
    method RunTaken(ghost before: Sys, next: PcbRef)
      requires TookNext(before, next) && Known(before) && before.current.None?
      modifies this`current, this`startTime, this`activeCpuTime, this`timeSliceStart, this`sys, next
      ensures Valid() && Picks(before, sys)
    {
      TookThenRan(before, sys, next.pcb.id);
      MakeCurrent(next);
    }

    method RunFromQueue()
      requires Valid() && current == null && policy.RR? && rr.size > 0
      modifies this, rr, repr
      ensures Valid() && Known(old(sys)) && Picks(old(sys), sys)
      ensures rr.data == old(rr.data) && Grown()
    {
      PlacedOnce(sys);
      var next := TakeFromQueue();
      RunTaken(old(sys), next);
    }

    method RunFromHeap()
      requires Valid() && current == null && !policy.RR? && heap.size > 0
      modifies this, heap, heap.processes, repr
      ensures Valid() && Known(old(sys)) && Picks(old(sys), sys) && repr == old(repr)
    {
      PlacedOnce(sys);
      var next := TakeFromHeap();
      RunTaken(old(sys), next);
    }

    method PickNext()
      requires Valid() && current == null
      modifies this, rr, heap, heap.processes, repr
      ensures Valid() && Known(old(sys)) && Picks(old(sys), sys)
      ensures rr.data == old(rr.data) && Grown()
    {
      PlacedOnce(sys);
      if policy.RR? {
        if rr.size > 0 { RunFromQueue(); }
      } else if heap.size > 0 {
        RunFromHeap();
      }
    }

    method RefreshBlock()
      requires LoopVarsShown() && current != null && sys.current == Some(current.pcb.id)
      requires current.pcb.id in sys.procs && sys.procs[current.pcb.id].pcb == current.pcb
      requires |Refresh(sys).procs| == |sys.procs| && Segments(Refresh(sys).procs) == Segments(sys.procs)
      modifies this`sys, current
      ensures LoopVarsShown() && sys == Refresh(old(sys)) && current.pcb == sys.procs[old(current.pcb.id)].pcb
    {
      UpdateRemainingTime(current);
      sys := Refresh(sys);
    }

    method UpdateCurrent()
      requires Valid() && current != null
      modifies this`sys, current
      ensures Valid() && sys == Refresh(old(sys))
      ensures current.pcb.remaining == old(sys).procs[old(current.pcb.id)].shared
    {
      PlacedOnce(sys);
      Apart(current);
      OtherBlock(ReadyPcbs(), sys, Refresh(sys), current.pcb.id);
      RefreshBlock();
      StoresUntouched();
    }

    // The first two thirds: the current process is refreshed and, unless it has finished, put back.
    method GiveUp() returns (done: bool)
      requires Valid() && Room() && current != null
      modifies this`sys, this`current, current, rr, rr.data, heap, heap.processes
      ensures Valid() && Known(old(sys)) && old(sys).current.Some? && (rr.data == old(rr.data) || fresh(rr.data))
      ensures done <==> old(sys).procs[old(sys).current.value].shared == 0
      ensures if done then sys == Refresh(old(sys))
              else current == null && UpToOrder(Requeue(Refresh(old(sys))), sys)
    {
      PlacedOnce(sys);
      UpdateCurrent();
      done := current.pcb.remaining == 0;
      if !done && current.pcb.state != TERMINATED { PutBack(); }
    }

    method ContextSwitching()
      requires Valid() && Room()
      modifies this, rr, rr.data, heap, heap.processes, repr
      ensures Valid() && Known(old(sys)) && ContextSwitch(old(sys), sys)
      ensures Grown()
    {
      ghost var before := sys;
      PlacedOnce(sys);
      var done := false;
      if current != null { done := GiveUp(); }
      if !done {
        ghost var mid := sys;
        PickNext();
        if before.current.Some? { SwitchFromRequeued(before, mid, sys); }
      }
    }

    // ---------- the three algorithms ----------

    lemma ReadyCount()
      requires Valid()
      ensures sys.ready != [] <==> if policy.RR? then rr.size > 0 else heap.size > 0
      ensures Known(sys)
    {
      PlacedOnce(sys);
    }

    method RunHpf()
      requires Valid() && Room() && policy.HPF? && Base(sys)
      modifies this, rr, rr.data, heap, heap.processes, repr
      ensures Valid() && Known(old(sys))
      ensures if old(sys).current.None? && old(sys).ready != [] then Dispatches(old(sys), sys) else sys == old(sys)
      ensures Grown()
    {
      ReadyCount();
      if current == null && heap.size > 0 { DispatchIdle(); }
    }

    // The root of the heap decides whether any ready process is shorter than the current one.
    lemma RootDecides()
      requires Valid() && policy.SRTN? && current != null && heap.size > 0
      ensures Known(sys) && sys.current.Some?
      ensures current.pcb.remaining > heap.processes[0].pcb.remaining <==> ShorterReady(sys)
    {
      PlacedOnce(sys);
      heap.FirstIsLeast();
      var v := heap.Pcbs();
      assert v[0] == heap.processes[0].pcb && sys.ready[0] == v[0].id;
      if ShorterReady(sys) {
        var i :| i in sys.ready && sys.procs[i].pcb.remaining < sys.procs[sys.current.value].pcb.remaining;
        var k :| 0 <= k < |sys.ready| && sys.ready[k] == i;
        assert v[k] == sys.procs[i].pcb;
      }
    }

    // The comparison with the root of the heap, once the current process is up to date.
    method PreemptIfShorter()
      requires Valid() && Room() && policy.SRTN?
      modifies this, rr, rr.data, heap, heap.processes, repr
      ensures Valid() && Known(old(sys))
      ensures if old(sys).ready != [] && (old(sys).current.None? || ShorterReady(old(sys)))
              then ContextSwitch(old(sys), sys) else sys == old(sys)
      ensures Grown()
    {
      ReadyCount();
      if heap.size > 0 {
        var shortest := heap.processes[0];
        if current != null { RootDecides(); }
        if current == null || current.pcb.remaining > shortest.pcb.remaining { ContextSwitching(); }
      }
    }

    method RunSrtn()
      requires Valid() && Room() && policy.SRTN?
      modifies this, rr, rr.data, heap, heap.processes, repr
      ensures Valid() && Known(old(sys)) && RunPolicy(old(sys), sys)
      ensures Grown()
    {
      ghost var before := sys;
      ReadyCount();
      if current != null { UpdateCurrent(); }
      ghost var r := sys;
      PreemptIfShorter();
      SrtnFollows(before, r, sys);
    }

    // The slice check of run_RR_Algorithm.
    method PreemptIfExpired()
      requires Valid() && Room() && policy.RR? && current != null
      modifies this, rr, rr.data, heap, heap.processes, repr
      ensures Valid() && Known(old(sys)) && Known(Refresh(old(sys)))
      ensures if old(sys).clockValue - old(sys).sliceStart >= quantum && old(sys).ready != []
              then ContextSwitch(Refresh(old(sys)), sys) else sys == Refresh(old(sys))
      ensures Grown()
    {
      ReadyCount();
      UpdateCurrent();
      ReadyCount();
      if clockValue - timeSliceStart >= quantum && rr.size > 0 { ContextSwitching(); }
    }

    method RunRr()
      requires Valid() && Room() && policy.RR? && quantum > 0 && Base(sys)
      modifies this, rr, rr.data, heap, heap.processes, repr
      ensures Valid() && Known(old(sys)) && RunPolicy(old(sys), sys)
      ensures Grown()
    {
      ghost var before := sys;
      ReadyCount();
      if current == null && rr.size > 0 { DispatchIdle(); }
      ghost var mid := sys;
      if current != null { PreemptIfExpired(); }
      RrFollows(before, mid, sys);
    }

    method DispatchIdle()
      requires Valid() && Room() && current == null && Base(sys)
      requires if policy.RR? then rr.size > 0 else heap.size > 0
      modifies this, rr, rr.data, heap, heap.processes, repr
      ensures Valid() && Known(old(sys)) && Dispatches(old(sys), sys)
      ensures Grown()
    {
      ghost var before := sys;
      ReadyCount();
      ContextSwitching();
      DispatchedIsFresh(before, sys);
      SwitchFrame(before, sys);
    }

    // run_algorithm.
    method RunAlgorithm()
      requires Valid() && Room() && quantum > 0 && Base(sys) && NearClock(sys)
      modifies this, rr, rr.data, heap, heap.processes, repr
      ensures Valid() && Known(old(sys)) && AlgorithmRan(old(sys), sys)
      ensures Grown()
    {
      ReadyCount();
      match policy {
        case HPF => RunHpf();
        case SRTN => RunSrtn();
        case RR => RunRr();
      }
    }

    // What the loop does at a new tick: run the algorithm, raise the semaphore of the current process, refresh it.
    method DoTick()
      requires Valid() && Room() && Inv(sys) && sys.phase.BeforeWork? && clk != clockValue
      modifies this, rr, rr.data, heap, heap.processes, repr
      ensures Valid() && SchedTick(old(sys), sys)
      ensures Grown()
    {
      ghost var start := sys;
      LoopVarsBase(sys, sys.(clockValue := clk));
      SetClockValue(clk);
      ScheduleTick();
      ghost var worked := sys;
      EndTick();
      TickMade(start, worked, sys);
    }

    // run_algorithm, and the refresh of the current process after it.
    method ScheduleTick()
      requires Valid() && Room() && quantum > 0 && Base(sys) && NearClock(sys)
      modifies this, rr, rr.data, heap, heap.processes, repr
      ensures Valid() && Known(old(sys)) && RunPolicy(old(sys), sys)
      ensures Grown()
    {
      ghost var before := sys;
      RunAlgorithm();
      ghost var mid := sys;
      if current != null { UpdateCurrent(); }
      TickFollows(before, mid, sys);
    }

    method SetClockValue(now: int)
      requires Valid()
      modifies this`clockValue, this`sys
      ensures Valid() && sys == old(sys).(clockValue := now)
    {
      clockValue, sys := now, sys.(clockValue := now);
      StillShown();
    }

    method EndTick()
      requires Valid()
      modifies this`granted, this`sys
      ensures Valid() && sys == old(sys).(granted := old(sys).current.Some?, phase := AfterWork)
    {
      granted := current != null;
      sys := sys.(granted := granted, phase := AfterWork);
      StillShown();
    }

    // One pass of the main loop after the messages: nothing to do when clockValue already shows the clock.
    method Tick()
      requires Valid() && Room() && Inv(sys) && sys.phase.BeforeWork?
      modifies this, rr, rr.data, heap, heap.processes, repr
      ensures Valid() && SchedTick(old(sys), sys)
      ensures Grown()
    {
      PlacedOnce(sys);
      if clk != clockValue {
        DoTick();
      } else {
        sys := sys.(phase := AfterWork);
        StillShown();
      }
    }

    // ---------- arrivals ----------

    // The bookkeeping of handle_process_arrival.
    method CountArrival(message: Pcb)
      requires LoopVarsShown() && |Enrol(sys, message).procs| == |sys.procs| + 1
      requires Segments(Enrol(sys, message).procs) == Segments(sys.procs)[message.id := message.exec]
      modifies this`sys, this`processCount, this`shared
      ensures LoopVarsShown() && sys == Enrol(old(sys), message)
    {
      processCount := processCount + 1;
      shared := shared[message.id := message.exec];
      sys := Enrol(sys, message);
    }

    // An arrival counted, with a private copy of the message that is not yet queued.
    method Register(message: Pcb) returns (process: PcbRef)
      requires Valid() && message.id !in sys.procs
      modifies this`sys, this`processCount, this`shared, this`repr
      ensures Entering(process) && sys == Enrol(old(sys), message)
      ensures fresh(process) && repr == old(repr) + {process}
    {
      EnrolShown(ReadyPcbs(), sys, message);
      CountArrival(message);
      process := new PcbRef(message.(remaining := message.exec, state := READY, start := -1, lastPreempt := -1));
      repr := repr + {process};
      StoresUntouched();
    }

    // handle_process_arrival
    method HandleArrival(message: Pcb)
      requires Valid() && Room() && message.id !in sys.procs
      modifies this`sys, this`processCount, this`shared, this`repr, rr, rr.data, heap, heap.processes
      ensures Valid() && UpToOrder(Enrol(old(sys), message), sys) && Grown()
    {
      var process := Register(message);
      assert Grown();
      EnterReady(process);
    }

    // What receive_new_process does after one arrival.
    method ReactToArrival()
      requires Valid() && Room()
      modifies this, rr, rr.data, heap, heap.processes, repr
      ensures Valid() && Known(old(sys)) && Grown()
      ensures if old(sys).current.None? then sys == old(sys).(clockValue := -1)
              else if old(sys).policy.SRTN? then RunPolicy(old(sys), sys) else sys == old(sys)
    {
      ReadyCount();
      if policy.SRTN? && current != null {
        ghost var mid := sys;
        RunSrtn();
        RunPolicyFrame(mid, sys);
      }
      if current == null { SetClockValue(-1); }
    }

    // One message of receive_new_process.
    method ReceiveProcess(message: Pcb)
      requires Valid() && Inv(sys) && sys.phase.BeforeWork? && !generatorFinished
      requires message.id !in sys.procs && message.exec >= 1 && (!policy.RR? ==> |sys.ready| + 1 < MAX_PROCESSES)
      modifies this, rr, rr.data, heap, heap.processes, repr
      ensures Valid() && Inv(sys) && Arrive(old(sys), message, sys) && Grown()
    {
      ghost var before := sys;
      PlacedOnce(sys);
      HandleArrival(message);
      ghost var mid := sys;
      SameMembers(Enrol(before, message), mid);
      ReactToArrival();
      ArrivalMade(before, message, mid, sys);
    }

    // One turn of receive_new_process.
    method ReceiveNext(ghost start: Sys, messages: seq<Pcb>, i: nat, ghost states: seq<Sys>)
      returns (ghost more: seq<Sys>)
      requires Valid() && i < |messages| && ReadyFor(sys, messages[i..])
      requires Received(start, messages[..i], states) && states[i] == sys
      modifies this, rr, rr.data, heap, heap.processes, repr
      ensures Valid() && Grown() && ReadyFor(sys, messages[i + 1..])
      ensures Received(start, messages[..i + 1], more) && more[i + 1] == sys
    {
      ghost var before := sys;
      ReceiveProcess(messages[i]);
      ReceivedOne(start, messages, i, states, before, sys);
      more := states + [sys];
    }

    // receive_new_process: every message in the queue, in order. `states` is the trace it leaves.
    method ReceiveNewProcess(messages: seq<Pcb>) returns (ghost states: seq<Sys>)
      requires Valid() && ReadyFor(sys, messages)
      modifies this, rr, rr.data, heap, heap.processes, repr
      ensures Valid() && Grown() && Received(old(sys), messages, states) && states[|messages|] == sys && Inv(sys)
    {
      states := [sys];
      var i := 0;
      while i < |messages|
        invariant 0 <= i <= |messages| && Valid() && Grown()
        invariant ReadyFor(sys, messages[i..]) && Received(old(sys), messages[..i], states) && states[i] == sys
      {
        states := ReceiveNext(old(sys), messages, i, states);
        i := i + 1;
      }
      assert messages[..i] == messages;
    }

    // ---------- the clock, the running process, completion ----------

    method Terminate(process: PcbRef)
      requires process.pcb.id in shared
      modifies process
      ensures process.pcb == old(process.pcb).(remaining := shared[old(process.pcb.id)], state := TERMINATED)
    {
      UpdateRemainingTime(process);
      process.pcb := process.pcb.(state := TERMINATED);
    }

    // The bookkeeping of handle_process_completion.
    method RecordCompletion(process: PcbRef)
      requires LoopVarsShown() && sys.current == Some(process.pcb.id) && sys.current.value in sys.procs
      requires sys.procs[sys.current.value].pcb == process.pcb && |Retire(sys).procs| == |sys.procs|
      requires var f := Retire(sys).finished;
        && Turnarounds(f) == Turnarounds(sys.finished) + [f[|sys.finished|].turnaround]
        && Waits(f) == Waits(sys.finished) + [f[|sys.finished|].wait]
      requires Segments(Retire(sys).procs) == Segments(sys.procs)
      modifies this`clockValue, this`turnaroundTimes, this`waitTimes, this`current, this`sys, process
      ensures LoopVarsShown() && sys == Retire(old(sys)) && current == null && process.pcb.state == TERMINATED
    {
      clockValue := clk;
      Terminate(process);
      var ta := clockValue - process.pcb.arrival;
      turnaroundTimes := turnaroundTimes + [ta];
      waitTimes := waitTimes + [ta - process.pcb.exec];
      current, sys := null, Retire(sys);
    }

    // handle_process_completion, up to the free.
    method RetireCurrent()
      requires Valid() && current != null
      modifies this`clockValue, this`turnaroundTimes, this`waitTimes, this`current, this`sys, current
      ensures Valid() && sys == Retire(old(sys)) && current == null
    {
      PlacedOnce(sys);
      Apart(current);
      RetireShown(ReadyPcbs(), sys);
      RecordCompletion(current);
      StoresUntouched();
    }

    method ReadClock()
      requires Valid()
      modifies this`clockValue, this`sys
      ensures Valid() && sys == old(sys).(clockValue := old(sys).clk)
    {
      clockValue, sys := clk, sys.(clockValue := sys.clk);
      StillShown();
    }

    // handle_process_completion. A signal without a current process only makes clockValue show the clock.
    method HandleCompletion()
      requires Valid() && Room()
      modifies this, rr, rr.data, heap, heap.processes, repr
      ensures Valid() && Grown() && Known(old(sys))
      ensures if old(sys).current.None? then sys == old(sys).(clockValue := old(sys).clk) else Complete(old(sys), sys)
    {
      PlacedOnce(sys);
      if current == null {
        ReadClock();
      } else {
        RetireCurrent();
        if generatorFinished && policy.SRTN? { ContextSwitching(); }
      }
    }

    method UseTick(running: int)
      requires LoopVarsShown() && sys.current == Some(running) && running in sys.procs
      requires |Worked(sys).procs| == |sys.procs|
      requires Segments(Worked(sys).procs) == Segments(sys.procs)[running := sys.procs[running].shared - 1]
      modifies this`clk, this`granted, this`shared, this`sys
      ensures LoopVarsShown() && sys == Worked(old(sys))
    {
      clk, granted := clk + 1, false;
      shared := shared[running := shared[running] - 1];
      sys := Worked(sys);
    }

    // The running process uses its tick.
    method Work()
      requires Valid() && current != null
      modifies this`clk, this`granted, this`shared, this`sys
      ensures Valid() && sys == Worked(old(sys))
    {
      PlacedOnce(sys);
      WorkedShown(ReadyPcbs(), sys);
      UseTick(current.pcb.id);
      StoresUntouched();
    }

    method PassTick()
      requires LoopVarsShown() && |Idled(sys).procs| == |sys.procs| && Segments(Idled(sys).procs) == Segments(sys.procs)
      modifies this`clk, this`sys
      ensures LoopVarsShown() && sys == Idled(old(sys))
    {
      clk, sys := clk + 1, Idled(sys);
    }

    // No process was signalled: only the clock moves.
    method Idle()
      requires Valid() && !granted
      modifies this`clk, this`sys
      ensures Valid() && (old(sys).phase.AfterWork? && !old(sys).granted ==> RunTick(old(sys), sys))
    {
      IdleShown(ReadyPcbs(), sys);
      PassTick();
      StoresUntouched();
    }

    // One tick of the clock, with the run step of the signalled process and its completion.
    method Advance()
      requires Valid() && Room() && Inv(sys) && sys.phase.AfterWork?
      modifies this, rr, rr.data, heap, heap.processes, repr
      ensures Valid() && Inv(sys) && RunTick(old(sys), sys) && Grown()
    {
      ghost var before := sys;
      PlacedOnce(sys);
      if current != null && granted {
        Work();
        if shared[current.pcb.id] <= 0 { HandleCompletion(); }
      } else {
        Idle();
      }
      RunTickInv(before, sys);
    }

    // SIGUSR1.
    method GeneratorFinished()
      requires Valid()
      modifies this`generatorFinished, this`sys
      ensures Valid() && GeneratorDone(old(sys), sys)
    {
      generatorFinished, sys := true, sys.(generatorFinished := true);
      StillShown();
    }

    // The exit test of the main loop.
    predicate Finished()
      requires Valid()
      reads this, rr, rr.data, heap, heap.processes, heap.Refs(), current, repr
      ensures Finished() == ExitTest(sys)
    {
      ReadyCount();
      generatorFinished && (if policy.RR? then rr.size == 0 else heap.size == 0) && current == null
    }
  }
}
