/** What every step of the scheduler keeps: where each process is, and the time it has been charged for. */
module SchedulerInvariant {
  import opened Wrappers
  import opened Processes
  import opened SchedulerModel

  // Dispatches too early on the stale clock, less preemptions on it, plus ticks spent current without running.
  function Drift(p: Proc): int { p.early - p.stale + p.stalls }

  function Used(p: Proc): int { p.pcb.exec - p.shared }

  ghost predicate QueuedOk(p: Proc) {
    && 1 <= p.shared <= p.pcb.exec && p.pcb.remaining == p.shared && p.pcb.state == READY
    && if p.pcb.start == -1 then p.shared == p.pcb.exec && p.early == p.stale == p.stalls == 0
       else p.pcb.start >= 0 && p.pcb.lastPreempt >= 0
            && p.pcb.lastPreempt - p.pcb.arrival == p.pcb.waiting + Used(p) + Drift(p)
  }

  ghost predicate RunningOk(p: Proc, clk: int) {
    && 1 <= p.shared <= p.pcb.exec && p.pcb.start >= 0 && p.pcb.state == RUNNING
    && clk - p.pcb.arrival == p.pcb.waiting + Used(p) + Drift(p)
  }

  ghost predicate DoneOk(p: Proc) { p.shared == 0 && p.pcb.exec >= 1 && p.pcb.start >= 0 && p.pcb.state == TERMINATED }

  ghost function Ids(f: seq<Record>): (r: seq<int>)
    ensures |r| == |f|
    ensures forall i :: 0 <= i < |f| ==> r[i] == f[i].id
  {
    seq(|f|, i requires 0 <= i < |f| => f[i].id)
  }

  ghost function Bag(current: Option<int>): multiset<int> {
    match current case None => multiset{} case Some(c) => multiset{c}
  }

  // Every process that arrived is in exactly one place: ready, current or finished.
  ghost predicate Placed(s: Sys) {
    multiset(s.procs.Keys) == multiset(s.ready) + Bag(s.current) + multiset(Ids(s.finished))
  }

  // No process is ready, current and finished more than once in all.
  lemma PlacedOnce(s: Sys)
    requires Placed(s)
    ensures Known(s)
    ensures forall i :: i in Ids(s.finished) ==> i in s.procs && i !in s.ready && s.current != Some(i)
    ensures s.current.Some? ==> s.current.value !in s.ready
    ensures |s.procs| == |s.ready| + (if s.current.Some? then 1 else 0) + |s.finished|
  {
    var all := multiset(s.procs.Keys);
    assert |all| == |multiset(s.ready)| + |Bag(s.current)| + |multiset(Ids(s.finished))|;
    forall i ensures (i in s.procs ==> all[i] == 1) && (i !in s.procs ==> all[i] == 0)
      ensures all[i] == multiset(s.ready)[i] + Bag(s.current)[i] + multiset(Ids(s.finished))[i] {}
    forall i | i in s.ready ensures i in s.procs { assert multiset(s.ready)[i] > 0; }
    forall i | i in Ids(s.finished) ensures i in s.procs && i !in s.ready && s.current != Some(i) {
      assert multiset(Ids(s.finished))[i] > 0;
    }
    if s.current.Some? { assert Bag(s.current)[s.current.value] == 1; }
  }

  // What must hold of one process, given where it is.
  ghost predicate ProcOk(s: Sys, i: int)
    requires i in s.procs
  {
    var p := s.procs[i];
    && p.pcb.id == i
    && (!s.policy.SRTN? ==> p.early == p.stale == p.stalls == 0)
    && (i in s.ready ==> QueuedOk(p))
    && (s.current == Some(i) ==> RunningOk(p, s.clk))
    && (i in Ids(s.finished) ==> DoneOk(p))
  }

  ghost predicate RecordOk(s: Sys, r: Record) {
    && r.id in s.procs
    && var p := s.procs[r.id];
       r.turnaround == r.wait + p.pcb.exec && r.wait == p.pcb.waiting + Drift(p)
  }

  ghost predicate Base(s: Sys) {
    && s.quantum > 0 && Placed(s)
    && (forall i :: i in s.procs ==> ProcOk(s, i))
    && (forall r :: r in s.finished ==> RecordOk(s, r))
  }

  // clockValue against the true clock.
  ghost predicate Clock(s: Sys) {
    && s.clk >= 0 && -1 <= s.clockValue <= s.clk && (s.current.Some? ==> s.sliceStart <= s.clockValue)
    && match s.phase
       case BeforeWork =>
         && !s.granted
         && (s.current.Some? ==> (s.clockValue == s.clk - 1 >= 0
                                  || (s.policy.SRTN? && s.generatorFinished && s.clockValue == s.clk)))
       case AfterWork =>
         && s.clockValue == s.clk && (s.granted ==> s.current.Some?)
         && (s.current.Some? ==> (s.granted || (s.policy.SRTN? && s.generatorFinished)))
  }

  // clockValue is the clock, or one tick behind.
  ghost predicate NearClock(s: Sys) {
    0 <= s.clockValue && s.clk - 1 <= s.clockValue <= s.clk && (!s.policy.SRTN? ==> s.clockValue == s.clk)
  }

  // ---------- each building block keeps Base ----------

  // A step that leaves finished alone keeps Base if it keeps the places and the processes it touched.
  lemma BaseFrom(s: Sys, t: Sys, x: int)
    requires Base(s) && t.quantum == s.quantum && t.policy == s.policy && t.clk == s.clk
    requires Placed(t) && t.finished == s.finished && s.procs.Keys <= t.procs.Keys <= s.procs.Keys + {x}
    requires x in t.procs && x !in Ids(s.finished)
    requires forall i :: i in s.procs && i != x ==> t.procs[i] == s.procs[i] && (i in t.ready ==> i in s.ready)
    requires t.current.Some? ==> t.current == Some(x) || t.current == s.current
    requires ProcOk(t, x)
    ensures Base(t)
  {
    forall i | i in t.procs ensures ProcOk(t, i) { if i != x { assert ProcOk(s, i); } }
    forall r | r in t.finished ensures RecordOk(t, r) {
      assert RecordOk(s, r);
      var k :| 0 <= k < |s.finished| && s.finished[k] == r;
      assert Ids(s.finished)[k] == r.id;
    }
  }

  lemma OrderBase(a: Sys, b: Sys)
    requires Base(a) && UpToOrder(a, b)
    ensures Base(b)
  {
    forall i ensures i in a.ready <==> i in b.ready { assert multiset(a.ready)[i] == multiset(b.ready)[i]; }
    forall i | i in b.procs ensures ProcOk(b, i) { assert ProcOk(a, i); }
    forall r | r in b.finished ensures RecordOk(b, r) { assert RecordOk(a, r); }
  }

  lemma RefreshBase(s: Sys)
    requires Base(s)
    ensures Base(Refresh(s))
  {
    PlacedOnce(s);
    if s.current.Some? {
      var c := s.current.value;
      var r := Refresh(s);
      assert ProcOk(s, c);
      assert r.procs.Keys == s.procs.Keys;
      BaseFrom(s, r, c);
    }
  }

  lemma EnrolPlaced(s: Sys, p: Pcb)
    requires Placed(s) && p.id !in s.procs
    ensures Placed(Enrol(s, p)) && Enrol(s, p).procs.Keys == s.procs.Keys + {p.id}
    ensures |Enrol(s, p).procs| == |s.procs| + 1
  {
    var e := Enrol(s, p);
    assert multiset(e.ready) == multiset(s.ready) + multiset{p.id};
    assert e.procs.Keys == s.procs.Keys + {p.id};
    assert multiset(e.procs.Keys) == multiset(s.procs.Keys) + multiset{p.id};
    PlacedOnce(s);
    PlacedOnce(e);
  }

  lemma EnrolBase(s: Sys, p: Pcb)
    requires Base(s) && p.id !in s.procs && p.exec >= 1
    ensures Base(Enrol(s, p))
  {
    PlacedOnce(s);
    EnrolPlaced(s, p);
    BaseFrom(s, Enrol(s, p), p.id);
  }

  lemma RequeueBase(s: Sys)
    requires Base(s) && Known(s) && s.current.Some? && NearClock(s)
    ensures Base(Requeue(s))
  {
    PlacedOnce(s);
    var c := s.current.value;
    var r := Requeue(s);
    assert ProcOk(s, c);
    assert multiset(r.ready) == multiset(s.ready) + multiset{c};
    assert r.procs.Keys == s.procs.Keys;
    BaseFrom(s, r, c);
  }

  lemma TakesCount(s: Sys, from: seq<int>, x: int, rest: seq<int>)
    requires (forall i :: i in from ==> i in s.procs) && Takes(s, from, x, rest)
    ensures x in from && multiset(from) == multiset(rest) + multiset{x}
  {
    if s.policy.RR? {
      assert multiset(from) == multiset([x]) + multiset(rest);
    } else {
      assert multiset{x} <= multiset(from);
    }
  }

  lemma DispatchBase(s: Sys, x: int, rest: seq<int>)
    requires Base(s) && s.current.None? && NearClock(s)
    requires x in s.ready && x in s.procs && multiset(s.ready) == multiset(rest) + multiset{x}
    ensures Base(Dispatch(s.(ready := rest), x))
  {
    var d := Dispatch(s.(ready := rest), x);
    PlacedOnce(s);
    assert ProcOk(s, x);
    assert d.procs.Keys == s.procs.Keys;
    assert Placed(d);
    PlacedOnce(d);
    forall i | i in rest ensures i in s.ready { assert multiset(s.ready)[i] >= multiset(rest)[i] > 0; }
    BaseFrom(s, d, x);
  }

  lemma PicksBase(s: Sys, s': Sys)
    requires Base(s) && s.current.None? && NearClock(s) && Known(s) && Picks(s, s')
    ensures Base(s')
  {
    if s.ready != [] {
      var x := s'.current.value;
      TakesCount(s, s.ready, x, s'.ready);
      DispatchBase(s, x, s'.ready);
    }
  }

  lemma RetireBase(s: Sys)
    requires Base(s) && Known(s) && s.current.Some? && s.procs[s.current.value].shared == 1
    ensures Base(Retire(Worked(s)))
  {
    PlacedOnce(s);
    var c := s.current.value;
    var r := Retire(Worked(s));
    IdsAppend(s.finished, r.finished[|s.finished|]);
    assert multiset(Ids(r.finished)) == multiset(Ids(s.finished)) + multiset{c};
    assert ProcOk(s, c);
    assert r.procs.Keys == s.procs.Keys;
    forall i | i in r.procs ensures ProcOk(r, i) { assert ProcOk(s, i); }
    forall q | q in r.finished ensures RecordOk(r, q) {
      if q in s.finished {
        assert RecordOk(s, q);
        var k :| 0 <= k < |s.finished| && s.finished[k] == q;
        assert Ids(s.finished)[k] == q.id;
      }
    }
  }

  lemma IdsAppend(f: seq<Record>, r: Record)
    ensures Ids(f + [r]) == Ids(f) + [r.id]
  {
  }

  // The clock moves: by one run step of the current process, or by a stall of it.
  lemma WorkedBase(s: Sys)
    requires Base(s) && Known(s) && s.current.Some? && s.procs[s.current.value].shared > 1
    ensures Base(Worked(s))
  {
    PlacedOnce(s);
    var w := Worked(s);
    assert w.procs.Keys == s.procs.Keys;
    forall i | i in w.procs ensures ProcOk(w, i) { assert ProcOk(s, i); }
    ForeignRecords(s, w, s.current.value);
  }

  lemma ForeignRecords(s: Sys, t: Sys, c: int)
    requires Base(s) && t.finished == s.finished && t.procs.Keys == s.procs.Keys && c !in Ids(s.finished)
    requires forall i :: i in s.procs && i != c ==> t.procs[i] == s.procs[i]
    ensures forall r :: r in t.finished ==> RecordOk(t, r)
  {
    forall r | r in t.finished ensures RecordOk(t, r) {
      assert RecordOk(s, r);
      var k :| 0 <= k < |s.finished| && s.finished[k] == r;
      assert Ids(s.finished)[k] == r.id;
    }
  }

  // Base, read by role.
  lemma Roles(s: Sys)
    requires Base(s)
    ensures Known(s)
    ensures forall i :: i in s.ready ==> QueuedOk(s.procs[i])
    ensures s.current.Some? ==> RunningOk(s.procs[s.current.value], s.clk) && s.current.value !in s.ready
    ensures forall i :: i in Ids(s.finished) ==> i in s.procs && DoneOk(s.procs[i])
  {
    PlacedOnce(s);
    forall i | i in s.ready ensures QueuedOk(s.procs[i]) { assert ProcOk(s, i); }
    if s.current.Some? { assert ProcOk(s, s.current.value); }
    forall i | i in Ids(s.finished) ensures DoneOk(s.procs[i]) { assert ProcOk(s, i); }
  }

  // A current process still has work to do.
  lemma RefreshedRuns(s: Sys)
    requires Base(s) && Known(s) && s.current.Some?
    ensures s.current.value in Refresh(s).procs && Refresh(s).procs[s.current.value].shared >= 1
    ensures Known(Requeue(Refresh(s)))
  {
    Roles(s);
  }

  // ---------- every step keeps the invariant ----------

  ghost predicate Inv(s: Sys) { Base(s) && Clock(s) }

  lemma InitInv(s: Sys)
    requires Init(s)
    ensures Inv(s)
  {
    assert multiset(s.procs.Keys) == multiset{};
  }

  // What choosing a process may change: the processes, the ready structure, the current process and its slice.
  ghost predicate SameFrame(s: Sys, t: Sys) {
    && t.policy == s.policy && t.quantum == s.quantum && t.clk == s.clk && t.phase == s.phase
    && t.clockValue == s.clockValue && t.granted == s.granted && t.generatorFinished == s.generatorFinished
    && t.finished == s.finished && t.procs.Keys == s.procs.Keys && t.executed == s.executed
  }

  lemma PicksFrame(s: Sys, s': Sys)
    requires Known(s) && Picks(s, s')
    ensures SameFrame(s, s') && s'.preemptions == s.preemptions
    ensures s.ready != [] ==> s'.current.Some? && s'.sliceStart == s.clockValue
  {
  }

  lemma RequeueFrame(s: Sys)
    requires s.current.Some? && s.current.value in s.procs
    ensures SameFrame(s, Requeue(s)) && Requeue(s).preemptions == s.preemptions + 1
  {
    assert Requeue(s).procs.Keys == s.procs.Keys;
  }

  lemma RefreshFrame(s: Sys)
    ensures SameFrame(s, Refresh(s)) && Refresh(s).preemptions == s.preemptions
    ensures Refresh(s).ready == s.ready && Refresh(s).current == s.current
  {
    assert Refresh(s).procs.Keys == s.procs.Keys;
  }

  lemma SwitchFrame(s: Sys, s': Sys)
    requires Known(s) && ContextSwitch(s, s')
    ensures SameFrame(s, s') && s.preemptions <= s'.preemptions <= s.preemptions + 1
    ensures s.current.Some? ==> s'.current.Some?
    ensures s'.current.Some? ==> s'.sliceStart == s.clockValue || (s.current.Some? && s'.sliceStart == s.sliceStart)
  {
    if s.current.None? {
      PicksFrame(s, s');
    } else if s.procs[s.current.value].shared == 0 {
      RefreshFrame(s);
    } else {
      RequeueFrame(s);
      PicksFrame(Requeue(s), s');
    }
  }

  lemma RunPolicyFrame(s: Sys, s': Sys)
    requires Known(s) && RunPolicy(s, s')
    ensures SameFrame(s, s') && s.preemptions <= s'.preemptions <= s.preemptions + 1
    ensures s.current.Some? ==> s'.current.Some?
    ensures s'.current.Some? ==> s'.sliceStart == s.clockValue || (s.current.Some? && s'.sliceStart == s.sliceStart)
  {
    var r := Refresh(s);
    RefreshFrame(s);
    if ContextSwitch(r, s') { SwitchFrame(r, s'); }
  }

  lemma RunPolicyBase(s: Sys, s': Sys)
    requires Base(s) && Known(s) && RunPolicy(s, s')
    requires NearClock(s)
    ensures Base(s')
  {
    var r := Refresh(s);
    RefreshBase(s);
    PlacedOnce(r);
    if UpToOrder(r, s') {
      OrderBase(r, s');
    } else if r.current.None? {
      PicksBase(r, s');
    } else if r.procs[r.current.value].shared == 0 {
      RefreshBase(r);
    } else {
      RequeueBase(r);
      PlacedOnce(Requeue(r));
      PicksBase(Requeue(r), s');
    }
  }

  lemma ArriveInv(s: Sys, p: Pcb, s': Sys)
    requires Inv(s) && Arrive(s, p, s')
    ensures Inv(s')
  {
    var e := Enrol(s, p);
    EnrolBase(s, p);
    PlacedOnce(e);
    if s.current.None? {
      StampBase(e, -1);
      OrderBase(e.(clockValue := -1), s');
    } else if s.policy.SRTN? {
      RunPolicyFrame(e, s');
      RunPolicyBase(e, s');
    } else {
      OrderBase(e, s');
    }
  }

  // Base does not speak of the loop's own variables.
  lemma StampBase(s: Sys, cv: int)
    requires Base(s)
    ensures Base(s.(clockValue := cv))
  {
    LoopVarsBase(s, s.(clockValue := cv));
  }

  lemma LoopVarsBase(s: Sys, t: Sys)
    requires Base(s)
    requires t == s.(clockValue := t.clockValue, phase := t.phase, granted := t.granted,
                     generatorFinished := t.generatorFinished)
    ensures Base(t)
  {
    forall i | i in t.procs ensures ProcOk(t, i) { assert ProcOk(s, i); }
    forall r | r in t.finished ensures RecordOk(t, r) { assert RecordOk(s, r); }
  }

  lemma SchedTickInv(s: Sys, s': Sys)
    requires Inv(s) && SchedTick(s, s')
    ensures Inv(s')
  {
    if s.clk == s.clockValue {
      LoopVarsBase(s, s');
    } else {
      var t := s.(clockValue := s.clk);
      var m := s'.(granted := s.granted, phase := BeforeWork);
      LoopVarsBase(s, t);
      RunPolicyFrame(t, m);
      RunPolicyBase(t, m);
      LoopVarsBase(m, s');
      TickClock(m, s');
    }
  }

  lemma TickClock(m: Sys, s': Sys)
    requires s' == m.(granted := s'.granted, phase := AfterWork) && s'.granted == s'.current.Some?
    requires 0 <= m.clk == m.clockValue && (m.current.Some? ==> m.sliceStart <= m.clockValue)
    ensures Clock(s')
  {
  }

  lemma CompleteInv(s: Sys, s': Sys)
    requires Inv(s) && Known(s) && s.phase.AfterWork? && s.current.Some? && s.granted
    requires s.procs[s.current.value].shared == 1 && Complete(Worked(s), s')
    ensures Inv(s')
  {
    RetireBase(s);
    var r := Retire(Worked(s));
    PlacedOnce(r);
    if s.generatorFinished && s.policy.SRTN? { PicksBase(r, s'); }
  }

  lemma RunTickInv(s: Sys, s': Sys)
    requires Inv(s) && RunTick(s, s')
    ensures Inv(s')
  {
    PlacedOnce(s);
    if s.current.Some? {
      var c := s.current.value;
      assert ProcOk(s, c);
      if s.granted && s.procs[c].shared == 1 {
        CompleteInv(s, s');
      } else if s.granted {
        WorkedBase(s);
      } else {
        assert s'.procs.Keys == s.procs.Keys;
        forall i | i in s'.procs ensures ProcOk(s', i) { assert ProcOk(s, i); }
        ForeignRecords(s, s', c);
      }
    } else {
      forall i | i in s'.procs ensures ProcOk(s', i) { assert ProcOk(s, i); }
      forall r | r in s'.finished ensures RecordOk(s', r) { assert RecordOk(s, r); }
    }
  }

  lemma NextInv(s: Sys, s': Sys)
    requires Inv(s) && Next(s, s')
    ensures Inv(s')
  {
    if p :| Arrive(s, p, s') {
      ArriveInv(s, p, s');
    } else if SchedTick(s, s') {
      SchedTickInv(s, s');
    } else if RunTick(s, s') {
      RunTickInv(s, s');
    } else {
      LoopVarsBase(s, s');
    }
  }

  lemma {:induction false} RunInv(states: seq<Sys>, n: nat)
    requires Run(states) && Inv(states[0]) && n < |states|
    ensures Inv(states[n])
  {
    if n > 0 {
      RunInv(states, n - 1);
      NextInv(states[n - 1], states[n]);
    }
  }
}
