/** CPU utilisation: active_cpu_time against the length of the run. */
module SchedulerUtilisation {
  import opened Wrappers
  import opened Processes
  import opened Sums
  import opened SchedulerModel
  import opened SchedulerInvariant

  ghost function StartedExec(s: Sys): int -> int {
    i => if i in s.procs && s.procs[i].pcb.start != -1 then s.procs[i].pcb.exec else 0
  }

  ghost function UsedTime(s: Sys): int -> int {
    i => if i in s.procs then s.procs[i].pcb.exec - s.procs[i].shared else 0
  }

  // active_cpu_time counts each started process once; executed counts the ticks actually run.
  ghost predicate Charged(s: Sys) {
    && s.activeCpu == Sum(s.procs.Keys, StartedExec(s))
    && s.executed == Sum(s.procs.Keys, UsedTime(s))
  }

  ghost predicate Busy(s: Sys) {
    && s.startTime >= -1
    && (s.startTime == -1 ==> s.executed == 0 && s.current.None? && s.finished == []
                              && forall i :: i in s.procs ==> s.procs[i].pcb.start == -1)
    && (s.startTime >= 0 ==> s.executed <= s.clk - s.startTime)
    && (s.startTime >= 0 && s.current.None? && s.clockValue >= 0 ==> s.executed <= s.clockValue - s.startTime)
    && (s.clockValue == -1 ==> s.current.None? && (s.ready != [] || s.startTime == -1))
  }

  // One process changes.
  lemma Touch(s: Sys, t: Sys, x: int)
    requires x in s.procs && t.procs.Keys == s.procs.Keys
    requires forall i :: i in s.procs && i != x ==> t.procs[i] == s.procs[i]
    ensures Sum(t.procs.Keys, StartedExec(t)) - Sum(s.procs.Keys, StartedExec(s))
         == StartedExec(t)(x) - StartedExec(s)(x)
    ensures Sum(t.procs.Keys, UsedTime(t)) - Sum(s.procs.Keys, UsedTime(s)) == UsedTime(t)(x) - UsedTime(s)(x)
  {
    SumUpdate(s.procs.Keys, StartedExec(s), StartedExec(t), x);
    SumUpdate(s.procs.Keys, UsedTime(s), UsedTime(t), x);
  }

  lemma Untouched(s: Sys, t: Sys)
    requires t.procs == s.procs
    ensures Sum(t.procs.Keys, StartedExec(t)) == Sum(s.procs.Keys, StartedExec(s))
    ensures Sum(t.procs.Keys, UsedTime(t)) == Sum(s.procs.Keys, UsedTime(s))
  {
    SumSame(s.procs.Keys, StartedExec(s), StartedExec(t));
    SumSame(s.procs.Keys, UsedTime(s), UsedTime(t));
  }

  lemma EnrolCharged(s: Sys, p: Pcb)
    requires Charged(s) && p.id !in s.procs
    ensures Charged(Enrol(s, p))
  {
    var e := Enrol(s, p);
    var keys := e.procs.Keys;
    SumRemove(keys, StartedExec(e), p.id);
    SumRemove(keys, UsedTime(e), p.id);
    assert keys - {p.id} == s.procs.Keys;
    SumSame(s.procs.Keys, StartedExec(s), StartedExec(e));
    SumSame(s.procs.Keys, UsedTime(s), UsedTime(e));
  }

  lemma RefreshCharged(s: Sys)
    requires Charged(s)
    ensures Charged(Refresh(s))
  {
    var r := Refresh(s);
    if s.current.Some? && s.current.value in s.procs {
      assert r.procs.Keys == s.procs.Keys;
      Touch(s, r, s.current.value);
    }
  }

  // A dispatch charges a process that has never run its whole execution time.
  lemma DispatchCharged(s: Sys, x: int)
    requires x in s.procs && Charged(s) && s.procs[x].pcb.start >= -1 && s.clockValue >= 0
    ensures Charged(Dispatch(s, x))
  {
    var d := Dispatch(s, x);
    assert d.procs.Keys == s.procs.Keys;
    Touch(s, d, x);
  }

  lemma ReadyCharged(s: Sys, ready: seq<int>)
    requires Charged(s)
    ensures Charged(s.(ready := ready))
  {
    Untouched(s, s.(ready := ready));
  }

  // Busy, short of the claim about an idle processor, which a requeue is about to dispatch from.
  ghost predicate BusySoFar(s: Sys) {
    && s.startTime >= 0 && s.executed <= s.clk - s.startTime && s.clockValue >= 0
  }

  lemma PickCharged(s: Sys, s': Sys)
    requires Base(s) && NearClock(s) && Known(s) && Charged(s) && s.current.None? && s.ready != [] && Picks(s, s')
    ensures Charged(s')
  {
    Roles(s);
    ReadyCharged(s, s'.ready);
    DispatchCharged(s.(ready := s'.ready), s'.current.value);
  }

  lemma PickBusy(s: Sys, s': Sys)
    requires NearClock(s) && Known(s) && s.current.None? && s.ready != [] && Picks(s, s') && (Busy(s) || BusySoFar(s))
    requires s'.current.value in s.procs && (s.procs[s'.current.value].pcb.start != -1 ==> s.startTime >= 0)
    ensures Busy(s')
  {
  }

  lemma PicksCharged(s: Sys, s': Sys)
    requires Base(s) && NearClock(s) && Known(s) && Charged(s) && Busy(s) && s.current.None? && Picks(s, s')
    ensures Charged(s') && Busy(s')
  {
    if s.ready != [] {
      PickCharged(s, s');
      PickBusy(s, s');
    }
  }

  lemma RequeueCharged(s: Sys)
    requires Base(s) && NearClock(s) && Known(s) && Charged(s) && s.current.Some?
    ensures Charged(Requeue(s))
  {
    RequeueFrame(s);
    Touch(s, Requeue(s), s.current.value);
  }

  lemma RequeueBusy(s: Sys)
    requires BusySoFar(s) && NearClock(s) && s.current.Some? && s.current.value in s.procs
    ensures BusySoFar(Requeue(s)) && NearClock(Requeue(s)) && Requeue(s).ready != []
  {
    assert Requeue(s).ready[|s.ready|] == s.current.value;
  }

  lemma SwitchCharged(s: Sys, s': Sys)
    requires Base(s) && NearClock(s) && Known(s) && Charged(s) && BusySoFar(s) && s.current.Some?
    requires Known(Requeue(s)) && Picks(Requeue(s), s')
    ensures Charged(s') && Busy(s')
  {
    RequeueBase(s);
    RequeueCharged(s);
    RequeueBusy(s);
    PickCharged(Requeue(s), s');
    PickBusy(Requeue(s), s');
  }

  lemma RefreshBusy(s: Sys)
    requires Busy(s) && Known(s) && NearClock(s) && Base(s)
    ensures Busy(Refresh(s)) && (s.current.Some? ==> BusySoFar(Refresh(s)))
  {
    RefreshFrame(s);
  }

  lemma RunPolicyCharged(s: Sys, s': Sys)
    requires Base(s) && NearClock(s) && Known(s) && Charged(s) && Busy(s) && RunPolicy(s, s')
    ensures Charged(s') && Busy(s')
  {
    var r := Refresh(s);
    RefreshFrame(s);
    RefreshBase(s);
    RefreshCharged(s);
    RefreshBusy(s);
    PlacedOnce(r);
    if UpToOrder(r, s') {
      OrderCharged(r, s');
    } else if r.current.None? {
      PicksCharged(r, s');
    } else {
      RefreshedRuns(s);
      SwitchCharged(r, s');
    }
  }

  lemma OrderCharged(r: Sys, s': Sys)
    requires Charged(r) && Busy(r) && UpToOrder(r, s')
    ensures Charged(s') && Busy(s')
  {
    Untouched(r, s');
    assert |multiset(r.ready)| == |r.ready| && |multiset(s'.ready)| == |s'.ready|;
  }

  lemma ArriveCharged(s: Sys, p: Pcb, s': Sys)
    requires Inv(s) && Charged(s) && Busy(s) && Arrive(s, p, s')
    ensures Charged(s') && Busy(s')
  {
    var e := Enrol(s, p);
    EnrolBase(s, p);
    EnrolCharged(s, p);
    PlacedOnce(e);
    if s.current.Some? && s.policy.SRTN? {
      RunPolicyCharged(e, s');
    } else {
      Untouched(e, s');
      EnrolBusy(s, p, s');
    }
  }

  lemma EnrolBusy(s: Sys, p: Pcb, s': Sys)
    requires Busy(s) && s'.clockValue in {s.clockValue, -1} && (s'.clockValue == -1 ==> s.current.None?)
    requires UpToOrder(Enrol(s, p).(clockValue := s'.clockValue), s')
    ensures Busy(s')
  {
    assert |multiset(s'.ready)| == |multiset(s.ready + [p.id])|;
  }

  lemma SchedTickCharged(s: Sys, s': Sys)
    requires Inv(s) && Charged(s) && Busy(s) && SchedTick(s, s')
    ensures Charged(s') && Busy(s')
  {
    if s.clk == s.clockValue {
      Untouched(s, s');
    } else {
      var t := s.(clockValue := s.clk);
      var m := s'.(granted := s.granted, phase := BeforeWork);
      LoopVarsBase(s, t);
      Untouched(s, t);
      RunPolicyCharged(t, m);
      RunPolicyFrame(t, m);
      Untouched(m, s');
    }
  }

  lemma WorkedCharged(s: Sys)
    requires Base(s) && Known(s) && Charged(s) && s.current.Some?
    ensures Charged(Worked(s))
  {
    Roles(s);
    var w := Worked(s);
    assert w.procs.Keys == s.procs.Keys;
    Touch(s, w, s.current.value);
  }

  lemma RetireCharged(s: Sys)
    requires Inv(s) && Known(s) && Charged(s) && Busy(s) && s.phase.AfterWork? && s.current.Some? && s.granted
    requires s.procs[s.current.value].shared == 1
    ensures Charged(Retire(Worked(s))) && Busy(Retire(Worked(s)))
  {
    var w, r := Worked(s), Retire(Worked(s));
    WorkedCharged(s);
    Roles(s);
    assert r.procs.Keys == w.procs.Keys;
    Touch(w, r, s.current.value);
  }

  lemma CompleteCharged(s: Sys, s': Sys)
    requires Inv(s) && Known(s) && Charged(s) && Busy(s) && s.phase.AfterWork? && s.current.Some? && s.granted
    requires s.procs[s.current.value].shared == 1 && Complete(Worked(s), s')
    ensures Charged(s') && Busy(s')
  {
    var r := Retire(Worked(s));
    RetireCharged(s);
    if s.generatorFinished && s.policy.SRTN? {
      RetireBase(s);
      PlacedOnce(r);
      PicksCharged(r, s');
    }
  }

  lemma RunTickCharged(s: Sys, s': Sys)
    requires Inv(s) && Charged(s) && Busy(s) && RunTick(s, s')
    ensures Charged(s') && Busy(s')
  {
    Roles(s);
    if s.current.Some? {
      var c := s.current.value;
      if s.granted && s.procs[c].shared == 1 {
        CompleteCharged(s, s');
      } else if s.granted {
        WorkedCharged(s);
      } else {
        assert s'.procs.Keys == s.procs.Keys;
        Touch(s, s', c);
      }
    } else {
      Untouched(s, s');
    }
  }

  lemma NextCharged(s: Sys, s': Sys)
    requires Inv(s) && Charged(s) && Busy(s) && Next(s, s')
    ensures Charged(s') && Busy(s')
  {
    if p :| Arrive(s, p, s') {
      ArriveCharged(s, p, s');
    } else if SchedTick(s, s') {
      SchedTickCharged(s, s');
    } else if RunTick(s, s') {
      RunTickCharged(s, s');
    } else {
      Untouched(s, s');
    }
  }

  lemma {:induction false} RunCharged(states: seq<Sys>, n: nat)
    requires Run(states) && Init(states[0]) && n < |states|
    ensures Inv(states[n]) && Charged(states[n]) && Busy(states[n])
  {
    if n == 0 {
      InitInv(states[0]);
    } else {
      RunCharged(states, n - 1);
      NextInv(states[n - 1], states[n]);
      NextCharged(states[n - 1], states[n]);
    }
  }

  ghost function ExecTime(s: Sys): int -> int { i => if i in s.procs then s.procs[i].pcb.exec else 0 }

  lemma AllExecuted(s: Sys)
    requires Base(s) && ExitTest(s)
    ensures Sum(s.procs.Keys, StartedExec(s)) == Sum(s.procs.Keys, UsedTime(s)) == Sum(s.procs.Keys, ExecTime(s))
    ensures |s.finished| == |s.procs| && (s.procs != map[] ==> s.finished != [])
  {
    Roles(s);
    PlacedOnce(s);
    forall i | i in s.procs ensures i in Ids(s.finished) {
      assert multiset(s.procs.Keys)[i] == 1;
    }
    SumSame(s.procs.Keys, StartedExec(s), ExecTime(s));
    SumSame(s.procs.Keys, UsedTime(s), ExecTime(s));
  }

  // When the main loop exits every process has finished, active_cpu_time is exactly the ticks executed,
  // and it is at most the elapsed time the utilisation is computed from.
  lemma UtilisationAtMostOne(states: seq<Sys>, n: nat)
    requires Run(states) && Init(states[0]) && n < |states| && ExitTest(states[n])
    ensures var s := states[n];
            && |s.finished| == |s.procs|
            && s.activeCpu == s.executed == Sum(s.procs.Keys, ExecTime(s))
            && (s.procs != map[] ==> 0 <= s.startTime && s.activeCpu <= s.clockValue - s.startTime)
  {
    RunCharged(states, n);
    AllExecuted(states[n]);
  }
}
