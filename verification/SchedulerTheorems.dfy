/** What holds over whole runs of the scheduler: conservation, shortest-first order, preemptions. */
module SchedulerTheorems {
  import opened Wrappers
  import opened Processes
  import opened SchedulerModel
  import opened SchedulerInvariant

  // ---------- conservation ----------

  // At every point of every run each process that arrived is ready, current or finished, in exactly one place,
  // and process_count counts them all.
  lemma EveryProcessInOnePlace(states: seq<Sys>, n: nat)
    requires Run(states) && Init(states[0]) && n < |states|
    ensures var s := states[n];
            && multiset(s.procs.Keys) == multiset(s.ready) + Bag(s.current) + multiset(Ids(s.finished))
            && |s.procs| == |s.ready| + (if s.current.Some? then 1 else 0) + |s.finished|
  {
    InitInv(states[0]);
    RunInv(states, n);
    PlacedOnce(states[n]);
  }

  // ---------- shortest remaining time first ----------

  // The current process has at most the remaining time of every ready one.
  ghost predicate ShortestRuns(s: Sys) {
    s.policy.SRTN? && s.current.Some? && s.current.value in s.procs ==>
      forall i :: i in s.ready && i in s.procs ==> s.procs[s.current.value].shared <= s.procs[i].pcb.remaining
  }

  ghost predicate FewPreemptions(s: Sys) {
    && (s.policy.SRTN? ==> s.preemptions <= |s.procs|)
    && (s.policy.HPF? ==> s.preemptions == 0)
  }

  lemma PicksShortest(s: Sys, s': Sys)
    requires Base(s) && Known(s) && s.current.None? && Picks(s, s')
    ensures ShortestRuns(s')
  {
    if s.ready != [] && s.policy.SRTN? {
      Roles(s);
      var x := s'.current.value;
      TakesCount(s, s.ready, x, s'.ready);
      forall i | i in s'.ready && i in s'.procs ensures s'.procs[x].shared <= s'.procs[i].pcb.remaining {
        assert multiset(s.ready)[i] >= multiset(s'.ready)[i] > 0;
        assert Key(s, x) <= Key(s, i);
      }
    }
  }

  // The current process gives way to a strictly shorter ready one.
  ghost predicate GoesShorter(s: Sys, s': Sys) {
    && Known(s) && s.current.Some? && s'.current.Some? && s'.current != s.current && s'.current.value in s.ready
    && s'.current.value in s.procs
    && s.procs[s'.current.value].shared < s.procs[s.current.value].shared
  }

  lemma SwitchGoesShorter(r: Sys, s': Sys)
    requires Base(r) && Known(r) && r.policy.SRTN? && r.current.Some? && NearClock(r)
    requires r.procs[r.current.value].pcb.remaining == r.procs[r.current.value].shared
    requires ShorterReady(r) && Known(Requeue(r)) && Picks(Requeue(r), s')
    ensures GoesShorter(r, s') && ShortestRuns(s')
  {
    var q, c := Requeue(r), r.current.value;
    Roles(r);
    RequeueBase(r);
    PicksShortest(q, s');
    var i :| i in r.ready && r.procs[i].pcb.remaining < r.procs[c].pcb.remaining;
    assert i in q.ready && c in q.ready;
    var x := s'.current.value;
    TakesCount(q, q.ready, x, s'.ready);
    assert Key(q, x) <= Key(q, i) < Key(q, c);
  }

  lemma RefreshedRunner(s: Sys)
    requires Base(s) && Known(s) && s.current.Some?
    ensures var r := Refresh(s); Base(r) && Known(r) && r.current == s.current && r.ready == s.ready
    ensures var p := Refresh(s).procs[s.current.value];
            p.pcb.remaining == p.shared == s.procs[s.current.value].shared >= 1
    ensures forall i :: i in s.ready ==> Refresh(s).procs[i] == s.procs[i]
  {
    RefreshBase(s);
    Roles(s);
  }

  // Whatever held before, run_SRTN_Algorithm leaves the shortest process current;
  // it preempts only if a ready process was strictly shorter.
  lemma SrtnRestoresOrder(s: Sys, s': Sys)
    requires Base(s) && Known(s) && s.policy.SRTN? && NearClock(s) && RunPolicy(s, s')
    ensures ShortestRuns(s')
    ensures s'.preemptions > s.preemptions ==> GoesShorter(s, s')
  {
    if s.current.None? {
      if s.ready != [] {
        PicksFrame(s, s');
        PicksShortest(s, s');
      }
    } else {
      var r := Refresh(s);
      RefreshedRunner(s);
      if ShorterReady(r) {
        RequeueBase(r);
        PlacedOnce(Requeue(r));
        SwitchGoesShorter(r, s');
      } else {
        forall i ensures i in s'.ready <==> i in r.ready { assert multiset(s'.ready)[i] == multiset(r.ready)[i]; }
      }
    }
  }

  lemma NextShortest(s: Sys, s': Sys)
    requires Inv(s) && ShortestRuns(s) && FewPreemptions(s) && Next(s, s')
    ensures ShortestRuns(s') && FewPreemptions(s')
  {
    PlacedOnce(s);
    if p :| Arrive(s, p, s') {
      ArriveShortest(s, p, s');
    } else if SchedTick(s, s') {
      TickShortest(s, s');
    } else if RunTick(s, s') {
      StepShortest(s, s');
    }
  }

  lemma ArriveShortest(s: Sys, p: Pcb, s': Sys)
    requires Inv(s) && FewPreemptions(s) && ShortestRuns(s) && Arrive(s, p, s')
    ensures ShortestRuns(s') && FewPreemptions(s')
  {
    var e := Enrol(s, p);
    EnrolBase(s, p);
    PlacedOnce(e);
    assert |e.procs| == |s.procs| + 1 by {
      assert e.procs.Keys == s.procs.Keys + {p.id};
      assert |e.procs.Keys| == |s.procs.Keys| + 1;
    }
    if s.current.Some? && s.policy.SRTN? {
      RunPolicyFrame(e, s');
      SrtnRestoresOrder(e, s');
      assert |s'.procs.Keys| == |e.procs.Keys|;
    }
  }

  lemma TickShortest(s: Sys, s': Sys)
    requires Inv(s) && FewPreemptions(s) && ShortestRuns(s) && SchedTick(s, s')
    ensures ShortestRuns(s') && FewPreemptions(s')
  {
    if s.clk != s.clockValue {
      var t := s.(clockValue := s.clk);
      var m := s'.(granted := s.granted, phase := BeforeWork);
      LoopVarsBase(s, t);
      RunPolicyFrame(t, m);
      assert |m.procs.Keys| == |t.procs.Keys|;
      if s.policy.SRTN? {
        Roles(t);
        SrtnRestoresOrder(t, m);
      }
    }
  }

  lemma StepShortest(s: Sys, s': Sys)
    requires Inv(s) && FewPreemptions(s) && ShortestRuns(s) && RunTick(s, s')
    ensures ShortestRuns(s') && FewPreemptions(s')
  {
    PlacedOnce(s);
    if s.current.Some? {
      var c := s.current.value;
      assert ProcOk(s, c);
      if s.granted && s.procs[c].shared == 1 {
        RetireBase(s);
        var r := Retire(Worked(s));
        assert r.procs.Keys == s.procs.Keys && |r.procs.Keys| == |s.procs.Keys|;
        PlacedOnce(r);
        if s.generatorFinished && s.policy.SRTN? {
          PicksFrame(r, s');
          PicksShortest(r, s');
          assert |s'.procs.Keys| == |r.procs.Keys|;
        }
      } else {
        assert s'.procs.Keys == s.procs.Keys && |s'.procs.Keys| == |s.procs.Keys|;
      }
    }
  }

  // Over any run the current process is a shortest one; SRTN preempts at most once per arrival and HPF never.
  lemma {:induction false} PreemptionBound(states: seq<Sys>, n: nat)
    requires Run(states) && Init(states[0]) && n < |states|
    ensures Inv(states[n]) && ShortestRuns(states[n]) && FewPreemptions(states[n])
  {
    if n == 0 {
      InitInv(states[0]);
    } else {
      PreemptionBound(states, n - 1);
      NextInv(states[n - 1], states[n]);
      NextShortest(states[n - 1], states[n]);
    }
  }

  // Between arrivals nothing is preempted under SRTN: only a message can displace the current process,
  // only in favour of the process it carries, and that process is strictly shorter.
  lemma OnlyArrivalsPreempt(s: Sys, s': Sys)
    requires Inv(s) && s.policy.SRTN? && ShortestRuns(s) && Next(s, s')
    requires s'.preemptions > s.preemptions
    ensures s.current.Some? && s'.current.Some? && s'.current.value !in s.procs && s'.current.value in s'.procs
    ensures s'.procs[s'.current.value].shared < s.procs[s.current.value].shared
    ensures s'.procs[s'.current.value].pcb.waiting == s.clk - 1 - s'.procs[s'.current.value].pcb.arrival
  {
    Roles(s);
    if p :| Arrive(s, p, s') {
      ArrivalPreempts(s, p, s');
    } else if SchedTick(s, s') {
      TickDoesNotPreempt(s, s');
    } else if RunTick(s, s') {
      StepDoesNotPreempt(s, s');
    }
  }

  lemma TickDoesNotPreempt(s: Sys, s': Sys)
    requires Inv(s) && s.policy.SRTN? && ShortestRuns(s) && SchedTick(s, s')
    ensures s'.preemptions == s.preemptions
  {
    if s.clk != s.clockValue {
      var t := s.(clockValue := s.clk);
      var m := s'.(granted := s.granted, phase := BeforeWork);
      LoopVarsBase(s, t);
      Roles(t);
      SrtnRestoresOrder(t, m);
      RunPolicyFrame(t, m);
    }
  }

  lemma StepDoesNotPreempt(s: Sys, s': Sys)
    requires Inv(s) && RunTick(s, s')
    ensures s'.preemptions == s.preemptions
  {
    Roles(s);
    if s.current.Some? && s.granted && s.procs[s.current.value].shared == 1 {
      RetireBase(s);
      var r := Retire(Worked(s));
      PlacedOnce(r);
      if s.generatorFinished && s.policy.SRTN? { PicksFrame(r, s'); }
    }
  }

  // A process that preempts on arrival is started on the stale clock: if it arrived at this tick, with a wait of -1.
  lemma ArrivalPreempts(s: Sys, p: Pcb, s': Sys)
    requires Inv(s) && s.policy.SRTN? && ShortestRuns(s) && Arrive(s, p, s')
    requires s'.preemptions > s.preemptions
    ensures s.current.Some? && s.current.value in s.procs && s'.current == Some(p.id) && p.id in s'.procs
    ensures p.exec < s.procs[s.current.value].shared && s'.procs[p.id].shared == p.exec
    ensures s'.procs[p.id].pcb.waiting == s.clk - 1 - p.arrival
  {
    var e := Enrol(s, p);
    EnrolBase(s, p);
    Roles(s);
    Roles(e);
    SrtnRestoresOrder(e, s');
    assert s'.current == Some(p.id);
    var r := Refresh(e);
    RefreshedRunner(e);
    assert ShorterReady(r) by { assert p.id in r.ready; }
  }
}
