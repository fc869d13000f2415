/** What each scheduler step does to the work that remains: only a run step of the current process uses any. */
module SchedulerWork {
  import opened Wrappers
  import opened Processes
  import opened SchedulerModel
  import opened SchedulerInvariant

  // p and q are the same process with the same work left.
  ghost predicate SameProcess(p: Proc, q: Proc) { p.shared == q.shared && SameJob(p.pcb, q.pcb) }

  // What a control block says of its job and its process never changes.
  ghost predicate SameJob(p: Pcb, q: Pcb) {
    && q.id == p.id && q.pid == p.pid && q.arrival == p.arrival && q.exec == p.exec
    && q.priority == p.priority && q.memory == p.memory
  }

  ghost predicate SameWork(s: Sys, t: Sys) {
    t.procs.Keys == s.procs.Keys && forall i :: i in s.procs ==> SameProcess(s.procs[i], t.procs[i])
  }

  lemma RefreshWork(s: Sys)
    ensures SameWork(s, Refresh(s))
  {
    assert Refresh(s).procs.Keys == s.procs.Keys;
  }

  lemma RequeueWork(s: Sys)
    requires s.current.Some? && s.current.value in s.procs
    ensures SameWork(s, Requeue(s))
  {
    assert Requeue(s).procs.Keys == s.procs.Keys;
  }

  lemma DispatchWork(s: Sys, x: int)
    requires x in s.procs
    ensures SameWork(s, Dispatch(s, x))
  {
    var p, d := s.procs[x], Dispatch(s, x);
    assert d.procs == s.procs[x := d.procs[x]];
    assert SameProcess(p, d.procs[x]);
  }

  lemma PicksWork(s: Sys, s': Sys)
    requires ReadyKnown(s) && Picks(s, s')
    ensures SameWork(s, s')
  {
    if s.ready != [] { DispatchWork(s.(ready := s'.ready), s'.current.value); }
  }

  lemma SwitchWork(s: Sys, s': Sys)
    requires Known(s) && ContextSwitch(s, s')
    ensures SameWork(s, s')
  {
    if s.current.None? {
      PicksWork(s, s');
    } else if s.procs[s.current.value].shared == 0 {
      RefreshWork(s);
    } else {
      RequeueWork(s);
      PicksWork(Requeue(s), s');
    }
  }

  lemma PolicyWork(s: Sys, s': Sys)
    requires Known(s) && RunPolicy(s, s')
    ensures SameWork(s, s')
  {
    RefreshWork(s);
    if !UpToOrder(Refresh(s), s') { SwitchWork(Refresh(s), s'); }
  }

  lemma ArriveWork(s: Sys, p: Pcb, s': Sys)
    requires Arrive(s, p, s')
    ensures SameWork(Enrol(s, p), s')
    ensures s'.clk == s.clk && s'.phase == s.phase && s'.finished == s.finished
    ensures s'.generatorFinished == s.generatorFinished && s'.policy == s.policy && s'.granted == s.granted
    ensures s.current.None? ==> s'.current.None? && s'.clockValue == -1
    ensures s.current.Some? ==> s'.current.Some? && s'.clockValue == s.clockValue
  {
    var e := Enrol(s, p);
    if s.current.Some? && s.policy.SRTN? {
      PolicyWork(e, s');
      RunPolicyFrame(e, s');
    }
  }

  lemma TickWork(s: Sys, s': Sys)
    requires SchedTick(s, s')
    ensures SameWork(s, s') && s'.phase.AfterWork?
    ensures s'.clk == s.clk && s'.finished == s.finished
    ensures s'.generatorFinished == s.generatorFinished && s'.policy == s.policy
    ensures s.clk == s.clockValue ==> s'.granted == s.granted
    ensures s.clk != s.clockValue ==> (s'.granted <==> s.current.Some? || s.ready != [])
  {
    if s.clk != s.clockValue {
      var t, m := s.(clockValue := s.clk), s'.(granted := s.granted, phase := BeforeWork);
      PolicyWork(t, m);
      RunPolicyFrame(t, m);
      if t.current.None? { PolicyFromIdle(t, m); }
    }
  }

  // From an idle processor, every algorithm dispatches if it can.
  lemma PolicyFromIdle(s: Sys, s': Sys)
    requires Known(s) && s.current.None? && RunPolicy(s, s')
    ensures s'.current.Some? <==> s.ready != []
  {
  }

  // The process that ran, if any, is charged one tick; it is the one that may finish.
  lemma AdvanceWork(s: Sys, s': Sys)
    requires Inv(s) && RunTick(s, s')
    ensures s'.clk == s.clk + 1 && s'.phase.BeforeWork? && s'.procs.Keys == s.procs.Keys
    ensures s'.generatorFinished == s.generatorFinished && s'.policy == s.policy
    ensures forall i :: i in s.procs ==>
              SameProcess(s.procs[i].(shared := s.procs[i].shared - if s.granted && s.current == Some(i) then 1 else 0),
                          s'.procs[i])
    ensures s'.finished == s.finished
            || (s'.finished == s.finished + [s'.finished[|s.finished|]] && s'.clockValue == s'.clk && s.granted
                && s.current == Some(s'.finished[|s.finished|].id))
    ensures !s.granted ==> s'.current == s.current && s'.clockValue == s.clockValue && s'.finished == s.finished
  {
    PlacedOnce(s);
    Roles(s);
    if s.current.Some? {
      assert s.procs[s.current.value := s.procs[s.current.value]].Keys == s.procs.Keys;
    }
    if s.current.Some? && s.granted {
      var w := Worked(s);
      assert w.procs.Keys == s.procs.Keys;
      if w.procs[s.current.value].shared <= 0 { CompleteWork(w, s'); }
    }
  }

  lemma CompleteWork(w: Sys, s': Sys)
    requires Known(w) && w.current.Some? && Complete(w, s')
    ensures SameWork(w, s') && s'.clk == w.clk && s'.phase == w.phase && s'.clockValue == w.clk
    ensures s'.generatorFinished == w.generatorFinished && s'.policy == w.policy
    ensures s'.finished == Retire(w).finished
  {
    var r := Retire(w);
    assert r.procs.Keys == w.procs.Keys;
    if w.generatorFinished && w.policy.SRTN? {
      PicksWork(r, s');
      PicksFrame(r, s');
    }
  }
}
