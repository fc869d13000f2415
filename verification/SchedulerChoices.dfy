/** Which process gets the processor, when, and with what in its control block: said of the fields alone, step by step
    and over runs. */
module SchedulerChoices {
  import opened Wrappers
  import opened Processes
  import opened SchedulerModel
  import opened SchedulerInvariant
  import opened SchedulerWaiting
  import opened SchedulerWork

  // ---------- an idle processor ----------

  // The tick's work, when it is not skipped, never leaves the processor idle with a process ready.
  lemma IdleTakesUp(s: Sys, s': Sys)
    requires Inv(s) && SchedTick(s, s') && s.clk != s.clockValue && s.current.None?
    ensures s'.current.Some? <==> s.ready != []
    ensures s'.current.Some? ==> s'.current.value in s.ready && s'.granted
  {
    var t, m := s.(clockValue := s.clk), s'.(granted := s.granted, phase := BeforeWork);
    LoopVarsBase(s, t);
    Roles(t);
    if s.ready != [] { TakesCount(t, t.ready, m.current.value, m.ready); }
  }

  // Messages to an idle scheduler are acted on in the same tick, also right after a completion.
  lemma ArrivalsAreTakenUp(s: Sys, messages: seq<Pcb>, trace: seq<Sys>, t: Sys)
    requires Inv(s) && s.current.None? && messages != [] && Received(s, messages, trace)
    requires SchedTick(trace[|messages|], t)
    ensures t.current.Some? && t.granted
  {
    WaitsForTick(s, messages, trace, |messages|);
    IdleTakesUp(trace[|messages|], t);
  }

  lemma {:induction false} WaitsForTick(s: Sys, messages: seq<Pcb>, trace: seq<Sys>, i: nat)
    requires Inv(s) && s.current.None? && Received(s, messages, trace) && i <= |messages|
    ensures Inv(trace[i]) && trace[i].current.None?
    ensures i > 0 ==> trace[i].ready != [] && trace[i].clockValue == -1
  {
    if i > 0 {
      WaitsForTick(s, messages, trace, i - 1);
      ArriveInv(trace[i - 1], messages[i - 1], trace[i]);
      var e := Enrol(trace[i - 1], messages[i - 1]);
      assert |multiset(e.ready)| == |e.ready| && |multiset(trace[i].ready)| == |trace[i].ready|;
    }
  }

  // ---------- highest priority first ----------

  // The process that gets the processor has the least priority number of all that are ready.
  lemma HpfDispatchesBest(s: Sys, s': Sys, i: int)
    requires Inv(s) && SchedTick(s, s') && s.policy.HPF? && s.current.None? && s.clk != s.clockValue && i in s.ready
    ensures s'.current.Some? && s'.current.value in s.ready && s'.current.value in s.procs && i in s.procs
    ensures s.procs[s'.current.value].pcb.priority <= s.procs[i].pcb.priority
  {
    var t, m := s.(clockValue := s.clk), s'.(granted := s.granted, phase := BeforeWork);
    LoopVarsBase(s, t);
    Roles(t);
    assert Key(t, m.current.value) <= Key(t, i);
  }

  // And it keeps the processor until it has finished.
  lemma HpfKeepsRunning(s: Sys, s': Sys)
    requires Inv(s) && Next(s, s') && s.policy.HPF? && s.current.Some?
    ensures s'.current == s.current || (s'.current.None? && s.current.value in Ids(s'.finished))
  {
    Roles(s);
    if RunTick(s, s') && s'.finished != s.finished {
      IdsAppend(s.finished, s'.finished[|s.finished|]);
      assert Ids(s'.finished)[|s.finished|] == s.current.value;
    }
  }

  // It only goes to another process in the work of a tick, from an idle processor.
  lemma HpfDispatchesInTicks(s: Sys, s': Sys)
    requires Inv(s) && Next(s, s') && s.policy.HPF? && s'.current.Some? && s'.current != s.current
    ensures SchedTick(s, s') && s.clk != s.clockValue && s.current.None? && s.ready != []
  {
    Roles(s);
  }

  // ---------- shortest remaining time next: the hand-over ----------

  // A completion hands the processor over exactly when the generator is done and somebody is ready.
  lemma HandOverIff(s: Sys, s': Sys)
    requires Inv(s) && RunTick(s, s') && Known(s) && s.current.Some?
    ensures Happens(IsHandedOver, s, s') <==>
            (s.policy.SRTN? && s.generatorFinished && s.ready != []
             && s.granted && s.procs[s.current.value].shared == 1)
  {
    Roles(s);
    if s.policy.SRTN? && s.generatorFinished && s.granted && s.procs[s.current.value].shared == 1 && s.ready != [] {
      HandOver(s, s');
      assert Occurs(IsHandedOver, s, s', s'.current.value);
    }
  }

  // It goes to a process with the least remaining time, on the new clock, and that process does not run in this tick.
  lemma HandOver(s: Sys, s': Sys)
    requires Inv(s) && RunTick(s, s') && s.policy.SRTN? && s.generatorFinished && s.granted && s.ready != []
    requires Known(s) && s.current.Some? && s.procs[s.current.value].shared == 1
    ensures s'.current.Some? && s'.current.value in s.ready && s'.current.value in s'.procs && !s'.granted
    ensures multiset(s.ready) == multiset(s'.ready) + multiset{s'.current.value}
    ensures var x := s'.current.value;
            && (forall i :: i in s.ready ==> s.procs[x].shared <= s.procs[i].shared)
            && var p, q := s.procs[x].pcb, s'.procs[x].pcb;
               q == if p.start == -1
                    then p.(state := RUNNING, start := s.clk + 1, waiting := s.clk + 1 - p.arrival)
                    else p.(state := RUNNING, waiting := p.waiting + s.clk + 1 - p.lastPreempt)
  {
    Roles(s);
    RetireBase(s);
    var r := Retire(Worked(s));
    Roles(r);
    TakesCount(r, r.ready, s'.current.value, s'.ready);
    forall i | i in s.ready ensures s.procs[s'.current.value].shared <= s.procs[i].shared {
      assert Key(r, s'.current.value) <= Key(r, i);
    }
  }

  // ---------- a run with a hand-over ----------

  const FIRST := Pcb(1, 101, 0, 1, 0, 1, -1, 1, 0, -1, WAITING)
  const SECOND := Pcb(2, 102, 0, 3, 0, 1, -1, 3, 0, -1, WAITING)

  function BothReady(): Sys {
    var p, q := Proc(FIRST.(state := READY), 1, 0, 0, 0), Proc(SECOND.(state := READY), 3, 0, 0, 0);
    Sys(SRTN, 1, 0, BeforeWork, -1, 0, -1, 0, map[1 := p, 2 := q], [1, 2], None, false, false, [], 0, 0)
  }

  function FirstRuns(done: bool): Sys {
    var p, q := Proc(FIRST.(state := RUNNING, start := 0), 1, 0, 0, 0), Proc(SECOND.(state := READY), 3, 0, 0, 0);
    Sys(SRTN, 1, 0, AfterWork, 0, 0, 0, 1, map[1 := p, 2 := q], [2], Some(1), true, done, [], 0, 0)
  }

  function SecondTakesOver(): Sys {
    var p := Proc(FIRST.(state := TERMINATED, start := 0, remaining := 0), 0, 0, 0, 0);
    var q := Proc(SECOND.(state := RUNNING, start := 1, waiting := 1), 3, 0, 0, 0);
    Sys(SRTN, 1, 1, BeforeWork, 1, 1, 0, 4, map[1 := p, 2 := q], [], Some(2), false, true, [Record(1, 1, 0)], 1, 0)
  }

  lemma BothArrive() returns (s: Sys)
    ensures Next(Idle(), s) && Next(s, BothReady())
  {
    s := Enrol(Idle(), FIRST);
    assert Arrive(Idle(), FIRST, s);
    assert Enrol(s, SECOND) == BothReady();
    assert Arrive(s, SECOND, BothReady());
  }

  lemma FirstStarts()
    ensures Next(BothReady(), FirstRuns(false))
  {
    var t, m := BothReady().(clockValue := 0), FirstRuns(false).(granted := false, phase := BeforeWork);
    assert m == Dispatch(t.(ready := [2]), 1);
    assert multiset(t.ready) == multiset{1, 2};
    assert Picks(t, m);
    assert SchedTick(BothReady(), FirstRuns(false));
  }

  lemma SecondIsHandedOver()
    ensures RunTick(FirstRuns(true), SecondTakesOver())
  {
    var r := Retire(Worked(FirstRuns(true)));
    assert SecondTakesOver() == Dispatch(r.(ready := []), 2);
    assert Takes(r, r.ready, 2, []);
  }

  lemma FiveSteps(a: Sys, b: Sys, c: Sys, d: Sys, e: Sys, f: Sys) returns (states: seq<Sys>)
    requires Next(a, b) && Next(b, c) && Next(c, d) && Next(d, e) && Next(e, f)
    ensures Run(states) && |states| == 6 && states[0] == a && states[4] == e && states[5] == f
  {
    states := [a, b, c, d, e, f];
  }

  lemma DoneIsTold()
    ensures Next(FirstRuns(false), FirstRuns(true)) && Next(FirstRuns(true), SecondTakesOver())
  {
    assert GeneratorDone(FirstRuns(false), FirstRuns(true));
    SecondIsHandedOver();
  }

  // Two processes of 1 and 3 ticks arrive at 0, and nothing else is to come: at clock 1 the first has finished and the
  // second is current, started there with a wait of 1.
  lemma HandOverHappens() returns (states: seq<Sys>)
    ensures Run(states) && Init(states[0]) && states[0].policy.SRTN? && |states| == 6
    ensures Happens(IsHandedOver, states[4], states[5]) && states[5].clk == 1
    ensures var s := states[5];
            && s.finished == [Record(1, 1, 0)] && s.current == Some(2) && 2 in s.procs
            && s.procs[2].pcb.start == 1 && s.procs[2].pcb.waiting == 1
  {
    var one := BothArrive();
    FirstStarts();
    DoneIsTold();
    states := FiveSteps(Idle(), one, BothReady(), FirstRuns(false), FirstRuns(true), SecondTakesOver());
    assert Occurs(IsHandedOver, FirstRuns(true), SecondTakesOver(), 2);
  }

  // ---------- round robin: whole slices ----------

  // The process is taken from the processor and put at the end of the queue, whose front gets the processor.
  ghost predicate GivesWay(s: Sys, s': Sys) {
    s.current.Some? && s.ready != [] && s'.current == Some(s.ready[0]) && s'.ready == s.ready[1..] + [s.current.value]
  }

  lemma FrontAndRest(ready: seq<int>, c: int, x: int, rest: seq<int>)
    requires ready != [] && ready + [c] == [x] + rest
    ensures x == ready[0] && rest == ready[1..] + [c]
  {
    assert (ready + [c])[0] == x && (ready + [c])[1..] == rest;
  }

  // In the work of a tick that happens exactly when its slice is used up and somebody waits; else nobody moves.
  lemma RrGivesWayIff(s: Sys, s': Sys)
    requires Inv(s) && SchedTick(s, s') && s.policy.RR? && s.current.Some?
    ensures GivesWay(s, s') <==> s.ready != [] && s.clk - s.sliceStart >= s.quantum
    ensures !GivesWay(s, s') ==> s'.current == s.current && s'.ready == s.ready && s'.sliceStart == s.sliceStart
    ensures GivesWay(s, s') ==> s'.sliceStart == s.clk
  {
    var t, m := s.(clockValue := s.clk), s'.(granted := s.granted, phase := BeforeWork);
    LoopVarsBase(s, t);
    Roles(t);
    var r := Refresh(t);
    RefreshFrame(t);
    assert s.ready != [] ==> s.ready[0] in s.ready;
    if s.ready != [] && s.clk - s.sliceStart >= s.quantum {
      RefreshedRuns(t);
      RequeueFrame(r);
      PicksFrame(Requeue(r), m);
      assert Requeue(r).ready == s.ready + [s.current.value];
      FrontAndRest(s.ready, s.current.value, m.current.value, m.ready);
    }
  }

  // Otherwise the processor is only lost by finishing.
  lemma RrKeepsRunning(s: Sys, s': Sys)
    requires Inv(s) && Next(s, s') && s.policy.RR? && s.current.Some?
    ensures s'.policy.RR? && s'.quantum == s.quantum
    ensures s'.current == s.current || (SchedTick(s, s') && GivesWay(s, s'))
            || (s'.current.None? && s.current.value in Ids(s'.finished))
  {
    Roles(s);
    if SchedTick(s, s') {
      RrGivesWayIff(s, s');
      TickWork(s, s');
    } else if RunTick(s, s') && s'.finished != s.finished {
      IdsAppend(s.finished, s'.finished[|s.finished|]);
      assert Ids(s'.finished)[|s.finished|] == s.current.value;
    }
  }

  // Every tick of the slice is a run step.
  lemma RrRuns(s: Sys, s': Sys)
    requires Inv(s) && Next(s, s') && s.policy.RR? && s.current.Some? && s'.current == s.current
    ensures Known(s) && s.current.value in s'.procs && s'.sliceStart == s.sliceStart
    ensures s.procs[s.current.value].shared - s'.procs[s.current.value].shared == s'.clk - s.clk
  {
    Roles(s);
    if p :| Arrive(s, p, s') {
    } else if SchedTick(s, s') {
      RrGivesWayIff(s, s');
      TickWork(s, s');
    } else if RunTick(s, s') {
      AdvanceWork(s, s');
    }
  }

  // It is got in the work of a tick, with a slice that starts there.
  lemma RrStarts(s: Sys, s': Sys)
    requires Inv(s) && Next(s, s') && s.policy.RR? && s'.current.Some? && s'.current != s.current
    ensures s'.policy.RR? && s'.quantum == s.quantum && s'.sliceStart == s'.clk && s'.current.value in s'.procs
  {
    Roles(s);
    if SchedTick(s, s') {
      TickWork(s, s');
      if s.current.Some? { RrGivesWayIff(s, s'); } else { IdleTakesUp(s, s'); }
    }
  }

  // x keeps the processor, and runs as long as the clock moves.
  ghost predicate RunsOn(s: Sys, s': Sys, x: int) {
    && x in s.procs && x in s'.procs && s'.sliceStart == s.sliceStart
    && s.procs[x].shared - s'.procs[x].shared == s'.clk - s.clk
  }

  lemma {:induction false} RunsThrough(states: seq<Sys>, m: nat, n: nat, x: int)
    requires m <= n < |states| && x in states[m].procs
    requires forall k :: m <= k < n ==> RunsOn(states[k], states[k + 1], x)
    ensures RunsOn(states[m], states[n], x)
  {
    if m < n { RunsThrough(states, m, n - 1, x); }
  }

  lemma StepRunsOn(states: seq<Sys>, k: nat, x: int)
    requires Run(states) && Inv(states[0]) && states[0].policy.RR? && k + 1 < |states|
    requires states[k].current == states[k + 1].current == Some(x)
    ensures RunsOn(states[k], states[k + 1], x)
  {
    RunInv(states, k);
    StaysRr(states, k);
    RrRuns(states[k], states[k + 1]);
  }

  lemma {:induction false} StaysRr(states: seq<Sys>, n: nat)
    requires Run(states) && Inv(states[0]) && states[0].policy.RR? && n < |states|
    ensures states[n].policy.RR? && states[n].quantum == states[0].quantum
  {
    if n > 0 {
      StaysRr(states, n - 1);
      RunInv(states, n - 1);
      SamePolicy(states[n - 1], states[n]);
    }
  }

  lemma SamePolicy(s: Sys, s': Sys)
    requires Inv(s) && Next(s, s')
    ensures s'.policy == s.policy && s'.quantum == s.quantum
  {
    Roles(s);
    if p :| Arrive(s, p, s') {
      if s.current.Some? && s.policy.SRTN? {
        EnrolBase(s, p);
        Roles(Enrol(s, p));
        RunPolicyFrame(Enrol(s, p), s');
      }
    } else if SchedTick(s, s') {
      if s.clk != s.clockValue {
        RunPolicyFrame(s.(clockValue := s.clk), s'.(granted := s.granted, phase := BeforeWork));
      }
    }
  }

  // x gets the processor in step m, has it up to state n, and then another gets it.
  ghost predicate HoldsProcessor(states: seq<Sys>, m: nat, n: nat, x: int)
    requires m < n < |states| - 1
  {
    && states[m].current != Some(x) && (forall k :: m < k <= n ==> states[k].current == Some(x))
    && states[n + 1].current.Some? && states[n + 1].current != Some(x)
  }

  // Whoever loses the processor to another has run for a whole quantum since it got it.
  lemma RrFullQuantum(states: seq<Sys>, m: nat, n: nat, x: int)
    requires Run(states) && Inv(states[0]) && states[0].policy.RR? && m < n < |states| - 1
    requires HoldsProcessor(states, m, n, x)
    ensures x in states[m + 1].procs && x in states[n].procs
    ensures states[m + 1].procs[x].shared - states[n].procs[x].shared >= states[0].quantum
  {
    SliceStarts(states, m, x);
    forall k | m < k < n ensures RunsOn(states[k], states[k + 1], x) { StepRunsOn(states, k, x); }
    RunsThrough(states, m + 1, n, x);
    SliceEnds(states, n, x);
  }

  lemma SliceStarts(states: seq<Sys>, m: nat, x: int)
    requires Run(states) && Inv(states[0]) && states[0].policy.RR? && m + 1 < |states|
    requires states[m].current != Some(x) && states[m + 1].current == Some(x)
    ensures x in states[m + 1].procs && states[m + 1].sliceStart == states[m + 1].clk
  {
    RunInv(states, m);
    StaysRr(states, m);
    RrStarts(states[m], states[m + 1]);
  }

  lemma SliceEnds(states: seq<Sys>, n: nat, x: int)
    requires Run(states) && Inv(states[0]) && states[0].policy.RR? && n + 1 < |states|
    requires states[n].current == Some(x) && states[n + 1].current.Some? && states[n + 1].current != Some(x)
    ensures states[n].clk - states[n].sliceStart >= states[0].quantum
  {
    RunInv(states, n);
    StaysRr(states, n);
    RrKeepsRunning(states[n], states[n + 1]);
    RrGivesWayIff(states[n], states[n + 1]);
  }

  // ---------- what a dispatch and a completion write ----------

  // In the work of a tick: the start, and the time since arrival or since the last preemption.
  lemma DispatchStamps(s: Sys, s': Sys)
    requires Inv(s) && SchedTick(s, s') && s'.current.Some? && s'.current != s.current
    ensures s'.current.value in s.ready && s'.current.value in s.procs && s'.current.value in s'.procs
    ensures var p, q := s.procs[s'.current.value].pcb, s'.procs[s'.current.value].pcb;
            q == if p.start == -1 then p.(state := RUNNING, start := s.clk, waiting := s.clk - p.arrival)
                 else p.(state := RUNNING, waiting := p.waiting + s.clk - p.lastPreempt)
  {
    Roles(s);
    var t, m := s.(clockValue := s.clk), s'.(granted := s.granted, phase := BeforeWork);
    LoopVarsBase(s, t);
    if s.current.None? {
      PickStamps(t, m);
    } else {
      SwitchIsPick(t, m);
      var q := Requeue(Refresh(t));
      PickStamps(q, m);
      TakesCount(q, q.ready, m.current.value, m.ready);
    }
  }

  lemma PickStamps(q: Sys, m: Sys)
    requires Known(q) && q.ready != [] && Picks(q, m)
    ensures m.current.Some? && m.current.value in q.ready && m.current.value in q.procs && m.current.value in m.procs
    ensures var p, r := q.procs[m.current.value].pcb, m.procs[m.current.value].pcb;
            r == if p.start == -1
                 then p.(state := RUNNING, start := q.clockValue, waiting := q.clockValue - p.arrival)
                 else p.(state := RUNNING,
                         waiting := p.waiting + if p.lastPreempt != -1 then q.clockValue - p.lastPreempt else 0)
  {
    TakesCount(q, q.ready, m.current.value, m.ready);
  }

  // If another process gets the processor, the current one is put back first.
  lemma SwitchIsPick(t: Sys, m: Sys)
    requires Base(t) && Known(t) && t.current.Some? && RunPolicy(t, m) && m.current != t.current
    ensures var q := Requeue(Refresh(t)); Known(q) && q.ready != [] && Picks(q, m)
  {
    RefreshFrame(t);
    RefreshedRuns(t);
    assert ContextSwitch(Refresh(t), m);
  }

  // The process that gives way is stamped, and its remaining time brought up to date.
  lemma PreemptionStamps(s: Sys, s': Sys)
    requires Inv(s) && SchedTick(s, s') && s.current.Some? && s'.current != s.current
    ensures s.current.value in s'.ready && s.current.value in s.procs && s.current.value in s'.procs
    ensures var p, q := s.procs[s.current.value], s'.procs[s.current.value];
            q.pcb == p.pcb.(state := READY, remaining := p.shared, lastPreempt := s.clk) && q.shared == p.shared
  {
    Roles(s);
    var t, m := s.(clockValue := s.clk), s'.(granted := s.granted, phase := BeforeWork);
    LoopVarsBase(s, t);
    SwitchIsPick(t, m);
    var q := Requeue(Refresh(t));
    TakesCount(q, q.ready, m.current.value, m.ready);
    assert multiset(q.ready)[s.current.value] >= 1;
  }

  // The tick's work ends with the remaining time of the current process brought up to date.
  lemma TickRefreshes(s: Sys, s': Sys)
    requires Inv(s) && SchedTick(s, s') && s.clk != s.clockValue && s'.current.Some?
    ensures Known(s') && s'.procs[s'.current.value].pcb.remaining == s'.procs[s'.current.value].shared
  {
    SchedTickInv(s, s');
    Roles(s);
    Roles(s');
    if s'.current != s.current { DispatchStamps(s, s'); TickWork(s, s'); }
  }

  // A process completes in the tick that uses up its last unit, and its turnaround runs to the end of that tick.
  lemma CompletionRecords(s: Sys, s': Sys)
    requires Inv(s) && RunTick(s, s') && Known(s)
    ensures s'.finished != s.finished
       <==> s.granted && s.current.Some? && s.procs[s.current.value].shared == 1
    ensures s'.finished != s.finished ==>
              var p := s.procs[s.current.value].pcb;
              s'.finished == s.finished + [Record(p.id, s.clk + 1 - p.arrival, s.clk + 1 - p.arrival - p.exec)]
  {
    Roles(s);
    if s.granted && s.procs[s.current.value].shared == 1 {
      var r := Retire(Worked(s));
      assert ProcOk(s, s.current.value);
      assert |r.finished| == |s.finished| + 1;
      if s.generatorFinished && s.policy.SRTN? {
        RetireBase(s);
        Roles(r);
        PicksFrame(r, s');
      }
    }
  }
}
