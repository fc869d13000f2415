/** Who gets the processor in a run of the whole system, in terms of the input file. */
module SystemChoices {
  import opened Wrappers
  import opened SchedulerModel
  import opened SchedulerInvariant
  import opened SchedulerWork
  import opened SchedulerChoices
  import opened Simulation
  import opened SimulationInvariant
  import opened SimulationTheorems
  import opened SystemRuns

  // The scheduler has been sent job i, and it has not finished.
  ghost predicate Unfinished(s: Sys, i: int) { i in s.procs && i !in Done(s) }

  // The processor goes to x.
  ghost predicate Gets(s: Sys, s': Sys, x: int) { s'.current == Some(x) && s.current != Some(x) }

  lemma ReadyIfUnfinished(s: Sys, i: int)
    requires Placed(s) && s.current.None?
    ensures Unfinished(s, i) <==> i in s.ready
  {
    PlacedOnce(s);
    assert multiset(s.procs.Keys)[i] == multiset(s.ready)[i] + Bag(s.current)[i] + multiset(Ids(s.finished))[i];
    assert i in s.procs ==> multiset(s.procs.Keys)[i] == 1;
    assert i in Done(s) <==> i in Ids(s.finished);
  }

  // ---------- highest priority first ----------

  // One step of the scheduler.
  lemma BestGetsIt(s: Sys, s': Sys, x: int, i: int)
    requires Inv(s) && Next(s, s') && s.policy.HPF? && Gets(s, s', x) && Unfinished(s, i)
    ensures s.current.None? && Unfinished(s, x) && s.procs[x].pcb.priority <= s.procs[i].pcb.priority
  {
    HpfDispatchesInTicks(s, s');
    ReadyIfUnfinished(s, x);
    ReadyIfUnfinished(s, i);
    HpfDispatchesBest(s, s', i);
  }

  // Under HPF, whenever the processor goes to a process, that has the least priority number in the input file of all
  // the processes the scheduler has been sent and that have not finished.
  lemma SystemHpf(l: Workload, states: seq<World>, n: nat, x: int, i: int)
    requires RunOf(l, states) && n + 1 < |states| && states[n].sched.policy.HPF?
    requires Gets(states[n].sched, states[n + 1].sched, x) && Unfinished(states[n].sched, i)
    ensures states[n].sched.current.None? && Unfinished(states[n].sched, x)
    ensures x in l.jobs && i in l.jobs && l.jobs[x].priority <= l.jobs[i].priority
  {
    var w, s' := states[n], states[n + 1].sched;
    RunKeeps(l, states, n);
    ToldOk(w);
    CopiesAreTrue(l, states, n);
    StepOfScheduler(l, w, states[n + 1]);
    if Next(w.sched, s') { BestGetsIt(w.sched, s', x, i); } else { BestGetsIt(Told(w), s', x, i); }
  }

  // And it keeps the processor until it has finished.
  lemma SystemHpfKeeps(l: Workload, states: seq<World>, n: nat, x: int)
    requires RunOf(l, states) && n + 1 < |states| && states[n].sched.policy.HPF?
    requires states[n].sched.current == Some(x)
    ensures states[n + 1].sched.current == Some(x) || x in Done(states[n + 1].sched)
  {
    var w, s' := states[n], states[n + 1].sched;
    RunKeeps(l, states, n);
    ToldOk(w);
    StepOfScheduler(l, w, states[n + 1]);
    if Next(w.sched, s') { HpfKeepsRunning(w.sched, s'); } else if s' != w.sched { HpfKeepsRunning(Told(w), s'); }
  }

  // ---------- shortest remaining time next ----------

  // c has finished, and x, which was ready, has the processor; i, which was ready too, needs no less.
  ghost predicate HandsOver(s: Sys, s': Sys, c: int, x: int, i: int) {
    && c in Done(s') && s'.current == Some(x) && x in s.ready && x in s.procs && i in s.procs && x in s'.procs
    && s.procs[x].shared <= s.procs[i].shared
    && (s.procs[x].pcb.start == -1 ==> s'.procs[x].pcb.start == s'.clk == s.clk + 1)
  }

  lemma LastStepHandsOver(s: Sys, s': Sys, c: int, i: int)
    requires Inv(s) && RunTick(s, s') && s.policy.SRTN? && s.generatorFinished && s.granted && i in s.ready
    requires s.current == Some(c) && c in s.procs && s.procs[c].shared == 1
    ensures s'.current.Some? && HandsOver(s, s', c, s'.current.value, i)
  {
    PlacedOnce(s);
    HandOver(s, s');
    CompletionRecords(s, s');
    AdvanceWork(s, s');
    assert ProcOk(s, c);
    assert Ids(s'.finished)[|s.finished|] == c;
  }

  // Under SRTN, once nothing is left to arrive or to be admitted, the last run step of a process hands the processor
  // to one with the least remaining time, on the new clock.
  lemma SystemHandOver(l: Workload, states: seq<World>, n: nat, c: int, i: int)
    requires RunOf(l, states) && n + 1 < |states| && states[n].stage.Working?
    requires states[n].arrivals == {} && states[n].waiting == []
    requires var s := states[n].sched;
             && s.policy.SRTN? && s.granted && i in s.ready && s.current == Some(c) && c in s.procs
             && s.procs[c].shared == 1
    ensures var s' := states[n + 1].sched;
            s'.current.Some? && HandsOver(states[n].sched, s', c, s'.current.value, i)
  {
    RunKeeps(l, states, n);
    ToldOk(states[n]);
    WorkingAdvances(l, states[n], states[n + 1]);
    LastStepHandsOver(Told(states[n]), states[n + 1].sched, c, i);
  }

  lemma WorkingAdvances(l: Workload, w: World, w': World)
    requires Step(l, w, w') && w.stage.Working?
    ensures RunTick(Told(w), w'.sched)
  {
  }

  // ---------- round robin ----------

  lemma {:induction false} PolicyStays(l: Workload, states: seq<World>, n: nat)
    requires RunOf(l, states) && n < |states|
    ensures states[n].sched.policy == states[0].sched.policy && states[n].sched.quantum == states[0].sched.quantum
  {
    if n > 0 {
      var j: nat := n - 1;
      PolicyStays(l, states, j);
      RunKeeps(l, states, j);
      StepKeepsPolicy(l, states[j], states[j + 1]);
    }
  }

  lemma StepKeepsPolicy(l: Workload, w: World, w': World)
    requires Inv(w.sched) && Step(l, w, w')
    ensures w'.sched.policy == w.sched.policy && w'.sched.quantum == w.sched.quantum
  {
    ToldOk(w);
    StepOfScheduler(l, w, w');
    if Next(w.sched, w'.sched) {
      SamePolicy(w.sched, w'.sched);
    } else if w'.sched != w.sched {
      SamePolicy(Told(w), w'.sched);
    }
  }

  lemma StepOfRr(l: Workload, states: seq<World>, n: nat) returns (s: Sys)
    requires RunOf(l, states) && n + 1 < |states| && states[0].sched.policy.RR?
    ensures Inv(s) && s.policy.RR? && s.quantum == states[0].sched.quantum
    ensures s == states[n].sched.(generatorFinished := s.generatorFinished)
    ensures states[n + 1].sched == states[n].sched || Next(s, states[n + 1].sched)
  {
    RunKeeps(l, states, n);
    PolicyStays(l, states, n);
    ToldOk(states[n]);
    StepOfScheduler(l, states[n], states[n + 1]);
    s := if Next(states[n].sched, states[n + 1].sched) then states[n].sched else Told(states[n]);
  }

  // A process that loses the processor to another has run for a whole quantum since it got it.
  lemma SystemRrFullQuantum(l: Workload, states: seq<World>, m: nat, n: nat, x: int)
    requires RunOf(l, states) && states[0].sched.policy.RR? && m < n < |states| - 1
    requires HoldsProcessor(Scheds(states), m, n, x)
    ensures x in states[m + 1].sched.procs && x in states[n].sched.procs
    ensures states[m + 1].sched.procs[x].shared - states[n].sched.procs[x].shared >= states[0].sched.quantum
  {
    var r := Scheds(states);
    SystemSliceStarts(l, states, m, x);
    forall k | m < k < n ensures RunsOn(r[k], r[k + 1], x) { SystemRunsOn(l, states, k, x); }
    RunsThrough(r, m + 1, n, x);
    SystemSliceEnds(l, states, n, x);
  }

  lemma SystemSliceStarts(l: Workload, states: seq<World>, m: nat, x: int)
    requires RunOf(l, states) && states[0].sched.policy.RR? && m + 1 < |states|
    requires states[m].sched.current != Some(x) && states[m + 1].sched.current == Some(x)
    ensures var s := states[m + 1].sched; x in s.procs && s.sliceStart == s.clk
  {
    var s := StepOfRr(l, states, m);
    RrStarts(s, states[m + 1].sched);
  }

  lemma SystemRunsOn(l: Workload, states: seq<World>, k: nat, x: int)
    requires RunOf(l, states) && states[0].sched.policy.RR? && k + 1 < |states|
    requires states[k].sched.current == states[k + 1].sched.current == Some(x)
    ensures RunsOn(states[k].sched, states[k + 1].sched, x)
  {
    var s := StepOfRr(l, states, k);
    if Next(s, states[k + 1].sched) { RrRuns(s, states[k + 1].sched); } else { PlacedOnce(s); }
  }

  lemma SystemSliceEnds(l: Workload, states: seq<World>, n: nat, x: int)
    requires RunOf(l, states) && states[0].sched.policy.RR? && n + 1 < |states|
    requires states[n].sched.current == Some(x)
    requires states[n + 1].sched.current.Some? && states[n + 1].sched.current != Some(x)
    ensures states[n].sched.clk - states[n].sched.sliceStart >= states[0].sched.quantum
  {
    var s := StepOfRr(l, states, n);
    RrKeepsRunning(s, states[n + 1].sched);
    RrGivesWayIff(s, states[n + 1].sched);
  }
}
