/** What the theorems about the scheduler say of whole runs of the system,
    and that every start leads to a drained end. */
module SystemRuns {
  import opened Wrappers
  import opened Processes
  import opened Sums
  import opened SchedulerModel
  import opened SchedulerInvariant
  import opened SchedulerTheorems
  import opened SchedulerUtilisation
  import opened SchedulerWaiting
  import opened RoundRobin
  import opened Simulation
  import opened SimulationInvariant
  import opened Drain
  import Progress

  // ---------- the scheduler's part of a run ----------

  // The scheduler as the states of the system show it.
  ghost function Scheds(states: seq<World>): (r: seq<Sys>)
    ensures |r| == |states| && forall k :: 0 <= k < |r| ==> r[k] == states[k].sched
  {
    seq(|states|, k requires 0 <= k < |states| => states[k].sched)
  }

  // From r[i] to r[j] the scheduler makes no step, one, or SIGUSR1 and then one.
  ghost predicate StepMatched(w: World, r: seq<Sys>, i: nat, j: nat) {
    && i <= j < |r| && r[i] == w.sched
    && (j == i || j == i + 1 || (j == i + 2 && r[i + 1] == Told(w)))
  }

  // r are the scheduler's states behind the first n steps: state k of the system shows its state at[k].
  ghost predicate Projects(states: seq<World>, n: nat, r: seq<Sys>, at: seq<nat>)
    requires n < |states|
  {
    && |at| == n + 1 && at[0] == 0 && at[n] == |r| - 1 && r[at[n]] == states[n].sched
    && forall k :: 0 <= k < n ==> StepMatched(states[k], r, at[k], at[k + 1])
  }

  lemma OneMoreStep(r: seq<Sys>, s: Sys)
    requires Run(r) && Next(r[|r| - 1], s)
    ensures Run(r + [s])
  {
    var more := r + [s];
    forall i | 0 <= i < |more| - 1 ensures Next(more[i], more[i + 1]) {
      if i < |r| - 1 { assert more[i] == r[i] && more[i + 1] == r[i + 1]; }
    }
  }

  lemma SchedulerFollows(l: Workload, r: seq<Sys>, w: World, w': World) returns (more: seq<Sys>)
    requires Run(r) && r[|r| - 1] == w.sched && Step(l, w, w')
    ensures Run(more) && r <= more && more[|more| - 1] == w'.sched
    ensures StepMatched(w, more, |r| - 1, |more| - 1)
  {
    more := r;
    if Receive(l, w, w') || Tick(l, w, w') {
      OneMoreStep(r, w'.sched);
      more := r + [w'.sched];
    } else if Advance(w, w') {
      if Told(w) != w.sched {
        assert GeneratorDone(w.sched, Told(w));
        OneMoreStep(r, Told(w));
        more := r + [Told(w)];
      }
      OneMoreStep(more, w'.sched);
      more := more + [w'.sched];
    }
  }

  // What the scheduler does in a run of the system is a run of the scheduler, step by step,
  // so all that is proved of those holds between any two points of it.
  lemma {:induction false} SchedulerRun(l: Workload, states: seq<World>, n: nat) returns (r: seq<Sys>, at: seq<nat>)
    requires RunOf(l, states) && n < |states|
    ensures Projects(states, n, r, at) && Run(r) && Init(r[0]) && r[0] == states[0].sched
  {
    if n == 0 {
      r, at := [states[0].sched], [0];
    } else {
      var before, steps := SchedulerRun(l, states, n - 1);
      r := SchedulerFollows(l, before, states[n - 1], states[n]);
      at := steps + [|r| - 1];
      forall k | 0 <= k < n ensures StepMatched(states[k], r, at[k], at[k + 1]) {
        if k < n - 1 { assert StepMatched(states[k], before, steps[k], steps[k + 1]); }
      }
    }
  }

  // ---------- events seen in the system ----------

  // The steps of the scheduler behind one step of the system hold the events that the step shows, and no others.
  lemma StepEvents(s: Sys, told: Sys, s': Sys, e: Event, i: int)
    requires Inv(s) && told == s.(generatorFinished := told.generatorFinished)
    ensures !Occurs(e, s, s, i) && !Occurs(e, s, told, i) && (Occurs(e, told, s', i) <==> Occurs(e, s, s', i))
  {
    PlacedOnce(s);
  }

  lemma StepHappens(s: Sys, told: Sys, s': Sys, e: Event)
    requires Inv(s) && told == s.(generatorFinished := told.generatorFinished)
    ensures !Happens(e, s, s) && !Happens(e, s, told) && (Happens(e, told, s') <==> Happens(e, s, s'))
  {
    forall i
      ensures !Occurs(e, s, s, i) && !Occurs(e, s, told, i) && (Occurs(e, told, s', i) <==> Occurs(e, s, s', i))
    {
      StepEvents(s, told, s', e, i);
    }
    if i :| Occurs(e, told, s', i) { assert Occurs(e, s, s', i); }
    if i :| Occurs(e, s, s', i) { assert Occurs(e, told, s', i); }
  }

  lemma MatchedTimes(w: World, r: seq<Sys>, i: nat, j: nat, e: Event, x: int)
    requires Inv(w.sched) && StepMatched(w, r, i, j)
    ensures Times(e, r, j, x) == Times(e, r, i, x) + if Occurs(e, r[i], r[j], x) then 1 else 0
  {
    StepEvents(r[i], Told(w), r[j], e, x);
    if j == i + 2 { assert Times(e, r, j, x) == Times(e, r, i + 1, x) + if Occurs(e, r[i + 1], r[j], x) then 1 else 0; }
  }

  lemma MatchedCount(w: World, r: seq<Sys>, i: nat, j: nat, e: Event)
    requires Inv(w.sched) && StepMatched(w, r, i, j)
    ensures Count(e, r, j) == Count(e, r, i) + if Happens(e, r[i], r[j]) then 1 else 0
  {
    StepHappens(r[i], Told(w), r[j], e);
    if j == i + 2 { assert Count(e, r, j) == Count(e, r, i + 1) + if Happens(e, r[i + 1], r[j]) then 1 else 0; }
  }

  lemma ShownAt(states: seq<World>, n: nat, r: seq<Sys>, at: seq<nat>, k: nat)
    requires n < |states| && Projects(states, n, r, at) && k <= n
    ensures at[k] < |r| && r[at[k]] == states[k].sched
  {
    if k < n { assert StepMatched(states[k], r, at[k], at[k + 1]); }
  }

  lemma SchedOk(l: Workload, states: seq<World>, k: nat)
    requires RunOf(l, states) && k < |states|
    ensures Inv(states[k].sched)
  {
    RunKeeps(l, states, k);
  }

  lemma {:induction false} TimesMatch(l: Workload, states: seq<World>, n: nat, r: seq<Sys>, at: seq<nat>, k: nat,
                                      e: Event, x: int)
    requires RunOf(l, states) && n < |states| && Projects(states, n, r, at) && k <= n && at[k] < |r|
    ensures Times(e, r, at[k], x) == Times(e, Scheds(states), k, x)
    decreases k
  {
    if k > 0 {
      ShownAt(states, n, r, at, k - 1);
      ShownAt(states, n, r, at, k);
      TimesMatch(l, states, n, r, at, k - 1, e, x);
      SchedOk(l, states, k - 1);
      MatchedTimes(states[k - 1], r, at[k - 1], at[k], e, x);
    }
  }

  lemma {:induction false} CountMatches(l: Workload, states: seq<World>, n: nat, r: seq<Sys>, at: seq<nat>, k: nat,
                                        e: Event)
    requires RunOf(l, states) && n < |states| && Projects(states, n, r, at) && k <= n && at[k] < |r|
    ensures Count(e, r, at[k]) == Count(e, Scheds(states), k)
    decreases k
  {
    if k > 0 {
      ShownAt(states, n, r, at, k - 1);
      ShownAt(states, n, r, at, k);
      CountMatches(l, states, n, r, at, k - 1, e);
      SchedOk(l, states, k - 1);
      MatchedCount(states[k - 1], r, at[k - 1], at[k], e);
    }
  }

  // ---------- what that says at the end, and on the way ----------

  // The scheduler's loop cannot exit before every process of the input file has finished.
  lemma ExitMeansDrained(l: Workload, states: seq<World>, n: nat)
    requires RunOf(l, states) && n < |states| && ExitTest(states[n].sched)
    ensures Drained(l, states[n])
  {
    RunKeeps(l, states, n);
    NobodyOutsideAtExit(l, states[n]);
  }

  lemma NobodyOutsideAtExit(l: Workload, w: World)
    requires EachInOnePlace(l, w) && TellingOk(l, w) && Placed(w.sched) && ExitTest(w.sched)
    ensures Drained(l, w) && w.sched.procs.Keys == l.jobs.Keys
  {
    var s := w.sched;
    assert PcbIds(w.waiting) == [] && PcbIds(w.kept) == [] && PcbIds(w.mail) == [];
    assert multiset(l.jobs.Keys) == multiset(s.procs.Keys) == multiset(Ids(s.finished));
    forall i ensures i in s.procs.Keys <==> i in l.jobs.Keys {
      assert multiset(s.procs.Keys)[i] == multiset(l.jobs.Keys)[i];
    }
  }

  lemma ExitProcesses(l: Workload, states: seq<World>, n: nat)
    requires RunOf(l, states) && n < |states| && ExitTest(states[n].sched)
    ensures states[n].sched.procs.Keys == l.jobs.Keys && Inv(states[n].sched)
    ensures forall i :: i in l.jobs ==> states[n].sched.procs[i].pcb.exec == l.jobs[i].exec
  {
    RunKeeps(l, states, n);
    NobodyOutsideAtExit(l, states[n]);
  }

  // When the scheduler's loop exits, active_cpu_time is the total execution time of the input file,
  // and utilisation, computed over the time since the first start, is at most one.
  lemma SystemUtilisation(l: Workload, states: seq<World>, n: nat)
    requires RunOf(l, states) && n < |states| && ExitTest(states[n].sched)
    ensures var s := states[n].sched;
            && s.activeCpu == s.executed == TotalExec(l)
            && (l.jobs != map[] ==> 0 <= s.startTime && s.activeCpu <= s.clockValue - s.startTime)
  {
    ExitProcesses(l, states, n);
    var r, at := SchedulerRun(l, states, n);
    UtilisationAtMostOne(r, |r| - 1);
    SameTotals(l, states[n].sched);
  }

  lemma SameTotals(l: Workload, s: Sys)
    requires s.procs.Keys == l.jobs.Keys && forall i :: i in l.jobs ==> s.procs[i].pcb.exec == l.jobs[i].exec
    ensures Sum(s.procs.Keys, ExecTime(s)) == TotalExec(l)
  {
    SumSame(l.jobs.Keys, ExecTime(s), i => ExecOf(l, i));
  }

  // Every record, at any point of a run, is one of a process of the input file, with its execution time. Under HPF
  // and RR the wait recorded is the one accumulated; under SRTN they differ by the events the run of the system shows.
  lemma SystemWaits(l: Workload, states: seq<World>, n: nat, q: Record)
    requires RunOf(l, states) && n < |states| && q in states[n].sched.finished
    ensures q.id in l.jobs && q.turnaround == q.wait + l.jobs[q.id].exec
    ensures !states[n].sched.policy.SRTN? ==> q.wait == Waited(states[n].sched)(q.id)
    ensures states[n].sched.policy.SRTN? ==>
              var p, waiting := Scheds(states), Waited(states[n].sched)(q.id);
              var early, late := Times(Displaces, p, n, q.id), Times(IsHandedOver, p, n, q.id);
              && q.wait - waiting == early + late - Times(IsPreempted, p, n, q.id)
              && (q.wait == waiting <==> Times(IsPreempted, p, n, q.id) == early + late)
              && early <= 1 && late <= 1
  {
    RunKeeps(l, states, n);
    var r, at := SchedulerRun(l, states, n);
    PolicyStays(r, |r| - 1);
    RecordedWait(r, |r| - 1, q);
    Counts(l, states[n], q.id);
    TimesMatch(l, states, n, r, at, n, Displaces, q.id);
    TimesMatch(l, states, n, r, at, n, IsHandedOver, q.id);
    TimesMatch(l, states, n, r, at, n, IsPreempted, q.id);
  }

  // When the loop exits under SRTN the two agree in total, up to one tick for every step of the system
  // in which a completion handler dispatched a process.
  lemma SystemTotalWaits(l: Workload, states: seq<World>, n: nat)
    requires RunOf(l, states) && n < |states| && ExitTest(states[n].sched) && states[n].sched.policy.SRTN?
    ensures TotalWait(states[n].sched.finished)
         == Sum(l.jobs.Keys, Waited(states[n].sched)) + Count(IsHandedOver, Scheds(states), n)
  {
    ExitProcesses(l, states, n);
    var r, at := SchedulerRun(l, states, n);
    PolicyStays(r, |r| - 1);
    TotalWaits(r, |r| - 1);
    CountMatches(l, states, n, r, at, n, IsHandedOver);
  }

  // At every point of a run the current process is a shortest one under SRTN, which preempts at most once
  // per job of the input file; HPF never preempts.
  lemma SystemPreemptions(l: Workload, states: seq<World>, n: nat)
    requires RunOf(l, states) && n < |states|
    ensures var s := states[n].sched;
            ShortestRuns(s) && (s.policy.SRTN? ==> s.preemptions <= |l.jobs|) && (s.policy.HPF? ==> s.preemptions == 0)
  {
    var s := states[n].sched;
    RunKeeps(l, states, n);
    var r, at := SchedulerRun(l, states, n);
    PreemptionBound(r, |r| - 1);
    forall i | i in s.procs ensures i in l.jobs { Counts(l, states[n], i); }
    Subsets(s.procs.Keys, l.jobs.Keys);
  }

  lemma {:induction false} AtAscends(states: seq<World>, n: nat, r: seq<Sys>, at: seq<nat>, k: nat, m: nat)
    requires n < |states| && Projects(states, n, r, at) && k <= m <= n
    ensures at[k] <= at[m] < |r|
    decreases m - k
  {
    ShownAt(states, n, r, at, m);
    if k < m {
      assert StepMatched(states[k], r, at[k], at[k + 1]);
      AtAscends(states, n, r, at, k + 1, m);
    }
  }

  // Between any two points of a run of the system the scheduler makes a run of its own, from the one state to the
  // other.
  lemma SchedulerRunBetween(l: Workload, states: seq<World>, m: nat, n: nat) returns (part: seq<Sys>)
    requires RunOf(l, states) && m <= n < |states|
    ensures Run(part) && Inv(part[0]) && part[0] == states[m].sched && part[|part| - 1] == states[n].sched
  {
    var r, at := SchedulerRun(l, states, n);
    AtAscends(states, n, r, at, m, n);
    ShownAt(states, n, r, at, m);
    SchedOk(l, states, m);
    part := r[at[m]..];
    forall i | 0 <= i < |part| - 1 ensures Next(part[i], part[i + 1]) {
      assert part[i] == r[at[m] + i] && part[i + 1] == r[at[m] + i + 1];
    }
  }

  // ---------- round robin, from any point of a run ----------

  // A step of the system is no step of the scheduler, or one of its steps, perhaps after SIGUSR1.
  lemma StepOfScheduler(l: Workload, w: World, w': World)
    requires Step(l, w, w')
    ensures w'.sched == w.sched || Next(w.sched, w'.sched) || Next(Told(w), w'.sched)
  {
  }

  lemma WaitingOnward(l: Workload, w: World, w': World, x: int, k: nat) returns (k': nat)
    requires Inv(w.sched) && Step(l, w, w') && w.sched.policy.RR? && At(w.sched, x, k)
    ensures w'.sched.policy.RR? && w'.sched.quantum == w.sched.quantum
    ensures w'.sched.current == Some(x)
            || (k' <= k && At(w'.sched, x, k') && RoundRobin.Deadline(w'.sched, k') <= RoundRobin.Deadline(w.sched, k))
  {
    k' := k;
    StepOfScheduler(l, w, w');
    if w'.sched != w.sched {
      if Next(w.sched, w'.sched) {
        k' := WaitingMovesUp(w.sched, w'.sched, x, k);
      } else {
        LoopVarsBase(w.sched, Told(w));
        k' := WaitingMovesUp(Told(w), w'.sched, x, k);
      }
    }
  }

  lemma {:induction false} StillInLine(l: Workload, states: seq<World>, m: nat, n: nat, x: int, k: nat)
    returns (k': nat)
    requires RunOf(l, states) && m <= n < |states| && states[m].sched.policy.RR? && At(states[m].sched, x, k)
    requires forall j :: m < j <= n ==> states[j].sched.current != Some(x)
    ensures var s := states[n].sched;
            && Inv(s) && s.policy.RR? && s.quantum == states[m].sched.quantum && k' <= k && At(s, x, k')
            && RoundRobin.Deadline(s, k') <= RoundRobin.Deadline(states[m].sched, k)
    decreases n
  {
    k' := k;
    SchedOk(l, states, n);
    if m < n {
      k' := StillInLine(l, states, m, n - 1, x, k);
      k' := WaitingOnward(l, states[n - 1], states[n], x, k');
    }
  }

  // Whenever a process of the system is at index k of the queue, it becomes current within
  // (k + 1) * (quantum + 1) ticks, whatever else happens in the system.
  lemma SystemBoundedWaiting(l: Workload, states: seq<World>, m: nat, n: nat, x: int, k: nat)
    requires RunOf(l, states) && m <= n < |states| && states[m].sched.policy.RR? && At(states[m].sched, x, k)
    requires states[n].sched.phase.AfterWork?
    requires states[n].sched.clk >= states[m].sched.clk + (k + 1) * (states[m].sched.quantum + 1)
    ensures exists j :: m < j <= n && states[j].sched.current == Some(x)
  {
    if forall j :: m < j <= n ==> states[j].sched.current != Some(x) {
      SchedOk(l, states, m);
      var k' := StillInLine(l, states, m, n, x, k);
      OverDue(states[m].sched, k, states[n].sched, k');
    }
  }

  lemma RoundsOnward(l: Workload, w: World, w': World, x: int, k: nat) returns (k': nat)
    requires Inv(w.sched) && Step(l, w, w') && w.sched.policy.RR? && At(w.sched, x, k)
    ensures w'.sched.policy.RR? && w'.sched.quantum == w.sched.quantum
    ensures w'.sched.current == Some(x)
            || (k' <= k && At(w'.sched, x, k')
                && RoundsLeft(w'.sched, k') + (if IsRound(w.sched, w'.sched) then 1 else 0) <= RoundsLeft(w.sched, k))
  {
    k' := k;
    StepOfScheduler(l, w, w');
    if w'.sched != w.sched {
      if Next(w.sched, w'.sched) {
        k' := WaitingUsesRounds(w.sched, w'.sched, x, k);
      } else {
        LoopVarsBase(w.sched, Told(w));
        k' := WaitingUsesRounds(Told(w), w'.sched, x, k);
      }
    }
  }

  lemma {:induction false} RoundsGone(l: Workload, states: seq<World>, m: nat, n: nat, x: int, k: nat) returns (k': nat)
    requires RunOf(l, states) && m <= n < |states| && states[m].sched.policy.RR? && At(states[m].sched, x, k)
    requires forall j :: m < j <= n ==> states[j].sched.current != Some(x)
    ensures var s := states[n].sched;
            && Inv(s) && s.policy.RR? && k' <= k && At(s, x, k')
            && RoundsLeft(s, k') + Rounds(Scheds(states), n) - Rounds(Scheds(states), m)
               <= RoundsLeft(states[m].sched, k)
    decreases n
  {
    k' := k;
    SchedOk(l, states, n);
    if m < n {
      k' := RoundsGone(l, states, m, n - 1, x, k);
      k' := RoundsOnward(l, states[n - 1], states[n], x, k');
    }
  }

  // And within (k + 1) * quantum steps of the system in which run_algorithm runs.
  lemma SystemBoundedRounds(l: Workload, states: seq<World>, m: nat, n: nat, x: int, k: nat)
    requires RunOf(l, states) && m <= n < |states| && states[m].sched.policy.RR? && At(states[m].sched, x, k)
    requires Rounds(Scheds(states), n) >= Rounds(Scheds(states), m) + (k + 1) * states[m].sched.quantum
    ensures exists j :: m < j <= n && states[j].sched.current == Some(x)
  {
    if forall j :: m < j <= n ==> states[j].sched.current != Some(x) {
      SchedOk(l, states, m);
      var k' := RoundsGone(l, states, m, n, x, k);
      OneMore(k, states[m].sched.quantum);
      RoundsLeftAtMost(states[m].sched, k);
      RoundsLeftPositive(states[n].sched, k');
    }
  }

  // ---------- every start leads to a drained end ----------

  lemma {:induction false} RunOfLength(l: Workload, w: World, m: nat) returns (states: seq<World>)
    requires Start(l, w)
    ensures RunOf(l, states) && states[0] == w && |states| == m + 1
  {
    if m == 0 {
      states := [w];
    } else {
      var before := RunOfLength(l, w, m - 1);
      Progress.NeverStuck(l, before);
      var last :| RunOf(l, before + [last]);
      states := before + [last];
    }
  }

  // Main result: whatever the input file and the policy, the system can run until every job has finished exactly once
  // and the scheduler's loop ends; and every run that is continued gets there.
  lemma DrainedEnd(l: Workload, w: World) returns (states: seq<World>)
    requires Start(l, w)
    ensures RunOf(l, states) && states[0] == w && Drained(l, states[|states| - 1])
  {
    TotalExecPositive(l);
    NonNegativeProduct(LastTick(l) - l.start + 2, RoundLength(l));
    states := RunOfLength(l, w, (LastTick(l) - l.start + 2) * RoundLength(l));
    EveryRunDrains(l, states);
  }
}
