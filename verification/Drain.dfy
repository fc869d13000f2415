/** Every run of the whole system drains: each job finishes exactly once and the scheduler's loop ends. */
module Drain {
  import opened Wrappers
  import opened Sums
  import opened Blocks
  import opened Processes
  import opened Admission
  import opened SchedulerModel
  import opened SchedulerInvariant
  import opened SchedulerWork
  import opened Simulation
  import opened SimulationInvariant

  // ---------- the time that may still pass ----------

  // The run steps job i still needs.
  ghost function Needs(l: Workload, w: World, i: int): int {
    if i in w.sched.procs then w.sched.procs[i].shared else if i in l.jobs then l.jobs[i].exec else 0
  }

  ghost function Remaining(l: Workload, w: World): int { Sum(l.jobs.Keys, i => Needs(l, w, i)) }

  // 1 when the coming tick may pass without a run step after the last arrival.
  function Slack(l: Workload, s: Sys): int {
    if s.phase.AfterWork? then (if s.granted then 0 else 1)
    else if s.clockValue == s.clk then 1
    else if s.current.Some? || s.clk > l.horizon then 0
    else 1
  }

  // No run can last longer than this: every run step may be followed by one idle tick, never by two.
  ghost function Deadline(l: Workload, w: World): int {
    Max(w.sched.clk, l.horizon) + 2 * Remaining(l, w) + Slack(l, w.sched)
  }

  lemma SameNeeds(l: Workload, w: World, w': World)
    requires forall i :: i in l.jobs ==> Needs(l, w, i) == Needs(l, w', i)
    ensures Remaining(l, w) == Remaining(l, w')
  {
    SumSame(l.jobs.Keys, i => Needs(l, w, i), i => Needs(l, w', i));
  }

  // A job that is not finished needs at least one more run step.
  lemma UnfinishedNeeds(l: Workload, w: World)
    requires WorldOk(l, w) && !AllFinished(l, w)
    ensures Remaining(l, w) >= 1
  {
    Roles(w.sched);
    var needs := i => Needs(l, w, i);
    var late :| late in l.jobs && late !in Done(w.sched);
    forall i | i in l.jobs ensures needs(i) >= 0 && (i !in Done(w.sched) ==> needs(i) >= 1) { NeedsWhere(l, w, i); }
    assert needs(late) >= 1;
    SumPositive(l.jobs.Keys, needs);
  }

  lemma NeedsWhere(l: Workload, w: World, i: int)
    requires WorldOk(l, w) && i in l.jobs
    ensures Needs(l, w, i) >= 0 && (i !in Done(w.sched) ==> Needs(l, w, i) >= 1)
  {
    if i in w.sched.procs {
      Roles(w.sched);
      Somewhere(w.sched, i);
    }
  }

  lemma Somewhere(s: Sys, i: int)
    requires Placed(s) && i in s.procs
    ensures i in s.ready || s.current == Some(i) || i in Ids(s.finished)
  {
    assert multiset(s.procs.Keys)[i] == multiset(s.ready)[i] + Bag(s.current)[i] + multiset(Ids(s.finished))[i];
  }

  // With nothing due, nothing ready and nothing running after the last arrival, every job is finished:
  // memory would be empty, and an empty memory would have admitted the head of the line.
  lemma IdleMeansFinished(l: Workload, w: World)
    requires WorldOk(l, w) && w.stage.Releasing? && NothingDue(l, w) && w.mail == []
    requires w.sched.clk > l.horizon && w.sched.current.None? && w.sched.ready == []
    ensures AllFinished(l, w)
  {
    forall i | i in w.arrivals ensures false { OutsideHoldsNothing(l, w, i); }
    forall i | i in w.sched.procs ensures i in Done(w.sched) { Somewhere(w.sched, i); }
    assert PcbIds(w.mail) == [] && Holders(w) == {};
    forall b | b in w.Live() ensures false {}
    assert w.Live() == map[];
    if w.waiting != [] { StuckMeansOccupied(w.Live(), l.root, w.waiting); }
    forall i | i in l.jobs ensures i in Done(w.sched) {
      Counts(l, w, i);
      assert PcbIds(w.waiting) == [] && PcbIds(w.kept) == [];
      assert i !in w.arrivals && multiset(w.sched.procs.Keys)[i] == 1;
    }
  }

  lemma GeneratorStepDeadline(l: Workload, w: World, w': World)
    requires w'.sched == w.sched
    ensures Deadline(l, w') == Deadline(l, w)
  {
    SameNeeds(l, w, w');
  }

  lemma ReceiveDeadline(l: Workload, w: World, w': World)
    requires WorldOk(l, w) && Receive(l, w, w')
    ensures Deadline(l, w') <= Deadline(l, w)
  {
    HeadIds(w.mail);
    ArriveWork(w.sched, w.mail[0], w'.sched);
    SameNeeds(l, w, w');
  }

  lemma TickDeadline(l: Workload, w: World, w': World)
    requires WorldOk(l, w) && Tick(l, w, w') && !AllFinished(l, w)
    ensures Deadline(l, w') <= Deadline(l, w)
  {
    TickWork(w.sched, w'.sched);
    SameNeeds(l, w, w');
    if w.sched.clk > l.horizon && w.sched.current.None? && w.sched.ready == [] { IdleMeansFinished(l, w); }
  }

  lemma NeedsLess(l: Workload, w: World, w': World, i: int)
    requires WorldOk(l, w) && Advance(w, w')
    ensures Needs(l, w', i) == Needs(l, w, i) - if w.sched.granted && w.sched.current == Some(i) then 1 else 0
  {
    ToldOk(w);
    PlacedOnce(w.sched);
    AdvanceWork(Told(w), w'.sched);
    if i in w.sched.procs { assert Told(w).procs[i] == w.sched.procs[i]; }
  }

  lemma AdvanceNeeds(l: Workload, w: World, w': World)
    requires WorldOk(l, w) && Advance(w, w')
    ensures Remaining(l, w') == Remaining(l, w) - if w.sched.granted then 1 else 0
  {
    var before, after := i => Needs(l, w, i), i => Needs(l, w', i);
    forall i ensures after(i) == before(i) - if w.sched.granted && w.sched.current == Some(i) then 1 else 0 {
      NeedsLess(l, w, w', i);
    }
    if w.sched.granted {
      CurrentIsJob(l, w);
      SumUpdate(l.jobs.Keys, before, after, w.sched.current.value);
    } else {
      SumSame(l.jobs.Keys, before, after);
    }
  }

  lemma CurrentIsJob(l: Workload, w: World)
    requires WorldOk(l, w) && w.sched.current.Some?
    ensures w.sched.current.value in w.sched.procs && w.sched.current.value in l.jobs
  {
    PlacedOnce(w.sched);
    Counts(l, w, w.sched.current.value);
    assert multiset(w.sched.procs.Keys)[w.sched.current.value] == 1;
  }

  lemma AdvanceDeadline(l: Workload, w: World, w': World)
    requires WorldOk(l, w) && Advance(w, w')
    ensures Deadline(l, w') <= Deadline(l, w)
  {
    ToldOk(w);
    AdvanceWork(Told(w), w'.sched);
    AdvanceNeeds(l, w, w');
    AdvanceSlack(l, Told(w), w'.sched);
  }

  // An idle tick is never followed by another one after the last arrival.
  lemma AdvanceSlack(l: Workload, s: Sys, s': Sys)
    requires Inv(s) && RunTick(s, s')
    ensures !s.granted && s'.clk > l.horizon ==> Slack(l, s') == 0
  {
    AdvanceWork(s, s');
  }

  lemma StepDeadline(l: Workload, w: World, w': World)
    requires WorldOk(l, w) && Step(l, w, w') && !AllFinished(l, w)
    ensures Deadline(l, w') <= Deadline(l, w)
  {
    if Receive(l, w, w') {
      ReceiveDeadline(l, w, w');
    } else if Tick(l, w, w') {
      TickDeadline(l, w, w');
    } else if Advance(w, w') {
      AdvanceDeadline(l, w, w');
    } else {
      GeneratorStepDeadline(l, w, w');
    }
  }

  // ---------- no job is unfinished after the deadline ----------

  function ExecOf(l: Workload, i: int): int { if i in l.jobs then l.jobs[i].exec else 0 }

  ghost function TotalExec(l: Workload): int { Sum(l.jobs.Keys, i => ExecOf(l, i)) }

  lemma TotalExecPositive(l: Workload)
    requires GoodLoad(l)
    ensures TotalExec(l) >= 0
  {
    var exec := i => ExecOf(l, i);
    forall i | i in l.jobs ensures exec(i) >= 0 { assert l.jobs[i].exec >= 1; }
    SumPositive(l.jobs.Keys, exec);
  }

  // The last arrival, and then two ticks for every run step.
  ghost function LastTick(l: Workload): int { Max(l.start, l.horizon) + 2 * TotalExec(l) }

  ghost predicate Drained(l: Workload, w: World) {
    multiset(Ids(w.sched.finished)) == multiset(l.jobs.Keys) && ExitTest(w.sched)
  }

  lemma FinishedStays(l: Workload, w: World, w': World)
    requires WorldOk(l, w) && Step(l, w, w') && AllFinished(l, w)
    ensures AllFinished(l, w')
  {
    if Receive(l, w, w') {
      ArriveWork(w.sched, w.mail[0], w'.sched);
    } else if Tick(l, w, w') {
      TickWork(w.sched, w'.sched);
    } else if Advance(w, w') {
      ToldOk(w);
      FinishedGrows(Told(w), w'.sched);
    }
  }

  lemma StartDeadline(l: Workload, w: World)
    requires Start(l, w)
    ensures Deadline(l, w) <= LastTick(l) + 1
  {
    SumSame(l.jobs.Keys, i => Needs(l, w, i), i => ExecOf(l, i));
  }

  lemma {:induction false} RunDeadline(l: Workload, states: seq<World>, n: nat)
    requires RunOf(l, states) && n < |states| && !AllFinished(l, states[n])
    ensures Deadline(l, states[n]) <= LastTick(l) + 1
  {
    if n == 0 {
      StartDeadline(l, states[0]);
    } else {
      RunKeeps(l, states, n - 1);
      if AllFinished(l, states[n - 1]) { FinishedStays(l, states[n - 1], states[n]); }
      RunDeadline(l, states, n - 1);
      StepDeadline(l, states[n - 1], states[n]);
    }
  }

  lemma NothingToRun(s: Sys)
    requires Placed(s) && forall i :: i in s.procs ==> i in Ids(s.finished)
    ensures s.ready == [] && s.current.None? && multiset(Ids(s.finished)) == multiset(s.procs.Keys)
  {
    forall i ensures multiset(s.ready)[i] == 0 && Bag(s.current)[i] == 0 {
      assert multiset(s.procs.Keys)[i] == multiset(s.ready)[i] + Bag(s.current)[i] + multiset(Ids(s.finished))[i];
      assert i in s.procs ==> multiset(Ids(s.finished))[i] > 0;
    }
    assert multiset(s.ready) == multiset{} == Bag(s.current);
    assert |s.ready| == |multiset(s.ready)|;
    assert s.current.Some? ==> Bag(s.current)[s.current.value] == 1;
  }

  // Whoever is finished is finished once, and then the loop's exit test passes.
  lemma FinishedMeansDrained(l: Workload, w: World)
    requires WorldOk(l, w) && AllFinished(l, w) && w.sched.clk > l.start
    ensures Drained(l, w)
  {
    var s := w.sched;
    DoneAreKnown(s);
    NobodyOutside(l, w);
    assert PcbIds(w.waiting) == [] && PcbIds(w.kept) == [] && PcbIds(w.mail) == [];
    assert multiset(s.procs.Keys) == multiset(l.jobs.Keys);
    forall i | i in s.procs ensures i in Ids(s.finished) { Counts(l, w, i); }
    NothingToRun(s);
  }

  // Main result, by the clock: past the deadline every run has drained.
  lemma DrainedByDeadline(l: Workload, states: seq<World>, n: nat)
    requires RunOf(l, states) && n < |states| && states[n].sched.clk > LastTick(l)
    ensures Drained(l, states[n])
  {
    var w := states[n];
    RunKeeps(l, states, n);
    TotalExecPositive(l);
    if !AllFinished(l, w) {
      RunDeadline(l, states, n);
      UnfinishedNeeds(l, w);
    }
    FinishedMeansDrained(l, w);
  }

  // ---------- the clock cannot stand still ----------

  // The steps that may still be made before the clock moves.
  function Todo(w: World): int {
    match w.stage
    case Serving => 3 + |w.exited| + 2 * |w.waiting| + 2 * |w.arrivals| + |w.mail|
    case Releasing => 2 + 2 * |w.arrivals| + |w.mail|
    case Working => 1
  }

  function RoundLength(l: Workload): int { 2 * |l.jobs| + 4 }

  lemma TodoBound(l: Workload, w: World)
    requires WorldOk(l, w)
    ensures 1 <= Todo(w) < RoundLength(l)
  {
    assert |multiset(l.jobs.Keys)|
        == |multiset(w.arrivals)| + |multiset(PcbIds(w.waiting))| + |multiset(PcbIds(w.kept))|
           + |multiset(PcbIds(w.mail))| + |multiset(w.sched.procs.Keys)|;
    DoneAreKnown(w.sched);
    Subsets(w.exited, w.sched.procs.Keys);
  }

  lemma {:induction false} Subsets(a: set<int>, b: set<int>)
    requires a <= b
    ensures |a| <= |b|
  {
    assert b == a + (b - a) && a !! (b - a);
  }

  lemma OfferLength(root: Blk, d: Desk, p: Pcb, pid: int)
    ensures |Offer(root, d, p, pid).sent| <= |d.sent| + 1
  {
  }

  lemma ServeTodo(l: Workload, w: World, w': World)
    requires ServeOne(l, w, w')
    ensures Todo(w') < Todo(w)
  {
    OfferLength(l.root, Desk(w.cells, w.mail, w.kept), w.waiting[0], l.fork(w.waiting[0].id));
  }

  lemma ReleaseTodo(l: Workload, w: World, i: int, w': World)
    requires Release(l, w, i, w')
    ensures Todo(w') < Todo(w)
  {
    OfferLength(l.root, Desk(w.cells, w.mail, w.waiting), NewPcb(l.jobs[i]), l.fork(i));
    assert |w'.arrivals| == |w.arrivals| - 1;
  }

  lemma ReapTodo(l: Workload, w: World, i: int, w': World)
    requires Reap(l, w, i, w')
    ensures Todo(w') < Todo(w)
  {
    assert |w'.exited| == |w.exited| - 1;
  }

  lemma GeneratorTodo(l: Workload, w: World, w': World)
    requires (exists i :: Reap(l, w, i, w')) || ServeOne(l, w, w') || LineUpAgain(l, w, w')
             || (exists i :: Release(l, w, i, w'))
    ensures Todo(w') < Todo(w)
  {
    if i :| Reap(l, w, i, w') {
      ReapTodo(l, w, i, w');
    } else if ServeOne(l, w, w') {
      ServeTodo(l, w, w');
    } else if LineUpAgain(l, w, w') {
    } else {
      var i :| Release(l, w, i, w');
      ReleaseTodo(l, w, i, w');
    }
  }

  lemma StepTodo(l: Workload, w: World, w': World)
    requires Step(l, w, w') && !w.stage.Working?
    ensures Todo(w') < Todo(w)
  {
    if !Receive(l, w, w') && !Tick(l, w, w') { GeneratorTodo(l, w, w'); }
  }

  lemma StepClock(l: Workload, w: World, w': World)
    requires WorldOk(l, w) && Step(l, w, w')
    ensures w'.sched.clk == w.sched.clk + if w.stage.Working? then 1 else 0
  {
    if Receive(l, w, w') {
      ArriveWork(w.sched, w.mail[0], w'.sched);
    } else if Tick(l, w, w') {
      TickWork(w.sched, w'.sched);
    } else if Advance(w, w') {
      ToldOk(w);
      AdvanceWork(Told(w), w'.sched);
    }
  }

  lemma TodoInRun(l: Workload, states: seq<World>, n: nat)
    requires RunOf(l, states) && n < |states|
    ensures 1 <= Todo(states[n]) < RoundLength(l)
  {
    RunKeeps(l, states, n);
    TodoBound(l, states[n]);
  }

  lemma StepInRun(l: Workload, states: seq<World>, n: nat)
    requires RunOf(l, states) && n + 1 < |states|
    ensures states[n + 1].sched.clk == states[n].sched.clk + if states[n].stage.Working? then 1 else 0
    ensures !states[n].stage.Working? ==> Todo(states[n + 1]) < Todo(states[n])
  {
    RunKeeps(l, states, n);
    StepClock(l, states[n], states[n + 1]);
    if !states[n].stage.Working? { StepTodo(l, states[n], states[n + 1]); }
  }

  // The steps that can have been made by now.
  function Budget(l: Workload, w: World): int { (w.sched.clk - l.start + 1) * RoundLength(l) - Todo(w) }

  lemma BudgetGrows(l: Workload, states: seq<World>, n: nat)
    requires RunOf(l, states) && n + 1 < |states|
    ensures Budget(l, states[n]) < Budget(l, states[n + 1])
  {
    TodoInRun(l, states, n);
    TodoInRun(l, states, n + 1);
    StepInRun(l, states, n);
    BudgetStep(l, states[n], states[n + 1]);
  }

  lemma BudgetStep(l: Workload, w: World, w': World)
    requires 1 <= Todo(w) < RoundLength(l) && 1 <= Todo(w') < RoundLength(l)
    requires w'.sched.clk == w.sched.clk + if w.stage.Working? then 1 else 0
    requires !w.stage.Working? ==> Todo(w') < Todo(w)
    ensures Budget(l, w) < Budget(l, w')
  {
    var a, k := w.sched.clk - l.start + 1, RoundLength(l);
    assert (a + 1) * k == a * k + k;
  }

  lemma {:induction false} ClockMoves(l: Workload, states: seq<World>, n: nat)
    requires RunOf(l, states) && n < |states|
    ensures n <= Budget(l, states[n])
  {
    if n == 0 {
      TodoInRun(l, states, 0);
    } else {
      ClockMoves(l, states, n - 1);
      BudgetGrows(l, states, n - 1);
    }
  }

  lemma Fewer(n: int, a: int, b: int, k: int, todo: int)
    requires n <= b * k - todo && n >= a * k && todo > 0 && k > 0
    ensures a < b
  {
    assert a >= b ==> (a - b) * k >= 0;
  }

  // Main result, by the steps: every run that is long enough has drained.
  lemma EveryRunDrains(l: Workload, states: seq<World>)
    requires RunOf(l, states)
    requires |states| > (LastTick(l) - l.start + 2) * RoundLength(l)
    ensures Drained(l, states[|states| - 1])
  {
    var n := |states| - 1;
    TodoInRun(l, states, n);
    ClockMoves(l, states, n);
    Fewer(n, LastTick(l) - l.start + 2, states[n].sched.clk - l.start + 1, RoundLength(l), Todo(states[n]));
    DrainedByDeadline(l, states, n);
  }
}
