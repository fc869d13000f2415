/** The generator and the scheduler as objects, run together tick by tick: the program itself, on its own data
    structures, goes through the states of the system machine and ends. */
module System {
  import opened Wrappers
  import opened Blocks
  import opened Processes
  import opened BlockCells
  import opened CellRuns
  import opened Admission
  import opened BuddyAllocator
  import opened ReadyHeap
  import opened ProcessGenerator
  import opened SchedulerModel
  import opened SchedulerInvariant
  import opened SchedulerWork
  import opened Simulation
  import opened SimulationInvariant
  import opened SimulationLoops
  import opened Drain
  import opened SystemRuns
  import S = Scheduler

  // What the program's own limits ask of the input file.
  ghost predicate Fits(l: Workload) { l.root.Size() <= MAX_REQUEST && |l.jobs| < MAX_PROCESSES }

  // ---------- what the machine's invariant gives the methods ----------

  lemma {:induction false} PathKeeps(l: Workload, states: seq<World>, a: World, b: World)
    requires Path(l, states, a, b) && WorldOk(l, a)
    ensures WorldOk(l, b)
    decreases |states|
  {
    if |states| > 1 {
      var rest := states[1..];
      assert Step(l, states[0], states[1]);
      StepKeeps(l, states[0], states[1]);
      forall n | 0 <= n < |rest| - 1 ensures Step(l, rest[n], rest[n + 1]) {
        assert rest[n] == states[n + 1] && rest[n + 1] == states[n + 2];
      }
      PathKeeps(l, rest, rest[0], b);
    }
  }

  // A job that is still to arrive or waits may be asked for.
  lemma OutsideIsAdmissible(l: Workload, w: World, i: int)
    requires WorldOk(l, w) && Fits(l) && (i in w.arrivals || i in PcbIds(w.waiting))
    ensures i in l.jobs && Admissible(w.Live(), NewPcb(l.jobs[i]), l.fork)
  {
    OutsideHoldsNothing(l, w, i);
    forall b | b in w.Live() ensures w.Live()[b].id != i && w.Live()[b].pid != l.fork(i) {
      assert w.Live()[b].id in Holders(w);
    }
  }

  lemma DistinctInLine(l: Workload, w: World, i: nat, j: nat)
    requires WorldOk(l, w) && i < j < |w.waiting|
    ensures w.waiting[i].id != w.waiting[j].id
  {
    var ids := PcbIds(w.waiting);
    if ids[i] == ids[j] {
      Counts(l, w, ids[i]);
      Twice(ids, i, j);
    }
  }

  lemma Twice<T>(s: seq<T>, i: nat, j: nat)
    requires i < j < |s| && s[i] == s[j]
    ensures multiset(s)[s[i]] >= 2
  {
    assert s == s[..j] + [s[j]] + s[j + 1..];
    assert s[..j][i] == s[i];
    assert multiset(s[..j])[s[i]] >= 1;
  }

  lemma LineIsAdmissible(l: Workload, w: World)
    requires WorldOk(l, w) && Fits(l)
    ensures AllAdmissible(w.Live(), w.waiting, l.fork)
  {
    forall p | p in w.waiting ensures Admissible(w.Live(), p, l.fork) {
      var k :| 0 <= k < |w.waiting| && w.waiting[k] == p;
      assert PcbIds(w.waiting)[k] == p.id;
      OutsideIsAdmissible(l, w, p.id);
    }
    forall i, j | 0 <= i < j < |w.waiting| ensures w.waiting[i].id != w.waiting[j].id { DistinctInLine(l, w, i, j); }
  }

  // The jobs still to arrive.
  ghost function JobsOf(l: Workload, ids: set<int>): set<Job> { set i | i in ids && i in l.jobs :: l.jobs[i] }

  lemma ArrivalsAreReleasable(l: Workload, w: World)
    requires WorldOk(l, w) && Fits(l)
    ensures Releasable(w.Live(), multiset(JobsOf(l, w.arrivals)), l.fork)
  {
    forall j | j in multiset(JobsOf(l, w.arrivals)) ensures Admissible(w.Live(), NewPcb(j), l.fork) {
      assert j in JobsOf(l, w.arrivals);
      OutsideIsAdmissible(l, w, j.id);
    }
  }

  // What is taken from the arrival heap are jobs of the input file, and the others stay.
  lemma ReleasedJobs(l: Workload, ids: set<int>, released: seq<Job>, left: multiset<Job>)
    requires GoodLoad(l) && multiset(JobsOf(l, ids)) == multiset(released) + left
    ensures forall i :: 0 <= i < |released| ==>
              released[i].id in ids && released[i].id in l.jobs && l.jobs[released[i].id] == released[i]
    ensures forall i, j :: 0 <= i < j < |released| ==> released[i].id != released[j].id
    ensures left == multiset(JobsOf(l, ids - JobIds(released)))
  {
    var all := JobsOf(l, ids);
    forall i | 0 <= i < |released|
      ensures released[i].id in ids && released[i].id in l.jobs && l.jobs[released[i].id] == released[i]
    {
      assert multiset(all)[released[i]] == multiset(released)[released[i]] + left[released[i]] >= 1;
    }
    forall i, j | 0 <= i < j < |released| ensures released[i].id != released[j].id {
      assert multiset(all)[released[i]] == multiset(released)[released[i]] + left[released[i]];
      if released[i].id == released[j].id { Twice(released, i, j); }
    }
    forall j ensures left[j] == multiset(JobsOf(l, ids - JobIds(released)))[j] {
      LeftJob(l, ids, released, left, j);
    }
  }

  lemma LeftJob(l: Workload, ids: set<int>, released: seq<Job>, left: multiset<Job>, j: Job)
    requires GoodLoad(l) && multiset(JobsOf(l, ids)) == multiset(released) + left
    requires forall i :: 0 <= i < |released| ==>
               released[i].id in ids && released[i].id in l.jobs && l.jobs[released[i].id] == released[i]
    ensures left[j] == multiset(JobsOf(l, ids - JobIds(released)))[j]
  {
    var all := JobsOf(l, ids);
    assert multiset(all)[j] == if j in all then 1 else 0;
    assert multiset(all)[j] == multiset(released)[j] + left[j];
    if j in all {
      assert j.id in ids && j.id in l.jobs && l.jobs[j.id] == j;
      if j in released { assert multiset(released)[j] >= 1; }
      assert j.id in JobIds(released) <==> j in released;
    }
    assert j in JobsOf(l, ids - JobIds(released)) <==> j in all && j !in released;
  }

  // The messages sent may be received.
  lemma MailIsReady(l: Workload, b: World)
    requires WorldOk(l, b) && Fits(l) && b.stage.Releasing?
    ensures S.ReadyFor(b.sched, b.mail)
  {
    forall i | 0 <= i < |b.mail| ensures b.mail[i].exec >= 1 && b.mail[i].id !in b.sched.procs {
      assert PcbIds(b.mail)[i] == b.mail[i].id;
      Counts(l, b, b.mail[i].id);
      assert multiset(PcbIds(b.mail))[b.mail[i].id] >= 1;
      assert b.mail[i].id in b.sched.procs ==> multiset(b.sched.procs.Keys)[b.mail[i].id] == 1;
    }
    forall i, j | 0 <= i < j < |b.mail| ensures b.mail[i].id != b.mail[j].id {
      var ids := PcbIds(b.mail);
      if ids[i] == ids[j] {
        Counts(l, b, ids[i]);
        Twice(ids, i, j);
      }
    }
    FewReady(l, b);
  }

  // No more processes are ready or on their way than there are jobs.
  lemma FewReady(l: Workload, b: World)
    requires EachInOnePlace(l, b) && Placed(b.sched)
    ensures |b.sched.ready| + |b.mail| <= |l.jobs|
  {
    PlacedOnce(b.sched);
    assert |multiset(l.jobs.Keys)|
        == |multiset(b.arrivals)| + |multiset(PcbIds(b.waiting))| + |multiset(PcbIds(b.kept))|
           + |multiset(PcbIds(b.mail))| + |multiset(b.sched.procs.Keys)|;
    assert |multiset(PcbIds(b.mail))| == |b.mail| && |multiset(b.sched.procs.Keys)| == |b.sched.procs|;
  }

  // ---------- the generator's turn ----------

  // The generator's objects hold this desk, and the jobs still to arrive.
  ghost predicate Holds(g: Generator, root: Blk, fork: int -> int, d: Desk, arrivals: set<Job>)
    reads g, g.memory, g.memory.repr, g.waiting, g.waiting.data, g.arrivals, g.arrivals.data
  {
    && g.Valid() && g.arrivals.Valid() && g.arrivals.sortMode.SORT_BY_ARRIVAL_TIME?
    && g.memory.tree.top == root && g.fork == fork && g.State() == d
    && multiset(g.arrivals.Contents()) == multiset(arrivals)
  }

  // They show the generator's part of w.
  ghost predicate GeneratorShows(g: Generator, l: Workload, w: World)
    reads g, g.memory, g.memory.repr, g.waiting, g.waiting.data, g.arrivals, g.arrivals.data
  {
    Holds(g, l.root, l.fork, Desk(w.cells, w.mail, w.waiting), JobsOf(l, w.arrivals))
  }

  // What the generator's turn needs.
  lemma GeneratorMayStart(l: Workload, w: World)
    requires WorldOk(l, w) && Fits(l) && w.stage.Serving? && w.exited == {} && w.kept == []
    ensures AllAdmissible(w.Live(), w.waiting, l.fork)
    ensures Releasable(Served(l, w).Live(), multiset(JobsOf(l, w.arrivals)), l.fork)
  {
    LineIsAdmissible(l, w);
    var states := ServingIsAPath(l, w);
    PathKeeps(l, states, w, Served(l, w));
    ArrivalsAreReleasable(l, Served(l, w));
  }

  lemma DueReleased(l: Workload, a: World, released: seq<Job>, rest: seq<Job>)
    requires GoodLoad(l) && multiset(JobsOf(l, a.arrivals)) == multiset(released) + multiset(rest)
    requires SortedByArrival(released) && forall j :: j in released ==> j.arrival <= a.sched.clk
    requires forall j :: j in rest ==> j.arrival > a.sched.clk
    ensures DueJobs(l, a, released) && multiset(rest) == multiset(JobsOf(l, a.arrivals - JobIds(released)))
  {
    ReleasedJobs(l, a.arrivals, released, multiset(rest));
    forall k | k in a.arrivals && k in l.jobs && k !in JobIds(released) ensures l.jobs[k].arrival > a.sched.clk {
      assert l.jobs[k] in JobsOf(l, a.arrivals - JobIds(released));
      assert multiset(rest)[l.jobs[k]] == 1;
    }
  }

  // serve_waiting_queue.
  method Serve(g: Generator, ghost others: set<object>, ghost l: Workload, ghost w: World)
    requires GeneratorShows(g, l, w) && AllAdmissible(w.Live(), w.waiting, l.fork) && g.Footprint() !! others
    modifies g.Footprint()
    ensures GeneratorShows(g, l, Served(l, w))
    ensures g.OnlyNew() && g.Footprint() !! others && forall o :: o in others ==> unchanged(o)
  {
    g.ServeWaitingQueue();
    assert g.arrivals.Contents() == old(g.arrivals.Contents());
  }

  lemma ReleaseShown(l: Workload, a: World, released: seq<Job>, rest: seq<Job>, d: Desk)
    requires GoodLoad(l) && multiset(JobsOf(l, a.arrivals)) == multiset(released) + multiset(rest)
    requires SortedByArrival(released) && forall j :: j in released ==> j.arrival <= a.sched.clk
    requires forall j :: j in rest ==> j.arrival > a.sched.clk
    requires d == OfferAll(l.root, Desk(a.cells, a.mail, a.waiting), NewPcbs(released), l.fork)
    ensures var b := ReleasedUpTo(l, a, released, |released|);
            && DueJobs(l, a, released) && multiset(rest) == multiset(JobsOf(l, b.arrivals))
            && b.cells == d.cells && b.mail == d.sent && b.waiting == d.left
  {
    assert released[..|released|] == released;
    DueReleased(l, a, released, rest);
  }

  // The release loop of main.
  method Release(g: Generator, now: int, ghost others: set<object>, ghost l: Workload, ghost a: World)
    returns (ghost released: seq<Job>)
    requires GeneratorShows(g, l, a) && GoodLoad(l) && now == a.sched.clk && g.Footprint() !! others
    requires Releasable(a.Live(), multiset(JobsOf(l, a.arrivals)), l.fork)
    modifies g.Footprint()
    ensures DueJobs(l, a, released) && GeneratorShows(g, l, ReleasedUpTo(l, a, released, |released|))
    ensures g.OnlyNew() && g.Footprint() !! others && forall o :: o in others ==> unchanged(o)
  {
    released := g.ReleaseArrivals(now);
    ReleaseShown(l, a, released, g.arrivals.Contents(), g.State());
  }

  // What the generator does in one tick.
  method Generate(g: Generator, now: int, ghost others: set<object>, ghost l: Workload, ghost w: World)
    returns (ghost released: seq<Job>)
    requires GeneratorShows(g, l, w) && GoodLoad(l) && now == w.sched.clk && g.Footprint() !! others
    requires AllAdmissible(w.Live(), w.waiting, l.fork)
    requires Releasable(Served(l, w).Live(), multiset(JobsOf(l, w.arrivals)), l.fork)
    modifies g.Footprint()
    ensures DueJobs(l, w, released) && GeneratorShows(g, l, Generated(l, w, released))
    ensures g.OnlyNew() && g.Footprint() !! others && forall o :: o in others ==> unchanged(o)
  {
    Serve(g, others, l, w);
    released := Release(g, now, others, l, Served(l, w));
  }

  // ---------- the scheduler's turn ----------

  // Receiving these messages leaves room in the ready heap.
  ghost predicate RoomFor(s: Sys, messages: seq<Pcb>) {
    forall trace: seq<Sys> :: Received(s, messages, trace) ==>
      var t := trace[|messages|]; |t.ready| < MAX_PROCESSES && Inv(t) && t.phase.BeforeWork?
  }

  // What the scheduler's turn needs.
  lemma SchedulerMayGoOn(l: Workload, w: World, released: seq<Job>)
    requires WorldOk(l, w) && Fits(l) && w.stage.Serving? && w.exited == {} && w.kept == [] && DueJobs(l, w, released)
    ensures var b := Generated(l, w, released); S.ReadyFor(b.sched, b.mail) && RoomFor(b.sched, b.mail)
  {
    var b := Generated(l, w, released);
    var states := GeneratorPath(l, w, released);
    PathKeeps(l, states, w, b);
    MailIsReady(l, b);
    forall trace: seq<Sys> | Received(b.sched, b.mail, trace)
      ensures var t := trace[|b.mail|]; |t.ready| < MAX_PROCESSES && Inv(t) && t.phase.BeforeWork?
    {
      RoomAfter(l, b, trace);
    }
  }

  lemma RoomAfter(l: Workload, b: World, trace: seq<Sys>)
    requires WorldOk(l, b) && Fits(l) && b.stage.Releasing? && NothingDue(l, b) && Received(b.sched, b.mail, trace)
    ensures |trace[|b.mail|].ready| < MAX_PROCESSES && Inv(trace[|b.mail|]) && trace[|b.mail|].phase.BeforeWork?
    ensures trace[|b.mail|].clk == b.sched.clk
  {
    var states := ReceivePath(l, b, trace, |b.mail|);
    var c := b.(mail := b.mail[|b.mail|..], sched := trace[|b.mail|]);
    PathKeeps(l, states, b, c);
    FewReady(l, c);
  }

  // The scheduler's methods, beside others whose storage they do not touch.
  method ReceiveBeside(s: S.Scheduler, messages: seq<Pcb>, ghost others: set<object>) returns (ghost trace: seq<Sys>)
    requires s.Valid() && S.ReadyFor(s.sys, messages) && s.Footprint() !! others
    modifies s.Footprint()
    ensures s.Valid() && Received(old(s.sys), messages, trace) && trace[|messages|] == s.sys
    ensures s.OnlyNew() && s.Footprint() !! others && forall o :: o in others ==> unchanged(o)
  {
    trace := s.ReceiveNewProcess(messages);
  }

  method TickBeside(s: S.Scheduler, ghost others: set<object>)
    requires s.Valid() && s.Room() && Inv(s.sys) && s.sys.phase.BeforeWork? && s.Footprint() !! others
    modifies s.Footprint()
    ensures s.Valid() && SchedTick(old(s.sys), s.sys)
    ensures s.OnlyNew() && s.Footprint() !! others && forall o :: o in others ==> unchanged(o)
  {
    s.Tick();
  }

  // receive_new_process and the tick's work.
  method Schedule(s: S.Scheduler, messages: seq<Pcb>, ghost others: set<object>) returns (ghost trace: seq<Sys>)
    requires s.Valid() && S.ReadyFor(s.sys, messages) && RoomFor(s.sys, messages) && s.Footprint() !! others
    modifies s.Footprint()
    ensures s.Valid() && Received(old(s.sys), messages, trace) && SchedTick(trace[|messages|], s.sys)
    ensures s.OnlyNew() && s.Footprint() !! others && forall o :: o in others ==> unchanged(o)
  {
    trace := ReceiveBeside(s, messages, others);
    TickBeside(s, others);
  }

  // The process that completed, if any, is the one whose exit becomes pending.
  ghost predicate Completed(before: Sys, after: Sys, completed: Option<int>) {
    Done(after) - Done(before) == match completed case None => {} case Some(i) => {i}
  }

  lemma CompletionSeen(before: Sys, after: Sys)
    requires Inv(before) && SchedulerModel.RunTick(before, after)
    ensures |after.finished| == |before.finished| ==> Completed(before, after, None)
    ensures |after.finished| != |before.finished| ==> before.current.Some? && Completed(before, after, before.current)
  {
    FinishedGrows(before, after);
    AdvanceWork(before, after);
    PlacedOnce(before);
  }

  // The globals show who is current and how many have finished.
  lemma ShownByGlobals(s: S.Scheduler)
    requires s.Valid()
    ensures |s.turnaroundTimes| == |s.waitTimes| == |s.sys.finished| && s.activeCpuTime == s.sys.activeCpu
    ensures s.sys.current == if s.current == null then None else Some(s.current.pcb.id)
  {
  }

  method AdvanceBeside(s: S.Scheduler, ghost others: set<object>)
    requires s.Valid() && s.Room() && Inv(s.sys) && s.sys.phase.AfterWork? && s.Footprint() !! others
    modifies s.Footprint()
    ensures s.Valid() && SchedulerModel.RunTick(old(s.sys), s.sys)
    ensures s.OnlyNew() && s.Footprint() !! others && forall o :: o in others ==> unchanged(o)
  {
    s.Advance();
  }

  // One tick of the clock; reports the process that completed.
  method RunOneTick(s: S.Scheduler, ghost others: set<object>) returns (completed: Option<int>)
    requires s.Valid() && s.Room() && Inv(s.sys) && s.sys.phase.AfterWork? && s.Footprint() !! others
    modifies s.Footprint()
    ensures s.Valid() && s.OnlyNew() && s.Footprint() !! others && forall o :: o in others ==> unchanged(o)
    ensures SchedulerModel.RunTick(old(s.sys), s.sys) && Completed(old(s.sys), s.sys, completed)
  {
    ShownByGlobals(s);
    ghost var before := s.sys;
    var finished, running := |s.turnaroundTimes|, None;
    if s.current != null { running := Some(s.current.pcb.id); }
    AdvanceBeside(s, others);
    ShownByGlobals(s);
    CompletionSeen(before, s.sys);
    completed := if |s.turnaroundTimes| == finished then None else running;
  }

  ghost function AfterTick(c: World, s: Sys, completed: Option<int>): World {
    c.(stage := Serving, sched := s, exited := match completed case None => {} case Some(i) => {i})
  }

  // What the machine is when the tick's work is done.
  ghost function Scheduled(l: Workload, w: World, released: seq<Job>, s: Sys): World {
    Generated(l, w, released).(stage := Working, mail := [], sched := s)
  }

  lemma ArrivalsAreJobs(l: Workload, w: World)
    requires WorldOk(l, w)
    ensures w.arrivals <= l.jobs.Keys
  {
    forall i | i in w.arrivals ensures i in l.jobs { OutsideHoldsNothing(l, w, i); }
  }

  // What the end of the tick needs.
  lemma TickMayEnd(l: Workload, w: World, released: seq<Job>, trace: seq<Sys>, s: Sys)
    requires WorldOk(l, w) && Fits(l) && w.stage.Serving? && w.exited == {} && w.kept == [] && DueJobs(l, w, released)
    requires var b := Generated(l, w, released); Received(w.sched, b.mail, trace) && SchedTick(trace[|b.mail|], s)
    ensures var c := Scheduled(l, w, released, s);
            && WorldOk(l, c) && Inv(Told(c)) && Told(c).phase.AfterWork? && |c.sched.ready| < MAX_PROCESSES
            && c.arrivals <= l.jobs.Keys
  {
    var c := Scheduled(l, w, released, s);
    var states := TickIsAPath(l, w, released, trace, s);
    PathKeeps(l, states, w, c);
    ToldOk(c);
    FewReady(l, c);
    ArrivalsAreJobs(l, c);
  }

  // The clock stands still during the tick's work.
  lemma WorkIsTimeless(l: Workload, w: World, released: seq<Job>, trace: seq<Sys>, s: Sys)
    requires WorldOk(l, w) && Fits(l) && w.stage.Serving? && w.exited == {} && w.kept == [] && DueJobs(l, w, released)
    requires var b := Generated(l, w, released); Received(w.sched, b.mail, trace) && SchedTick(trace[|b.mail|], s)
    ensures s.clk == w.sched.clk
  {
    var b := Generated(l, w, released);
    var states := GeneratorPath(l, w, released);
    PathKeeps(l, states, w, b);
    RoomAfter(l, b, trace);
    TickWork(trace[|b.mail|], s);
  }

  // The whole tick is a path of the machine.
  lemma TickMade(l: Workload, w: World, released: seq<Job>, trace: seq<Sys>, s: Sys, s': Sys, completed: Option<int>)
    returns (states: seq<World>)
    requires WorldOk(l, w) && Fits(l) && w.stage.Serving? && w.exited == {} && w.kept == [] && DueJobs(l, w, released)
    requires var b := Generated(l, w, released); Received(w.sched, b.mail, trace) && SchedTick(trace[|b.mail|], s)
    requires var c := Scheduled(l, w, released, s);
             SchedulerModel.RunTick(Told(c), s') && Completed(Told(c), s', completed)
    ensures Path(l, states, w, AfterTick(Scheduled(l, w, released, s), s', completed))
  {
    var c := Scheduled(l, w, released, s);
    TickMayEnd(l, w, released, trace, s);
    states := TickIsAPath(l, w, released, trace, s);
    TickEnds(l, c, s', completed);
    Extended(l, states, w, c, AfterTick(c, s', completed));
    states := states + [AfterTick(c, s', completed)];
  }

  lemma TickEnds(l: Workload, c: World, s: Sys, completed: Option<int>)
    requires WorldOk(l, c) && c.stage.Working? && SchedulerModel.RunTick(Told(c), s) && Completed(Told(c), s, completed)
    ensures Simulation.Advance(c, AfterTick(c, s, completed))
  {
  }

  method TellBeside(s: S.Scheduler, ghost others: set<object>)
    requires s.Valid() && s.Footprint() !! others
    modifies s.Footprint()
    ensures s.Valid() && s.sys == old(s.sys).(generatorFinished := true)
    ensures s.OnlyNew() && s.Footprint() !! others && forall o :: o in others ==> unchanged(o)
  {
    s.GeneratorFinished();
  }

  // SIGUSR1, if nothing is left to send, and one tick of the clock.
  method FinishTick(s: S.Scheduler, told: bool, ghost others: set<object>, ghost c: World)
    returns (completed: Option<int>)
    requires s.Valid() && s.sys == c.sched && Inv(Told(c)) && Told(c).phase.AfterWork? && s.Footprint() !! others
    requires |c.sched.ready| < MAX_PROCESSES && (told <==> c.arrivals == {} && c.waiting == [])
    modifies s.Footprint()
    ensures s.Valid() && SchedulerModel.RunTick(Told(c), s.sys) && Completed(Told(c), s.sys, completed)
    ensures s.OnlyNew() && s.Footprint() !! others && forall o :: o in others ==> unchanged(o)
  {
    if told { TellBeside(s, others); }
    completed := RunOneTick(s, others);
  }

  // ---------- one tick of both ----------

  // The objects show w, and share no storage.
  ghost predicate Shows(g: Generator, s: S.Scheduler, l: Workload, w: World)
    reads g, g.memory, g.memory.repr, g.waiting, g.waiting.data, g.arrivals, g.arrivals.data
    reads s, s.rr, s.rr.data, s.heap, s.heap.processes, s.heap.Refs(), s.current, s.repr
  {
    g.Footprint() !! s.Footprint() && GeneratorShows(g, l, w) && s.Valid() && s.sys == w.sched
  }

  lemma NothingLeft(l: Workload, w: World, jobs: seq<Job>)
    requires w.arrivals <= l.jobs.Keys && multiset(jobs) == multiset(JobsOf(l, w.arrivals))
    ensures jobs == [] <==> w.arrivals == {}
  {
    forall i | i in w.arrivals ensures l.jobs[i] in JobsOf(l, w.arrivals) {}
    if i :| i in w.arrivals { assert multiset(JobsOf(l, w.arrivals))[l.jobs[i]] == 1; }
    if jobs != [] { assert multiset(jobs)[jobs[0]] >= 1; }
  }

  // What the program finds between two ticks.
  ghost predicate BetweenTicks(w: World) { w.stage.Serving? && w.exited == {} && w.kept == w.mail == [] }

  method GeneratorTurn(g: Generator, s: S.Scheduler, ghost l: Workload, ghost w: World)
    returns (ghost released: seq<Job>)
    requires WorldOk(l, w) && Fits(l) && BetweenTicks(w) && Shows(g, s, l, w)
    modifies g.Footprint()
    ensures DueJobs(l, w, released) && Shows(g, s, l, Generated(l, w, released)) && g.OnlyNew()
  {
    GeneratorMayStart(l, w);
    released := Generate(g, s.clk, s.Footprint(), l, w);
    s.Untouched();
  }

  // The message queue is emptied.
  method TakeMail(g: Generator, s: S.Scheduler, ghost l: Workload, ghost b: World) returns (messages: seq<Pcb>)
    requires Shows(g, s, l, b)
    modifies g`sent
    ensures messages == b.mail && Shows(g, s, l, b.(mail := []))
    ensures g.Footprint() == old(g.Footprint()) && s.Footprint() == old(s.Footprint())
  {
    messages := g.sent;
    g.sent := [];
    s.Untouched();
  }

  method ScheduleBeside(g: Generator, s: S.Scheduler, messages: seq<Pcb>, ghost l: Workload, ghost b: World)
    returns (ghost trace: seq<Sys>)
    requires Shows(g, s, l, b) && S.ReadyFor(b.sched, messages) && RoomFor(b.sched, messages)
    modifies s.Footprint()
    ensures Received(b.sched, messages, trace) && SchedTick(trace[|messages|], s.sys)
    ensures g.Footprint() !! s.Footprint() && GeneratorShows(g, l, b) && s.Valid()
    ensures s.OnlyNew() && g.Footprint() == old(g.Footprint())
  {
    trace := Schedule(s, messages, g.Footprint());
  }

  // The messages are taken from the queue, and the scheduler does its work.
  method SchedulerTurn(g: Generator, s: S.Scheduler, ghost l: Workload, ghost w: World, ghost released: seq<Job>)
    returns (ghost trace: seq<Sys>)
    requires WorldOk(l, w) && Fits(l) && BetweenTicks(w) && DueJobs(l, w, released)
    requires Shows(g, s, l, Generated(l, w, released))
    modifies g`sent, s.Footprint()
    ensures var b := Generated(l, w, released); Received(w.sched, b.mail, trace) && SchedTick(trace[|b.mail|], s.sys)
    ensures Shows(g, s, l, Scheduled(l, w, released, s.sys)) && s.OnlyNew() && g.Footprint() == old(g.Footprint())
  {
    SchedulerMayGoOn(l, w, released);
    ghost var b := Generated(l, w, released);
    var messages := TakeMail(g, s, l, b);
    trace := ScheduleBeside(g, s, messages, l, b.(mail := []));
  }

  method FinishBeside(g: Generator, s: S.Scheduler, told: bool, ghost l: Workload, ghost c: World)
    returns (completed: Option<int>)
    requires Inv(Told(c)) && Told(c).phase.AfterWork? && |c.sched.ready| < MAX_PROCESSES && Shows(g, s, l, c)
    requires told <==> c.arrivals == {} && c.waiting == []
    modifies s.Footprint()
    ensures SchedulerModel.RunTick(Told(c), s.sys) && Completed(Told(c), s.sys, completed)
    ensures g.Footprint() !! s.Footprint() && GeneratorShows(g, l, c) && s.Valid()
    ensures s.OnlyNew() && g.Footprint() == old(g.Footprint())
  {
    completed := FinishTick(s, told, g.Footprint(), c);
  }

  lemma NothingToSend(g: Generator, l: Workload, c: World)
    requires GeneratorShows(g, l, c) && c.arrivals <= l.jobs.Keys
    ensures g.NoMoreProcesses() <==> c.arrivals == {} && c.waiting == []
  {
    NothingLeft(l, c, g.arrivals.Contents());
  }

  // The generator tells the scheduler if nothing is left to send, and the clock ticks.
  method EndOfTick(g: Generator, s: S.Scheduler, ghost l: Workload, ghost c: World) returns (completed: Option<int>)
    requires Inv(Told(c)) && Told(c).phase.AfterWork? && |c.sched.ready| < MAX_PROCESSES
    requires Shows(g, s, l, c) && c.arrivals <= l.jobs.Keys
    modifies s.Footprint()
    ensures SchedulerModel.RunTick(Told(c), s.sys) && Completed(Told(c), s.sys, completed)
    ensures Shows(g, s, l, AfterTick(c, s.sys, completed)) && s.OnlyNew() && g.Footprint() == old(g.Footprint())
  {
    NothingToSend(g, l, c);
    completed := FinishBeside(g, s, g.NoMoreProcesses(), l, c);
  }

  // The work of one tick: serve the line, release what is due, receive the messages, schedule.
  method WorkForTick(g: Generator, s: S.Scheduler, ghost l: Workload, ghost w: World)
    returns (ghost released: seq<Job>, ghost trace: seq<Sys>)
    requires WorldOk(l, w) && Fits(l) && BetweenTicks(w) && Shows(g, s, l, w)
    modifies g.Footprint(), s.Footprint()
    ensures DueJobs(l, w, released)
    ensures var b := Generated(l, w, released); Received(w.sched, b.mail, trace) && SchedTick(trace[|b.mail|], s.sys)
    ensures Shows(g, s, l, Scheduled(l, w, released, s.sys)) && g.OnlyNew() && s.OnlyNew()
  {
    released := GeneratorTurn(g, s, l, w);
    trace := SchedulerTurn(g, s, l, w, released);
  }

  // What is left of w after a tick: the one exit that may be pending, and the clock moved.
  ghost predicate Ticked(w: World, after: World, completed: Option<int>) {
    && after.stage.Serving? && after.kept == after.mail == [] && after.sched.clk == w.sched.clk + 1
    && after.exited == match completed case None => {} case Some(i) => {i}
  }

  lemma AfterOneTick(l: Workload, w: World, released: seq<Job>, trace: seq<Sys>, s: Sys, s': Sys,
                     completed: Option<int>)
    returns (states: seq<World>, after: World)
    requires WorldOk(l, w) && Fits(l) && BetweenTicks(w) && DueJobs(l, w, released)
    requires var b := Generated(l, w, released); Received(w.sched, b.mail, trace) && SchedTick(trace[|b.mail|], s)
    requires var c := Scheduled(l, w, released, s);
             SchedulerModel.RunTick(Told(c), s') && Completed(Told(c), s', completed)
    ensures after == AfterTick(Scheduled(l, w, released, s), s', completed)
    ensures Path(l, states, w, after) && Ticked(w, after, completed)
  {
    states := TickMade(l, w, released, trace, s, s', completed);
    after := AfterTick(Scheduled(l, w, released, s), s', completed);
    TickMayEnd(l, w, released, trace, s);
    AdvanceWork(Told(Scheduled(l, w, released, s)), s');
    WorkIsTimeless(l, w, released, trace, s);
  }

  // One tick of both programs.
  method OneTick(g: Generator, s: S.Scheduler, ghost l: Workload, ghost w: World)
    returns (completed: Option<int>, ghost states: seq<World>, ghost after: World)
    requires WorldOk(l, w) && Fits(l) && BetweenTicks(w) && Shows(g, s, l, w)
    modifies g.Footprint(), s.Footprint()
    ensures Path(l, states, w, after) && Shows(g, s, l, after) && Ticked(w, after, completed)
    ensures g.OnlyNew() && s.OnlyNew()
  {
    ghost var released, trace := WorkForTick(g, s, l, w);
    ghost var scheduled := s.sys;
    TickMayEnd(l, w, released, trace, scheduled);
    completed := EndOfTick(g, s, l, Scheduled(l, w, released, scheduled));
    states, after := AfterOneTick(l, w, released, trace, scheduled, s.sys, completed);
  }

  // ---------- SIGCHLD ----------

  ghost function Reaped(l: Workload, w: World, i: int): World {
    w.(exited := w.exited - {i}, cells := Exited(w.cells, l.root, l.fork(i)))
  }

  method ReapBeside(g: Generator, i: int, ghost others: set<object>, ghost l: Workload, ghost w: World)
    requires GeneratorShows(g, l, w) && g.Footprint() !! others
    modifies g.Footprint()
    ensures GeneratorShows(g, l, Reaped(l, w, i))
    ensures g.OnlyNew() && g.Footprint() !! others && forall o :: o in others ==> unchanged(o)
  {
    g.Reap(g.fork(i));
    assert g.waiting.Contents() == old(g.waiting.Contents()) && g.arrivals.Contents() == old(g.arrivals.Contents());
  }

  // handle_children_termination, which touches nothing of the scheduler's.
  method ReapExit(g: Generator, s: S.Scheduler, i: int, ghost l: Workload, ghost w: World)
    requires Shows(g, s, l, w)
    modifies g.Footprint()
    ensures Shows(g, s, l, Reaped(l, w, i)) && g.OnlyNew() && s.Footprint() == old(s.Footprint())
  {
    ReapBeside(g, i, s.Footprint(), l, w);
    s.Untouched();
  }

  // ---------- the whole program ----------

  lemma PathIsRun(l: Workload, states: seq<World>, w: World, now: World)
    requires Start(l, w) && Path(l, states, w, now)
    ensures RunOf(l, states) && WorldOk(l, now)
  {
    RunKeeps(l, states, |states| - 1);
  }

  // A program that goes on has not come to the last tick.
  lemma NotLate(l: Workload, states: seq<World>, w: World, now: World)
    requires Start(l, w) && Path(l, states, w, now) && !ExitTest(now.sched)
    ensures now.sched.clk <= LastTick(l)
  {
    PathIsRun(l, states, w, now);
    if now.sched.clk > LastTick(l) { DrainedByDeadline(l, states, |states| - 1); }
  }

  lemma ReapStep(l: Workload, states: seq<World>, w: World, now: World, i: int) returns (more: seq<World>)
    requires Path(l, states, w, now) && now.stage.Serving? && i in now.exited
    ensures Path(l, more, w, Reaped(l, now, i))
  {
    assert Reap(l, now, i, Reaped(l, now, i));
    Extended(l, states, w, now, Reaped(l, now, i));
    more := states + [Reaped(l, now, i)];
  }

  lemma RunEnds(l: Workload, states: seq<World>, w: World, now: World)
    requires Start(l, w) && Path(l, states, w, now) && ExitTest(now.sched)
    ensures RunOf(l, states) && states[0] == w && states[|states| - 1] == now && Drained(l, now)
  {
    PathIsRun(l, states, w, now);
    ExitMeansDrained(l, states, |states| - 1);
  }

  // One turn of the main loops: a tick, and the exit it may have caused.
  method OneRound(g: Generator, s: S.Scheduler, ghost l: Workload, ghost w: World)
    returns (ghost states: seq<World>, ghost after: World)
    requires WorldOk(l, w) && Fits(l) && BetweenTicks(w) && Shows(g, s, l, w)
    modifies g.Footprint(), s.Footprint()
    ensures Path(l, states, w, after) && Shows(g, s, l, after) && BetweenTicks(after)
    ensures after.sched.clk == w.sched.clk + 1 && g.OnlyNew() && s.OnlyNew()
  {
    var completed;
    completed, states, after := OneTick(g, s, l, w);
    if completed.Some? {
      ReapExit(g, s, completed.value, l, after);
      states := ReapStep(l, states, w, after, completed.value);
      after := Reaped(l, after, completed.value);
    }
  }

  // The run goes on for one more turn.
  method Continue(g: Generator, s: S.Scheduler, ghost l: Workload, ghost w: World, ghost states: seq<World>,
                  ghost now: World)
    returns (ghost more: seq<World>, ghost after: World)
    requires Start(l, w) && Fits(l) && Path(l, states, w, now) && BetweenTicks(now) && Shows(g, s, l, now)
    requires !ExitTest(now.sched)
    modifies g.Footprint(), s.Footprint()
    ensures Path(l, more, w, after) && BetweenTicks(after) && Shows(g, s, l, after) && g.OnlyNew() && s.OnlyNew()
    ensures now.sched.clk <= LastTick(l) && after.sched.clk == now.sched.clk + 1
  {
    PathIsRun(l, states, w, now);
    NotLate(l, states, w, now);
    more, after := OneRound(g, s, l, now);
    Joined(l, states, more, w, now, after);
    more := states + more[1..];
  }

  // The two programs, from any start they show, make a run of the machine and end with every process finished.
  method Simulate(g: Generator, s: S.Scheduler, ghost l: Workload, ghost w: World)
    returns (ghost states: seq<World>, ghost now: World)
    requires Start(l, w) && Fits(l) && Shows(g, s, l, w)
    modifies g.Footprint(), s.Footprint()
    ensures RunOf(l, states) && states[0] == w && states[|states| - 1] == now
    ensures Shows(g, s, l, now) && Drained(l, now)
  {
    states, now := [w], w;
    while !s.Finished()
      invariant Path(l, states, w, now) && BetweenTicks(now) && Shows(g, s, l, now)
      invariant g.OnlyNew() && s.OnlyNew()
      decreases LastTick(l) + 1 - now.sched.clk
    {
      states, now := Continue(g, s, l, w, states, now);
    }
    RunEnds(l, states, w, now);
  }

  ghost function AtStart(l: Workload, sched: Sys): World {
    World(Serving, l.jobs.Keys, [], [], [], map[l.root := FREE], {}, sched)
  }

  // The generator before its loop, with the input file read.
  method Load(jobs: seq<Job>, totalMemory: int, fork: int -> int, ghost l: Workload) returns (g: Generator)
    requires totalMemory == l.root.Size() && fork == l.fork && GoodLoad(l)
    requires multiset(jobs) == multiset(JobsOf(l, l.jobs.Keys))
    ensures Holds(g, l.root, l.fork, Desk(map[l.root := FREE], [], []), JobsOf(l, l.jobs.Keys))
    ensures fresh(g.Footprint())
  {
    g := new Generator(totalMemory, fork, l.root.k);
    g.ReadProcesses(jobs);
  }

  // The scheduler before its loop, beside others whose storage it does not touch.
  method StartScheduler(policy: Policy, quantum: int, clk: int, ghost others: set<object>) returns (s: S.Scheduler)
    requires quantum > 0 && clk >= 0
    ensures s.Valid() && Init(s.sys) && s.sys.policy == policy && s.sys.quantum == quantum && s.sys.clk == clk
    ensures fresh(s.Footprint()) && s.Footprint() !! others
  {
    s := new S.Scheduler(policy, quantum, clk);
  }

  // Both, at the start of a run.
  method Launch(jobs: seq<Job>, totalMemory: int, fork: int -> int, policy: Policy, quantum: int, clk: int,
                ghost l: Workload)
    returns (g: Generator, s: S.Scheduler)
    requires totalMemory == l.root.Size() && fork == l.fork && clk == l.start && quantum > 0
    requires GoodLoad(l) && multiset(jobs) == multiset(JobsOf(l, l.jobs.Keys))
    ensures Shows(g, s, l, AtStart(l, s.sys)) && Start(l, AtStart(l, s.sys))
    ensures s.sys.policy == policy && s.sys.quantum == quantum && fresh(g.Footprint()) && fresh(s.Footprint())
  {
    g := Load(jobs, totalMemory, fork, l);
    s := StartScheduler(policy, quantum, clk, g.Footprint());
  }

  // What is reported when the loop exits.
  lemma Reported(l: Workload, states: seq<World>)
    requires RunOf(l, states) && Drained(l, states[|states| - 1])
    ensures var s := states[|states| - 1].sched; s.activeCpu == TotalExec(l) && |s.finished| == |l.jobs|
  {
    SystemUtilisation(l, states, |states| - 1);
    var done := Ids(states[|states| - 1].sched.finished);
    assert |multiset(done)| == |done| && |multiset(l.jobs.Keys)| == |l.jobs.Keys|;
  }

  // The whole program, on an input file with these jobs: it makes a run of the machine and ends with every
  // process finished.
  method Program(jobs: seq<Job>, totalMemory: int, fork: int -> int, policy: Policy, quantum: int, clk: int,
                 ghost l: Workload)
    returns (s: S.Scheduler, ghost states: seq<World>)
    requires totalMemory == l.root.Size() && fork == l.fork && clk == l.start && quantum > 0
    requires GoodLoad(l) && Fits(l) && multiset(jobs) == multiset(JobsOf(l, l.jobs.Keys))
    ensures RunOf(l, states) && states[0].sched.policy == policy && states[0].sched.quantum == quantum
    ensures s.Valid() && s.sys == states[|states| - 1].sched && Drained(l, states[|states| - 1])
    ensures s.activeCpuTime == TotalExec(l) && |s.turnaroundTimes| == |s.waitTimes| == |l.jobs|
  {
    var g;
    g, s := Launch(jobs, totalMemory, fork, policy, quantum, clk, l);
    ghost var now;
    states, now := Simulate(g, s, l, AtStart(l, s.sys));
    Reported(l, states);
    ShownByGlobals(s);
  }
}
