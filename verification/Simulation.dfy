/** The whole system: the generator, the allocator, the message queue, the scheduler and the children that exit,
    as one state machine. Each step is one turn of a loop or one signal of the program. */
module Simulation {
  import opened Blocks
  import opened FirstFit
  import opened Processes
  import opened BlockCells
  import opened CellRuns
  import opened Admission
  import opened SchedulerModel
  import opened SchedulerInvariant

  // The jobs of the input file by id, the memory, the pids the system will hand out, the clock at the start,
  // and a time by which every job has arrived.
  datatype Workload = Workload(jobs: map<int, Job>, root: Blk, fork: int -> int, start: int, horizon: int)

  // What the generator does within a tick: serve the waiting line, release arrivals, let the scheduler work.
  datatype Stage = Serving | Releasing | Working

  // `kept` is the temporary queue of serve_waiting_queue, `mail` the message queue,
  // `exited` the processes that finished and whose exit the generator has yet to see.
  datatype World = World(stage: Stage, arrivals: set<int>, waiting: seq<Pcb>, kept: seq<Pcb>, mail: seq<Pcb>,
                         cells: Cells, exited: set<int>, sched: Sys) {
    // The live blocks of memory.
    ghost function Live(): Live { LiveOf(cells) }
  }

  ghost predicate GoodLoad(l: Workload) {
    && l.root.j == 0 && l.start >= 0
    && (forall i :: i in l.jobs ==>
          && l.jobs[i].id == i && i != -1 && l.jobs[i].exec >= 1
          && 1 <= l.jobs[i].memory <= l.root.Size() && l.jobs[i].arrival <= l.horizon)
    && GoodPids(l.fork)
  }

  ghost predicate Start(l: Workload, w: World) {
    && GoodLoad(l) && w.stage.Serving? && w.arrivals == l.jobs.Keys
    && w.waiting == w.kept == w.mail == [] && w.cells == map[l.root := FREE] && w.exited == {}
    && Init(w.sched) && w.sched.clk == l.start
  }

  // ---------- the steps ----------

  // SIGCHLD: the exit of i is seen and its memory given back.
  ghost predicate Reap(l: Workload, w: World, i: int, w': World) {
    && w.stage.Serving? && i in w.exited
    && w' == w.(exited := w.exited - {i}, cells := Exited(w.cells, l.root, l.fork(i)))
  }

  // One turn of the first loop of serve_waiting_queue.
  ghost predicate ServeOne(l: Workload, w: World, w': World) {
    && w.stage.Serving? && w.exited == {} && w.waiting != []
    && var p := w.waiting[0];
       var d := Offer(l.root, Desk(w.cells, w.mail, w.kept), p, l.fork(p.id));
       w' == w.(cells := d.cells, mail := d.sent, kept := d.left, waiting := w.waiting[1..])
  }

  // Its second loop.
  ghost predicate LineUpAgain(l: Workload, w: World, w': World) {
    && w.stage.Serving? && w.exited == {} && w.waiting == []
    && w' == w.(stage := Releasing, waiting := w.kept, kept := [])
  }

  ghost predicate NothingDue(l: Workload, w: World) {
    forall i :: i in w.arrivals && i in l.jobs ==> l.jobs[i].arrival > w.sched.clk
  }

  // One turn of the release loop.
  ghost predicate Release(l: Workload, w: World, i: int, w': World) {
    && w.stage.Releasing? && i in w.arrivals && i in l.jobs && l.jobs[i].arrival <= w.sched.clk
    && (forall k :: k in w.arrivals && k in l.jobs ==> l.jobs[i].arrival <= l.jobs[k].arrival)
    && var d := Offer(l.root, Desk(w.cells, w.mail, w.waiting), NewPcb(l.jobs[i]), l.fork(i));
       w' == w.(cells := d.cells, mail := d.sent, waiting := d.left, arrivals := w.arrivals - {i})
  }

  // One message taken by receive_new_process.
  ghost predicate Receive(l: Workload, w: World, w': World) {
    && w.stage.Releasing? && NothingDue(l, w) && w.mail != []
    && Arrive(w.sched, w.mail[0], w'.sched) && w' == w.(mail := w.mail[1..], sched := w'.sched)
  }

  // The scheduler's work for the tick.
  ghost predicate Tick(l: Workload, w: World, w': World) {
    && w.stage.Releasing? && NothingDue(l, w) && w.mail == []
    && SchedTick(w.sched, w'.sched) && w' == w.(stage := Working, sched := w'.sched)
  }

  // SIGUSR1, if nothing is left to send.
  function Told(w: World): Sys {
    if w.arrivals == {} && w.waiting == [] then w.sched.(generatorFinished := true) else w.sched
  }

  ghost function Done(s: Sys): set<int> { set i | i in Ids(s.finished) }

  // The clock moves and the signalled process runs; if it completes, its exit is pending.
  ghost predicate Advance(w: World, w': World) {
    && w.stage.Working? && RunTick(Told(w), w'.sched)
    && w' == w.(stage := Serving, sched := w'.sched, exited := w.exited + (Done(w'.sched) - Done(w.sched)))
  }

  ghost predicate Step(l: Workload, w: World, w': World) {
    || (exists i :: Reap(l, w, i, w')) || ServeOne(l, w, w') || LineUpAgain(l, w, w')
    || (exists i :: Release(l, w, i, w')) || Receive(l, w, w') || Tick(l, w, w') || Advance(w, w')
  }

  ghost predicate RunOf(l: Workload, states: seq<World>) {
    && states != [] && Start(l, states[0])
    && forall n :: 0 <= n < |states| - 1 ==> Step(l, states[n], states[n + 1])
  }

  // ---------- what every step keeps ----------

  // Every job of the input is in exactly one place.
  ghost predicate EachInOnePlace(l: Workload, w: World) {
    multiset(l.jobs.Keys) == multiset(w.arrivals) + multiset(PcbIds(w.waiting)) + multiset(PcbIds(w.kept))
                             + multiset(PcbIds(w.mail)) + multiset(w.sched.procs.Keys)
  }

  ghost predicate Queued(l: Workload, ps: seq<Pcb>) {
    forall p :: p in ps ==> p.id in l.jobs && p == NewPcb(l.jobs[p.id])
  }

  ghost predicate Posted(l: Workload, ps: seq<Pcb>) {
    forall p :: p in ps ==> p.id in l.jobs && p == NewPcb(l.jobs[p.id]).(pid := l.fork(p.id))
  }

  // The control block is of job i.
  ghost predicate IsOf(l: Workload, i: int, p: Pcb)
    requires i in l.jobs
  {
    && p.id == i && p.arrival == l.jobs[i].arrival && p.exec == l.jobs[i].exec
    && p.priority == l.jobs[i].priority && p.memory == l.jobs[i].memory
  }

  // Every copy of a job still is that job.
  ghost predicate CopiesOk(l: Workload, w: World) {
    && Queued(l, w.waiting) && Queued(l, w.kept) && Posted(l, w.mail)
    && forall i :: i in w.sched.procs && i in l.jobs ==>
         IsOf(l, i, w.sched.procs[i].pcb) && w.sched.procs[i].pcb.pid == l.fork(i)
  }

  ghost function SentIds(ps: seq<Pcb>): set<int> { set i | i in PcbIds(ps) }

  // The processes the scheduler has that are not finished, or finished without the generator knowing.
  ghost function Active(w: World): set<int> { (w.sched.procs.Keys - Done(w.sched)) + w.exited }

  // The processes that have been admitted and whose exit has not been seen.
  ghost function Holders(w: World): set<int> { SentIds(w.mail) + Active(w) }

  ghost function OwnerIds(live: Live): set<int> { set b | b in live :: live[b].id }

  // Blocks belong to holders, one block each, of the size asked for.
  ghost predicate HeldBy(l: Workload, live: Live, holders: set<int>) {
    && WellSized(live, l.root)
    && (forall b :: b in live ==> live[b].id in holders && live[b].pid == l.fork(live[b].id))
    && forall a, b :: a in live && b in live && a != b ==> live[a].id != live[b].id
  }

  ghost predicate MemoryOk(l: Workload, w: World) {
    Books(w.cells) && Closed(w.cells, l.root) && HeldBy(l, w.Live(), Holders(w))
  }

  ghost predicate StageOk(l: Workload, w: World) {
    && w.exited <= Done(w.sched)
    && match w.stage
       case Serving =>
         && w.sched.phase.BeforeWork? && (w.exited != {} ==> w.kept == [] && w.mail == [])
         && Stuck(w.Live(), l.root, w.kept)
       case Releasing =>
         w.sched.phase.BeforeWork? && w.exited == {} && w.kept == [] && Stuck(w.Live(), l.root, w.waiting)
       case Working =>
         && w.sched.phase.AfterWork? && w.exited == {} && w.kept == [] && w.mail == []
         && NothingDue(l, w) && Stuck(w.Live(), l.root, w.waiting)
  }

  ghost predicate AllFinished(l: Workload, w: World) { forall i :: i in l.jobs ==> i in Done(w.sched) }

  ghost predicate TellingOk(l: Workload, w: World) {
    && w.sched.clk >= l.start
    && (w.sched.generatorFinished ==> w.arrivals == {} && w.waiting == w.kept == w.mail == [])
    && (AllFinished(l, w) && w.sched.clk > l.start ==> w.sched.generatorFinished)
  }

  ghost predicate WorldOk(l: Workload, w: World) {
    && GoodLoad(l) && Inv(w.sched) && EachInOnePlace(l, w) && CopiesOk(l, w)
    && MemoryOk(l, w) && StageOk(l, w) && TellingOk(l, w)
  }
}
