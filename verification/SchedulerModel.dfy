/** The scheduler as a state machine: what scheduler.c does at each message, tick, run step and completion.
    Where a heap may break a tie either way, the step is a relation. */
module SchedulerModel {
  import opened Wrappers
  import opened Processes

  datatype Policy = HPF | SRTN | RR

  // A process as the scheduler and its shared segment see it. The last three count how often it was
  // dispatched before clockValue was refreshed, preempted before it was refreshed, and left current without a run step.
  datatype Proc = Proc(pcb: Pcb, shared: int, early: nat, stale: nat, stalls: nat)

  // What a completion appends to turnaround_times and wait_times.
  datatype Record = Record(id: int, turnaround: int, wait: int)

  // BeforeWork: the clock has moved and the loop has yet to look at it. AfterWork: the loop waits for the next tick.
  datatype Phase = BeforeWork | AfterWork

  datatype Sys = Sys(policy: Policy, quantum: int,
                     clk: int, phase: Phase, clockValue: int, sliceStart: int, startTime: int, activeCpu: int,
                     procs: map<int, Proc>, ready: seq<int>, current: Option<int>,
                     granted: bool, generatorFinished: bool, finished: seq<Record>,
                     executed: int, preemptions: nat)

  // ---------- building blocks ----------

  // update_process_remaining_time on the current process.
  function Refresh(s: Sys): Sys {
    if s.current.Some? && s.current.value in s.procs then
      var c := s.current.value;
      var p := s.procs[c];
      s.(procs := s.procs[c := p.(pcb := p.pcb.(remaining := p.shared))])
    else s
  }

  // preempt_process, and the process goes to the end of the ready structure.
  function Requeue(s: Sys): Sys
    requires s.current.Some? && s.current.value in s.procs
  {
    var c := s.current.value;
    var p := s.procs[c];
    var pcb := p.pcb.(remaining := p.shared, state := READY, lastPreempt := s.clockValue);
    s.(procs := s.procs[c := p.(pcb := pcb, stale := if s.clockValue == s.clk then p.stale else p.stale + 1)],
       ready := s.ready + [c], current := None, preemptions := s.preemptions + 1)
  }

  // start_process or resume_process.
  function Dispatch(s: Sys, x: int): Sys
    requires x in s.procs
  {
    var p := s.procs[x];
    var early := if s.clockValue == s.clk then p.early else p.early + 1;
    if p.pcb.start == -1 then
      var pcb := p.pcb.(state := RUNNING, start := s.clockValue, waiting := s.clockValue - p.pcb.arrival);
      s.(procs := s.procs[x := p.(pcb := pcb, early := early)], current := Some(x), sliceStart := s.clockValue,
         startTime := if s.startTime == -1 then s.clockValue else s.startTime,
         activeCpu := s.activeCpu + p.pcb.exec)
    else
      var waited := if p.pcb.lastPreempt != -1 then s.clockValue - p.pcb.lastPreempt else 0;
      var pcb := p.pcb.(state := RUNNING, waiting := p.pcb.waiting + waited);
      s.(procs := s.procs[x := p.(pcb := pcb, early := early)], current := Some(x), sliceStart := s.clockValue)
  }

  // The field the ready heap is ordered on.
  function Key(s: Sys, i: int): int
    requires i in s.procs
  {
    if s.policy.SRTN? then s.procs[i].pcb.remaining else s.procs[i].pcb.priority
  }

  // x is taken from the ready structure `from`, leaving `rest`.
  ghost predicate Takes(s: Sys, from: seq<int>, x: int, rest: seq<int>)
    requires forall i :: i in from ==> i in s.procs
  {
    if s.policy.RR? then from == [x] + rest
    else && x in from && multiset(rest) == multiset(from) - multiset{x}
         && forall i :: i in from ==> Key(s, x) <= Key(s, i)
  }

  ghost predicate SameQueue(s: Sys, a: seq<int>, b: seq<int>) {
    if s.policy.RR? then a == b else multiset(a) == multiset(b)
  }

  // b is a, except that a heap may hold its entries in another order.
  ghost predicate UpToOrder(a: Sys, b: Sys) {
    b == a.(ready := b.ready) && SameQueue(a, a.ready, b.ready)
  }

  ghost predicate ReadyKnown(s: Sys) { forall i :: i in s.ready ==> i in s.procs }

  // The second half of context_switching, when nothing is current.
  ghost predicate Picks(s: Sys, s': Sys)
    requires ReadyKnown(s)
  {
    if s.ready == [] then s' == s
    else
      && s'.current.Some? && s'.current.value in s.procs
      && s' == Dispatch(s.(ready := s'.ready), s'.current.value)
      && Takes(s, s.ready, s'.current.value, s'.ready)
  }

  ghost predicate ContextSwitch(s: Sys, s': Sys)
    requires ReadyKnown(s) && (s.current.Some? ==> s.current.value in s.procs)
  {
    if s.current.None? then Picks(s, s')
    else if s.procs[s.current.value].shared == 0 then s' == Refresh(s)
    else Picks(Requeue(s), s')
  }

  ghost predicate Known(s: Sys) {
    ReadyKnown(s) && (s.current.Some? ==> s.current.value in s.procs)
  }

  ghost predicate ShorterReady(s: Sys)
    requires Known(s) && s.current.Some?
  {
    exists i :: i in s.ready && s.procs[i].pcb.remaining < s.procs[s.current.value].pcb.remaining
  }

  // run_algorithm and the refresh that ends the tick.
  ghost predicate RunPolicy(s: Sys, s': Sys)
    requires Known(s)
  {
    var r := Refresh(s);
    if match s.policy
       case HPF => s.current.None? && s.ready != []
       case SRTN => s.ready != [] && (s.current.None? || ShorterReady(r))
       case RR => s.ready != [] && (s.current.None? || s.clockValue - s.sliceStart >= s.quantum)
    then ContextSwitch(r, s')
    else UpToOrder(r, s')
  }

  // ---------- the steps ----------

  // handle_process_arrival, up to the order inside a heap.
  function Enrol(s: Sys, p: Pcb): Sys {
    var pcb := p.(remaining := p.exec, state := READY, start := -1, lastPreempt := -1);
    s.(procs := s.procs[p.id := Proc(pcb, p.exec, 0, 0, 0)], ready := s.ready + [p.id])
  }

  // One message taken in receive_new_process.
  ghost predicate Arrive(s: Sys, p: Pcb, s': Sys) {
    && Known(s) && s.phase.BeforeWork? && !s.generatorFinished
    && p.id !in s.procs && p.exec >= 1
    && var e := Enrol(s, p);
       if s.current.None? then UpToOrder(e.(clockValue := -1), s')
       else if s.policy.SRTN? then RunPolicy(e, s')
       else UpToOrder(e, s')
  }

  // The messages arrive one by one, and `trace` is what they leave.
  ghost predicate Received(s: Sys, messages: seq<Pcb>, trace: seq<Sys>) {
    && |trace| == |messages| + 1 && trace[0] == s
    && forall i :: 0 <= i < |messages| ==> Arrive(trace[i], messages[i], trace[i + 1])
  }

  // The tick's work in the main loop, skipped when clockValue already shows the clock.
  ghost predicate SchedTick(s: Sys, s': Sys) {
    && Known(s) && s.phase.BeforeWork?
    && if s.clk == s.clockValue then s' == s.(phase := AfterWork)
       else && RunPolicy(s.(clockValue := s.clk), s'.(granted := s.granted, phase := BeforeWork))
            && s'.phase.AfterWork? && s'.granted == s'.current.Some?
  }

  // handle_process_completion.
  function Retire(s: Sys): Sys
    requires s.current.Some? && s.current.value in s.procs
  {
    var c := s.current.value;
    var p := s.procs[c];
    var ta := s.clk - p.pcb.arrival;
    s.(clockValue := s.clk, current := None,
       procs := s.procs[c := p.(pcb := p.pcb.(remaining := p.shared, state := TERMINATED))],
       finished := s.finished + [Record(c, ta, ta - p.pcb.exec)])
  }

  ghost predicate Complete(s: Sys, s': Sys)
    requires Known(s) && s.current.Some?
  {
    if s.generatorFinished && s.policy.SRTN? then Picks(Retire(s), s') else s' == Retire(s)
  }

  // The running process used its tick: one less in the shared segment.
  function Worked(s: Sys): Sys
    requires s.current.Some? && s.current.value in s.procs
  {
    var c := s.current.value;
    var p := s.procs[c];
    s.(clk := s.clk + 1, phase := BeforeWork, granted := false, executed := s.executed + 1,
       procs := s.procs[c := p.(shared := p.shared - 1)])
  }

  // The clock moves; a process whose semaphore was raised runs for the tick and may complete.
  ghost predicate RunTick(s: Sys, s': Sys) {
    && Known(s) && s.phase.AfterWork?
    && if s.current.Some? && s.granted then
         var w := Worked(s);
         if w.procs[s.current.value].shared <= 0 then Complete(w, s') else s' == w
       else if s.current.Some? then
         var p := s.procs[s.current.value];
         s' == s.(clk := s.clk + 1, phase := BeforeWork,
                  procs := s.procs[s.current.value := p.(stalls := p.stalls + 1)])
       else s' == s.(clk := s.clk + 1, phase := BeforeWork)
  }

  // SIGUSR1 from the generator.
  ghost predicate GeneratorDone(s: Sys, s': Sys) { s' == s.(generatorFinished := true) }

  ghost predicate Next(s: Sys, s': Sys) {
    || (exists p :: Arrive(s, p, s'))
    || SchedTick(s, s') || RunTick(s, s') || GeneratorDone(s, s')
  }

  ghost predicate Init(s: Sys) {
    && s.clk >= 0 && s.clockValue == s.clk - 1 && s.phase.BeforeWork? && s.startTime == -1
    && s.activeCpu == 0 && s.executed == 0 && s.preemptions == 0
    && s.procs == map[] && s.ready == [] && s.current.None? && s.finished == []
    && !s.granted && !s.generatorFinished && s.quantum > 0
  }

  // The main loop's exit test.
  predicate ExitTest(s: Sys) { s.generatorFinished && s.ready == [] && s.current.None? }

  ghost predicate Run(states: seq<Sys>) {
    states != [] && forall i :: 0 <= i < |states| - 1 ==> Next(states[i], states[i + 1])
  }
}
