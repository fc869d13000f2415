/** Waiting times: what a completion records against what has accumulated in the control block. */
module SchedulerWaiting {
  import opened Wrappers
  import opened Processes
  import opened Sums
  import opened SchedulerModel
  import opened SchedulerInvariant
  import opened SchedulerTheorems
  import opened SchedulerWork

  // ---------- the events that part the two ----------

  // A process takes the processor from another on its own arrival; loses the processor to another;
  // is dispatched by the completion handler of another.
  datatype Event = Displaces | IsPreempted | IsHandedOver

  ghost predicate Occurs(e: Event, s: Sys, s': Sys, i: int) {
    match e
    case Displaces => s.current.Some? && i !in s.procs && s'.current == Some(i)
    case IsPreempted => s.current == Some(i) && i in s'.ready
    case IsHandedOver => s.phase.AfterWork? && s.current.Some? && s.current != Some(i) && s'.current == Some(i)
  }

  // How often it happened to process i in the first n steps.
  ghost function Times(e: Event, states: seq<Sys>, n: nat, i: int): nat
    requires n < |states|
  {
    if n == 0 then 0 else Times(e, states, n - 1, i) + if Occurs(e, states[n - 1], states[n], i) then 1 else 0
  }

  ghost predicate Happens(e: Event, s: Sys, s': Sys) { exists i :: Occurs(e, s, s', i) }

  // How often it happened to anyone.
  ghost function Count(e: Event, states: seq<Sys>, n: nat): nat
    requires n < |states|
  {
    if n == 0 then 0 else Count(e, states, n - 1) + if Happens(e, states[n - 1], states[n]) then 1 else 0
  }

  // ---------- the counters of a process count these events ----------

  datatype Charges = Charges(early: nat, stale: nat, stalls: nat)

  ghost function ChargesOf(s: Sys, i: int): Charges {
    if i in s.procs then var p := s.procs[i]; Charges(p.early, p.stale, p.stalls) else Charges(0, 0, 0)
  }

  ghost predicate SameCharges(s: Sys, t: Sys) { forall i :: ChargesOf(t, i) == ChargesOf(s, i) }

  // Dispatched by a completion handler, and not yet passed over by the clock.
  ghost function Pending(s: Sys): Option<int> {
    if s.current.Some? && !s.granted && s.clockValue == s.clk then s.current else None
  }

  ghost function Counter(e: Event, s: Sys, i: int): nat {
    match e
    case Displaces => ChargesOf(s, i).early
    case IsPreempted => ChargesOf(s, i).stale
    case IsHandedOver => ChargesOf(s, i).stalls + if Pending(s) == Some(i) then 1 else 0
  }

  // What an SRTN step does to the counters and to the number of preemptions.
  ghost predicate Counted(s: Sys, s': Sys) {
    && (forall e, i :: Counter(e, s', i) == Counter(e, s, i) + if Occurs(e, s, s', i) then 1 else 0)
    && s'.preemptions == s.preemptions + (if Happens(Displaces, s, s') then 1 else 0)
    && (Happens(Displaces, s, s') <==> Happens(IsPreempted, s, s'))
  }

  lemma NothingHappens(s: Sys, s': Sys)
    requires SameCharges(s, s') && Pending(s') == Pending(s) && s'.preemptions == s.preemptions
    requires s.current.Some? && s'.current.Some? ==> s'.current == s.current && s.current.value in s.procs
    requires s.current.Some? ==> s.current.value !in s'.ready
    ensures Counted(s, s')
  {
  }

  lemma EnrolCharges(s: Sys, p: Pcb)
    requires p.id !in s.procs
    ensures SameCharges(s, Enrol(s, p))
  {
  }

  lemma RefreshCharges(s: Sys)
    ensures SameCharges(s, Refresh(s))
  {
  }

  // A dispatch on the stale clock charges the process dispatched, a requeue on it the process put back.
  lemma DispatchCharges(s: Sys, x: int)
    requires x in s.procs
    ensures forall i :: ChargesOf(Dispatch(s, x), i)
                     == if i == x && s.clockValue != s.clk then ChargesOf(s, i).(early := ChargesOf(s, i).early + 1)
                        else ChargesOf(s, i)
  {
  }

  lemma RequeueCharges(s: Sys)
    requires s.current.Some? && s.current.value in s.procs
    ensures forall i :: ChargesOf(Requeue(s), i)
                     == if s.current == Some(i) && s.clockValue != s.clk
                        then ChargesOf(s, i).(stale := ChargesOf(s, i).stale + 1) else ChargesOf(s, i)
  {
  }

  lemma PicksCharges(s: Sys, s': Sys)
    requires Known(s) && s.ready != [] && Picks(s, s')
    ensures s'.current.Some? && s'.current.value in s.procs
    ensures forall i :: ChargesOf(s', i)
                     == if s'.current == Some(i) && s.clockValue != s.clk
                        then ChargesOf(s, i).(early := ChargesOf(s, i).early + 1) else ChargesOf(s, i)
  {
    var t := s.(ready := s'.ready);
    assert SameCharges(s, t);
    DispatchCharges(t, s'.current.value);
  }

  lemma ArriveQuietly(s: Sys, p: Pcb, s': Sys)
    requires Inv(s) && s.policy.SRTN? && Arrive(s, p, s') && s'.preemptions == s.preemptions
    ensures Counted(s, s')
  {
    var e := Enrol(s, p);
    EnrolCharges(s, p);
    Roles(s);
    if s.current.Some? {
      EnrolBase(s, p);
      Roles(e);
      var r := Refresh(e);
      RefreshCharges(e);
      RefreshFrame(e);
      Stays(e, s');
    }
    NothingHappens(s, s');
  }

  lemma SwitchPreempts(r: Sys, s': Sys)
    requires Known(r) && r.current.Some? && r.procs[r.current.value].shared >= 1 && Known(Requeue(r))
    requires ContextSwitch(r, s')
    ensures s'.preemptions == r.preemptions + 1
  {
    RequeueFrame(r);
    PicksFrame(Requeue(r), s');
  }

  // run_SRTN_Algorithm without a preemption leaves the current process where it is.
  lemma Stays(e: Sys, s': Sys)
    requires Base(e) && Known(e) && e.policy.SRTN? && e.current.Some?
    requires RunPolicy(e, s') && s'.preemptions == e.preemptions
    ensures UpToOrder(Refresh(e), s') && s'.current == e.current && s'.current.value !in s'.ready
  {
    var r := Refresh(e);
    RefreshFrame(e);
    RefreshedRuns(e);
    Roles(e);
    if ContextSwitch(r, s') { SwitchPreempts(r, s'); }
    assert UpToOrder(r, s');
    assert multiset(s'.ready)[e.current.value] == multiset(r.ready)[e.current.value];
  }

  // A displacement charges the newcomer once as early and the process displaced once as preempted.
  lemma ArriveDisplaces(s: Sys, p: Pcb, s': Sys)
    requires Inv(s) && s.policy.SRTN? && ShortestRuns(s) && Arrive(s, p, s') && s'.preemptions > s.preemptions
    ensures Counted(s, s')
  {
    ArrivalPreempts(s, p, s');
    Roles(s);
    var c, e := s.current.value, Enrol(s, p);
    EnrolCharges(s, p);
    EnrolBase(s, p);
    Roles(e);
    var r := Refresh(e);
    RefreshCharges(e);
    RefreshedRunner(e);
    Displaced(r, p.id, s');
    assert Occurs(Displaces, s, s', p.id) && Occurs(IsPreempted, s, s', c);
  }

  lemma Displaced(r: Sys, x: int, s': Sys)
    requires Base(r) && Known(r) && r.policy.SRTN? && r.current.Some? && ContextSwitch(r, s')
    requires r.procs[r.current.value].shared >= 1 && s'.current == Some(x) && r.current != Some(x)
    ensures r.current.value in s'.ready && s'.preemptions == r.preemptions + 1
    ensures s'.clk == r.clk && s'.clockValue == r.clockValue && s'.granted == r.granted
    ensures r.clockValue != r.clk ==> forall i ::
              ChargesOf(s', i) == if i == x then ChargesOf(r, i).(early := ChargesOf(r, i).early + 1)
                                  else if r.current == Some(i) then ChargesOf(r, i).(stale := ChargesOf(r, i).stale + 1)
                                  else ChargesOf(r, i)
  {
    var q, c := Requeue(r), r.current.value;
    RequeueCharges(r);
    RequeueFrame(r);
    assert q.ready[|r.ready|] == c;
    PicksFrame(q, s');
    PicksCharges(q, s');
    TakesCount(q, q.ready, x, s'.ready);
    assert multiset(s'.ready)[c] >= 1;
  }

  lemma TickCounted(s: Sys, s': Sys)
    requires Inv(s) && s.policy.SRTN? && ShortestRuns(s) && SchedTick(s, s')
    ensures Counted(s, s')
  {
    Roles(s);
    if s.clk != s.clockValue {
      TickDoesNotPreempt(s, s');
      var t := s.(clockValue := s.clk);
      var m := s'.(granted := s.granted, phase := BeforeWork);
      TickCharges(s, t, m);
      assert SameCharges(m, s');
    }
    NothingHappens(s, s');
  }

  lemma TickCharges(s: Sys, t: Sys, m: Sys)
    requires Inv(s) && s.policy.SRTN? && t == s.(clockValue := s.clk)
    requires Known(t) && RunPolicy(t, m) && m.preemptions == s.preemptions
    ensures SameCharges(s, m) && SameFrame(t, m)
    ensures s.current.Some? ==> m.current == s.current && s.current.value !in m.ready
  {
    assert SameCharges(s, t);
    LoopVarsBase(s, t);
    RunPolicyFrame(t, m);
    if s.current.Some? {
      Stays(t, m);
      RefreshCharges(t);
      assert SameCharges(Refresh(t), m);
    } else if s.ready != [] {
      PicksCharges(t, m);
    }
  }

  // A run step charges nobody, except that a process skipped over by the clock has its pending tick charged.
  lemma RunTickCounted(s: Sys, s': Sys)
    requires Inv(s) && s.policy.SRTN? && RunTick(s, s')
    ensures Counted(s, s')
  {
    Roles(s);
    StepDoesNotPreempt(s, s');
    if s.current.Some? && s.granted {
      assert SameCharges(s, Worked(s));
      if s.procs[s.current.value].shared == 1 {
        CompletionCounted(s, s');
      } else {
        NothingHappens(s, s');
      }
    } else if s.current.None? {
      NothingHappens(s, s');
    } else {
      assert Pending(s) == s.current && Pending(s').None?;
    }
  }

  lemma CompletionCounted(s: Sys, s': Sys)
    requires Inv(s) && Known(s) && s.policy.SRTN? && s.phase.AfterWork? && s.current.Some? && s.granted
    requires s.procs[s.current.value].shared == 1 && Complete(Worked(s), s') && s'.preemptions == s.preemptions
    ensures Counted(s, s')
  {
    var r := Retire(Worked(s));
    assert SameCharges(s, r);
    RetireBase(s);
    Roles(s);
    Roles(r);
    if r.generatorFinished && r.ready != [] {
      PicksCharges(r, s');
      PicksFrame(r, s');
      TakesCount(r, r.ready, s'.current.value, s'.ready);
      assert multiset(r.ready)[s.current.value] == 0 && multiset(r.ready)[s'.current.value] >= 1;
      assert Pending(s).None? && Pending(s') == s'.current != s.current;
    } else {
      NothingHappens(s, s');
    }
  }

  lemma NextCounted(s: Sys, s': Sys)
    requires Inv(s) && s.policy.SRTN? && ShortestRuns(s) && Next(s, s')
    ensures Counted(s, s')
  {
    if p :| Arrive(s, p, s') {
      ArriveNeverUndoes(s, p, s');
      if s'.preemptions > s.preemptions { ArriveDisplaces(s, p, s'); } else { ArriveQuietly(s, p, s'); }
    } else if SchedTick(s, s') {
      TickCounted(s, s');
    } else if RunTick(s, s') {
      RunTickCounted(s, s');
    } else {
      Roles(s);
      NothingHappens(s, s');
    }
  }

  lemma ArriveNeverUndoes(s: Sys, p: Pcb, s': Sys)
    requires Inv(s) && Arrive(s, p, s')
    ensures s'.preemptions >= s.preemptions
  {
    EnrolBase(s, p);
    Roles(Enrol(s, p));
    if s.current.Some? && s.policy.SRTN? { RunPolicyFrame(Enrol(s, p), s'); }
  }

  // ---------- over whole runs ----------

  lemma NextGrows(s: Sys, s': Sys)
    requires Inv(s) && Next(s, s')
    ensures s'.policy == s.policy && s.procs.Keys <= s'.procs.Keys && Ids(s.finished) <= Ids(s'.finished)
    ensures s.generatorFinished ==> s'.generatorFinished
  {
    if p :| Arrive(s, p, s') {
      ArriveWork(s, p, s');
      assert s.procs.Keys <= Enrol(s, p).procs.Keys;
    } else if SchedTick(s, s') {
      TickWork(s, s');
    } else if RunTick(s, s') {
      AdvanceWork(s, s');
      FinishedAppends(s, s');
    }
  }

  lemma FinishedAppends(s: Sys, s': Sys)
    requires Inv(s) && RunTick(s, s')
    ensures Ids(s.finished) <= Ids(s'.finished)
  {
    PlacedOnce(s);
    if s.current.Some? && s.granted && s.procs[s.current.value].shared <= 1 { CompleteWork(Worked(s), s'); }
  }

  // What holds of every state of an SRTN run, and what its steps do to the counters.
  lemma SrtnState(states: seq<Sys>, n: nat)
    requires Run(states) && Init(states[0]) && n < |states|
    ensures Inv(states[n]) && ShortestRuns(states[n]) && states[n].policy == states[0].policy
    ensures states[0].policy.SRTN? && n + 1 < |states| ==> Counted(states[n], states[n + 1])
  {
    PreemptionBound(states, n);
    PolicyStays(states, n);
    if states[0].policy.SRTN? && n + 1 < |states| { NextCounted(states[n], states[n + 1]); }
  }

  lemma {:induction false} PolicyStays(states: seq<Sys>, n: nat)
    requires Run(states) && Init(states[0]) && n < |states|
    ensures states[n].policy == states[0].policy
  {
    if n > 0 {
      PolicyStays(states, n - 1);
      PreemptionBound(states, n - 1);
      NextGrows(states[n - 1], states[n]);
    }
  }

  // The counters of every process are the numbers of its events so far.
  lemma {:induction false} CountersCount(states: seq<Sys>, n: nat, e: Event, i: int)
    requires Run(states) && Init(states[0]) && states[0].policy.SRTN? && n < |states|
    ensures Counter(e, states[n], i) == Times(e, states, n, i)
  {
    if n > 0 {
      CountersCount(states, n - 1, e, i);
      SrtnState(states, n - 1);
    }
  }

  lemma {:induction false} PreemptionsCount(states: seq<Sys>, n: nat)
    requires Run(states) && Init(states[0]) && states[0].policy.SRTN? && n < |states|
    ensures states[n].preemptions == Count(Displaces, states, n) == Count(IsPreempted, states, n)
  {
    if n > 0 {
      PreemptionsCount(states, n - 1);
      SrtnState(states, n - 1);
    }
  }

  // A process arrives once, so it displaces another at most once.
  lemma {:induction false} DisplacesOnce(states: seq<Sys>, n: nat, i: int)
    requires Run(states) && Init(states[0]) && n < |states|
    ensures Times(Displaces, states, n, i) <= if i in states[n].procs then 1 else 0
  {
    if n > 0 {
      DisplacesOnce(states, n - 1, i);
      SrtnState(states, n - 1);
      SrtnState(states, n);
      NextGrows(states[n - 1], states[n]);
      PlacedOnce(states[n]);
    }
  }

  // Nobody displaces the process the handler dispatched: it hands over only once no more arrivals can come.
  ghost predicate Settled(s: Sys, i: int) { s.generatorFinished && (s.current == Some(i) || i in Ids(s.finished)) }

  lemma HandOverSettles(s: Sys, s': Sys, i: int)
    requires Inv(s) && Inv(s') && s.policy.SRTN? && ShortestRuns(s) && Next(s, s')
    ensures Settled(s, i) ==> Settled(s', i) && !Occurs(IsHandedOver, s, s', i)
    ensures Occurs(IsHandedOver, s, s', i) ==> Settled(s', i)
  {
    PlacedOnce(s);
    PlacedOnce(s');
    NextGrows(s, s');
    if SchedTick(s, s') {
      if s.clk != s.clockValue && s.current.Some? {
        TickDoesNotPreempt(s, s');
        TickCharges(s, s.(clockValue := s.clk), s'.(granted := s.granted, phase := BeforeWork));
      }
    } else if RunTick(s, s') {
      HandOverInRun(s, s', i);
    }
  }

  lemma HandOverInRun(s: Sys, s': Sys, i: int)
    requires Inv(s) && Known(s) && RunTick(s, s')
    ensures s.current == Some(i) ==> s'.current == Some(i) || i in Ids(s'.finished)
    ensures Occurs(IsHandedOver, s, s', i) ==> s'.generatorFinished
  {
    PlacedOnce(s);
    if s.current.Some? && s.granted && s.procs[s.current.value].shared <= 1 {
      var w := Worked(s);
      CompleteWork(w, s');
      IdsAppend(s.finished, s'.finished[|s.finished|]);
    }
  }

  lemma {:induction false} HandedOverOnce(states: seq<Sys>, n: nat, i: int)
    requires Run(states) && Init(states[0]) && states[0].policy.SRTN? && n < |states|
    ensures Times(IsHandedOver, states, n, i) <= if Settled(states[n], i) then 1 else 0
  {
    if n > 0 {
      HandedOverOnce(states, n - 1, i);
      SrtnState(states, n - 1);
      SrtnState(states, n);
      HandOverSettles(states[n - 1], states[n], i);
    }
  }

  // The wait recorded at completion (turnaround less execution time) against the one accumulated in the control
  // block: the same under HPF and RR. Under SRTN the block is short by one tick if the process displaced another on
  // its arrival, short by one if a completion handler dispatched it, and long by one for every time it was preempted:
  // the two agree exactly when these balance.
  lemma RecordedWait(states: seq<Sys>, n: nat, r: Record)
    requires Run(states) && Init(states[0]) && n < |states| && r in states[n].finished
    ensures r.id in states[n].procs && r.turnaround == r.wait + states[n].procs[r.id].pcb.exec
    ensures !states[0].policy.SRTN? ==> r.wait == states[n].procs[r.id].pcb.waiting
    ensures states[0].policy.SRTN? ==>
              var waiting := states[n].procs[r.id].pcb.waiting;
              var early, late := Times(Displaces, states, n, r.id), Times(IsHandedOver, states, n, r.id);
              && r.wait - waiting == early + late - Times(IsPreempted, states, n, r.id)
              && (r.wait == waiting <==> Times(IsPreempted, states, n, r.id) == early + late)
              && early <= 1 && late <= 1
  {
    var s := states[n];
    SrtnState(states, n);
    assert RecordOk(s, r) && ProcOk(s, r.id);
    if s.policy.SRTN? {
      PlacedOnce(s);
      var k :| 0 <= k < |s.finished| && s.finished[k] == r;
      assert Ids(s.finished)[k] == r.id;
      CountersCount(states, n, Displaces, r.id);
      CountersCount(states, n, IsPreempted, r.id);
      CountersCount(states, n, IsHandedOver, r.id);
      DisplacesOnce(states, n, r.id);
      HandedOverOnce(states, n, r.id);
    }
  }

  // ---------- a run in which they differ ----------

  const LONG := Pcb(1, 101, 0, 3, 0, 1, -1, 3, 0, -1, WAITING)
  const SHORT := Pcb(2, 102, 1, 1, 0, 1, -1, 1, 0, -1, WAITING)

  function Idle(): Sys {
    Sys(SRTN, 1, 0, BeforeWork, -1, 0, -1, 0, map[], [], None, false, false, [], 0, 0)
  }

  function LongRuns(): Sys {
    var p := Proc(LONG.(state := RUNNING, start := 0), 3, 0, 0, 0);
    Sys(SRTN, 1, 0, AfterWork, 0, 0, 0, 3, map[1 := p], [], Some(1), true, false, [], 0, 0)
  }

  function ShortRuns(): Sys {
    var p := Proc(LONG.(state := READY, start := 0, remaining := 2, lastPreempt := 0), 2, 0, 1, 0);
    var q := Proc(SHORT.(state := RUNNING, start := 0, waiting := -1), 1, 1, 0, 0);
    Sys(SRTN, 1, 1, BeforeWork, 0, 0, 0, 4, map[1 := p, 2 := q], [1], Some(2), false, false, [], 1, 1)
  }

  lemma LongStarts() returns (s: Sys)
    ensures Next(Idle(), s) && Next(s, LongRuns())
  {
    s := Enrol(Idle(), LONG);
    assert Arrive(Idle(), LONG, s);
    var m := LongRuns().(granted := false, phase := BeforeWork);
    assert m == Dispatch(s.(clockValue := 0, ready := []), 1);
    assert Picks(s.(clockValue := 0), m);
    assert SchedTick(s, LongRuns());
  }

  lemma ShortTakesOver() returns (s: Sys)
    ensures Next(LongRuns(), s) && Next(s, ShortRuns())
  {
    s := Worked(LongRuns());
    assert RunTick(LongRuns(), s);
    var r := Refresh(Enrol(s, SHORT));
    var q := Requeue(r);
    assert r.ready == [2] && q.ready == [2, 1];
    assert ShortRuns() == Dispatch(q.(ready := [1]), 2);
    assert Takes(q, q.ready, 2, [1]);
    assert ShorterReady(r) by { assert 2 in r.ready; }
    assert Arrive(s, SHORT, ShortRuns());
  }

  lemma ShortFinishes() returns (s: Sys, last: Sys)
    ensures Next(ShortRuns(), s) && Next(s, last)
    ensures last.finished == [Record(2, 1, 0)] && 2 in last.procs && last.procs[2].pcb.waiting == -1
  {
    var t := ShortRuns().(clockValue := 1);
    s := Refresh(t).(granted := true, phase := AfterWork);
    assert !ShorterReady(Refresh(t));
    assert SchedTick(ShortRuns(), s);
    last := Retire(Worked(s));
    assert RunTick(s, last);
  }

  lemma SixSteps(a: Sys, b: Sys, c: Sys, d: Sys, e: Sys, f: Sys, g: Sys)
    requires Next(a, b) && Next(b, c) && Next(c, d) && Next(d, e) && Next(e, f) && Next(f, g)
    ensures Run([a, b, c, d, e, f, g])
  {
  }

  // Process 2 needs one tick and arrives at tick 1, when process 1 still needs two: it is started at once and finishes
  // at tick 2. It never waited, and that is what is recorded; its control block says -1.
  lemma WaitsDiffer() returns (states: seq<Sys>)
    ensures Run(states) && Init(states[0]) && states[0].policy.SRTN?
    ensures var s := states[|states| - 1];
            s.finished == [Record(2, 1, 0)] && 2 in s.procs && s.procs[2].pcb.waiting == -1
  {
    var arrived := LongStarts();
    var worked := ShortTakesOver();
    var granted, last := ShortFinishes();
    SixSteps(Idle(), arrived, LongRuns(), worked, ShortRuns(), granted, last);
    states := [Idle(), arrived, LongRuns(), worked, ShortRuns(), granted, last];
  }

  // ---------- in total ----------

  lemma {:induction false} TimesSum(e: Event, states: seq<Sys>, n: nat, all: set<int>)
    requires n < |states|
    requires forall i :: Times(e, states, n, i) > 0 ==> i in all
    ensures Sum(all, i => Times(e, states, n, i)) == Count(e, states, n)
  {
    var now := i => Times(e, states, n, i);
    if n == 0 {
      SumZero(all, now);
    } else {
      forall i | Times(e, states, n - 1, i) > 0 ensures i in all { assert Times(e, states, n, i) > 0; }
      TimesSum(e, states, n - 1, all);
      var before := i => Times(e, states, n - 1, i);
      var s, s' := states[n - 1], states[n];
      if i :| Occurs(e, s, s', i) {
        assert Times(e, states, n, i) > 0;
        SumUpdate(all, before, now, i);
      } else {
        SumSame(all, before, now);
      }
    }
  }

  function TotalWait(f: seq<Record>): int {
    if f == [] then 0 else TotalWait(f[..|f| - 1]) + f[|f| - 1].wait
  }

  lemma {:induction false} TotalWaitSum(f: seq<Record>, all: set<int>, wait: int -> int)
    requires multiset(Ids(f)) == multiset(all) && forall r :: r in f ==> r.wait == wait(r.id)
    ensures TotalWait(f) == Sum(all, wait)
    decreases |f|
  {
    if f == [] {
      assert all == {} by { assert forall i :: i in all ==> multiset(all)[i] == multiset(Ids(f))[i]; }
    } else {
      var rest, last := f[..|f| - 1], f[|f| - 1];
      IdsAppend(rest, last);
      assert f == rest + [last];
      assert multiset(Ids(f)) == multiset(Ids(rest)) + multiset{last.id};
      assert multiset(all)[last.id] >= 1;
      forall i ensures multiset(Ids(rest))[i] == multiset(all - {last.id})[i] {
        assert multiset(Ids(f))[i] == multiset(all)[i];
      }
      TotalWaitSum(rest, all - {last.id}, wait);
      SumRemove(all, wait, last.id);
    }
  }

  ghost function Waited(s: Sys): int -> int { i => if i in s.procs then s.procs[i].pcb.waiting else 0 }

  // What RecordedWait makes of the wait of process i.
  ghost function NetWait(states: seq<Sys>, n: nat, i: int): int
    requires n < |states|
  {
    Waited(states[n])(i) + Times(Displaces, states, n, i) + Times(IsHandedOver, states, n, i)
    - Times(IsPreempted, states, n, i)
  }

  lemma NetWaits(states: seq<Sys>, n: nat)
    requires Run(states) && Init(states[0]) && states[0].policy.SRTN? && n < |states|
    ensures forall r :: r in states[n].finished ==> r.wait == NetWait(states, n, r.id)
  {
    forall r | r in states[n].finished ensures r.wait == NetWait(states, n, r.id) { RecordedWait(states, n, r); }
  }

  lemma NetWaitSum(states: seq<Sys>, n: nat, all: set<int>)
    requires n < |states|
    requires forall e, i :: Times(e, states, n, i) > 0 ==> i in all
    ensures Sum(all, i => NetWait(states, n, i))
         == Sum(all, Waited(states[n])) + Count(Displaces, states, n) + Count(IsHandedOver, states, n)
            - Count(IsPreempted, states, n)
  {
    TimesSum(Displaces, states, n, all);
    TimesSum(IsPreempted, states, n, all);
    TimesSum(IsHandedOver, states, n, all);
    var wait, waited := i => NetWait(states, n, i), Waited(states[n]);
    var early, stale, late := i => Times(Displaces, states, n, i), i => Times(IsPreempted, states, n, i),
                              i => Times(IsHandedOver, states, n, i);
    var charged := i => early(i) + late(i);
    var counted := i => wait(i) + stale(i);
    SumAdd(all, wait, stale, counted);
    SumAdd(all, early, late, charged);
    SumAdd(all, waited, charged, counted);
  }

  // When the main loop exits under SRTN, the recorded waits exceed the accumulated ones, in total, by one tick
  // for every process a completion handler dispatched: what a preemption adds to one block it takes from another.
  lemma TotalWaits(states: seq<Sys>, n: nat)
    requires Run(states) && Init(states[0]) && states[0].policy.SRTN? && n < |states| && ExitTest(states[n])
    ensures TotalWait(states[n].finished)
         == Sum(states[n].procs.Keys, Waited(states[n])) + Count(IsHandedOver, states, n)
    ensures Count(Displaces, states, n) == Count(IsPreempted, states, n) == states[n].preemptions
  {
    var s := states[n];
    SrtnState(states, n);
    PreemptionsCount(states, n);
    assert multiset(Ids(s.finished)) == multiset(s.ready) + Bag(s.current) + multiset(Ids(s.finished));
    NetWaits(states, n);
    TotalWaitSum(s.finished, s.procs.Keys, i => NetWait(states, n, i));
    forall e, i | Times(e, states, n, i) > 0 ensures i in s.procs { OnlyKnownCounted(states, n, e, i); }
    NetWaitSum(states, n, s.procs.Keys);
  }

  lemma OnlyKnownCounted(states: seq<Sys>, n: nat, e: Event, i: int)
    requires Run(states) && Init(states[0]) && states[0].policy.SRTN? && n < |states| && Times(e, states, n, i) > 0
    ensures i in states[n].procs
  {
    CountersCount(states, n, e, i);
    SrtnState(states, n);
    PlacedOnce(states[n]);
  }
}
