/** Round robin: how long a ready process can wait. */
module RoundRobin {
  import opened Wrappers
  import opened Sums
  import opened SchedulerModel
  import opened SchedulerInvariant

  // The position of i in the queue, counted from the front.
  ghost predicate At(s: Sys, i: int, k: nat) { k < |s.ready| && s.ready[k] == i }

  // Ticks until the process at index k is dispatched, at the latest. A slice lasts quantum ticks,
  // and a completion can cost one more, because the completion handler already shows the clock to the loop.
  function Bound(s: Sys, k: nat): int {
    k * (s.quantum + 1)
    + match s.phase
      case AfterWork =>
        if s.current.Some? then Max(1, s.quantum - (s.clockValue - s.sliceStart)) + 1 else 1
      case BeforeWork =>
        if s.current.Some? then Max(0, s.quantum - (s.clk - s.sliceStart)) + 1
        else if s.clockValue == s.clk then 1 else 0
  }

  // The latest clock reading at which the process at index k is still ready after the tick's work.
  function Deadline(s: Sys, k: nat): int { s.clk + Bound(s, k) }

  lemma OneLess(k: nat, q: int)
    requires k >= 1
    ensures (k - 1) * (q + 1) + q + 1 == k * (q + 1)
  {
  }

  // Dispatching the front of the queue moves everybody up.
  lemma PicksFront(s: Sys, s': Sys, i: int, k: nat)
    requires Known(s) && s.policy.RR? && Picks(s, s') && At(s, i, k)
    ensures SameFrame(s, s') && s'.sliceStart == s.clockValue
    ensures s'.current == Some(s.ready[0]) && s'.ready == s.ready[1..]
    ensures if k == 0 then s'.current == Some(i) else At(s', i, k - 1)
  {
    PicksFrame(s, s');
  }

  // While a process waits its index never grows and its deadline never moves back.
  lemma WaitingMovesUp(s: Sys, s': Sys, i: int, k: nat) returns (k': nat)
    requires Inv(s) && s.policy.RR? && At(s, i, k) && Next(s, s')
    ensures s'.current == Some(i) || (k' <= k && At(s', i, k') && Deadline(s', k') <= Deadline(s, k))
    ensures s'.policy.RR? && s'.quantum == s.quantum
  {
    Roles(s);
    k' := k;
    if p :| Arrive(s, p, s') {
      assert s'.ready == s.ready + [p.id];
    } else if SchedTick(s, s') {
      k' := TickMovesUp(s, s', i, k);
    } else if RunTick(s, s') {
    }
  }

  // A dispatch in this tick leaves a full slice, and the tick a completion may cost, to the process in front.
  lemma NewSlice(s: Sys, s': Sys, k: nat)
    requires s'.clk == s.clk == s'.clockValue == s'.sliceStart && s'.quantum == s.quantum > 0
    requires s.phase.BeforeWork? && s'.phase.AfterWork? && s'.current.Some?
    ensures k >= 1 ==> Deadline(s', k - 1) <= Deadline(s, k)
  {
    if k >= 1 { OneLess(k, s.quantum); }
  }

  // The tick's work goes on with the slice, or dispatches the front of the queue.
  ghost predicate SliceGoesOn(s: Sys, s': Sys, i: int, k: nat) {
    && At(s', i, k) && s'.current == s.current && s'.sliceStart == s.sliceStart
    && (s.clk == s.clockValue || (s.current.Some? && s.clk - s.sliceStart < s.quantum))
  }

  ghost predicate FrontStarts(s: Sys, s': Sys, i: int, k: nat) {
    && s.clk != s.clockValue && s'.current.Some? && s'.sliceStart == s.clk
    && if k == 0 then s'.current == Some(i) else At(s', i, k - 1)
  }

  lemma RrTick(s: Sys, s': Sys, i: int, k: nat)
    requires Inv(s) && s.policy.RR? && At(s, i, k) && SchedTick(s, s')
    ensures s'.policy.RR? && s'.quantum == s.quantum && s'.clk == s.clk == s'.clockValue && s'.phase.AfterWork?
    ensures SliceGoesOn(s, s', i, k) || FrontStarts(s, s', i, k)
  {
    if s.clk != s.clockValue {
      Roles(s);
      var t := s.(clockValue := s.clk);
      var m := s'.(granted := s.granted, phase := BeforeWork);
      RrPolicy(t, m, i, k);
    }
  }

  lemma RrPolicy(t: Sys, m: Sys, i: int, k: nat)
    requires Base(t) && Known(t) && t.policy.RR? && At(t, i, k) && RunPolicy(t, m)
    ensures SameFrame(t, m)
    ensures if t.current.Some? && t.clockValue - t.sliceStart < t.quantum
            then At(m, i, k) && m.current == t.current && m.sliceStart == t.sliceStart
            else m.current.Some? && m.sliceStart == t.clockValue
                 && if k == 0 then m.current == Some(i) else At(m, i, k - 1)
  {
    var r := Refresh(t);
    RefreshFrame(t);
    Roles(t);
    if r.current.None? {
      PicksFront(r, m, i, k);
    } else if t.clockValue - t.sliceStart >= t.quantum {
      RefreshedRuns(t);
      RequeueFrame(r);
      PicksFront(Requeue(r), m, i, k);
    }
  }

  lemma TickMovesUp(s: Sys, s': Sys, i: int, k: nat) returns (k': nat)
    requires Inv(s) && s.policy.RR? && At(s, i, k) && SchedTick(s, s')
    ensures s'.current == Some(i) || (k' <= k && At(s', i, k') && Deadline(s', k') <= Deadline(s, k))
    ensures s'.policy.RR? && s'.quantum == s.quantum
  {
    k' := k;
    RrTick(s, s', i, k);
    if FrontStarts(s, s', i, k) && k >= 1 {
      NewSlice(s, s', k);
      k' := k - 1;
    }
  }

  lemma OneMore(k: nat, q: int)
    ensures (k + 1) * q == k * q + q
  {
  }

  // After (k + 1) * (quantum + 1) ticks the deadline of index k has passed.
  lemma OverDue(s: Sys, k: nat, t: Sys, k': nat)
    requires Inv(s) && Inv(t) && s.policy.RR? && t.policy.RR? && t.phase.AfterWork? && s.quantum == t.quantum
    requires t.clk >= s.clk + (k + 1) * (s.quantum + 1)
    ensures Deadline(t, k') > Deadline(s, k)
  {
    OneMore(k, s.quantum + 1);
    NonNegativeProduct(k', t.quantum + 1);
  }

  // Whatever arrives, completes or is preempted meanwhile, a process at index k of the queue becomes current
  // within (k + 1) * (quantum + 1) clock ticks.
  lemma {:induction false} BoundedWaiting(states: seq<Sys>, i: int, k: nat, n: nat)
    requires Run(states) && Inv(states[0]) && states[0].policy.RR? && At(states[0], i, k)
    requires n < |states| && states[n].phase.AfterWork?
    requires states[n].clk >= states[0].clk + (k + 1) * (states[0].quantum + 1)
    ensures exists m :: 0 < m <= n && states[m].current == Some(i)
  {
    if forall m :: 0 < m <= n ==> states[m].current != Some(i) {
      var k' := StillWaiting(states, i, k, n);
      OverDue(states[0], k, states[n], k');
    }
  }

  lemma {:induction false} StillWaiting(states: seq<Sys>, i: int, k: nat, n: nat) returns (k': nat)
    requires Run(states) && Inv(states[0]) && states[0].policy.RR? && At(states[0], i, k)
    requires n < |states| && forall m :: 0 < m <= n ==> states[m].current != Some(i)
    ensures Inv(states[n]) && states[n].policy.RR? && states[n].quantum == states[0].quantum
    ensures k' <= k && At(states[n], i, k') && Deadline(states[n], k') <= Deadline(states[0], k)
  {
    if n == 0 {
      k' := k;
    } else {
      var before := StillWaiting(states, i, k, n - 1);
      NextInv(states[n - 1], states[n]);
      k' := WaitingMovesUp(states[n - 1], states[n], i, before);
    }
  }

  // ---------- counted in scheduling rounds ----------

  // A round is a tick in which run_algorithm runs; the loop skips it when clockValue already shows the clock.
  ghost predicate IsRound(s: Sys, s': Sys) { s.phase.BeforeWork? && s'.phase.AfterWork? && s.clk != s.clockValue }

  ghost function Rounds(states: seq<Sys>, n: nat): nat
    requires n < |states|
  {
    if n == 0 then 0 else Rounds(states, n - 1) + if IsRound(states[n - 1], states[n]) then 1 else 0
  }

  // The rounds that may pass up to and including the one that dispatches the process at index k.
  function RoundsLeft(s: Sys, k: nat): int {
    k * s.quantum + 1
    + if s.current.None? then 0
      else Max(0, s.quantum - ((if s.phase.AfterWork? then s.clk + 1 else s.clk) - s.sliceStart))
  }

  lemma RoundsOneLess(k: nat, q: int)
    requires k >= 1
    ensures (k - 1) * q + q == k * q
  {
  }

  // Every step keeps the promise, and every round uses one up.
  lemma WaitingUsesRounds(s: Sys, s': Sys, i: int, k: nat) returns (k': nat)
    requires Inv(s) && s.policy.RR? && At(s, i, k) && Next(s, s')
    ensures s'.policy.RR? && s'.quantum == s.quantum
    ensures s'.current == Some(i)
            || (k' <= k && At(s', i, k') && RoundsLeft(s', k') + (if IsRound(s, s') then 1 else 0) <= RoundsLeft(s, k))
  {
    Roles(s);
    k' := k;
    if p :| Arrive(s, p, s') {
      assert s'.ready == s.ready + [p.id];
    } else if SchedTick(s, s') {
      k' := TickUsesRound(s, s', i, k);
    } else if RunTick(s, s') {
    }
  }

  lemma TickUsesRound(s: Sys, s': Sys, i: int, k: nat) returns (k': nat)
    requires Inv(s) && s.policy.RR? && At(s, i, k) && SchedTick(s, s')
    ensures s'.policy.RR? && s'.quantum == s.quantum
    ensures s'.current == Some(i)
            || (k' <= k && At(s', i, k') && RoundsLeft(s', k') + (if IsRound(s, s') then 1 else 0) <= RoundsLeft(s, k))
  {
    k' := k;
    RrTick(s, s', i, k);
    if FrontStarts(s, s', i, k) && k >= 1 {
      RoundsOneLess(k, s.quantum);
      k' := k - 1;
    }
  }

  lemma {:induction false} RoundsUsed(states: seq<Sys>, i: int, k: nat, n: nat) returns (k': nat)
    requires Run(states) && Inv(states[0]) && states[0].policy.RR? && At(states[0], i, k) && n < |states|
    requires forall m :: 0 < m <= n ==> states[m].current != Some(i)
    ensures states[n].policy.RR? && states[n].quantum > 0 && k' <= k && At(states[n], i, k')
    ensures RoundsLeft(states[n], k') + Rounds(states, n) <= RoundsLeft(states[0], k)
  {
    k' := k;
    if n > 0 {
      RunInv(states, n - 1);
      k' := RoundsUsed(states, i, k, n - 1);
      k' := WaitingUsesRounds(states[n - 1], states[n], i, k');
    }
  }

  // In front of the queue's k full slices lies at most the rest of one more.
  lemma RoundsLeftAtMost(s: Sys, k: nat)
    requires Inv(s) && s.policy.RR?
    ensures RoundsLeft(s, k) <= k * s.quantum + s.quantum
  {
  }

  lemma RoundsLeftPositive(s: Sys, k: nat)
    requires s.quantum > 0
    ensures RoundsLeft(s, k) >= 1
  {
    NonNegativeProduct(k, s.quantum);
  }

  // Whatever arrives, completes or is preempted meanwhile, a process at index k of the queue becomes current
  // within (k + 1) * quantum scheduling rounds, wherever in a tick the counting starts.
  lemma BoundedRounds(states: seq<Sys>, i: int, k: nat, n: nat)
    requires Run(states) && Inv(states[0]) && states[0].policy.RR? && At(states[0], i, k)
    requires n < |states| && Rounds(states, n) >= (k + 1) * states[0].quantum
    ensures exists m :: 0 < m <= n && states[m].current == Some(i)
  {
    if forall m :: 0 < m <= n ==> states[m].current != Some(i) {
      var k' := RoundsUsed(states, i, k, n);
      OneMore(k, states[0].quantum);
      RoundsLeftAtMost(states[0], k);
      RoundsLeftPositive(states[n], k');
    }
  }

  // A completion costs a tick that is no round: its handler already shows the clock to the loop.
  // With a quantum of 1 the tick bound is then two ticks, not one, for the process in front.
  lemma CompletionSkipsARound(s: Sys, s': Sys, s'': Sys, i: int)
    requires Inv(s) && s.policy.RR? && s.phase.AfterWork? && s.granted && At(s, i, 0)
    requires Known(s) && s.current.Some? && s.procs[s.current.value].shared == 1
    requires RunTick(s, s') && SchedTick(s', s'')
    ensures !IsRound(s', s'') && s''.current.None? && s''.phase.AfterWork? && At(s'', i, 0)
    ensures s''.clk == s.clk + 1 && s'.current.None?
  {
  }
}
