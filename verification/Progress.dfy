/** The system never gets stuck: from every reachable state some step can be made. */
module Progress {
  import Admission
  import CellRuns
  import opened Processes
  import opened SchedulerModel
  import opened SchedulerInvariant
  import opened Simulation
  import opened SimulationInvariant

  // ---------- the scheduler can always choose ----------

  lemma {:induction false} LeastOf(from: seq<int>, key: int -> int) returns (k: nat)
    requires from != []
    ensures k < |from| && forall i :: i in from ==> key(from[k]) <= key(i)
    decreases |from|
  {
    k := 0;
    if |from| > 1 {
      var j := LeastOf(from[1..], key);
      if key(from[j + 1]) < key(from[0]) { k := j + 1; }
    }
  }

  lemma TakenFrom(from: seq<int>, k: nat)
    requires k < |from|
    ensures multiset(from[..k] + from[k + 1..]) == multiset(from) - multiset{from[k]}
  {
    assert from == from[..k] + [from[k]] + from[k + 1..];
  }

  lemma CanTake(s: Sys) returns (x: int, rest: seq<int>)
    requires ReadyKnown(s) && s.ready != []
    ensures x in s.procs && Takes(s, s.ready, x, rest)
  {
    if s.policy.RR? {
      x, rest := s.ready[0], s.ready[1..];
      assert s.ready == [x] + rest;
    } else {
      var key := i => if i in s.procs then Key(s, i) else 0;
      var k := LeastOf(s.ready, key);
      x, rest := s.ready[k], s.ready[..k] + s.ready[k + 1..];
      TakenFrom(s.ready, k);
      forall i | i in s.ready ensures i in s.procs && Key(s, x) <= Key(s, i) { assert key(x) <= key(i); }
    }
  }

  lemma CanPick(s: Sys) returns (s': Sys)
    requires ReadyKnown(s)
    ensures Picks(s, s')
  {
    s' := s;
    if s.ready != [] {
      var x, rest := CanTake(s);
      s' := Dispatch(s.(ready := rest), x);
    }
  }

  lemma CanSwitch(s: Sys) returns (s': Sys)
    requires Known(s)
    ensures ContextSwitch(s, s')
  {
    if s.current.None? {
      s' := CanPick(s);
    } else if s.procs[s.current.value].shared == 0 {
      s' := Refresh(s);
    } else {
      s' := CanPick(Requeue(s));
    }
  }

  lemma CanRunPolicy(s: Sys) returns (s': Sys)
    requires Known(s)
    ensures RunPolicy(s, s')
  {
    var r := Refresh(s);
    var switched := CanSwitch(r);
    s' := if RunPolicy(s, switched) then switched else r;
  }

  lemma CanArrive(s: Sys, p: Pcb) returns (s': Sys)
    requires Inv(s) && s.phase.BeforeWork? && !s.generatorFinished && p.id !in s.procs && p.exec >= 1
    ensures Arrive(s, p, s')
  {
    PlacedOnce(s);
    var e := Enrol(s, p);
    s' := if s.current.None? then e.(clockValue := -1) else e;
    if s.current.Some? && s.policy.SRTN? { s' := CanRunPolicy(e); }
  }

  lemma CanTick(s: Sys) returns (s': Sys)
    requires Inv(s) && s.phase.BeforeWork?
    ensures SchedTick(s, s')
  {
    PlacedOnce(s);
    s' := s.(phase := AfterWork);
    if s.clk != s.clockValue {
      var t := s.(clockValue := s.clk);
      var m := CanRunPolicy(t);
      RunPolicyFrame(t, m);
      s' := m.(granted := m.current.Some?, phase := AfterWork);
      assert m == s'.(granted := s.granted, phase := BeforeWork);
    }
  }

  lemma CanRun(s: Sys) returns (s': Sys)
    requires Inv(s) && s.phase.AfterWork?
    ensures RunTick(s, s')
  {
    PlacedOnce(s);
    if s.current.Some? && s.granted {
      var w := Worked(s);
      s' := w;
      if w.procs[s.current.value].shared <= 0 {
        s' := Retire(w);
        if w.generatorFinished && w.policy.SRTN? { s' := CanPick(Retire(w)); }
      }
    } else if s.current.Some? {
      var p := s.procs[s.current.value];
      s' := s.(clk := s.clk + 1, phase := BeforeWork, procs := s.procs[s.current.value := p.(stalls := p.stalls + 1)]);
    } else {
      s' := s.(clk := s.clk + 1, phase := BeforeWork);
    }
  }

  // ---------- the system can always move ----------

  lemma {:induction false} NextArrival(l: Workload, due: set<int>, first: int) returns (i: int)
    requires first in due && forall k :: k in due ==> k in l.jobs
    ensures i in due && forall k :: k in due ==> l.jobs[i].arrival <= l.jobs[k].arrival
    decreases due
  {
    i := first;
    var rest := due - {first};
    assert forall k :: k in due ==> k == first || k in rest;
    if other :| other in rest {
      var j := NextArrival(l, rest, other);
      if l.jobs[j].arrival < l.jobs[i].arrival { i := j; }
    }
  }

  lemma CanServe(l: Workload, w: World) returns (w': World)
    requires WorldOk(l, w) && w.stage.Serving?
    ensures Step(l, w, w')
  {
    if w.exited != {} {
      var i :| i in w.exited;
      w' := w.(exited := w.exited - {i}, cells := CellRuns.Exited(w.cells, l.root, l.fork(i)));
      assert Reap(l, w, i, w');
    } else if w.waiting != [] {
      var p := w.waiting[0];
      var d := Admission.Offer(l.root, Admission.Desk(w.cells, w.mail, w.kept), p, l.fork(p.id));
      w' := w.(cells := d.cells, mail := d.sent, kept := d.left, waiting := w.waiting[1..]);
      assert ServeOne(l, w, w');
    } else {
      w' := w.(stage := Releasing, waiting := w.kept, kept := []);
      assert LineUpAgain(l, w, w');
    }
  }

  lemma CanRelease(l: Workload, w: World) returns (w': World)
    requires WorldOk(l, w) && w.stage.Releasing? && !NothingDue(l, w)
    ensures Step(l, w, w')
  {
    var early :| early in w.arrivals && early in l.jobs && l.jobs[early].arrival <= w.sched.clk;
    var known := set k | k in w.arrivals && k in l.jobs;
    var i := NextArrival(l, known, early);
    assert l.jobs[i].arrival <= l.jobs[early].arrival;
    var d := Admission.Offer(l.root, Admission.Desk(w.cells, w.mail, w.waiting), NewPcb(l.jobs[i]), l.fork(i));
    w' := w.(cells := d.cells, mail := d.sent, waiting := d.left, arrivals := w.arrivals - {i});
    assert Release(l, w, i, w');
  }

  lemma CanReceive(l: Workload, w: World) returns (w': World)
    requires WorldOk(l, w) && w.stage.Releasing? && NothingDue(l, w) && w.mail != []
    ensures Step(l, w, w')
  {
    var p := w.mail[0];
    HeadIds(w.mail);
    Counts(l, w, p.id);
    assert multiset(PcbIds(w.mail))[p.id] > 0;
    assert p.id in w.sched.procs ==> multiset(w.sched.procs.Keys)[p.id] > 0;
    var s' := CanArrive(w.sched, p);
    w' := w.(mail := w.mail[1..], sched := s');
    assert Receive(l, w, w');
  }

  lemma CanAdvance(l: Workload, w: World) returns (w': World)
    requires WorldOk(l, w) && w.stage.Working?
    ensures Step(l, w, w')
  {
    ToldOk(w);
    var s' := CanRun(Told(w));
    w' := w.(stage := Serving, sched := s', exited := w.exited + (Done(s') - Done(w.sched)));
    assert Advance(w, w');
  }

  lemma CanStep(l: Workload, w: World) returns (w': World)
    requires WorldOk(l, w)
    ensures Step(l, w, w')
  {
    if w.stage.Serving? {
      w' := CanServe(l, w);
    } else if w.stage.Working? {
      w' := CanAdvance(l, w);
    } else if !NothingDue(l, w) {
      w' := CanRelease(l, w);
    } else if w.mail != [] {
      w' := CanReceive(l, w);
    } else {
      var s' := CanTick(w.sched);
      w' := w.(stage := Working, sched := s');
      assert Tick(l, w, w');
    }
  }

  lemma RunExtended(l: Workload, states: seq<World>, w': World)
    requires RunOf(l, states) && Step(l, states[|states| - 1], w')
    ensures RunOf(l, states + [w'])
  {
    var more := states + [w'];
    forall n | 0 <= n < |more| - 1 ensures Step(l, more[n], more[n + 1]) {
      if n < |states| - 1 { assert more[n] == states[n] && more[n + 1] == states[n + 1]; }
    }
  }

  // Main result: no reachable state of the system is stuck.
  lemma NeverStuck(l: Workload, states: seq<World>)
    requires RunOf(l, states)
    ensures exists w' :: RunOf(l, states + [w'])
  {
    RunKeeps(l, states, |states| - 1);
    var w' := CanStep(l, states[|states| - 1]);
    RunExtended(l, states, w');
  }
}
