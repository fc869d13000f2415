/** A run of the whole system at whose end a process that has yet to run owns no memory:
    the exit of another process has taken its block away. */
module LostBlock {
  import opened Wrappers
  import opened Blocks
  import opened FirstFit
  import opened Processes
  import opened BlockCells
  import opened CellRuns
  import opened Overlaps
  import opened Admission
  import opened SchedulerModel
  import opened SchedulerInvariant
  import opened Simulation
  import opened SimulationLoops
  import opened SimulationTheorems

  // ---------- the input: four processes of one tick each, under HPF ----------

  // The pids of 1 to 4 are 101 to 104; the others are never asked for.
  function Pid(i: int): int {
    if 1 <= i <= 4 then 100 + i else if i > 4 then 2 * i + 200 else 201 - 2 * i
  }

  function Rank(i: int): int { if i == 3 then 1 else if i == 1 then 2 else if i == 4 then 3 else 4 }

  function JobOf(i: int, small: int, large: int): Job {
    Job(i, if i == 4 then 3 else 0, 1, Rank(i), if i <= 2 then small else large)
  }

  ghost function LossLoad(root: Blk, small: int, large: int): Workload {
    Workload(map i | i in {1, 2, 3, 4} :: JobOf(i, small, large), root, Pid, 0, 3)
  }

  lemma GoodLossLoad(root: Blk, small: int, large: int)
    requires root.j == 0 && 1 <= small && CeilLog(small) + 2 <= CeilLog(large) < root.k
    ensures GoodLoad(LossLoad(root, small, large))
  {
    Pow2Monotone(CeilLog(small), CeilLog(large));
    Pow2Monotone(CeilLog(large), root.k);
  }

  // ---------- the scheduler, a round at a time ----------

  // Nothing runs; the processes in `ready` have yet to run, for one tick each.
  ghost predicate Idling(s: Sys, ready: seq<int>, done: seq<int>, clk: int) {
    && s.policy.HPF? && s.phase.BeforeWork? && s.current.None? && !s.granted && !s.generatorFinished
    && s.ready == ready && Ids(s.finished) == done && s.clk == clk
    && forall i :: i in ready ==>
         i in s.procs && s.procs[i].shared == 1 && s.procs[i].pcb.start == -1 && s.procs[i].pcb.priority == Rank(i)
  }

  lemma OneArrives(s: Sys, p: Pcb, ready: seq<int>, done: seq<int>, clk: int) returns (s': Sys)
    requires Idling(s, ready, done, clk) && p.id !in s.procs && p.exec == 1 && p.priority == Rank(p.id)
    ensures Arrive(s, p, s') && Idling(s', ready + [p.id], done, clk) && s'.clockValue == -1
    ensures s'.procs.Keys == s.procs.Keys + {p.id}
  {
    s' := Enrol(s, p).(clockValue := -1);
  }

  // One process is dispatched.
  lemma OneStarts(s: Sys, ready: seq<int>, done: seq<int>, clk: int, x: int, rest: seq<int>) returns (t: Sys)
    requires Idling(s, ready, done, clk) && s.clockValue != clk
    requires x in ready && x !in rest && multiset(rest) == multiset(ready) - multiset{x}
    requires forall i :: i in ready ==> Rank(x) <= Rank(i)
    ensures SchedTick(s, t) && Running(t, x, rest, done, clk) && t.procs.Keys == s.procs.Keys
  {
    var m := Dispatch(s.(clockValue := clk, ready := rest), x);
    assert Picks(s.(clockValue := clk), m);
    t := m.(granted := true, phase := AfterWork);
    assert m == t.(granted := s.granted, phase := BeforeWork);
    forall i | i in rest ensures i in ready { assert multiset(ready)[i] >= multiset(rest)[i] > 0; }
  }

  ghost predicate Running(t: Sys, x: int, rest: seq<int>, done: seq<int>, clk: int) {
    && x !in rest && t.phase.AfterWork? && t.granted && t.current == Some(x) && t.clk == clk && x in t.procs
    && t.procs[x].shared == 1 && !t.generatorFinished
    && Idling(t.(phase := BeforeWork, granted := false, current := None), rest, done, clk)
  }

  // It runs for its tick and completes.
  lemma OneCompletes(t: Sys, x: int, rest: seq<int>, done: seq<int>, clk: int, told: bool) returns (s': Sys)
    requires Running(t, x, rest, done, clk)
    ensures RunTick(t.(generatorFinished := told), s') && Ids(s'.finished) == done + [x]
    ensures Idling(s'.(generatorFinished := false), rest, done + [x], clk + 1) && s'.generatorFinished == told
    ensures s'.clockValue == clk + 1 && s'.procs.Keys == t.procs.Keys
  {
    var u := t.(generatorFinished := told);
    s' := Retire(Worked(u));
    IdsAppend(t.finished, s'.finished[|t.finished|]);
    forall i | i in rest ensures s'.procs[i] == t.procs[i] {}
  }

  // After a completion the loop passes over one tick.
  lemma OnePasses(s: Sys, ready: seq<int>, done: seq<int>, clk: int) returns (t: Sys, s': Sys)
    requires Idling(s, ready, done, clk) && s.clockValue == clk
    ensures SchedTick(s, t) && RunTick(t, s') && Idling(s', ready, done, clk + 1) && s'.clockValue == clk
    ensures Ids(t.finished) == done && s'.procs.Keys == s.procs.Keys && !t.generatorFinished
  {
    t := s.(phase := AfterWork);
    s' := t.(clk := clk + 1, phase := BeforeWork);
  }

  // ---------- the system, a round at a time ----------

  ghost predicate Between(w: World, arrivals: set<int>, cells: Cells, exited: set<int>) {
    w == World(Serving, arrivals, [], [], [], cells, exited, w.sched)
  }

  // What released jobs, messages and scheduler steps make of one tick.
  ghost predicate Round(l: Workload, w: World, released: seq<Job>, sent: seq<Pcb>, cells: Cells) {
    && DueJobs(l, w, released)
    && OfferAll(l.root, Desk(w.cells, [], []), NewPcbs(released), l.fork) == Desk(cells, sent, [])
  }

  lemma RoundPath(l: Workload, w: World, released: seq<Job>, sent: seq<Pcb>, cells: Cells, trace: seq<Sys>,
                  t: Sys, s': Sys) returns (states: seq<World>, w': World)
    requires GoodLoad(l) && Between(w, w.arrivals, w.cells, {}) && Round(l, w, released, sent, cells)
    requires Received(w.sched, sent, trace) && SchedTick(trace[|sent|], t) && !t.generatorFinished
    requires RunTick(t.(generatorFinished := w.arrivals - JobIds(released) == {}), s')
    ensures Path(l, states, w, w') && w'.sched == s'
    ensures Between(w', w.arrivals - JobIds(released), cells, Done(s') - Done(t))
  {
    assert OfferAll(l.root, Desk(w.cells, w.mail, []), w.waiting, l.fork) == Desk(w.cells, [], []);
    assert released[..|released|] == released;
    states := TickIsAPath(l, w, released, trace, t);
    var late := World(Working, w.arrivals - JobIds(released), [], [], [], cells, {}, t);
    w' := World(Serving, w.arrivals - JobIds(released), [], [], [], cells, {} + (Done(s') - Done(t)), s');
    assert Advance(late, w');
    Extended(l, states, w, late, w');
    states := states + [w'];
  }

  lemma ReapPath(l: Workload, before: seq<World>, w: World, w': World, i: int) returns (states: seq<World>, w'': World)
    requires Path(l, before, w, w') && Between(w', w'.arrivals, w'.cells, {i})
    ensures Path(l, states, w, w'') && w''.sched == w'.sched && states == before + [w'']
    ensures Between(w'', w'.arrivals, Exited(w'.cells, l.root, l.fork(i)), {})
  {
    w'' := w'.(exited := {}, cells := Exited(w'.cells, l.root, l.fork(i)));
    assert w'.exited - {i} == {};
    assert Reap(l, w', i, w'');
    Extended(l, before, w, w', w'');
    states := before + [w''];
  }

  // ---------- memory ----------

  function Message(i: int, small: int, large: int): Pcb { NewPcb(JobOf(i, small, large)).(pid := Pid(i)) }

  // From the i-th operation of the run to the k-th: these jobs are offered, and all are admitted.
  ghost predicate Admitted(root: Blk, small: int, large: int, i: nat, jobs: seq<Job>, k: nat, sent: seq<Pcb>)
    requires i <= 7 && k <= 7
  {
    OfferAll(root, Desk(CellsAt(root, small, large, i), [], []), NewPcbs(jobs), Pid)
    == Desk(CellsAt(root, small, large, k), sent, [])
  }

  lemma NobodyAdmitted(root: Blk, small: int, large: int, i: nat)
    requires i <= 7
    ensures Admitted(root, small, large, i, [], i, [])
  {
    assert NewPcbs([]) == [];
  }

  lemma OneMoreAdmitted(root: Blk, small: int, large: int, i: nat, jobs: seq<Job>, k: nat, sent: seq<Pcb>, id: int)
    requires i <= 7 && k < 7 && Admitted(root, small, large, i, jobs, k, sent)
    requires LossRun(small, large)[k] == Request(id, Pid(id), JobOf(id, small, large).memory)
    requires GrantedAt(root, small, large, k, JobOf(id, small, large).memory)
    ensures Admitted(root, small, large, i, jobs + [JobOf(id, small, large)], k + 1, sent + [Message(id, small, large)])
  {
    var j := JobOf(id, small, large);
    var ps := NewPcbs(jobs + [j]);
    assert ps[..|ps| - 1] == NewPcbs(jobs);
    CellsNext(root, small, large, k);
  }

  lemma FirstAdmitted(root: Blk, small: int, large: int)
    requires GrantedAt(root, small, large, 0, small)
    ensures Admitted(root, small, large, 0, [JobOf(1, small, large)], 1, [Message(1, small, large)])
  {
    NobodyAdmitted(root, small, large, 0);
    OneMoreAdmitted(root, small, large, 0, [], 0, [], 1);
    assert [] + [JobOf(1, small, large)] == [JobOf(1, small, large)];
    assert [] + [Message(1, small, large)] == [Message(1, small, large)];
  }

  lemma SecondAdmitted(root: Blk, small: int, large: int)
    requires GrantedAt(root, small, large, 0, small) && GrantedAt(root, small, large, 1, small)
    ensures Admitted(root, small, large, 0, [JobOf(1, small, large), JobOf(2, small, large)], 2,
                     [Message(1, small, large), Message(2, small, large)])
  {
    var a, b := JobOf(1, small, large), JobOf(2, small, large);
    var x, y := Message(1, small, large), Message(2, small, large);
    FirstAdmitted(root, small, large);
    OneMoreAdmitted(root, small, large, 0, [a], 1, [x], 2);
    assert [a] + [b] == [a, b];
    assert [x] + [y] == [x, y];
  }

  lemma FirstThreeAdmitted(root: Blk, small: int, large: int)
    requires root.j == 0 && 1 <= small && CeilLog(small) + 2 <= CeilLog(large) < root.k
    ensures Admitted(root, small, large, 0, [JobOf(1, small, large), JobOf(2, small, large), JobOf(3, small, large)], 3,
                     [Message(1, small, large), Message(2, small, large), Message(3, small, large)])
  {
    RequestsGranted(root, small, large);
    var a, b, c := JobOf(1, small, large), JobOf(2, small, large), JobOf(3, small, large);
    var x, y, z := Message(1, small, large), Message(2, small, large), Message(3, small, large);
    SecondAdmitted(root, small, large);
    OneMoreAdmitted(root, small, large, 0, [a, b], 2, [x, y], 3);
    assert [a, b] + [c] == [a, b, c];
    assert [x, y] + [z] == [x, y, z];
  }

  lemma FourthAdmitted(root: Blk, small: int, large: int)
    requires root.j == 0 && 1 <= small && CeilLog(small) + 2 <= CeilLog(large) < root.k
    ensures Admitted(root, small, large, 5, [JobOf(4, small, large)], 6, [Message(4, small, large)])
  {
    RequestsGranted(root, small, large);
    NobodyAdmitted(root, small, large, 5);
    OneMoreAdmitted(root, small, large, 5, [], 5, [], 4);
    assert [] + [JobOf(4, small, large)] == [JobOf(4, small, large)];
    assert [] + [Message(4, small, large)] == [Message(4, small, large)];
  }

  // ---------- the run ----------

  ghost predicate Good(root: Blk, small: int, large: int) {
    root.j == 0 && 1 <= small && CeilLog(small) + 2 <= CeilLog(large) < root.k
  }

  lemma CellsReaped(root: Blk, small: int, large: int, k: nat, i: int)
    requires k < 7 && LossRun(small, large)[k] == Exit(Pid(i))
    ensures Exited(CellsAt(root, small, large, k), root, Pid(i)) == CellsAt(root, small, large, k + 1)
  {
    CellsNext(root, small, large, k);
  }

  lemma OnlyOneDone(t: Sys, s': Sys, done: seq<int>, x: int)
    requires Ids(t.finished) == done && Ids(s'.finished) == done + [x] && x !in done
    ensures Done(s') - Done(t) == {x}
  {
    assert forall i :: i in done + [x] <==> i in done || i == x;
  }

  // x is the next to run, and leaves the others.
  ghost predicate NextIs(ready: seq<int>, x: int, rest: seq<int>) {
    && x in ready && x !in rest && multiset(rest) == multiset(ready) - multiset{x}
    && forall i :: i in ready ==> Rank(x) <= Rank(i)
  }

  // Before a tick's work, with the memory as it is after k operations of the run.
  ghost predicate Reaches(root: Blk, small: int, large: int, w: World, arrivals: set<int>, k: nat,
                          ready: seq<int>, done: seq<int>, clk: int)
    requires k <= 7
  {
    && Between(w, arrivals, CellsAt(root, small, large, k), {})
    && Idling(w.sched.(generatorFinished := false), ready, done, clk)
    && w.sched.procs.Keys == (set i | i in ready + done) && w.sched.generatorFinished == (arrivals == {})
  }

  // The jobs that are due are admitted and arrive; then x runs, completes, and its exit is seen.
  lemma BusyRound(root: Blk, small: int, large: int, w: World, k: nat, js: seq<Job>, ms: seq<Pcb>, trace: seq<Sys>,
                  ready: seq<int>, done: seq<int>, x: int, rest: seq<int>) returns (states: seq<World>, w': World)
    requires Good(root, small, large) && k + |js| < 7 && |js| == |ms|
    requires Between(w, w.arrivals, CellsAt(root, small, large, k), {}) && DueJobs(LossLoad(root, small, large), w, js)
    requires Admitted(root, small, large, k, js, k + |js|, ms) && Received(w.sched, ms, trace)
    requires Idling(trace[|ms|], ready, done, w.sched.clk) && trace[|ms|].clockValue != w.sched.clk
    requires trace[|ms|].procs.Keys == set i | i in ready + done
    requires NextIs(ready, x, rest) && x !in done && LossRun(small, large)[k + |js|] == Exit(Pid(x))
    ensures Path(LossLoad(root, small, large), states, w, w') && w'.sched.clockValue == w.sched.clk + 1
    ensures Reaches(root, small, large, w', w.arrivals - JobIds(js), k + |js| + 1, rest, done + [x], w.sched.clk + 1)
  {
    var l, clk, last := LossLoad(root, small, large), w.sched.clk, k + |js|;
    GoodLossLoad(root, small, large);
    var t := OneStarts(trace[|ms|], ready, done, clk, x, rest);
    var s' := OneCompletes(t, x, rest, done, clk, w.arrivals - JobIds(js) == {});
    OnlyOneDone(t, s', done, x);
    SameMembers(ready, x, rest, done);
    var before, m := RoundPath(l, w, js, ms, CellsAt(root, small, large, last), trace, t, s');
    CellsReaped(root, small, large, last, x);
    states, w' := ReapPath(l, before, w, m, x);
  }

  lemma SameMembers(ready: seq<int>, x: int, rest: seq<int>, done: seq<int>)
    requires NextIs(ready, x, rest)
    ensures (set i | i in ready + done) == set i | i in rest + (done + [x])
  {
    forall i ensures i in ready <==> i in rest || i == x {
      assert multiset(ready)[i] == multiset(rest)[i] + if i == x then 1 else 0;
    }
  }

  // The tick after a completion, in which nothing arrives.
  lemma QuietRound(root: Blk, small: int, large: int, w: World, ready: seq<int>, done: seq<int>)
    returns (states: seq<World>, w': World)
    requires Good(root, small, large)
    requires Reaches(root, small, large, w, {4}, 4, ready, done, 1) && w.sched.clockValue == 1
    ensures Path(LossLoad(root, small, large), states, w, w') && w'.sched.clockValue == 1
    ensures Reaches(root, small, large, w', {4}, 4, ready, done, 2)
  {
    var l := LossLoad(root, small, large);
    GoodLossLoad(root, small, large);
    NobodyAdmitted(root, small, large, 4);
    var t, s' := OnePasses(w.sched, ready, done, 1);
    assert JobIds([]) == {};
    assert Done(s') - Done(t) == {};
    states, w' := RoundPath(l, w, [], [], CellsAt(root, small, large, 4), [w.sched], t, s');
  }

  // ---------- the run ----------

  function FirstJobs(small: int, large: int): seq<Job> {
    [JobOf(1, small, large), JobOf(2, small, large), JobOf(3, small, large)]
  }

  function FirstMessages(small: int, large: int): seq<Pcb> {
    [Message(1, small, large), Message(2, small, large), Message(3, small, large)]
  }

  lemma FirstDue(root: Blk, small: int, large: int, w: World)
    requires w.arrivals == {1, 2, 3, 4} && w.sched.clk == 0
    ensures DueJobs(LossLoad(root, small, large), w, FirstJobs(small, large))
    ensures w.arrivals - JobIds(FirstJobs(small, large)) == {4}
  {
    var js := FirstJobs(small, large);
    assert js[0].id in JobIds(js) && js[1].id in JobIds(js) && js[2].id in JobIds(js);
  }

  lemma FourthDue(root: Blk, small: int, large: int, w: World)
    requires w.arrivals == {4} && w.sched.clk == 3
    ensures DueJobs(LossLoad(root, small, large), w, [JobOf(4, small, large)])
    ensures w.arrivals - JobIds([JobOf(4, small, large)]) == {}
  {
    var js := [JobOf(4, small, large)];
    assert js[0].id in JobIds(js);
  }

  lemma NothingYet(root: Blk, small: int, large: int)
    ensures CellsAt(root, small, large, 0) == map[root := FREE]
  {
    assert LossRun(small, large)[..0] == [];
  }

  lemma LastGoes(rest: seq<int>, x: int)
    requires x !in rest && forall i :: i in rest ==> Rank(x) <= Rank(i)
    ensures NextIs(rest + [x], x, rest)
  {
  }

  lemma FirstGoes(x: int, rest: seq<int>)
    requires x !in rest && forall i :: i in rest ==> Rank(x) <= Rank(i)
    ensures NextIs([x] + rest, x, rest)
  {
  }

  // Process 3 is to go first, then 1, then 4, and 2 is left.
  ghost predicate Order(ready: seq<int>, rest: seq<int>, last: seq<int>) {
    && NextIs(ready, 3, rest) && NextIs(rest, 1, last) && NextIs(last + [4], 4, last) && last == [2]
  }

  lemma FirstOrder(last: seq<int>, rest: seq<int>)
    requires last == [2] && rest == [1] + last
    ensures Order(rest + [3], rest, last)
  {
    LastGoes(rest, 3);
    FirstGoes(1, last);
    LastGoes(last, 4);
  }

  lemma FirstArrive(small: int, large: int, s: Sys) returns (trace: seq<Sys>)
    requires Idling(s, [], [], 0) && s.procs == map[]
    ensures Received(s, FirstMessages(small, large), trace) && Idling(trace[3], [1] + [2] + [3], [], 0)
    ensures trace[3].clockValue == -1 && trace[3].procs.Keys == {1, 2, 3}
  {
    var ms := FirstMessages(small, large);
    var a := OneArrives(s, ms[0], [], [], 0);
    assert [] + [1] == [1];
    var b := OneArrives(a, ms[1], [1], [], 0);
    var c := OneArrives(b, ms[2], [1] + [2], [], 0);
    trace := [s, a, b, c];
  }

  lemma FirstReady(small: int, large: int, s: Sys)
    returns (trace: seq<Sys>, ready: seq<int>, rest: seq<int>, last: seq<int>)
    requires Idling(s, [], [], 0) && s.procs == map[]
    ensures Received(s, FirstMessages(small, large), trace) && Idling(trace[3], ready, [], 0)
    ensures Order(ready, rest, last) && trace[3].clockValue == -1 && trace[3].procs.Keys == set i | i in ready + []
  {
    trace := FirstArrive(small, large, s);
    last := [2];
    rest := [1] + last;
    ready := rest + [3];
    FirstOrder(last, rest);
    assert forall i :: i in ready + [] <==> i == 1 || i == 2 || i == 3;
  }

  lemma FirstReleased(root: Blk, small: int, large: int, w: World) returns (js: seq<Job>, ms: seq<Pcb>)
    requires Good(root, small, large) && w.arrivals == {1, 2, 3, 4} && w.sched.clk == 0
    ensures |js| == 3 && DueJobs(LossLoad(root, small, large), w, js) && w.arrivals - JobIds(js) == {4}
    ensures |ms| == 3 && ms == FirstMessages(small, large) && Admitted(root, small, large, 0, js, 3, ms)
  {
    js, ms := FirstJobs(small, large), FirstMessages(small, large);
    FirstDue(root, small, large, w);
    FirstThreeAdmitted(root, small, large);
  }

  // Processes 1, 2 and 3 arrive; 3 runs and exits.
  lemma RoundOne(root: Blk, small: int, large: int, w: World)
    returns (states: seq<World>, w': World, rest: seq<int>, last: seq<int>)
    requires Good(root, small, large) && Start(LossLoad(root, small, large), w) && w.sched.policy.HPF?
    ensures Path(LossLoad(root, small, large), states, w, w') && w'.sched.clockValue == 1
    ensures Reaches(root, small, large, w', {4}, 4, rest, [] + [3], 1)
    ensures exists ready :: Order(ready, rest, last)
  {
    var js, ms := FirstReleased(root, small, large, w);
    NothingYet(root, small, large);
    var trace, ready;
    trace, ready, rest, last := FirstReady(small, large, w.sched);
    states, w' := FirstRound(root, small, large, w, js, ms, trace, ready, [], rest, {4});
  }

  lemma FirstRound(root: Blk, small: int, large: int, w: World, js: seq<Job>, ms: seq<Pcb>, trace: seq<Sys>,
                   ready: seq<int>, done: seq<int>, rest: seq<int>, left: set<int>)
    returns (states: seq<World>, w': World)
    requires Good(root, small, large) && |js| == |ms| == 3 && w.sched.clk == 0
    requires Between(w, w.arrivals, CellsAt(root, small, large, 0), {}) && DueJobs(LossLoad(root, small, large), w, js)
    requires Admitted(root, small, large, 0, js, 3, ms) && Received(w.sched, ms, trace)
    requires Idling(trace[3], ready, done, 0) && trace[3].clockValue == -1
    requires trace[3].procs.Keys == set i | i in ready + done
    requires NextIs(ready, 3, rest) && 3 !in done && w.arrivals - JobIds(js) == left
    ensures Path(LossLoad(root, small, large), states, w, w') && w'.sched.clockValue == 1
    ensures Reaches(root, small, large, w', left, 4, rest, done + [3], 1)
  {
    states, w' := BusyRound(root, small, large, w, 0, js, ms, trace, ready, done, 3, rest);
  }

  // Then the next process runs and exits.
  lemma RoundThree(root: Blk, small: int, large: int, w: World, ready: seq<int>, done: seq<int>, rest: seq<int>)
    returns (states: seq<World>, w': World)
    requires Good(root, small, large)
    requires Reaches(root, small, large, w, {4}, 4, ready, done, 2) && w.sched.clockValue == 1
    requires NextIs(ready, 1, rest) && 1 !in done
    ensures Path(LossLoad(root, small, large), states, w, w') && w'.sched.clockValue == 3
    ensures Reaches(root, small, large, w', {4}, 5, rest, done + [1], 3)
  {
    NobodyAdmitted(root, small, large, 4);
    assert JobIds([]) == {};
    states, w' := BusyRound(root, small, large, w, 4, [], [], [w.sched], ready, done, 1, rest);
  }

  // Process 4 arrives, runs and exits.
  lemma RoundFour(root: Blk, small: int, large: int, w: World, ready: seq<int>, done: seq<int>)
    returns (states: seq<World>, w': World)
    requires Good(root, small, large) && Reaches(root, small, large, w, {4}, 5, ready, done, 3)
    requires 4 !in ready && 4 !in done && NextIs(ready + [4], 4, ready)
    ensures Path(LossLoad(root, small, large), states, w, w')
    ensures Reaches(root, small, large, w', {}, 7, ready, done + [4], 4)
  {
    var js, ms := FourthReleased(root, small, large, w);
    var trace := FourthArrives(small, large, w.sched, ready, done);
    states, w' := BusyRound(root, small, large, w, 5, js, ms, trace, ready + [4], done, 4, ready);
  }

  lemma FourthReleased(root: Blk, small: int, large: int, w: World) returns (js: seq<Job>, ms: seq<Pcb>)
    requires Good(root, small, large) && w.arrivals == {4} && w.sched.clk == 3
    ensures |js| == 1 && DueJobs(LossLoad(root, small, large), w, js) && w.arrivals - JobIds(js) == {}
    ensures ms == [Message(4, small, large)] && Admitted(root, small, large, 5, js, 6, ms)
  {
    js, ms := [JobOf(4, small, large)], [Message(4, small, large)];
    FourthDue(root, small, large, w);
    FourthAdmitted(root, small, large);
  }

  lemma FourthArrives(small: int, large: int, s: Sys, ready: seq<int>, done: seq<int>) returns (trace: seq<Sys>)
    requires Idling(s, ready, done, 3) && s.procs.Keys == (set i | i in ready + done) && 4 !in ready && 4 !in done
    ensures Received(s, [Message(4, small, large)], trace) && Idling(trace[1], ready + [4], done, 3)
    ensures trace[1].clockValue == -1 && trace[1].procs.Keys == set i | i in ready + [4] + done
  {
    var s' := OneArrives(s, Message(4, small, large), ready, done, 3);
    assert (set i | i in ready + [4] + done) == (set i | i in ready + done) + {4};
    trace := [s, s'];
  }

  // On every memory, for every two sizes two powers apart: the whole system can come to a state in which process 2
  // is admitted, ready and has yet to run, and nobody owns any memory.
  lemma AdmittedProcessLosesItsBlock(root: Blk, small: int, large: int) returns (l: Workload, states: seq<World>)
    requires Good(root, small, large)
    ensures RunOf(l, states) && l.root == root && forall i :: i in l.jobs ==> l.jobs[i].memory in {small, large}
    ensures var w := states[|states| - 1];
            w.sched.ready == [2] && 2 in Holders(w) && w.Live() == map[] && !OwnersExact(w)
  {
    l := LossLoad(root, small, large);
    GoodLossLoad(root, small, large);
    var s := Sys(HPF, 1, 0, BeforeWork, -1, 0, -1, 0, map[], [], None, false, false, [], 0, 0);
    var w0 := World(Serving, l.jobs.Keys, [], [], [], map[root := FREE], {}, s);
    var last;
    states, last := WholeRun(root, small, large, w0);
    LastExitLoses(root, small, large);
    StillHolds(root, small, large, last);
  }

  lemma UpToTickTwo(root: Blk, small: int, large: int, w0: World)
    returns (states: seq<World>, w: World, rest: seq<int>, last: seq<int>)
    requires Good(root, small, large) && Start(LossLoad(root, small, large), w0) && w0.sched.policy.HPF?
    ensures Path(LossLoad(root, small, large), states, w0, w) && w.sched.clockValue == 1
    ensures Reaches(root, small, large, w, {4}, 4, rest, [] + [3], 2) && exists ready :: Order(ready, rest, last)
  {
    var one, w1;
    one, w1, rest, last := RoundOne(root, small, large, w0);
    var two;
    two, w := QuietRound(root, small, large, w1, rest, [] + [3]);
    Joined(LossLoad(root, small, large), one, two, w0, w1, w);
    states := one + two[1..];
  }

  lemma FromTickTwo(root: Blk, small: int, large: int, w2: World, rest: seq<int>, done: seq<int>, last: seq<int>)
    returns (states: seq<World>, w: World)
    requires Good(root, small, large) && Reaches(root, small, large, w2, {4}, 4, rest, done, 2)
    requires w2.sched.clockValue == 1 && NextIs(rest, 1, last) && NextIs(last + [4], 4, last)
    requires 4 !in last && 1 !in done && 4 !in done
    ensures Path(LossLoad(root, small, large), states, w2, w)
    ensures Reaches(root, small, large, w, {}, 7, last, done + [1] + [4], 4)
  {
    var three, w3 := RoundThree(root, small, large, w2, rest, done, last);
    var four;
    four, w := RoundFour(root, small, large, w3, last, done + [1]);
    Joined(LossLoad(root, small, large), three, four, w2, w3, w);
    states := three + four[1..];
  }

  lemma WholeRun(root: Blk, small: int, large: int, w0: World) returns (states: seq<World>, w: World)
    requires Good(root, small, large) && Start(LossLoad(root, small, large), w0) && w0.sched.policy.HPF?
    ensures Path(LossLoad(root, small, large), states, w0, w)
    ensures Reaches(root, small, large, w, {}, 7, [2], [] + [3] + [1] + [4], 4)
  {
    var first, w2, rest, last := UpToTickTwo(root, small, large, w0);
    var second;
    second, w := FromTickTwo(root, small, large, w2, rest, [] + [3], last);
    Joined(LossLoad(root, small, large), first, second, w0, w2, w);
    states := first + second[1..];
  }

  lemma StillHolds(root: Blk, small: int, large: int, w: World)
    requires Reaches(root, small, large, w, {}, 7, [2], [] + [3] + [1] + [4], 4)
    requires LiveOf(CellsAt(root, small, large, 7)) == map[]
    ensures w.sched.ready == [2] && 2 in Holders(w) && w.Live() == map[] && !OwnersExact(w)
  {
    assert 2 in [2] + ([] + [3] + [1] + [4]);
    assert 2 in w.sched.procs && 2 !in Ids(w.sched.finished);
  }
}
