/** The loops of the program are paths of the system machine: what serve_waiting_queue, the release loop,
    receive_new_process and the tick compute, one after the other, is reached step by step. */
module SimulationLoops {
  import opened Processes
  import opened Admission
  import opened SchedulerModel
  import opened SchedulerWork
  import opened Simulation

  ghost predicate Path(l: Workload, states: seq<World>, from: World, to: World) {
    && states != [] && states[0] == from && states[|states| - 1] == to
    && forall n :: 0 <= n < |states| - 1 ==> Step(l, states[n], states[n + 1])
  }

  lemma Extended(l: Workload, states: seq<World>, a: World, b: World, c: World)
    requires Path(l, states, a, b) && Step(l, b, c)
    ensures Path(l, states + [c], a, c)
  {
    var more := states + [c];
    forall n | 0 <= n < |more| - 1 ensures Step(l, more[n], more[n + 1]) {
      if n < |states| - 1 { assert more[n] == states[n] && more[n + 1] == states[n + 1]; }
    }
  }

  lemma Joined(l: Workload, s: seq<World>, t: seq<World>, a: World, b: World, c: World)
    requires Path(l, s, a, b) && Path(l, t, b, c)
    ensures Path(l, s + t[1..], a, c)
  {
    var more := s + t[1..];
    forall n | 0 <= n < |more| - 1 ensures Step(l, more[n], more[n + 1]) {
      if n < |s| - 1 {
        assert more[n] == s[n] && more[n + 1] == s[n + 1];
      } else {
        assert more[n] == t[n - |s| + 1] && more[n + 1] == t[n - |s| + 2];
      }
    }
  }

  // ---------- serve_waiting_queue ----------

  ghost function ServedUpTo(l: Workload, w: World, i: nat): World
    requires i <= |w.waiting|
  {
    var d := OfferAll(l.root, Desk(w.cells, w.mail, []), w.waiting[..i], l.fork);
    w.(cells := d.cells, mail := d.sent, kept := d.left, waiting := w.waiting[i..])
  }

  lemma {:induction false} ServePath(l: Workload, w: World, i: nat) returns (states: seq<World>)
    requires w.stage.Serving? && w.exited == {} && w.kept == [] && i <= |w.waiting|
    ensures Path(l, states, w, ServedUpTo(l, w, i))
    decreases i
  {
    if i == 0 {
      assert w.waiting[..0] == [] && w.waiting[0..] == w.waiting;
      states := [w];
    } else {
      states := ServePath(l, w, i - 1);
      var a, b := ServedUpTo(l, w, i - 1), ServedUpTo(l, w, i);
      assert w.waiting[..i][..i - 1] == w.waiting[..i - 1] && w.waiting[..i][i - 1] == w.waiting[i - 1];
      assert a.waiting[0] == w.waiting[i - 1] && a.waiting[1..] == w.waiting[i..];
      assert ServeOne(l, a, b);
      Extended(l, states, w, a, b);
      states := states + [b];
    }
  }

  ghost function Served(l: Workload, w: World): World {
    var d := OfferAll(l.root, Desk(w.cells, w.mail, []), w.waiting, l.fork);
    w.(stage := Releasing, cells := d.cells, mail := d.sent, waiting := d.left)
  }

  // The whole of serve_waiting_queue.
  lemma ServingIsAPath(l: Workload, w: World) returns (states: seq<World>)
    requires w.stage.Serving? && w.exited == {} && w.kept == []
    ensures Path(l, states, w, Served(l, w))
  {
    var n := |w.waiting|;
    var done := ServedUpTo(l, w, n);
    states := ServePath(l, w, n);
    assert w.waiting[..n] == w.waiting && w.waiting[n..] == [];
    var next := done.(stage := Releasing, waiting := done.kept, kept := []);
    assert LineUpAgain(l, done, next);
    Extended(l, states, w, done, next);
    states := states + [next];
  }

  // ---------- the release loop ----------

  ghost function JobIds(jobs: seq<Job>): set<int> { set j | j in jobs :: j.id }

  // `released` are the jobs of w that are due, in order of arrival.
  ghost predicate DueJobs(l: Workload, w: World, released: seq<Job>) {
    && (forall i :: 0 <= i < |released| ==>
          && released[i].id in w.arrivals && released[i].id in l.jobs && l.jobs[released[i].id] == released[i]
          && released[i].arrival <= w.sched.clk)
    && (forall i, j :: 0 <= i < j < |released| ==> released[i].id != released[j].id
                                                   && released[i].arrival <= released[j].arrival)
    && forall k :: k in w.arrivals && k in l.jobs && k !in JobIds(released) ==> l.jobs[k].arrival > w.sched.clk
  }

  ghost function ReleasedUpTo(l: Workload, w: World, released: seq<Job>, i: nat): World
    requires i <= |released|
  {
    var d := OfferAll(l.root, Desk(w.cells, w.mail, w.waiting), NewPcbs(released[..i]), l.fork);
    w.(cells := d.cells, mail := d.sent, waiting := d.left, arrivals := w.arrivals - JobIds(released[..i]))
  }

  lemma LeastOfRest(l: Workload, w: World, released: seq<Job>, i: nat, k: int)
    requires DueJobs(l, w, released) && i < |released|
    requires k in w.arrivals && k in l.jobs && k !in JobIds(released[..i])
    ensures released[i].arrival <= l.jobs[k].arrival
  {
    forall j | 0 <= j < i ensures released[j].id != k { assert released[..i][j] == released[j]; }
    if k in JobIds(released) {
      var j :| 0 <= j < |released| && released[j].id == k;
    }
  }

  lemma OneMoreId(released: seq<Job>, i: nat)
    requires i < |released|
    ensures JobIds(released[..i + 1]) == JobIds(released[..i]) + {released[i].id}
  {
    assert released[..i + 1] == released[..i] + [released[i]];
  }

  lemma NoneReleased(l: Workload, w: World, released: seq<Job>) returns (states: seq<World>)
    ensures Path(l, states, w, ReleasedUpTo(l, w, released, 0))
  {
    assert NewPcbs(released[..0]) == [] && JobIds(released[..0]) == {};
    states := [w];
  }

  lemma {:induction false} ReleasePath(l: Workload, w: World, released: seq<Job>, i: nat) returns (states: seq<World>)
    requires GoodLoad(l) && w.stage.Releasing? && DueJobs(l, w, released) && i <= |released|
    ensures Path(l, states, w, ReleasedUpTo(l, w, released, i))
    decreases i
  {
    if i == 0 {
      states := NoneReleased(l, w, released);
    } else {
      var j: nat := i - 1;
      var before := ReleasePath(l, w, released, j);
      states := OneMoreReleased(l, w, released, j, before);
    }
  }

  lemma OneMoreReleased(l: Workload, w: World, released: seq<Job>, i: nat, states: seq<World>)
    returns (more: seq<World>)
    requires GoodLoad(l) && w.stage.Releasing? && DueJobs(l, w, released) && i < |released|
    requires Path(l, states, w, ReleasedUpTo(l, w, released, i))
    ensures Path(l, more, w, ReleasedUpTo(l, w, released, i + 1))
  {
    var next := ReleasedUpTo(l, w, released, i + 1);
    ReleaseStep(l, w, released, i);
    Extended(l, states, w, ReleasedUpTo(l, w, released, i), next);
    more := states + [next];
  }

  lemma OneMoreOffered(l: Workload, d: Desk, released: seq<Job>, i: nat)
    requires i < |released|
    ensures OfferAll(l.root, d, NewPcbs(released[..i + 1]), l.fork)
         == Offer(l.root, OfferAll(l.root, d, NewPcbs(released[..i]), l.fork), NewPcb(released[i]),
                  l.fork(released[i].id))
  {
    var ps := NewPcbs(released[..i + 1]);
    assert ps[..i] == NewPcbs(released[..i]) && ps[i] == NewPcb(released[i]);
  }

  lemma NextIsLeast(l: Workload, w: World, released: seq<Job>, i: nat)
    requires DueJobs(l, w, released) && i < |released|
    ensures var a, id := ReleasedUpTo(l, w, released, i), released[i].id;
            && id in a.arrivals && id in l.jobs && l.jobs[id] == released[i] && released[i].arrival <= w.sched.clk
            && forall k :: k in a.arrivals && k in l.jobs ==> l.jobs[id].arrival <= l.jobs[k].arrival
  {
    var a, id := ReleasedUpTo(l, w, released, i), released[i].id;
    assert id !in JobIds(released[..i]);
    forall k | k in a.arrivals && k in l.jobs ensures l.jobs[id].arrival <= l.jobs[k].arrival {
      LeastOfRest(l, w, released, i, k);
    }
  }

  lemma ReleaseStep(l: Workload, w: World, released: seq<Job>, i: nat)
    requires GoodLoad(l) && w.stage.Releasing? && DueJobs(l, w, released) && i < |released|
    ensures Release(l, ReleasedUpTo(l, w, released, i), released[i].id, ReleasedUpTo(l, w, released, i + 1))
  {
    OneMoreOffered(l, Desk(w.cells, w.mail, w.waiting), released, i);
    OneMoreId(released, i);
    NextIsLeast(l, w, released, i);
    var gone := JobIds(released[..i]);
    assert w.arrivals - (gone + {released[i].id}) == (w.arrivals - gone) - {released[i].id};
  }

  // ---------- receive_new_process ----------

  lemma {:induction false} ReceivePath(l: Workload, w: World, trace: seq<Sys>, i: nat) returns (states: seq<World>)
    requires w.stage.Releasing? && NothingDue(l, w) && Received(w.sched, w.mail, trace) && i <= |w.mail|
    ensures Path(l, states, w, w.(mail := w.mail[i..], sched := trace[i])) && trace[i].clk == w.sched.clk
    decreases i
  {
    if i == 0 {
      assert w.mail[0..] == w.mail;
      states := [w];
    } else {
      states := ReceivePath(l, w, trace, i - 1);
      var a, b := w.(mail := w.mail[i - 1..], sched := trace[i - 1]), w.(mail := w.mail[i..], sched := trace[i]);
      ArriveWork(trace[i - 1], w.mail[i - 1], trace[i]);
      assert a.mail[0] == w.mail[i - 1] && a.mail[1..] == w.mail[i..];
      assert Receive(l, a, b);
      Extended(l, states, w, a, b);
      states := states + [b];
    }
  }

  // ---------- one tick ----------

  // What the generator computes in one tick: the line is served, and the jobs that are due are released.
  ghost function Generated(l: Workload, w: World, released: seq<Job>): World {
    ReleasedUpTo(l, Served(l, w), released, |released|)
  }

  lemma GeneratorPath(l: Workload, w: World, released: seq<Job>) returns (states: seq<World>)
    requires GoodLoad(l) && w.stage.Serving? && w.exited == {} && w.kept == [] && DueJobs(l, w, released)
    ensures Path(l, states, w, Generated(l, w, released)) && NothingDue(l, Generated(l, w, released))
  {
    var served := ServingIsAPath(l, w);
    var released' := ReleasePath(l, Served(l, w), released, |released|);
    assert released[..|released|] == released;
    Joined(l, served, released', w, Served(l, w), Generated(l, w, released));
    states := served + released'[1..];
  }

  // What the scheduler does in one tick: every message is received, and the tick's work is done.
  lemma SchedulerPath(l: Workload, b: World, trace: seq<Sys>, s: Sys) returns (states: seq<World>)
    requires b.stage.Releasing? && NothingDue(l, b) && Received(b.sched, b.mail, trace) && SchedTick(trace[|b.mail|], s)
    ensures Path(l, states, b, b.(stage := Working, mail := [], sched := s))
  {
    var c := b.(mail := [], sched := trace[|b.mail|]);
    var received := ReceivePath(l, b, trace, |b.mail|);
    assert b.mail[|b.mail|..] == [];
    var last := c.(stage := Working, sched := s);
    assert Tick(l, c, last);
    Extended(l, received, b, c, last);
    states := received + [last];
  }

  // What the methods of the generator and the scheduler compute in one tick, in the order the program calls them,
  // is a path of the machine: serve the line, release what is due, receive every message, do the tick's work.
  lemma TickIsAPath(l: Workload, w: World, released: seq<Job>, trace: seq<Sys>, s: Sys) returns (states: seq<World>)
    requires GoodLoad(l) && w.stage.Serving? && w.exited == {} && w.kept == [] && DueJobs(l, w, released)
    requires var b := Generated(l, w, released); Received(w.sched, b.mail, trace) && SchedTick(trace[|b.mail|], s)
    ensures Path(l, states, w, Generated(l, w, released).(stage := Working, mail := [], sched := s))
  {
    var b := Generated(l, w, released);
    var first := GeneratorPath(l, w, released);
    var second := SchedulerPath(l, b, trace, s);
    var last := b.(stage := Working, mail := [], sched := s);
    Joined(l, first, second, w, b, last);
    states := first + second[1..];
  }
}
