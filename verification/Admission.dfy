/** Admission as process_generator.c performs it: each process is offered to the allocator once,
    and is either sent to the scheduler or put in line. */
module Admission {
  import opened Blocks
  import opened FirstFit
  import opened BlockCells
  import opened CellRuns
  import opened Processes

  // The blocks of memory, the messages sent and the processes kept waiting.
  datatype Desk = Desk(cells: Cells, sent: seq<Pcb>, left: seq<Pcb>) {
    ghost function Live(): Live { LiveOf(cells) }
  }

  // pids are positive and no two processes share one.
  ghost predicate GoodPids(fork: int -> int) {
    (forall i :: fork(i) > 0) && forall i, j :: fork(i) == fork(j) ==> i == j
  }

  // allocate_memory, then createProcess, update_id and msgsnd on success, queue_enqueue on refusal.
  ghost function Offer(root: Blk, d: Desk, p: Pcb, pid: int): Desk {
    var cells := Requested(d.cells, root, p.id, pid, p.memory);
    match Find(d.Live(), root, CeilLog(p.memory))
    case None => Desk(cells, d.sent, d.left + [p])
    case Some(c) => Desk(cells, d.sent + [p.(pid := pid)], d.left)
  }

  lemma OfferLive(root: Blk, d: Desk, p: Pcb, pid: int)
    requires pid != -1
    ensures Offer(root, d, p, pid).Live() == Admit(d.Live(), root, p.id, pid, p.memory)
  {
    RequestedLive(d.cells, root, p.id, pid, p.memory);
  }

  // One offer after another. fork gives the pid a process gets when it is created.
  ghost function OfferAll(root: Blk, d: Desk, ps: seq<Pcb>, fork: int -> int): Desk
    decreases |ps|
  {
    if ps == [] then d
    else
      var last := ps[|ps| - 1];
      Offer(root, OfferAll(root, d, ps[..|ps| - 1], fork), last, fork(last.id))
  }

  ghost predicate Requests(ps: seq<Pcb>) { forall p :: p in ps ==> p.memory >= 1 }

  // ---------- the split into sent and left ----------

  // ps is sent and left interleaved, both in their order; what is sent has been given its pid.
  ghost predicate Dealt(ps: seq<Pcb>, sent: seq<Pcb>, left: seq<Pcb>, fork: int -> int)
    decreases |ps|
  {
    if ps == [] then sent == left == []
    else
      var last, rest := ps[|ps| - 1], ps[..|ps| - 1];
      || (sent != [] && sent[|sent| - 1] == last.(pid := fork(last.id)) && Dealt(rest, sent[..|sent| - 1], left, fork))
      || (left != [] && left[|left| - 1] == last && Dealt(rest, sent, left[..|left| - 1], fork))
  }

  lemma DealtSent(ps: seq<Pcb>, sent: seq<Pcb>, left: seq<Pcb>, fork: int -> int, p: Pcb)
    requires Dealt(ps, sent, left, fork)
    ensures Dealt(ps + [p], sent + [p.(pid := fork(p.id))], left, fork)
  {
    var more := ps + [p];
    assert more[..|more| - 1] == ps;
    var m := sent + [p.(pid := fork(p.id))];
    assert m[..|m| - 1] == sent;
  }

  lemma DealtLeft(ps: seq<Pcb>, sent: seq<Pcb>, left: seq<Pcb>, fork: int -> int, p: Pcb)
    requires Dealt(ps, sent, left, fork)
    ensures Dealt(ps + [p], sent, left + [p], fork)
  {
    var more := ps + [p];
    assert more[..|more| - 1] == ps;
    var m := left + [p];
    assert m[..|m| - 1] == left;
  }

  // d is dealt ps, and becomes r.
  ghost predicate DealtTo(d: Desk, ps: seq<Pcb>, r: Desk, fork: int -> int) {
    && d.sent <= r.sent && d.left <= r.left
    && Dealt(ps, r.sent[|d.sent|..], r.left[|d.left|..], fork)
  }

  lemma OfferDeals(root: Blk, d: Desk, ps: seq<Pcb>, m: Desk, p: Pcb, fork: int -> int)
    requires DealtTo(d, ps, m, fork)
    ensures DealtTo(d, ps + [p], Offer(root, m, p, fork(p.id)), fork)
  {
    var r := Offer(root, m, p, fork(p.id));
    var sent, left := m.sent[|d.sent|..], m.left[|d.left|..];
    if Find(m.Live(), root, CeilLog(p.memory)).Some? {
      DealtSent(ps, sent, left, fork, p);
      assert r.sent[|d.sent|..] == sent + [p.(pid := fork(p.id))];
    } else {
      DealtLeft(ps, sent, left, fork, p);
      assert r.left[|d.left|..] == left + [p];
    }
  }

  lemma {:induction false} OfferAllDeals(root: Blk, d: Desk, ps: seq<Pcb>, fork: int -> int)
    ensures DealtTo(d, ps, OfferAll(root, d, ps, fork), fork)
    decreases |ps|
  {
    if ps != [] {
      var last, rest := ps[|ps| - 1], ps[..|ps| - 1];
      OfferAllDeals(root, d, rest, fork);
      OfferDeals(root, d, rest, OfferAll(root, d, rest, fork), last, fork);
      assert ps == rest + [last];
    }
  }

  lemma IdsOfAppend(v: seq<Pcb>, p: Pcb)
    ensures PcbIds(v + [p]) == PcbIds(v) + [p.id]
  {
  }

  lemma IdsOfLast(v: seq<Pcb>)
    requires v != []
    ensures multiset(PcbIds(v)) == multiset(PcbIds(v[..|v| - 1])) + multiset{v[|v| - 1].id}
  {
    assert PcbIds(v) == PcbIds(v[..|v| - 1]) + [v[|v| - 1].id];
  }

  // No process is lost or duplicated.
  lemma {:induction false} DealtKeepsAll(ps: seq<Pcb>, sent: seq<Pcb>, left: seq<Pcb>, fork: int -> int)
    requires Dealt(ps, sent, left, fork)
    ensures multiset(PcbIds(ps)) == multiset(PcbIds(sent)) + multiset(PcbIds(left))
    decreases |ps|
  {
    if ps != [] {
      var last, rest := ps[|ps| - 1], ps[..|ps| - 1];
      IdsOfLast(ps);
      if sent != [] && sent[|sent| - 1] == last.(pid := fork(last.id)) && Dealt(rest, sent[..|sent| - 1], left, fork) {
        DealtKeepsAll(rest, sent[..|sent| - 1], left, fork);
        IdsOfLast(sent);
      } else {
        DealtKeepsAll(rest, sent, left[..|left| - 1], fork);
        IdsOfLast(left);
      }
    }
  }

  ghost predicate Ascending(at: seq<nat>) { forall i, j :: 0 <= i < j < |at| ==> at[i] < at[j] }

  // Those left keep their relative order, and nothing about them changes.
  lemma {:induction false} DealtKeepsOrder(ps: seq<Pcb>, sent: seq<Pcb>, left: seq<Pcb>, fork: int -> int)
    returns (at: seq<nat>)
    requires Dealt(ps, sent, left, fork)
    ensures |at| == |left| && Ascending(at)
    ensures forall i :: 0 <= i < |left| ==> at[i] < |ps| && ps[at[i]] == left[i]
    decreases |ps|
  {
    at := [];
    if ps != [] {
      var last, rest := ps[|ps| - 1], ps[..|ps| - 1];
      if sent != [] && sent[|sent| - 1] == last.(pid := fork(last.id)) && Dealt(rest, sent[..|sent| - 1], left, fork) {
        at := DealtKeepsOrder(rest, sent[..|sent| - 1], left, fork);
      } else {
        at := DealtKeepsOrder(rest, sent, left[..|left| - 1], fork);
        at := at + [|ps| - 1];
      }
    }
  }

  // ---------- what the allocator is left with ----------

  // Every process in the list is refused in the given state.
  ghost predicate Stuck(live: Live, root: Blk, left: seq<Pcb>) {
    forall p :: p in left ==> Find(live, root, CeilLog(p.memory)).None?
  }

  lemma OfferKeepsSizes(root: Blk, d: Desk, p: Pcb, pid: int)
    requires WellSized(d.Live(), root) && p.memory >= 1 && pid != -1
    ensures WellSized(Offer(root, d, p, pid).Live(), root) && d.Live().Keys <= Offer(root, d, p, pid).Live().Keys
  {
    OfferLive(root, d, p, pid);
    ApplyWellSized(d.Live(), root, Request(p.id, pid, p.memory));
  }

  lemma OfferKeepsStuck(root: Blk, d: Desk, p: Pcb, pid: int)
    requires WellSized(d.Live(), root) && p.memory >= 1 && pid != -1
    requires Stuck(d.Live(), root, d.left) && Requests(d.left)
    ensures Stuck(Offer(root, d, p, pid).Live(), root, Offer(root, d, p, pid).left)
  {
    var r := Offer(root, d, p, pid);
    OfferLive(root, d, p, pid);
    OfferKeepsSizes(root, d, p, pid);
    forall q | q in r.left ensures Find(r.Live(), root, CeilLog(q.memory)).None? {
      RefusalIsMonotone(d.Live(), r.Live(), root, CeilLog(q.memory));
    }
  }

  lemma {:induction false} OfferAllKeepsSizes(root: Blk, d: Desk, ps: seq<Pcb>, fork: int -> int)
    requires WellSized(d.Live(), root) && Requests(ps) && GoodPids(fork)
    ensures WellSized(OfferAll(root, d, ps, fork).Live(), root)
    ensures d.Live().Keys <= OfferAll(root, d, ps, fork).Live().Keys
    decreases |ps|
  {
    if ps != [] {
      var last, rest := ps[|ps| - 1], ps[..|ps| - 1];
      OfferAllKeepsSizes(root, d, rest, fork);
      OfferKeepsSizes(root, OfferAll(root, d, rest, fork), last, fork(last.id));
    }
  }

  // Work-conserving: nobody left in line would fit in the memory that results.
  lemma {:induction false} NobodyLeftFits(root: Blk, d: Desk, ps: seq<Pcb>, fork: int -> int)
    requires GoodPids(fork) && WellSized(d.Live(), root) && Requests(ps)
    requires Requests(d.left) && Stuck(d.Live(), root, d.left)
    ensures var r := OfferAll(root, d, ps, fork); Stuck(r.Live(), root, r.left) && Requests(r.left)
    decreases |ps|
  {
    if ps != [] {
      var last, rest := ps[|ps| - 1], ps[..|ps| - 1];
      OfferAllKeepsSizes(root, d, rest, fork);
      NobodyLeftFits(root, d, rest, fork);
      OfferKeepsStuck(root, OfferAll(root, d, rest, fork), last, fork(last.id));
    }
  }

  // A line of processes that fit the machine cannot be stuck in an empty one.
  lemma StuckMeansOccupied(live: Live, root: Blk, left: seq<Pcb>)
    requires root.j == 0 && Stuck(live, root, left) && left != []
    requires forall p :: p in left ==> 1 <= p.memory <= root.Size()
    ensures live != map[]
  {
    var p := left[0];
    assert root == Blk(root.k, 0);
    if live == map[] {
      CeilLogLeast(p.memory, root.k);
      EmptyGrantsAtZero(root.k, CeilLog(p.memory));
    }
  }
}
