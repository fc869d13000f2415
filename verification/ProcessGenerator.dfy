/** The generator of process_generator.c: it releases processes as they arrive, admits them when memory allows,
    keeps the others in line, and gives memory back when a child exits. */
module ProcessGenerator {
  import opened Wrappers
  import opened Blocks
  import opened FirstFit
  import opened Processes
  import opened BlockCells
  import opened CellRuns
  import opened PcbQueue
  import opened ArrivalQueue
  import opened BuddyAllocator
  import opened Admission

  // What allocate_memory and update_id ask of a process not yet admitted.
  ghost predicate Admissible(live: Live, p: Pcb, fork: int -> int) {
    p.id != -1 && 1 <= p.memory <= MAX_REQUEST && IdFresh(live, p.id) && PidFresh(live, fork(p.id))
  }

  ghost predicate AllAdmissible(live: Live, ps: seq<Pcb>, fork: int -> int) {
    && (forall p :: p in ps ==> Admissible(live, p, fork))
    && forall i, j :: 0 <= i < j < |ps| ==> ps[i].id != ps[j].id
  }

  lemma OfferKeepsAdmissible(root: Blk, d: Desk, p: Pcb, q: Pcb, fork: int -> int)
    requires GoodPids(fork) && p.id != q.id && Admissible(d.Live(), q, fork)
    ensures Admissible(Offer(root, d, p, fork(p.id)).Live(), q, fork)
  {
    OfferLive(root, d, p, fork(p.id));
  }

  lemma OfferNext(root: Blk, d: Desk, ps: seq<Pcb>, i: nat, fork: int -> int)
    requires GoodPids(fork) && i < |ps| && AllAdmissible(OfferAll(root, d, ps[..i], fork).Live(), ps[i..], fork)
    ensures OfferAll(root, d, ps[..i + 1], fork)
         == Offer(root, OfferAll(root, d, ps[..i], fork), ps[i], fork(ps[i].id))
    ensures AllAdmissible(OfferAll(root, d, ps[..i + 1], fork).Live(), ps[i + 1..], fork)
  {
    var now := OfferAll(root, d, ps[..i], fork);
    assert ps[..i + 1][..i] == ps[..i];
    forall q | q in ps[i + 1..] ensures Admissible(Offer(root, now, ps[i], fork(ps[i].id)).Live(), q, fork) {
      var k :| i < k < |ps| && ps[k] == q;
      assert ps[i..][k - i] == q && ps[i..][0] == ps[i];
      OfferKeepsAdmissible(root, now, ps[i], q, fork);
    }
    var rest := ps[i + 1..];
    assert rest == ps[i..][1..];
  }

  // Distinct jobs still to arrive, each of which the allocator may be asked to admit.
  ghost predicate Releasable(live: Live, jobs: multiset<Job>, fork: int -> int) {
    && (forall j :: j in jobs ==> jobs[j] == 1 && Admissible(live, NewPcb(j), fork))
    && forall a, b :: a in jobs && b in jobs && a != b ==> a.id != b.id
  }

  // What releasing one job after another does to the desk and to the jobs still to come.
  lemma ReleaseNext(root: Blk, d: Desk, released: seq<Job>, jobs: multiset<Job>, top: Job, fork: int -> int)
    requires GoodPids(fork) && top in jobs && Releasable(OfferAll(root, d, NewPcbs(released), fork).Live(), jobs, fork)
    ensures OfferAll(root, d, NewPcbs(released + [top]), fork)
         == Offer(root, OfferAll(root, d, NewPcbs(released), fork), NewPcb(top), fork(top.id))
    ensures Releasable(OfferAll(root, d, NewPcbs(released + [top]), fork).Live(), jobs - multiset{top}, fork)
  {
    var ps, now := NewPcbs(released + [top]), OfferAll(root, d, NewPcbs(released), fork);
    assert ps[..|ps| - 1] == NewPcbs(released);
    forall q | q in jobs - multiset{top}
      ensures q in jobs && q != top && Admissible(Offer(root, now, NewPcb(top), fork(top.id)).Live(), NewPcb(q), fork)
    {
      OfferKeepsAdmissible(root, now, NewPcb(top), NewPcb(q), fork);
    }
  }

  lemma OneMoreRead(jobs: seq<Job>, i: nat)
    requires i < |jobs|
    ensures multiset(jobs[..i + 1]) == multiset(jobs[..i]) + multiset{jobs[i]}
  {
    assert jobs[..i + 1] == jobs[..i] + [jobs[i]];
  }

  ghost predicate SortedByArrival(jobs: seq<Job>) {
    forall i, j :: 0 <= i < j < |jobs| ==> jobs[i].arrival <= jobs[j].arrival
  }

  // `released` is out, in order and in time; nothing in `left` arrives before any of it.
  ghost predicate OutInOrder(released: seq<Job>, left: multiset<Job>, now: int) {
    && SortedByArrival(released)
    && forall j :: j in released ==> j.arrival <= now && forall k :: k in left ==> j.arrival <= k.arrival
  }

  lemma OneMoreOut(released: seq<Job>, left: multiset<Job>, now: int, top: Job)
    requires OutInOrder(released, left, now)
    requires top in left && top.arrival <= now && forall k :: k in left ==> top.arrival <= k.arrival
    ensures OutInOrder(released + [top], left - multiset{top}, now)
    ensures multiset(released + [top]) + (left - multiset{top}) == multiset(released) + left
  {
    forall k | k in left - multiset{top} ensures k in left {}
  }

  // How far the release loop has come.
  ghost predicate Releasing(root: Blk, start: Desk, released: seq<Job>, left: multiset<Job>, now: int,
                            fork: int -> int) {
    && Releasable(OfferAll(root, start, NewPcbs(released), fork).Live(), left, fork)
    && OutInOrder(released, left, now)
  }

  lemma ReleasingStep(root: Blk, start: Desk, released: seq<Job>, left: multiset<Job>, now: int, fork: int -> int,
                      top: Job)
    requires GoodPids(fork) && Releasing(root, start, released, left, now, fork)
    requires top in left && top.arrival <= now && forall k :: k in left ==> top.arrival <= k.arrival
    ensures Releasing(root, start, released + [top], left - multiset{top}, now, fork)
    ensures OfferAll(root, start, NewPcbs(released + [top]), fork)
         == Offer(root, OfferAll(root, start, NewPcbs(released), fork), NewPcb(top), fork(top.id))
    ensures Admissible(OfferAll(root, start, NewPcbs(released), fork).Live(), NewPcb(top), fork)
    ensures multiset(released + [top]) + (left - multiset{top}) == multiset(released) + left
  {
    ReleaseNext(root, start, released, left, top, fork);
    OneMoreOut(released, left, now, top);
  }

  class Generator {
    const memory: Allocator
    const arrivals: PriorityQueue
    const waiting: Queue
    const fork: int -> int     // the pid createProcess obtains for a process
    var sent: seq<Pcb>         // the message queue to the scheduler

    ghost predicate Valid()
      reads memory, memory.repr, waiting
    {
      memory.Valid() && memory.tree.top.j == 0 && waiting.Valid() && GoodPids(fork)
    }

    ghost function State(): Desk
      requires waiting.Valid()
      reads this, memory, waiting, waiting.data
    {
      Desk(memory.tree.cells, sent, waiting.Contents())
    }

    // The generator is in state d.
    ghost predicate Shows(d: Desk)
      requires waiting.Valid()
      reads this, memory, waiting, waiting.data
    {
      memory.tree.cells == d.cells && sent == d.sent && waiting.Contents() == d.left
    }

    constructor (totalMemory: int, fork: int -> int, ghost k: nat)
      requires totalMemory == Pow2(k) && GoodPids(fork)
      ensures Valid() && State() == Desk(map[Blk(k, 0) := FREE], [], []) && memory.tree.top == Blk(k, 0)
      ensures arrivals.Valid() && arrivals.sortMode.SORT_BY_ARRIVAL_TIME? && arrivals.Contents() == []
      ensures this.fork == fork && fresh(Footprint())
    {
      memory := new Allocator(totalMemory, k);
      arrivals := new PriorityQueue(20, SORT_BY_ARRIVAL_TIME);
      waiting := new Queue(100);
      this.fork, sent := fork, [];
    }

    // read_processes, of the lines that hold a job.
    method ReadProcesses(jobs: seq<Job>)
      requires arrivals.Valid()
      modifies arrivals, arrivals.data
      ensures arrivals.Valid() && (arrivals.data == old(arrivals.data) || fresh(arrivals.data))
      ensures multiset(arrivals.Contents()) == multiset(old(arrivals.Contents())) + multiset(jobs)
    {
      ghost var before := multiset(arrivals.Contents());
      for i := 0 to |jobs|
        invariant arrivals.Valid() && (arrivals.data == old(arrivals.data) || fresh(arrivals.data))
        invariant multiset(arrivals.Contents()) == before + multiset(jobs[..i])
      {
        OneMoreRead(jobs, i);
        arrivals.Push(jobs[i]);
      }
      assert jobs[..|jobs|] == jobs;
    }

    // allocate_memory; on success the process is created, its pid recorded and its message sent.
    method Admit(p: Pcb) returns (ok: bool)
      requires Valid() && Admissible(memory.Live(), p, fork)
      modifies this`sent, memory`tree, memory`repr, memory.repr
      ensures Valid() && memory.tree.top == old(memory.tree.top)
      ensures forall o :: o in memory.repr ==> o in old(memory.repr) || fresh(o)
      ensures match Find(old(memory.Live()), memory.tree.top, CeilLog(p.memory))
              case None => !ok && sent == old(sent)
              case Some(c) => ok && sent == old(sent) + [p.(pid := fork(p.id))]
      ensures memory.tree.cells == Requested(old(memory.tree.cells), memory.tree.top, p.id, fork(p.id), p.memory)
    {
      var pid, start := fork(p.id), -1;
      ok, start := memory.Admit(p.id, pid, p.memory);
      if ok { sent := sent + [p.(pid := pid)]; }
    }

    // queue_enqueue, which the allocator does not notice.
    method LineUp(queue: Queue, p: Pcb)
      requires memory.Valid() && queue.Valid()
      modifies queue, queue.data
      ensures memory.Valid() && memory.tree.cells == old(memory.tree.cells)
      ensures queue.Valid() && queue.Contents() == old(queue.Contents()) + [p]
      ensures queue.data == old(queue.data) || fresh(queue.data)
    {
      queue.Enqueue(p);
    }

    // A process is admitted, or lines up in the given queue.
    method AdmitOrLineUp(queue: Queue, p: Pcb)
      requires Valid() && queue.Valid() && Admissible(memory.Live(), p, fork)
      modifies this`sent, memory`tree, memory`repr, memory.repr, queue, queue.data
      ensures memory.Valid() && memory.tree.top == old(memory.tree.top) && queue.Valid()
      ensures forall o :: o in memory.repr ==> o in old(memory.repr) || fresh(o)
      ensures queue.data == old(queue.data) || fresh(queue.data)
      ensures Desk(memory.tree.cells, sent, queue.Contents())
           == Offer(memory.tree.top, Desk(old(memory.tree.cells), old(sent), old(queue.Contents())), p, fork(p.id))
    {
      ghost var line := queue.Contents();
      var ok := Admit(p);
      assert queue.Contents() == line;
      if !ok { LineUp(queue, p); }
    }

    // Everything the generator owns.
    ghost function Footprint(): set<object>
      reads this, memory, waiting, arrivals
    {
      {this, memory, waiting, waiting.data, arrivals, arrivals.data} + memory.repr
    }

    // Whatever has been added to it is new.
    twostate predicate OnlyNew()
      reads this, memory, waiting, arrivals
    {
      forall o :: o in Footprint() ==> o in old(Footprint()) || fresh(o)
    }

    twostate lemma PartsOnlyNew()
      requires forall o :: o in memory.repr ==> o in old(memory.repr) || fresh(o)
      requires waiting.data == old(waiting.data) || fresh(waiting.data)
      requires arrivals.data == old(arrivals.data) || fresh(arrivals.data)
      ensures OnlyNew()
    {
      forall o | o in Footprint() ensures o in old(Footprint()) || fresh(o) {
        if o in memory.repr { assert o in old(memory.repr) || fresh(o); }
      }
    }

    // ---------- serve_waiting_queue ----------

    method TakeFront() returns (p: Pcb)
      requires Valid() && waiting.size > 0
      modifies waiting
      ensures Valid() && waiting.data == old(waiting.data)
      ensures p == old(waiting.Contents())[0] && waiting.Contents() == old(waiting.Contents())[1..]
    {
      p := waiting.Front();
      waiting.Dequeue();
    }

    // One turn of its first loop: the head of the line is offered, and put aside in temp if refused.
    method OfferFront(temp: Queue)
      requires Valid() && temp.Valid() && temp != waiting && temp.data != waiting.data && waiting.size > 0
      requires Admissible(memory.Live(), waiting.Contents()[0], fork)
      modifies this`sent, memory`tree, memory`repr, memory.repr, waiting, temp, temp.data
      ensures Valid() && memory.tree.top == old(memory.tree.top) && temp.Valid()
      ensures forall o :: o in memory.repr ==> o in old(memory.repr) || fresh(o)
      ensures waiting.data == old(waiting.data) && (temp.data == old(temp.data) || fresh(temp.data))
      ensures waiting.Contents() == old(waiting.Contents())[1..]
      ensures Desk(memory.tree.cells, sent, temp.Contents())
           == Offer(memory.tree.top, Desk(old(memory.tree.cells), old(sent), old(temp.Contents())),
                    old(waiting.Contents())[0], fork(old(waiting.Contents())[0].id))
    {
      var p := TakeFront();
      ghost var line := waiting.Contents();
      AdmitOrLineUp(temp, p);
      assert waiting.Contents() == line;
    }

    // Its first loop, which leaves the refused processes in a queue of their own.
    method OfferLine() returns (temp: Queue)
      requires Valid() && AllAdmissible(memory.Live(), waiting.Contents(), fork)
      modifies this`sent, memory`tree, memory`repr, memory.repr, waiting
      ensures Valid() && memory.tree.top == old(memory.tree.top)
      ensures forall o :: o in memory.repr ==> o in old(memory.repr) || fresh(o)
      ensures temp.Valid() && fresh(temp) && fresh(temp.data)
      ensures waiting.data == old(waiting.data) && waiting.Contents() == []
      ensures Desk(memory.tree.cells, sent, temp.Contents())
           == OfferAll(memory.tree.top, Desk(old(memory.tree.cells), old(sent), []), old(waiting.Contents()), fork)
    {
      ghost var root, start, ps := memory.tree.top, Desk(memory.tree.cells, sent, []), waiting.Contents();
      ghost var i: nat, d := 0, start;
      temp := new Queue(100);
      while waiting.size > 0
        invariant Valid() && memory.tree.top == root && temp.Valid() && fresh(temp) && fresh(temp.data)
        invariant forall o :: o in memory.repr ==> o in old(memory.repr) || fresh(o)
        invariant waiting.data == old(waiting.data)
        invariant i <= |ps| && waiting.Contents() == ps[i..]
        invariant d == OfferAll(root, start, ps[..i], fork) && AllAdmissible(d.Live(), ps[i..], fork)
        invariant memory.tree.cells == d.cells && sent == d.sent && temp.Contents() == d.left
        decreases |ps| - i
      {
        OfferNext(root, start, ps, i, fork);
        OfferFront(temp);
        i := i + 1;
        d := OfferAll(root, start, ps[..i], fork);
      }
      assert ps[..i] == ps;
    }

    // One turn of its second loop.
    method MoveFront(temp: Queue)
      requires waiting.Valid() && temp.Valid() && temp != waiting && temp.data != waiting.data && temp.size > 0
      modifies waiting, waiting.data, temp
      ensures waiting.Valid() && temp.Valid() && temp.data == old(temp.data)
      ensures waiting.data == old(waiting.data) || fresh(waiting.data)
      ensures temp.Contents() == old(temp.Contents())[1..]
      ensures waiting.Contents() == old(waiting.Contents()) + [old(temp.Contents())[0]]
    {
      var p := temp.Front();
      temp.Dequeue();
      waiting.Enqueue(p);
    }

    // Its second loop.
    method Requeue(temp: Queue)
      requires waiting.Valid() && temp.Valid() && temp != waiting && temp.data != waiting.data
      modifies waiting, waiting.data, temp
      ensures waiting.Valid() && (waiting.data == old(waiting.data) || fresh(waiting.data))
      ensures waiting.Contents() == old(waiting.Contents()) + old(temp.Contents())
    {
      ghost var before, ps := waiting.Contents(), temp.Contents();
      ghost var i: nat := 0;
      while temp.size > 0
        invariant waiting.Valid() && temp.Valid() && temp.data == old(temp.data)
        invariant waiting.data == old(waiting.data) || fresh(waiting.data)
        invariant i <= |ps| && temp.Contents() == ps[i..] && waiting.Contents() == before + ps[..i]
        decreases |ps| - i
      {
        MoveFront(temp);
        i := i + 1;
      }
      assert ps[..i] == ps;
    }

    // The second loop, which the allocator does not notice.
    method RequeueAll(temp: Queue)
      requires Valid() && temp.Valid() && temp != waiting && temp.data != waiting.data
      modifies waiting, waiting.data, temp
      ensures Valid() && memory.tree == old(memory.tree) && memory.repr == old(memory.repr)
      ensures waiting.data == old(waiting.data) || fresh(waiting.data)
      ensures waiting.Contents() == old(waiting.Contents()) + old(temp.Contents())
    {
      Requeue(temp);
    }

    // Everyone in line is offered once, in order; those refused line up again.
    method ServeWaitingQueue()
      requires Valid() && AllAdmissible(memory.Live(), waiting.Contents(), fork)
      modifies this`sent, memory`tree, memory`repr, memory.repr, waiting, waiting.data
      ensures Valid() && memory.tree.top == old(memory.tree.top)
      ensures OnlyNew()
      ensures Shows(OfferAll(memory.tree.top, Desk(old(memory.tree.cells), old(sent), []),
                             old(waiting.Contents()), fork))
    {
      var temp := OfferLine();
      ghost var line := temp.Contents();
      RequeueAll(temp);
      assert waiting.Contents() == line;
      PartsOnlyNew();
    }

    // ---------- the release loop of main ----------

    // One turn: the top of the arrival heap is taken out and admitted, or lines up.
    method ReleaseTop(top: Job)
      requires Valid() && arrivals.Valid() && arrivals.size > 0 && top == arrivals.Contents()[0]
      requires Admissible(memory.Live(), NewPcb(top), fork)
      modifies this`sent, memory`tree, memory`repr, memory.repr, waiting, waiting.data, arrivals, arrivals.data
      ensures Valid() && memory.tree.top == old(memory.tree.top) && arrivals.Valid()
      ensures forall o :: o in memory.repr ==> o in old(memory.repr) || fresh(o)
      ensures (waiting.data == old(waiting.data) || fresh(waiting.data)) && arrivals.data == old(arrivals.data)
      ensures multiset(arrivals.Contents()) == multiset(old(arrivals.Contents())) - multiset{top}
      ensures arrivals.size == old(arrivals.size) - 1
      ensures Shows(Offer(memory.tree.top, old(State()), NewPcb(top), fork(top.id)))
    {
      AdmitOrLineUp(waiting, NewPcb(top));
      ghost var line := waiting.Contents();
      arrivals.Pop();
      assert waiting.Contents() == line;
    }

    // Whether the job on top of the arrival heap is due.
    ghost predicate IsNextDue(due: bool, top: Job, now: int)
      requires arrivals.Sized()
      reads arrivals, arrivals.data
    {
      && (due <==> arrivals.size > 0 && arrivals.Contents()[0].arrival <= now)
      && (due ==> top == arrivals.Contents()[0])
    }

    // The condition of the loop.
    method NextDue(now: int) returns (due: bool, top: Job)
      requires arrivals.Valid()
      ensures IsNextDue(due, top, now)
    {
      due, top := false, Job(0, 0, 0, 0, 0);
      if arrivals.size > 0 {
        top := arrivals.Top();
        due := top.arrival <= now;
      }
    }

    // Every job arrives no earlier than the one on top.
    lemma TopArrivesFirst()
      requires arrivals.Valid() && arrivals.sortMode.SORT_BY_ARRIVAL_TIME? && arrivals.size > 0
      ensures forall k :: k in multiset(arrivals.Contents()) ==> arrivals.Contents()[0].arrival <= k.arrival
    {
      forall k | k in multiset(arrivals.Contents()) ensures arrivals.Contents()[0].arrival <= k.arrival {
        assert k in arrivals.Contents();
        arrivals.TopIsLeast(k);
      }
    }

    // How far the loop has come: the desk and the arrival heap are as `released` leaves them.
    ghost predicate HasReleased(start: Desk, released: seq<Job>, left: multiset<Job>, now: int)
      requires waiting.Valid() && arrivals.Sized()
      reads this, memory, waiting, waiting.data, arrivals, arrivals.data
    {
      && Shows(OfferAll(memory.tree.top, start, NewPcbs(released), fork))
      && multiset(arrivals.Contents()) == left && Releasing(memory.tree.top, start, released, left, now, fork)
    }

    // The body of the loop.
    method ReleaseDue(ghost start: Desk, ghost released: seq<Job>, ghost left: multiset<Job>, now: int, top: Job)
      requires Valid() && arrivals.Valid() && arrivals.sortMode.SORT_BY_ARRIVAL_TIME?
      requires HasReleased(start, released, left, now) && IsNextDue(true, top, now)
      modifies this`sent, memory`tree, memory`repr, memory.repr, waiting, waiting.data, arrivals, arrivals.data
      ensures Valid() && memory.tree.top == old(memory.tree.top) && arrivals.Valid()
      ensures forall o :: o in memory.repr ==> o in old(memory.repr) || fresh(o)
      ensures (waiting.data == old(waiting.data) || fresh(waiting.data)) && arrivals.data == old(arrivals.data)
      ensures arrivals.size == old(arrivals.size) - 1
      ensures HasReleased(start, released + [top], left - multiset{top}, now)
      ensures multiset(released + [top]) + (left - multiset{top}) == multiset(released) + left
    {
      TopArrivesFirst();
      ReleasingStep(memory.tree.top, start, released, left, now, fork, top);
      ReleaseTop(top);
    }

    // The loop, until nothing is due.
    method ReleaseAllDue(ghost start: Desk, now: int) returns (ghost released: seq<Job>, ghost left: multiset<Job>)
      requires Valid() && arrivals.Valid() && arrivals.sortMode.SORT_BY_ARRIVAL_TIME?
      requires HasReleased(start, [], multiset(arrivals.Contents()), now)
      modifies this`sent, memory`tree, memory`repr, memory.repr, waiting, waiting.data, arrivals, arrivals.data
      ensures Valid() && memory.tree.top == old(memory.tree.top) && arrivals.Valid()
      ensures forall o :: o in memory.repr ==> o in old(memory.repr) || fresh(o)
      ensures (waiting.data == old(waiting.data) || fresh(waiting.data)) && arrivals.data == old(arrivals.data)
      ensures HasReleased(start, released, left, now) && multiset(released) + left == multiset(old(arrivals.Contents()))
      ensures arrivals.size > 0 ==> arrivals.Contents()[0].arrival > now
    {
      released, left := [], multiset(arrivals.Contents());
      var due, top := NextDue(now);
      while due
        invariant Valid() && memory.tree.top == old(memory.tree.top)
        invariant arrivals.Valid() && arrivals.data == old(arrivals.data)
        invariant forall o :: o in memory.repr ==> o in old(memory.repr) || fresh(o)
        invariant waiting.data == old(waiting.data) || fresh(waiting.data)
        invariant HasReleased(start, released, left, now) && IsNextDue(due, top, now)
        invariant multiset(released) + left == multiset(old(arrivals.Contents()))
        decreases arrivals.size
      {
        ReleaseDue(start, released, left, now, top);
        released, left := released + [top], left - multiset{top};
        due, top := NextDue(now);
      }
    }

    lemma NothingMoreDue(start: Desk, released: seq<Job>, left: multiset<Job>, now: int)
      requires Valid() && arrivals.Valid() && arrivals.sortMode.SORT_BY_ARRIVAL_TIME?
      requires HasReleased(start, released, left, now) && (arrivals.size > 0 ==> arrivals.Contents()[0].arrival > now)
      ensures SortedByArrival(released) && forall j :: j in released ==> j.arrival <= now
      ensures forall j :: j in arrivals.Contents() ==> j.arrival > now
      ensures State() == OfferAll(memory.tree.top, start, NewPcbs(released), fork)
    {
      if arrivals.size > 0 { TopArrivesFirst(); }
    }

    // Releases exactly the jobs whose time has come, in nondecreasing order of arrival.
    method ReleaseArrivals(now: int) returns (ghost released: seq<Job>)
      requires Valid() && arrivals.Valid() && arrivals.sortMode.SORT_BY_ARRIVAL_TIME?
      requires Releasable(memory.Live(), multiset(arrivals.Contents()), fork)
      modifies this`sent, memory`tree, memory`repr, memory.repr, waiting, waiting.data, arrivals, arrivals.data
      ensures Valid() && memory.tree.top == old(memory.tree.top) && arrivals.Valid()
      ensures OnlyNew()
      ensures multiset(old(arrivals.Contents())) == multiset(released) + multiset(arrivals.Contents())
      ensures SortedByArrival(released) && forall j :: j in released ==> j.arrival <= now
      ensures forall j :: j in arrivals.Contents() ==> j.arrival > now
      ensures State() == OfferAll(memory.tree.top, old(State()), NewPcbs(released), fork)
    {
      ghost var left;
      released, left := ReleaseAllDue(State(), now);
      PartsOnlyNew();
      NothingMoreDue(old(State()), released, left, now);
    }

    // ---------- handle_children_termination, and the test before SIGUSR1 ----------

    // The exit removes its own block, and another one exactly when that lies below what merging makes whole.
    method Reap(pid: int)
      requires Valid()
      modifies memory`tree, memory.repr
      ensures Valid() && memory.tree.top == old(memory.tree.top)
      ensures memory.tree.cells == Exited(old(memory.tree.cells), memory.tree.top, pid)
      ensures Submap(memory.Live(), Free(old(memory.Live()), pid))
      ensures memory.Live() == Free(old(memory.Live()), pid)
         <==> NothingCovered(old(memory.tree.cells), memory.tree.top, pid)
    {
      var ok, start, end := memory.Deallocate(pid);
    }

    predicate NoMoreProcesses()
      requires arrivals.Valid() && waiting.Valid()
      reads arrivals, arrivals.data, waiting, waiting.data
      ensures NoMoreProcesses() <==> arrivals.Contents() == [] && waiting.Contents() == []
    {
      arrivals.size == 0 && waiting.size == 0
    }
  }
}
