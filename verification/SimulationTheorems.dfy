/** What holds at every step of the whole system. */
module SimulationTheorems {
  import opened Wrappers
  import opened Blocks
  import opened FirstFit
  import opened Processes
  import opened BlockCells
  import opened CellRuns
  import opened Admission
  import opened SchedulerInvariant
  import opened SchedulerWork
  import opened Simulation
  import opened SimulationInvariant

  // The places a job can be in, and how often it is there.
  ghost function Occurrences(w: World, i: int): nat {
    multiset(w.arrivals)[i] + multiset(PcbIds(w.waiting + w.kept))[i] + multiset(PcbIds(w.mail))[i]
    + multiset(w.sched.ready)[i] + Bag(w.sched.current)[i] + multiset(Ids(w.sched.finished))[i]
  }

  lemma IdsOfSum(a: seq<Pcb>, b: seq<Pcb>)
    ensures PcbIds(a + b) == PcbIds(a) + PcbIds(b)
  {
  }

  // Conservation: at every step each job is in exactly one of the arrival heap, the waiting line, the message queue,
  // the ready structure, the processor and the finished list, and nothing else is anywhere.
  lemma EachJobInOnePlace(l: Workload, states: seq<World>, n: nat, i: int)
    requires RunOf(l, states) && n < |states|
    ensures Occurrences(states[n], i) == if i in l.jobs then 1 else 0
    ensures var s := states[n].sched;
            |s.procs| == |s.ready| + (if s.current.Some? then 1 else 0) + |s.finished|
  {
    var w := states[n];
    RunKeeps(l, states, n);
    Counts(l, w, i);
    PlacedOnce(w.sched);
    IdsOfSum(w.waiting, w.kept);
    assert multiset(w.sched.procs.Keys)[i]
        == multiset(w.sched.ready)[i] + Bag(w.sched.current)[i] + multiset(Ids(w.sched.finished))[i];
  }

  // What the input file says of job i.
  ghost predicate SaysOf(l: Workload, i: int, p: Pcb) {
    && i in l.jobs && p.id == i && p.arrival == l.jobs[i].arrival && p.exec == l.jobs[i].exec
    && p.priority == l.jobs[i].priority && p.memory == l.jobs[i].memory
  }

  // A control block of a process that has yet to run.
  ghost predicate YetToRun(p: Pcb) {
    p.start == -1 && p.remaining == p.exec && p.waiting == 0 && p.lastPreempt == -1 && p.state == WAITING
  }

  // At every step every copy of a job says what the input file says, with the pid its process was given once it has
  // one.
  lemma CopiesAreTrue(l: Workload, states: seq<World>, n: nat)
    requires RunOf(l, states) && n < |states|
    ensures var w := states[n];
            && (forall p :: p in w.waiting || p in w.kept ==> SaysOf(l, p.id, p) && YetToRun(p) && p.pid == -1)
            && (forall p :: p in w.mail ==> SaysOf(l, p.id, p) && YetToRun(p) && p.pid == l.fork(p.id))
            && (forall i :: i in w.sched.procs ==>
                  SaysOf(l, i, w.sched.procs[i].pcb) && w.sched.procs[i].pcb.pid == l.fork(i))
  {
    var w := states[n];
    RunKeeps(l, states, n);
    forall i | i in w.sched.procs ensures i in l.jobs {
      Counts(l, w, i);
      assert multiset(w.sched.procs.Keys)[i] == 1;
    }
  }

  // Memory is only held by processes admitted and not yet known to have exited, each by one block of its own size.
  lemma OnlyHoldersOwnMemory(l: Workload, states: seq<World>, n: nat, b: Blk)
    requires RunOf(l, states) && n < |states| && b in states[n].Live()
    ensures var w, i := states[n], states[n].Live()[b].id;
            && i in l.jobs && (i in PcbIds(w.mail) || i in w.sched.ready || w.sched.current == Some(i) || i in w.exited)
            && w.Live()[b].pid == l.fork(i) && b.k == CeilLog(w.Live()[b].bytes) && Inside(b, l.root)
            && forall c :: c in w.Live() && w.Live()[c].id == i ==> c == b
  {
    var w := states[n];
    RunKeeps(l, states, n);
    var i := w.Live()[b].id;
    assert i in Holders(w);
    HolderIsJob(l, w, i);
  }

  lemma HolderIsJob(l: Workload, w: World, i: int)
    requires WorldOk(l, w) && i in Holders(w)
    ensures i in l.jobs
    ensures i in PcbIds(w.mail) || i in w.sched.ready || w.sched.current == Some(i) || i in w.exited
  {
    var s := w.sched;
    DoneAreKnown(s);
    Counts(l, w, i);
    assert i in PcbIds(w.mail) ==> multiset(PcbIds(w.mail))[i] > 0;
    assert i in s.procs ==> multiset(s.procs.Keys)[i] == 1;
    assert multiset(s.procs.Keys)[i] == multiset(s.ready)[i] + Bag(s.current)[i] + multiset(Ids(s.finished))[i];
  }

  // ---------- and exactly those, while no exit costs another process its block ----------

  ghost predicate EveryHolderOwns(w: World) { Holders(w) <= OwnerIds(w.Live()) }

  lemma OwnersKeep(live: Live, more: Live)
    requires Submap(live, more)
    ensures OwnerIds(live) <= OwnerIds(more)
  {
    forall i | i in OwnerIds(live) ensures i in OwnerIds(more) {
      var b :| b in live && live[b].id == i;
      assert b in more && more[b].id == i;
    }
  }

  lemma OfferOwns(root: Blk, d: Desk, p: Pcb, pid: int, others: set<int>)
    requires SentIds(d.sent) + others <= OwnerIds(d.Live()) && pid != -1
    ensures var r := Offer(root, d, p, pid); SentIds(r.sent) + others <= OwnerIds(r.Live())
  {
    var r := Offer(root, d, p, pid);
    OfferLive(root, d, p, pid);
    if c :| Find(d.Live(), root, CeilLog(p.memory)) == Some(c) {
      FindReturnsUnowned(d.Live(), root, CeilLog(p.memory));
      OwnersKeep(d.Live(), r.Live());
      assert r.Live()[c].id == p.id;
      IdsOfAppend(d.sent, p.(pid := pid));
    }
  }

  // If the others all still own a block after the exit of i, nothing of theirs was removed.
  lemma OthersOwnAll(l: Workload, live: Live, after: Live, holders: set<int>, i: int)
    requires GoodPids(l.fork) && HeldBy(l, live, holders) && Submap(after, Free(live, l.fork(i)))
    requires holders - {i} <= OwnerIds(after)
    ensures after == Free(live, l.fork(i))
  {
    forall b | b in Free(live, l.fork(i)) ensures b in after {
      assert live[b].id in holders - {i};
      var c :| c in after && after[c].id == live[b].id;
      assert c in Free(live, l.fork(i)) && c in live;
    }
  }

  // If nothing of theirs was removed, they all still own their block.
  lemma OthersKeepOwning(l: Workload, live: Live, holders: set<int>, i: int)
    requires GoodPids(l.fork) && HeldBy(l, live, holders) && holders <= OwnerIds(live)
    ensures holders - {i} <= OwnerIds(Free(live, l.fork(i)))
  {
    forall k | k in holders - {i} ensures k in OwnerIds(Free(live, l.fork(i))) {
      assert k in OwnerIds(live);
      var b :| b in live && live[b].id == k;
      assert b in Free(live, l.fork(i));
    }
  }

  // An exit leaves every holder its block exactly when it removes only its own.
  lemma ReapOwnsIff(l: Workload, w: World, i: int, w': World)
    requires WorldOk(l, w) && Reap(l, w, i, w') && EveryHolderOwns(w)
    ensures EveryHolderOwns(w') <==> NothingCovered(w.cells, l.root, l.fork(i))
  {
    assert PcbIds(w.mail) == [];
    ExitedBooks(w.cells, l.root, l.fork(i));
    ReapHolders(l, w, i, w');
    OthersKeepOwning(l, w.Live(), Holders(w), i);
    if EveryHolderOwns(w') { OthersOwnAll(l, w.Live(), w'.Live(), Holders(w), i); }
  }

  lemma SchedulerKeepsHolders(l: Workload, w: World, w': World)
    requires WorldOk(l, w) && (Receive(l, w, w') || Tick(l, w, w') || Advance(w, w'))
    ensures Holders(w') == Holders(w) && w'.cells == w.cells
  {
    if Receive(l, w, w') {
      ReceiveHolders(l, w, w');
    } else if Tick(l, w, w') {
      TickWork(w.sched, w'.sched);
    } else {
      AdvanceCounts(l, w, w');
    }
  }

  // If the step sees an exit, that exit removes only its own block.
  ghost predicate HarmlessStep(l: Workload, w: World, w': World) {
    forall i :: Reap(l, w, i, w') ==> NothingCovered(w.cells, l.root, l.fork(i))
  }

  lemma StepOwnsIff(l: Workload, w: World, w': World)
    requires WorldOk(l, w) && Step(l, w, w') && EveryHolderOwns(w)
    ensures EveryHolderOwns(w') <==> HarmlessStep(l, w, w')
  {
    if i :| Reap(l, w, i, w') {
      ReapOwnsIff(l, w, i, w');
      forall k | Reap(l, w, k, w') ensures k == i { assert w.exited - {k} == w.exited - {i}; }
    } else if ServeOne(l, w, w') {
      OfferOwns(l.root, Desk(w.cells, w.mail, w.kept), w.waiting[0], l.fork(w.waiting[0].id), Active(w));
    } else if LineUpAgain(l, w, w') {
    } else if i :| Release(l, w, i, w') {
      OfferOwns(l.root, Desk(w.cells, w.mail, w.waiting), NewPcb(l.jobs[i]), l.fork(i), Active(w));
    } else {
      SchedulerKeepsHolders(l, w, w');
    }
  }

  ghost predicate OwnersExact(w: World) { OwnerIds(w.Live()) == Holders(w) }

  lemma OwnersHold(l: Workload, w: World)
    requires WorldOk(l, w)
    ensures OwnersExact(w) <==> EveryHolderOwns(w)
  {
    forall i | i in OwnerIds(w.Live()) ensures i in Holders(w) { var b :| b in w.Live() && w.Live()[b].id == i; }
  }

  lemma StartOwns(l: Workload, w: World)
    requires Start(l, w)
    ensures OwnersExact(w)
  {
    StartOk(l, w);
    assert w.mail == [] ==> PcbIds(w.mail) == [];
    OwnersHold(l, w);
  }

  lemma NextOwnsIff(l: Workload, states: seq<World>, n: nat)
    requires RunOf(l, states) && n + 1 < |states| && OwnersExact(states[n])
    ensures OwnersExact(states[n + 1]) <==> HarmlessStep(l, states[n], states[n + 1])
  {
    RunKeeps(l, states, n);
    RunKeeps(l, states, n + 1);
    OwnersHold(l, states[n]);
    OwnersHold(l, states[n + 1]);
    StepOwnsIff(l, states[n], states[n + 1]);
  }

  // The owners of memory have been exactly the processes admitted whose exit has not been seen, at every step so far.
  ghost predicate OwnersExactSoFar(states: seq<World>, n: nat)
    requires n < |states|
  {
    forall k :: 0 <= k <= n ==> OwnersExact(states[k])
  }

  // Every exit so far has removed only its own block.
  ghost predicate HarmlessSoFar(l: Workload, states: seq<World>, n: nat)
    requires n < |states|
  {
    forall k :: 0 <= k < n ==> HarmlessStep(l, states[k], states[k + 1])
  }

  lemma OneMoreOwner(states: seq<World>, n: nat)
    requires n + 1 < |states|
    ensures OwnersExactSoFar(states, n + 1) <==> OwnersExactSoFar(states, n) && OwnersExact(states[n + 1])
  {
  }

  lemma OneMoreHarmless(l: Workload, states: seq<World>, n: nat)
    requires n + 1 < |states|
    ensures HarmlessSoFar(l, states, n + 1)
       <==> HarmlessSoFar(l, states, n) && HarmlessStep(l, states[n], states[n + 1])
  {
  }

  // Over every run the one holds if and only if the other does.
  lemma {:induction false} OwnersAreHoldersIff(l: Workload, states: seq<World>, n: nat)
    requires RunOf(l, states) && n < |states|
    ensures OwnersExactSoFar(states, n) <==> HarmlessSoFar(l, states, n)
  {
    if n == 0 {
      StartOwns(l, states[0]);
    } else {
      OwnersAreHoldersIff(l, states, n - 1);
      OneMoreOwner(states, n - 1);
      OneMoreHarmless(l, states, n - 1);
      if OwnersExactSoFar(states, n - 1) { NextOwnsIff(l, states, n - 1); }
    }
  }

  // In particular while no two live blocks have overlapped.
  lemma OwnersAreHolders(l: Workload, states: seq<World>, n: nat)
    requires RunOf(l, states) && n < |states|
    requires forall k :: 0 <= k < n ==> Safe(states[k].Live())
    ensures OwnersExact(states[n])
  {
    forall k | 0 <= k < n ensures HarmlessStep(l, states[k], states[k + 1]) {
      RunKeeps(l, states, k);
      SafeStepIsHarmless(l, states[k], states[k + 1]);
    }
    OwnersAreHoldersIff(l, states, n);
  }

  lemma SafeStepIsHarmless(l: Workload, w: World, w': World)
    requires WorldOk(l, w) && Safe(w.Live())
    ensures HarmlessStep(l, w, w')
  {
    forall i | Reap(l, w, i, w') ensures NothingCovered(w.cells, l.root, l.fork(i)) {
      SafeCoversNothing(w.cells, l.root, l.fork(i));
    }
  }

  // ---------- nobody who would fit is kept waiting ----------

  // Once the line has been served, and until the next exit is seen, no waiting process would fit.
  lemma NobodyWaitingFits(l: Workload, states: seq<World>, n: nat, p: Pcb)
    requires RunOf(l, states) && n < |states| && !states[n].stage.Serving? && p in states[n].waiting
    ensures Find(states[n].Live(), l.root, CeilLog(p.memory)).None?
    ensures forall c :: Inside(c, l.root) && c.k == CeilLog(p.memory) ==> !Clear(states[n].Live(), c)
  {
    RunKeeps(l, states, n);
    RefusesOnlyWhenNothingFits(states[n].Live(), l.root, CeilLog(p.memory));
  }
}
