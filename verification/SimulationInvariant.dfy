/** Every step of the whole system keeps every job in one place and every block with its holder. */
module SimulationInvariant {
  import opened Wrappers
  import opened FirstFit
  import opened Processes
  import opened BlockCells
  import opened CellRuns
  import opened Admission
  import opened SchedulerModel
  import opened SchedulerInvariant
  import opened SchedulerWork
  import opened Simulation

  // How often i occurs, place by place.
  lemma Counts(l: Workload, w: World, i: int)
    requires EachInOnePlace(l, w)
    ensures multiset(w.arrivals)[i] + multiset(PcbIds(w.waiting))[i] + multiset(PcbIds(w.kept))[i]
            + multiset(PcbIds(w.mail))[i] + multiset(w.sched.procs.Keys)[i] == if i in l.jobs then 1 else 0
  {
    assert multiset(l.jobs.Keys)[i] == if i in l.jobs then 1 else 0;
  }

  // A process that waits, or is still to arrive, holds nothing.
  lemma OutsideHoldsNothing(l: Workload, w: World, i: int)
    requires EachInOnePlace(l, w) && w.exited <= Done(w.sched) && Placed(w.sched)
    requires i in w.arrivals || i in PcbIds(w.waiting) || i in PcbIds(w.kept)
    ensures i !in Holders(w) && i in l.jobs && i !in w.sched.procs && i !in PcbIds(w.mail)
  {
    Counts(l, w, i);
    PlacedOnce(w.sched);
    assert i in w.arrivals ==> multiset(w.arrivals)[i] > 0;
    assert i in PcbIds(w.waiting) ==> multiset(PcbIds(w.waiting))[i] > 0;
    assert i in PcbIds(w.kept) ==> multiset(PcbIds(w.kept))[i] > 0;
    assert i in PcbIds(w.mail) ==> multiset(PcbIds(w.mail))[i] > 0;
    assert i in w.sched.procs ==> multiset(w.sched.procs.Keys)[i] > 0;
  }

  lemma HeadIds(ps: seq<Pcb>)
    requires ps != []
    ensures ps[0].id in PcbIds(ps)
    ensures multiset(PcbIds(ps)) == multiset{ps[0].id} + multiset(PcbIds(ps[1..]))
    ensures forall p :: p in ps[1..] ==> p in ps
  {
    assert PcbIds(ps)[0] == ps[0].id;
    assert PcbIds(ps) == [ps[0].id] + PcbIds(ps[1..]);
  }

  // ---------- one offer ----------

  lemma OfferIds(l: Workload, d: Desk, p: Pcb)
    ensures var r := Offer(l.root, d, p, l.fork(p.id));
            multiset(PcbIds(r.sent)) + multiset(PcbIds(r.left))
            == multiset(PcbIds(d.sent)) + multiset(PcbIds(d.left)) + multiset{p.id}
  {
    IdsOfAppend(d.left, p);
    IdsOfAppend(d.sent, p.(pid := l.fork(p.id)));
  }

  lemma OfferCopies(l: Workload, d: Desk, p: Pcb)
    requires Posted(l, d.sent) && Queued(l, d.left) && Queued(l, [p])
    ensures var r := Offer(l.root, d, p, l.fork(p.id)); Posted(l, r.sent) && Queued(l, r.left)
  {
    assert p in [p];
  }

  // What is granted belongs to the process, which is now sent.
  lemma OfferHeld(l: Workload, d: Desk, p: Pcb, others: set<int>)
    requires GoodLoad(l) && Queued(l, [p]) && p.id !in others && p.id !in SentIds(d.sent)
    requires HeldBy(l, d.Live(), SentIds(d.sent) + others)
    ensures var r := Offer(l.root, d, p, l.fork(p.id)); HeldBy(l, r.Live(), SentIds(r.sent) + others)
  {
    assert p in [p];
    OfferLive(l.root, d, p, l.fork(p.id));
    OfferKeepsSizes(l.root, d, p, l.fork(p.id));
    IdsOfAppend(d.sent, p.(pid := l.fork(p.id)));
  }

  // The blocks still form a tree, with distinct names.
  lemma OfferTree(l: Workload, d: Desk, p: Pcb, others: set<int>)
    requires GoodLoad(l) && Queued(l, [p]) && p.id !in others && p.id !in SentIds(d.sent)
    requires Books(d.cells) && Closed(d.cells, l.root) && HeldBy(l, d.Live(), SentIds(d.sent) + others)
    ensures var r := Offer(l.root, d, p, l.fork(p.id)); Books(r.cells) && Closed(r.cells, l.root)
  {
    assert p in [p];
    RequestedBooks(d.cells, l.root, p.id, l.fork(p.id), p.memory);
    RequestedClosed(d.cells, l.root, p.id, l.fork(p.id), p.memory);
  }

  lemma OfferStuck(l: Workload, d: Desk, p: Pcb)
    requires GoodLoad(l) && WellSized(d.Live(), l.root) && Queued(l, [p]) && Queued(l, d.left)
    requires Stuck(d.Live(), l.root, d.left)
    ensures var r := Offer(l.root, d, p, l.fork(p.id)); Stuck(r.Live(), l.root, r.left)
  {
    assert p in [p];
    OfferKeepsStuck(l.root, d, p, l.fork(p.id));
  }

  // ---------- the steps of the generator ----------

  lemma StartOk(l: Workload, w: World)
    requires Start(l, w)
    ensures WorldOk(l, w)
  {
    InitInv(w.sched);
    StartMemory(l, w);
    assert PcbIds(w.waiting) == [];
    assert multiset(w.sched.procs.Keys) == multiset{};
    assert Ids(w.sched.finished) == [];
  }

  lemma StartMemory(l: Workload, w: World)
    requires w.cells == map[l.root := FREE]
    ensures MemoryOk(l, w) && w.Live() == map[]
  {
  }

  // What is left after the exit of i belongs to the others.
  lemma LeftHeld(l: Workload, live: Live, after: Live, holders: set<int>, i: int)
    requires GoodPids(l.fork) && HeldBy(l, live, holders) && Submap(after, Free(live, l.fork(i)))
    ensures HeldBy(l, after, holders - {i})
  {
    forall b | b in after ensures b in live && after[b] == live[b] && live[b].id != i {
      assert b in Free(live, l.fork(i));
    }
    assert WellSized(after, l.root);
    forall a, b | a in after && b in after && a != b ensures after[a].id != after[b].id {}
  }

  lemma ReapHolders(l: Workload, w: World, i: int, w': World)
    requires Reap(l, w, i, w') && i !in SentIds(w.mail) && w.exited <= Done(w.sched)
    ensures Holders(w') == Holders(w) - {i}
  {
  }

  lemma ReapHeld(l: Workload, w: World, i: int, w': World)
    requires GoodLoad(l) && MemoryOk(l, w) && Reap(l, w, i, w') && i !in SentIds(w.mail) && w.exited <= Done(w.sched)
    ensures MemoryOk(l, w')
  {
    ExitedBooks(w.cells, l.root, l.fork(i));
    ExitedClosed(w.cells, l.root, l.fork(i));
    LeftHeld(l, w.Live(), w'.Live(), Holders(w), i);
    ReapHolders(l, w, i, w');
  }

  lemma ReapKeeps(l: Workload, w: World, i: int, w': World)
    requires WorldOk(l, w) && Reap(l, w, i, w')
    ensures WorldOk(l, w')
  {
    assert PcbIds(w.mail) == [];
    ReapHeld(l, w, i, w');
  }

  lemma ServeOneCounts(l: Workload, w: World, w': World)
    requires EachInOnePlace(l, w) && ServeOne(l, w, w')
    ensures EachInOnePlace(l, w')
  {
    HeadIds(w.waiting);
    OfferIds(l, Desk(w.cells, w.mail, w.kept), w.waiting[0]);
    forall i ensures multiset(w.arrivals)[i] + multiset(PcbIds(w'.waiting))[i] + multiset(PcbIds(w'.kept))[i]
                     + multiset(PcbIds(w'.mail))[i] + multiset(w.sched.procs.Keys)[i] == multiset(l.jobs.Keys)[i]
    {
      Counts(l, w, i);
      assert (multiset(PcbIds(w'.mail)) + multiset(PcbIds(w'.kept)))[i]
          == (multiset(PcbIds(w.mail)) + multiset(PcbIds(w.kept)) + multiset{w.waiting[0].id})[i];
    }
  }

  lemma ServeOneKeeps(l: Workload, w: World, w': World)
    requires WorldOk(l, w) && ServeOne(l, w, w')
    ensures WorldOk(l, w')
  {
    var p, d := w.waiting[0], Desk(w.cells, w.mail, w.kept);
    HeadIds(w.waiting);
    OutsideHoldsNothing(l, w, p.id);
    ServeOneCounts(l, w, w');
    OfferCopies(l, d, p);
    OfferHeld(l, d, p, Active(w));
    OfferTree(l, d, p, Active(w));
    OfferStuck(l, d, p);
  }

  lemma LineUpAgainKeeps(l: Workload, w: World, w': World)
    requires WorldOk(l, w) && LineUpAgain(l, w, w')
    ensures WorldOk(l, w')
  {
  }

  lemma ReleaseCounts(l: Workload, w: World, i: int, w': World)
    requires EachInOnePlace(l, w) && GoodLoad(l) && Release(l, w, i, w')
    ensures EachInOnePlace(l, w')
  {
    OfferIds(l, Desk(w.cells, w.mail, w.waiting), NewPcb(l.jobs[i]));
    assert multiset(w.arrivals) == multiset(w'.arrivals) + multiset{i};
    forall k ensures multiset(w'.arrivals)[k] + multiset(PcbIds(w'.waiting))[k] + multiset(PcbIds(w.kept))[k]
                     + multiset(PcbIds(w'.mail))[k] + multiset(w.sched.procs.Keys)[k] == multiset(l.jobs.Keys)[k]
    {
      Counts(l, w, k);
      assert (multiset(PcbIds(w'.mail)) + multiset(PcbIds(w'.waiting)))[k]
          == (multiset(PcbIds(w.mail)) + multiset(PcbIds(w.waiting)) + multiset{i})[k];
    }
  }

  lemma ReleaseKeeps(l: Workload, w: World, i: int, w': World)
    requires WorldOk(l, w) && Release(l, w, i, w')
    ensures WorldOk(l, w')
  {
    var p, d := NewPcb(l.jobs[i]), Desk(w.cells, w.mail, w.waiting);
    OutsideHoldsNothing(l, w, i);
    ReleaseCounts(l, w, i, w');
    OfferCopies(l, d, p);
    OfferHeld(l, d, p, Active(w));
    OfferTree(l, d, p, Active(w));
    OfferStuck(l, d, p);
  }

  // ---------- the steps of the scheduler ----------

  lemma ReceiveCounts(l: Workload, w: World, w': World)
    requires EachInOnePlace(l, w) && Receive(l, w, w')
    ensures EachInOnePlace(l, w')
  {
    var p := w.mail[0];
    HeadIds(w.mail);
    ArriveWork(w.sched, p, w'.sched);
    assert w'.sched.procs.Keys == w.sched.procs.Keys + {p.id};
    assert multiset(w'.sched.procs.Keys) == multiset(w.sched.procs.Keys) + multiset{p.id};
  }

  // The message becomes a process: the same holder.
  lemma ReceiveHolders(l: Workload, w: World, w': World)
    requires Placed(w.sched) && Receive(l, w, w')
    ensures Holders(w') == Holders(w)
  {
    var p := w.mail[0];
    ArriveWork(w.sched, p, w'.sched);
    DoneAreKnown(w.sched);
    assert w'.sched.procs.Keys == w.sched.procs.Keys + {p.id};
    assert PcbIds(w.mail) == [p.id] + PcbIds(w'.mail);
    assert SentIds(w.mail) == {p.id} + SentIds(w'.mail);
    assert Active(w') == {p.id} + Active(w);
  }

  lemma ReceiveCopies(l: Workload, w: World, w': World)
    requires CopiesOk(l, w) && Receive(l, w, w')
    ensures CopiesOk(l, w')
  {
    HeadIds(w.mail);
    ArriveWork(w.sched, w.mail[0], w'.sched);
  }

  lemma ReceiveKeeps(l: Workload, w: World, w': World)
    requires WorldOk(l, w) && Receive(l, w, w')
    ensures WorldOk(l, w')
  {
    ReceiveCounts(l, w, w');
    ReceiveHolders(l, w, w');
    ReceiveCopies(l, w, w');
    ArriveInv(w.sched, w.mail[0], w'.sched);
    ArriveWork(w.sched, w.mail[0], w'.sched);
  }

  lemma TickKeeps(l: Workload, w: World, w': World)
    requires WorldOk(l, w) && Tick(l, w, w')
    ensures WorldOk(l, w')
  {
    SchedTickInv(w.sched, w'.sched);
    TickWork(w.sched, w'.sched);
    assert Holders(w') == Holders(w);
  }

  lemma ToldOk(w: World)
    requires Inv(w.sched)
    ensures Inv(Told(w)) && SameWork(w.sched, Told(w))
  {
    LoopVarsBase(w.sched, Told(w));
  }

  // No job moves if the scheduler keeps the processes it has.
  lemma SamePlaces(l: Workload, w: World, w': World)
    requires EachInOnePlace(l, w) && CopiesOk(l, w) && SameOutside(w, w') && w'.sched.procs.Keys == w.sched.procs.Keys
    requires forall i :: i in w.sched.procs ==> SameJob(w.sched.procs[i].pcb, w'.sched.procs[i].pcb)
    ensures EachInOnePlace(l, w') && CopiesOk(l, w')
  {
  }

  ghost predicate SameOutside(w: World, w': World) {
    w'.arrivals == w.arrivals && w'.waiting == w.waiting && w'.kept == w.kept && w'.mail == w.mail
  }

  // A process that finishes still holds its memory until its exit is seen.
  lemma ExitsArePending(w: World, w': World)
    requires w'.mail == w.mail && w'.sched.procs.Keys == w.sched.procs.Keys && w.exited <= Done(w.sched)
    requires Done(w.sched) <= Done(w'.sched) <= w.sched.procs.Keys
    requires w'.exited == w.exited + (Done(w'.sched) - Done(w.sched))
    ensures Holders(w') == Holders(w) && w'.exited <= Done(w'.sched)
  {
    assert Active(w') == Active(w);
  }

  lemma AdvanceCounts(l: Workload, w: World, w': World)
    requires WorldOk(l, w) && Advance(w, w')
    ensures EachInOnePlace(l, w') && CopiesOk(l, w') && Holders(w') == Holders(w) && w'.exited <= Done(w'.sched)
  {
    ToldOk(w);
    AdvanceWork(Told(w), w'.sched);
    forall i | i in w.sched.procs ensures SameJob(w.sched.procs[i].pcb, w'.sched.procs[i].pcb) {
      assert Told(w).procs[i] == w.sched.procs[i];
    }
    SamePlaces(l, w, w');
    FinishedGrows(Told(w), w'.sched);
    ExitsArePending(w, w');
  }

  lemma AdvanceKeeps(l: Workload, w: World, w': World)
    requires WorldOk(l, w) && Advance(w, w')
    ensures WorldOk(l, w')
  {
    ToldOk(w);
    RunTickInv(Told(w), w'.sched);
    AdvanceCounts(l, w, w');
    AdvanceWork(Told(w), w'.sched);
    if AllFinished(l, w') { DoneAreKnown(w'.sched); NobodyOutside(l, w); }
  }

  lemma DoneAreKnown(s: Sys)
    requires Placed(s)
    ensures Done(s) <= s.procs.Keys
  {
    PlacedOnce(s);
  }

  lemma DoneAppends(f: seq<Record>, r: Record)
    ensures (set i | i in Ids(f + [r])) == (set i | i in Ids(f)) + {r.id}
  {
    IdsAppend(f, r);
  }

  lemma FinishedGrows(s: Sys, s': Sys)
    requires Inv(s) && RunTick(s, s')
    ensures Done(s) <= Done(s') <= s.procs.Keys
    ensures Done(s') == Done(s) || (s.current.Some? && Done(s') == Done(s) + {s.current.value})
  {
    AdvanceWork(s, s');
    PlacedOnce(s);
    if s'.finished != s.finished { DoneAppends(s.finished, s'.finished[|s.finished|]); }
  }

  // When the scheduler knows every job, none is outside.
  lemma NobodyOutside(l: Workload, w: World)
    requires EachInOnePlace(l, w) && forall i :: i in l.jobs ==> i in w.sched.procs
    ensures w.arrivals == {} && w.waiting == w.kept == w.mail == []
  {
    forall i ensures i !in w.arrivals && i !in PcbIds(w.waiting) && i !in PcbIds(w.kept) && i !in PcbIds(w.mail) {
      Counts(l, w, i);
      assert i in w.sched.procs ==> multiset(w.sched.procs.Keys)[i] == 1;
      assert i in w.arrivals ==> multiset(w.arrivals)[i] > 0;
      assert i in PcbIds(w.waiting) ==> multiset(PcbIds(w.waiting))[i] > 0;
      assert i in PcbIds(w.kept) ==> multiset(PcbIds(w.kept))[i] > 0;
      assert i in PcbIds(w.mail) ==> multiset(PcbIds(w.mail))[i] > 0;
    }
    if w.waiting != [] { HeadIds(w.waiting); }
    if w.kept != [] { HeadIds(w.kept); }
    if w.mail != [] { HeadIds(w.mail); }
  }

  lemma StepKeeps(l: Workload, w: World, w': World)
    requires WorldOk(l, w) && Step(l, w, w')
    ensures WorldOk(l, w')
  {
    if i :| Reap(l, w, i, w') {
      ReapKeeps(l, w, i, w');
    } else if ServeOne(l, w, w') {
      ServeOneKeeps(l, w, w');
    } else if LineUpAgain(l, w, w') {
      LineUpAgainKeeps(l, w, w');
    } else if i :| Release(l, w, i, w') {
      ReleaseKeeps(l, w, i, w');
    } else if Receive(l, w, w') {
      ReceiveKeeps(l, w, w');
    } else if Tick(l, w, w') {
      TickKeeps(l, w, w');
    } else {
      AdvanceKeeps(l, w, w');
    }
  }

  lemma {:induction false} RunKeeps(l: Workload, states: seq<World>, n: nat)
    requires RunOf(l, states) && n < |states|
    ensures WorldOk(l, states[n])
  {
    if n == 0 {
      StartOk(l, states[0]);
    } else {
      RunKeeps(l, states, n - 1);
      StepKeeps(l, states[n - 1], states[n]);
    }
  }
}
