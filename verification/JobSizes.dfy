/** What the sizes in the input file decide about memory in the whole system: whether blocks can overlap,
    and whether an exit can cost another process its block. */
module JobSizes {
  import opened Blocks
  import opened FirstFit
  import opened Processes
  import opened BlockCells
  import opened CellRuns
  import opened SafeSizes
  import opened Admission
  import opened Simulation
  import opened SimulationInvariant
  import opened SimulationTheorems
  import opened LostBlock

  // The memory sizes of the input file.
  ghost function Sizes(l: Workload): set<int> { set i | i in l.jobs :: l.jobs[i].memory }

  // ---------- what a step does to the live blocks ----------

  // One block is added, by first fit, for job id.
  ghost predicate Adds(l: Workload, live: Live, after: Live, id: int) {
    id in l.jobs && after == Admit(live, l.root, id, l.fork(id), l.jobs[id].memory)
  }

  lemma OfferAdds(l: Workload, d: Desk, p: Pcb)
    requires GoodLoad(l) && p.id in l.jobs && p == NewPcb(l.jobs[p.id])
    ensures Adds(l, d.Live(), Offer(l.root, d, p, l.fork(p.id)).Live(), p.id)
  {
    OfferLive(l.root, d, p, l.fork(p.id));
  }

  // The live blocks stay, one is added for a job of the input file, or some are dropped.
  ghost predicate AddsOrDrops(l: Workload, live: Live, after: Live) {
    Submap(after, live) || exists id :: Adds(l, live, after, id)
  }

  lemma ReapDrops(l: Workload, w: World, i: int, w': World)
    requires MemoryOk(l, w) && Reap(l, w, i, w')
    ensures Submap(w'.Live(), w.Live())
  {
    ExitedBooks(w.cells, l.root, l.fork(i));
  }

  lemma ServeAdds(l: Workload, w: World, w': World)
    requires GoodLoad(l) && CopiesOk(l, w) && ServeOne(l, w, w')
    ensures AddsOrDrops(l, w.Live(), w'.Live())
  {
    OfferAdds(l, Desk(w.cells, w.mail, w.kept), w.waiting[0]);
  }

  lemma ReleaseAdds(l: Workload, w: World, i: int, w': World)
    requires GoodLoad(l) && Release(l, w, i, w')
    ensures AddsOrDrops(l, w.Live(), w'.Live())
  {
    OfferAdds(l, Desk(w.cells, w.mail, w.waiting), NewPcb(l.jobs[i]));
  }

  lemma StepBlocks(l: Workload, w: World, w': World)
    requires WorldOk(l, w) && Step(l, w, w')
    ensures AddsOrDrops(l, w.Live(), w'.Live())
  {
    if i :| Reap(l, w, i, w') {
      ReapDrops(l, w, i, w');
    } else if ServeOne(l, w, w') {
      ServeAdds(l, w, w');
    } else if i :| Release(l, w, i, w') {
      ReleaseAdds(l, w, i, w');
    } else {
      assert w'.cells == w.cells;
    }
  }

  lemma AdmitKeepsSafe(live: Live, root: Blk, sizes: set<int>, id: int, pid: int, bytes: int)
    requires WellSized(live, root) && HasSizes(live, sizes) && Safe(live) && Adjacent(root, sizes) && bytes in sizes
    ensures Safe(Admit(live, root, id, pid, bytes))
  {
    NoHitBesideSimilar(live, root, sizes, CeilLog(bytes));
    AdmitSafeIff(live, root, id, pid, bytes);
  }

  // Every live block was asked for by the job whose id it carries.
  ghost predicate TrueBlocks(l: Workload, live: Live) {
    forall b :: b in live ==>
      var i := live[b].id; i in l.jobs && live[b].bytes == l.jobs[i].memory && live[b].pid == l.fork(i)
  }

  lemma KeepsTrueBlocks(l: Workload, live: Live, after: Live)
    requires AddsOrDrops(l, live, after) && TrueBlocks(l, live)
    ensures TrueBlocks(l, after)
  {
  }

  lemma StepKeepsSafe(l: Workload, w: World, w': World)
    requires WorldOk(l, w) && Step(l, w, w') && HasSizes(w.Live(), Sizes(l)) && Adjacent(l.root, Sizes(l))
    requires Safe(w.Live())
    ensures Safe(w'.Live())
  {
    StepBlocks(l, w, w');
    if id :| Adds(l, w.Live(), w'.Live(), id) {
      AdmitKeepsSafe(w.Live(), l.root, Sizes(l), id, l.fork(id), l.jobs[id].memory);
    }
  }

  lemma StepKeepsSafeBelow(l: Workload, sizes: set<int>, w: World, w': World)
    requires WorldOk(l, w) && Step(l, w, w') && HasSizes(w.Live(), Sizes(l)) && Near(l.root, sizes)
    requires Sizes(l) <= sizes && SafeBelow(w.Live(), l.root)
    ensures SafeBelow(w'.Live(), l.root)
  {
    StepBlocks(l, w, w');
    if id :| Adds(l, w.Live(), w'.Live(), id) {
      AdmitKeepsSafeBelow(w.Live(), l.root, sizes, id, l.fork(id), l.jobs[id].memory);
    }
  }

  // ---------- over whole runs ----------

  lemma NothingAtStart(l: Workload, w: World)
    requires Start(l, w)
    ensures w.Live() == map[]
  {
  }

  // At every step every live block is recorded for the memory size and the pid of its job.
  lemma {:induction false} BlocksAreTrue(l: Workload, states: seq<World>, n: nat)
    requires RunOf(l, states) && n < |states|
    ensures TrueBlocks(l, states[n].Live())
  {
    if n == 0 {
      NothingAtStart(l, states[0]);
    } else {
      var j: nat := n - 1;
      BlocksAreTrue(l, states, j);
      RunKeeps(l, states, j);
      StepBlocks(l, states[j], states[j + 1]);
      KeepsTrueBlocks(l, states[j].Live(), states[j + 1].Live());
    }
  }

  lemma RunHasSizes(l: Workload, states: seq<World>, n: nat)
    requires RunOf(l, states) && n < |states|
    ensures HasSizes(states[n].Live(), Sizes(l))
  {
    BlocksAreTrue(l, states, n);
  }

  // If the sizes of the input file round to at most two adjacent powers of two, blocks never overlap.
  lemma {:induction false} SimilarJobsNeverOverlap(l: Workload, states: seq<World>, n: nat)
    requires RunOf(l, states) && n < |states| && Adjacent(l.root, Sizes(l))
    ensures Safe(states[n].Live())
  {
    if n == 0 {
      NothingAtStart(l, states[0]);
    } else {
      var j: nat := n - 1;
      SimilarJobsNeverOverlap(l, states, j);
      RunHasSizes(l, states, j);
      RunKeeps(l, states, j);
      StepKeepsSafe(l, states[j], states[j + 1]);
    }
  }

  lemma {:induction false} NearJobsStaySafeBelow(l: Workload, sizes: set<int>, states: seq<World>, n: nat)
    requires RunOf(l, states) && n < |states| && Near(l.root, sizes) && Sizes(l) <= sizes
    ensures SafeBelow(states[n].Live(), l.root)
  {
    if n == 0 {
      NothingAtStart(l, states[0]);
    } else {
      var j: nat := n - 1;
      NearJobsStaySafeBelow(l, sizes, states, j);
      RunHasSizes(l, states, j);
      RunKeeps(l, states, j);
      StepKeepsSafeBelow(l, sizes, states[j], states[j + 1]);
    }
  }

  lemma NearJobsOwnExactly(l: Workload, sizes: set<int>, states: seq<World>, n: nat)
    requires RunOf(l, states) && n < |states| && Near(l.root, sizes) && Sizes(l) <= sizes
    ensures OwnersExact(states[n])
  {
    forall k | 0 <= k < n ensures HarmlessStep(l, states[k], states[k + 1]) {
      RunKeeps(l, states, k);
      NearJobsStaySafeBelow(l, sizes, states, k);
      forall i | Reap(l, states[k], i, states[k + 1]) ensures NothingCovered(states[k].cells, l.root, l.fork(i)) {
        SafeBelowCoversNothing(states[k].cells, l.root, l.fork(i));
      }
    }
    OwnersAreHoldersIff(l, states, n);
  }

  // Every run of every input file with these sizes ends with memory owned by exactly the processes
  // admitted whose exit has not been seen.
  ghost predicate OwnersExactForEveryRun(root: Blk, sizes: set<int>) {
    forall l: Workload, states: seq<World> :: RunOf(l, states) && l.root == root && Sizes(l) <= sizes ==>
      OwnersExact(states[|states| - 1])
  }

  // That is so, whatever the arrivals, execution times and priorities, the policy and the pids, exactly when the sizes
  // that fit into half of the memory round to no more than twice any other: a condition read off the input file.
  lemma JobSizesDecideOwners(root: Blk, sizes: set<int>)
    requires root.j == 0 && forall x :: x in sizes ==> x >= 1
    ensures OwnersExactForEveryRun(root, sizes) <==> Near(root, sizes)
  {
    if Near(root, sizes) {
      forall l: Workload, states: seq<World> | RunOf(l, states) && l.root == root && Sizes(l) <= sizes
        ensures OwnersExact(states[|states| - 1])
      {
        NearJobsOwnExactly(l, sizes, states, |states| - 1);
      }
    } else {
      var a, b :| a in sizes && b in sizes && CeilLog(b) < root.k && CeilLog(b) > CeilLog(a) + 1;
      var l, states := AdmittedProcessLosesItsBlock(root, a, b);
      assert Sizes(l) <= sizes;
    }
  }
}
