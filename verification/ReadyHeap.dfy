/** The binary min-heap of minHeap.c: an array of pointers to control blocks,
    ordered on a field of what they point to. */
module ReadyHeap {
  import opened Processes
  import opened HeapOrder

  // A heap-allocated control block; processes[i] in the C code points to one.
  class PcbRef {
    var pcb: Pcb

    constructor (pcb: Pcb)
      ensures this.pcb == pcb
    {
      this.pcb := pcb;
    }
  }

  // compare_remaining_time or compare_priority.
  function Compare(byRemaining: bool, a: Pcb, b: Pcb): int {
    if byRemaining then a.remaining - b.remaining else a.priority - b.priority
  }

  ghost function AtMost(byRemaining: bool): (Pcb, Pcb) -> bool {
    (a, b) => Compare(byRemaining, a, b) <= 0
  }

  lemma ComparisonIsPreorder(byRemaining: bool)
    ensures TotalPreorder(AtMost(byRemaining))
  {
  }

  const MAX_PROCESSES: nat := 1024

  class Heap {
    const byRemaining: bool
    const processes: array<PcbRef>
    var size: nat

    ghost function Le(): (Pcb, Pcb) -> bool { AtMost(byRemaining) }

    // What the pointers point to.
    ghost function Values(s: seq<PcbRef>): (k: seq<Pcb>)
      reads s
      ensures |k| == |s|
      ensures forall i :: 0 <= i < |s| ==> k[i] == s[i].pcb
    {
      seq(|s|, i requires 0 <= i < |s| reads s => s[i].pcb)
    }

    ghost predicate Sized()
      reads this
    {
      processes.Length == MAX_PROCESSES && size <= MAX_PROCESSES
    }

    ghost function Contents(): (s: seq<PcbRef>)
      requires Sized()
      reads this, processes
      ensures |s| == size
    {
      processes[..size]
    }

    // The cells in use; stale pointers past `size` do not count.
    ghost function Refs(): seq<PcbRef>
      reads this, processes
    {
      if size <= processes.Length then processes[..size] else []
    }

    ghost function Pcbs(): (s: seq<Pcb>)
      requires Sized()
      reads this, processes, Refs()
      ensures |s| == size
    {
      Values(Contents())
    }

    ghost predicate Valid()
      reads this, processes, Refs()
    {
      Sized() && Ordered(Pcbs(), Le())
    }

    // Unused slots hold a placeholder that is never looked at.
    constructor (byRemaining: bool)
      ensures Valid() && this.byRemaining == byRemaining && Contents() == [] && fresh(processes)
    {
      var placeholder := new PcbRef(EMPTY_PCB);
      this.byRemaining := byRemaining;
      processes := new PcbRef[MAX_PROCESSES](_ => placeholder);
      size := 0;
    }

    method Less(i: nat, j: nat) returns (less: bool)
      requires Sized() && i < size && j < size
      ensures less <==> !Le()(Pcbs()[j], Pcbs()[i])
    {
      less := Compare(byRemaining, processes[i].pcb, processes[j].pcb) < 0;
    }

    method Swap(i: nat, j: nat)
      requires Sized() && i < size && j < size
      modifies processes
      ensures Contents() == Swapped(old(Contents()), i, j)
      ensures Pcbs() == Swapped(old(Pcbs()), i, j)
    {
      processes[i], processes[j] := processes[j], processes[i];
      assert Contents() == Swapped(old(Contents()), i, j);
    }

    method SwapUp(h: nat)
      requires Sized() && 0 < h < size && HoleAt(Pcbs(), h, Le()) && !Le()(Pcbs()[Parent(h)], Pcbs()[h])
      modifies processes
      ensures multiset(Contents()) == multiset(old(Contents()))
      ensures UpHole(Pcbs(), Parent(h), Le())
    {
      ComparisonIsPreorder(byRemaining);
      SiftUpStep(Pcbs(), h, Le());
      Swap(h, Parent(h));
    }

    // Either the heap is now ordered, or nothing moved and the block at i is not too small.
    method HeapifyUp(i: nat)
      requires Sized() && i < size && HoleAt(Pcbs(), i, Le())
      modifies processes
      ensures multiset(Contents()) == multiset(old(Contents()))
      ensures DownHole(Pcbs(), i, Le())
      ensures old(UpHole(Pcbs(), i, Le())) ==> Ordered(Pcbs(), Le())
    {
      var h: nat := i;
      while h > 0
        invariant h < size && multiset(Contents()) == multiset(old(Contents()))
        invariant UpHole(Pcbs(), h, Le()) || (h == i && HoleAt(Pcbs(), h, Le()) && !old(UpHole(Pcbs(), i, Le())))
      {
        var less := Less(h, Parent(h));
        if !less { break; }
        SwapUp(h);
        h := Parent(h);
      }
      SiftUpStops(h, i);
    }

    lemma SiftUpStops(h: nat, i: nat)
      requires Sized() && h < size && (h > 0 ==> Le()(Pcbs()[Parent(h)], Pcbs()[h]))
      requires UpHole(Pcbs(), h, Le()) || (h == i && HoleAt(Pcbs(), i, Le()))
      ensures DownHole(Pcbs(), i, Le())
      ensures UpHole(Pcbs(), h, Le()) ==> Ordered(Pcbs(), Le())
    {
      ComparisonIsPreorder(byRemaining);
      SiftUpDone(Pcbs(), h, i, Le());
    }

    method SmallestOfThree(i: nat) returns (smallest: nat)
      requires Sized() && i < size
      ensures i <= smallest < size && (smallest != i ==> Parent(smallest) == i && !Le()(Pcbs()[i], Pcbs()[smallest]))
      ensures forall j :: 0 < j < size && Parent(j) == i ==> Le()(Pcbs()[smallest], Pcbs()[j])
    {
      ComparisonIsPreorder(byRemaining);
      var left, right := 2 * i + 1, 2 * i + 2;
      smallest := i;
      if left < size {
        var less := Less(left, smallest);
        if less { smallest := left; }
      }
      if right < size {
        var less := Less(right, smallest);
        if less { smallest := right; }
      }
      assert forall j :: 0 < j && Parent(j) == i ==> j == left || j == right;
    }

    method SwapDown(h: nat, c: nat)
      requires Sized() && h < size && DownHole(Pcbs(), h, Le())
      requires 0 < c < size && Parent(c) == h && !Le()(Pcbs()[h], Pcbs()[c])
      requires forall j :: 0 < j < size && Parent(j) == h ==> Le()(Pcbs()[c], Pcbs()[j])
      modifies processes
      ensures multiset(Contents()) == multiset(old(Contents())) && DownHole(Pcbs(), c, Le())
    {
      ComparisonIsPreorder(byRemaining);
      SiftDownStep(Pcbs(), h, c, Le());
      Swap(h, c);
    }

    method HeapifyDown(i: nat)
      requires Sized() && i < size && DownHole(Pcbs(), i, Le())
      modifies processes
      ensures Valid() && multiset(Contents()) == multiset(old(Contents()))
      decreases size - i
    {
      ComparisonIsPreorder(byRemaining);
      var smallest := SmallestOfThree(i);
      if smallest != i {
        SwapDown(i, smallest);
        HeapifyDown(smallest);
      }
    }

    // A full heap drops the process, as the code does.
    method Insert(process: PcbRef)
      requires Valid()
      modifies this, processes
      ensures Valid()
      ensures old(size) < MAX_PROCESSES ==> multiset(Contents()) == multiset(old(Contents())) + multiset{process}
      ensures old(size) == MAX_PROCESSES ==> Contents() == old(Contents())
    {
      if size >= MAX_PROCESSES { return; }
      AppendedEntry(Pcbs(), process.pcb, Le());
      processes[size] := process;
      var index := size;
      size := size + 1;
      assert Contents() == old(Contents()) + [process];
      assert Pcbs() == old(Pcbs()) + [process.pcb];
      HeapifyUp(index);
    }

    lemma FirstIsLeast()
      requires Valid()
      ensures forall k :: 0 <= k < size ==> Compare(byRemaining, Pcbs()[0], Pcbs()[k]) <= 0
    {
      ComparisonIsPreorder(byRemaining);
      forall k | 0 <= k < size ensures Le()(Pcbs()[0], Pcbs()[k]) { RootIsLeast(Pcbs(), k, Le()); }
    }

    method ExtractMin() returns (least: PcbRef?)
      requires Valid()
      modifies this, processes
      ensures Valid()
      ensures old(size) == 0 ==> least == null && size == 0
      ensures old(size) > 0 ==> least != null && least == old(processes[0]) && least in old(Contents())
      ensures old(size) > 0 ==> multiset(Contents()) == multiset(old(Contents())) - multiset{least}
      ensures old(size) > 0 ==>
                forall k :: 0 <= k < old(size) ==> Compare(byRemaining, old(processes[0].pcb), old(Pcbs())[k]) <= 0
      ensures old(size) > 0 ==> forall k :: 0 <= k < old(size) ==>
                var p, q := old(processes[0].pcb), old(Pcbs())[k];
                if byRemaining then p.remaining <= q.remaining else p.priority <= q.priority
    {
      if size == 0 { return null; }
      least := processes[0];
      FirstIsLeast();
      MoveLastToRoot();
      if size > 0 { HeapifyDown(0); }
    }

    method MoveLastToRoot()
      requires Valid() && size > 0
      modifies this, processes
      ensures Sized() && size == old(size) - 1
      ensures multiset(Contents()) == multiset(old(Contents())) - multiset{old(processes[0])}
      ensures DownHole(Pcbs(), 0, Le())
    {
      ghost var s, k := Contents(), Pcbs();
      processes[0] := processes[size - 1];
      size := size - 1;
      assert s == s[..size] + [s[size]];
      if size > 0 {
        assert Contents() == s[..size][0 := s[size]];
        ReplacedRoot(k, Pcbs(), Le());
      }
    }

    // Repairs the heap after the block of pid, and no other, changed.
    method UpdateProcess(pid: int, ghost before: seq<Pcb>)
      requires Sized() && Ordered(before, Le()) && |before| == size
      requires forall i :: 0 <= i < size && Pcbs()[i] != before[i] ==> processes[i].pcb.pid == pid
      requires forall i, j :: 0 <= i < j < size && processes[i].pcb.pid == pid ==> processes[j].pcb.pid != pid
      modifies processes
      ensures Valid() && multiset(Contents()) == multiset(old(Contents()))
    {
      for i := 0 to size
        invariant Contents() == old(Contents())
        invariant forall j :: 0 <= j < i ==> processes[j].pcb.pid != pid
      {
        if processes[i].pcb.pid == pid {
          assert HoleAt(Pcbs(), i, Le()) by {
            ComparisonIsPreorder(byRemaining);
            ChangedEntryLeavesHole(before, Pcbs(), i, Le());
          }
          HeapifyUp(i);
          HeapifyDown(i);
          return;
        }
      }
      assert Pcbs() == before;
    }
  }
}
