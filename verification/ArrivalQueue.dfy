/** The array heap of priorityQueue.c that releases processes by arrival time. */
module ArrivalQueue {
  import opened Processes
  import opened HeapOrder

  datatype SortMode = SORT_BY_ARRIVAL_TIME | SORT_BY_ARRIVAL_THEN_PRIORITY

  function CompareProcesses(a: Job, b: Job, mode: SortMode): int {
    if mode.SORT_BY_ARRIVAL_TIME? then a.arrival - b.arrival
    else if a.arrival != b.arrival then a.arrival - b.arrival
    else a.priority - b.priority
  }

  ghost function AtMost(mode: SortMode): (Job, Job) -> bool {
    (a, b) => CompareProcesses(a, b, mode) <= 0
  }

  lemma ComparisonIsPreorder(mode: SortMode)
    ensures TotalPreorder(AtMost(mode))
  {
  }

  class PriorityQueue {
    var data: array<Job>
    var size: nat
    var capacity: nat
    const sortMode: SortMode

    ghost function Le(): (Job, Job) -> bool { AtMost(sortMode) }

    ghost predicate Sized()
      reads this
    {
      0 < capacity == data.Length && size <= capacity
    }

    ghost function Contents(): (s: seq<Job>)
      requires Sized()
      reads this, data
      ensures |s| == size
    {
      data[..size]
    }

    ghost predicate Valid()
      reads this, data
    {
      Sized() && Ordered(Contents(), Le())
    }

    constructor (capacity: nat, mode: SortMode)
      requires capacity > 0
      ensures Valid() && fresh(data) && Contents() == [] && sortMode == mode
    {
      data := new Job[capacity](_ => Job(0, 0, 0, 0, 0));
      size := 0;
      this.capacity := capacity;
      sortMode := mode;
    }

    method Resize(newCapacity: nat)
      requires Valid() && size < newCapacity
      modifies this
      ensures Valid() && fresh(data) && capacity == newCapacity && Contents() == old(Contents())
    {
      var newData := new Job[newCapacity](_ => Job(0, 0, 0, 0, 0));
      for i := 0 to size
        modifies newData
        invariant forall j :: 0 <= j < i ==> newData[j] == data[j]
      {
        newData[i] := data[i];
      }
      data := newData;
      capacity := newCapacity;
      assert Contents() == old(Contents());
    }

    method Push(value: Job)
      requires Valid()
      modifies this, data
      ensures Valid() && (data == old(data) || fresh(data))
      ensures multiset(Contents()) == multiset(old(Contents())) + multiset{value}
    {
      if size >= capacity { Resize(capacity * 2); }
      ghost var s := Contents();
      AppendedEntry(s, value, Le());
      size := size + 1;
      assert Filled(size - 1, value) == s + [value];
      SiftUp(value);
    }

    // The contents with value in the hole at i.
    ghost function Filled(i: nat, value: Job): (s: seq<Job>)
      requires Sized() && i < size
      reads this, data
      ensures |s| == size
    {
      Contents()[i := value]
    }

    method MoveParentDown(i: nat, value: Job)
      requires Sized() && 0 < i < size
      modifies data
      ensures Filled(Parent(i), value) == Swapped(old(Filled(i, value)), i, Parent(i))
    {
      data[i] := data[Parent(i)];
      assert Contents() == old(Contents())[i := old(Contents())[Parent(i)]];
    }

    // The hole moves up from the end until value fits.
    method SiftUp(value: Job)
      requires Sized() && size > 0
      requires UpHole(Filled(size - 1, value), size - 1, Le())
      modifies data
      ensures Valid() && multiset(Contents()) == multiset(old(Filled(size - 1, value)))
    {
      ComparisonIsPreorder(sortMode);
      var i: nat := size - 1;
      while i > 0
        invariant i < size && UpHole(Filled(i, value), i, Le())
        invariant multiset(Filled(i, value)) == multiset(old(Filled(size - 1, value)))
      {
        var parent := Parent(i);
        if CompareProcesses(data[parent], value, sortMode) <= 0 { break; }
        SiftUpStep(Filled(i, value), i, Le());
        MoveParentDown(i, value);
        i := parent;
      }
      SiftUpDone(Filled(i, value), i, i, Le());
      ghost var s := Filled(i, value);
      data[i] := value;
      assert Contents() == s;
    }

    lemma TopIsLeast(p: Job)
      requires Valid() && p in Contents()
      ensures CompareProcesses(Contents()[0], p, sortMode) <= 0
    {
      ComparisonIsPreorder(sortMode);
      var j :| 0 <= j < size && Contents()[j] == p;
      RootIsLeast(Contents(), j, Le());
    }

    method Top() returns (top: Job)
      requires Valid() && size > 0
      ensures top == Contents()[0]
      ensures forall p :: p in Contents() ==> CompareProcesses(top, p, sortMode) <= 0
      ensures forall p :: p in Contents() ==>
                top.arrival < p.arrival
                || (top.arrival == p.arrival && (sortMode.SORT_BY_ARRIVAL_TIME? || top.priority <= p.priority))
    {
      top := data[0];
      forall p | p in Contents() ensures CompareProcesses(top, p, sortMode) <= 0 { TopIsLeast(p); }
    }

    method SmallestOfThree(i: nat) returns (smallest: nat)
      requires Sized() && i < size
      ensures i <= smallest < size && (smallest != i ==> Parent(smallest) == i && !Le()(data[i], data[smallest]))
      ensures forall j :: 0 < j < size && Parent(j) == i ==> Le()(data[smallest], data[j])
    {
      ComparisonIsPreorder(sortMode);
      smallest := i;
      var left, right := 2 * i + 1, 2 * i + 2;
      if left < size && CompareProcesses(data[left], data[smallest], sortMode) < 0 { smallest := left; }
      if right < size && CompareProcesses(data[right], data[smallest], sortMode) < 0 { smallest := right; }
      assert forall j :: 0 < j && Parent(j) == i ==> j == left || j == right;
    }

    method Pop()
      requires Valid() && size > 0
      modifies this, data
      ensures Valid() && data == old(data) && size == old(size) - 1
      ensures multiset(Contents()) == multiset(old(Contents())) - multiset{old(Contents())[0]}
    {
      ghost var s := Contents();
      size := size - 1;
      data[0] := data[size];
      assert s == s[..size] + [s[size]];
      assert Contents() == if size == 0 then [] else s[..size][0 := s[size]];
      if size > 0 {
        ReplacedRoot(s, Contents(), Le());
        SiftDown();
      }
    }

    method SiftDown()
      requires Sized() && size > 0 && DownHole(Contents(), 0, Le())
      modifies data
      ensures Valid() && multiset(Contents()) == multiset(old(Contents()))
    {
      ComparisonIsPreorder(sortMode);
      var i: nat := 0;
      while true
        invariant i < size && DownHole(Contents(), i, Le())
        invariant multiset(Contents()) == multiset(old(Contents()))
        decreases size - i
      {
        var smallest := SmallestOfThree(i);
        if smallest == i { break; }
        SiftDownStep(Contents(), i, smallest, Le());
        ghost var t := Swapped(Contents(), i, smallest);
        var temp := data[i];
        data[i] := data[smallest];
        data[smallest] := temp;
        assert Contents() == t;
        i := smallest;
      }
    }
  }
}
