/** The growable ring buffer of Queue.c, a first-in first-out queue of control blocks. */
module PcbQueue {
  import opened Processes

  lemma ModOnce(x: int, c: int)
    requires 0 < c && 0 <= x < 2 * c
    ensures x % c == if x < c then x else x - c
  {
    if x >= c { assert x == c * 1 + (x - c); }
  }

  class Queue {
    var data: array<Pcb>
    var front: nat
    var rear: nat
    var size: nat
    var capacity: nat

    ghost predicate Valid()
      reads this
    {
      && 0 < capacity == data.Length
      && front < capacity && rear < capacity && size <= capacity
      && rear == Slot(size)
    }

    // The index of the i-th element.
    ghost function Slot(i: nat): int
      reads this
    {
      if front + i < capacity then front + i else front + i - capacity
    }

    // Oldest element first.
    ghost function Contents(): (s: seq<Pcb>)
      requires Valid()
      reads this, data
      ensures |s| == size
      ensures forall i :: 0 <= i < size ==> s[i] == data[Slot(i)]
    {
      seq(size, i requires Valid() && 0 <= i < size reads this, data => data[Slot(i)])
    }

    constructor (capacity: nat)
      requires capacity > 0
      ensures Valid() && fresh(data) && Contents() == []
    {
      data := new Pcb[capacity](_ => EMPTY_PCB);
      front, rear, size := 0, 0, 0;
      this.capacity := capacity;
    }

    method Resize(newCapacity: nat)
      requires Valid() && size < newCapacity
      modifies this
      ensures Valid() && fresh(data) && capacity == newCapacity && Contents() == old(Contents())
    {
      var newData := new Pcb[newCapacity](_ => EMPTY_PCB);
      for i := 0 to size
        modifies newData
        invariant forall j :: 0 <= j < i ==> newData[j] == data[Slot(j)]
      {
        ModOnce(front + i, capacity);
        newData[i] := data[(front + i) % capacity];
      }
      data := newData;
      front, rear, capacity := 0, size, newCapacity;
      assert Contents() == old(Contents());
    }

    method Enqueue(value: Pcb)
      requires Valid()
      modifies this, data
      ensures Valid() && (data == old(data) || fresh(data))
      ensures Contents() == old(Contents()) + [value]
    {
      if size == capacity { Resize(capacity * 2); }
      StoreAtRear(value);
    }

    method StoreAtRear(value: Pcb)
      requires Valid() && size < capacity
      modifies this, data
      ensures Valid() && data == old(data)
      ensures Contents() == old(Contents()) + [value]
    {
      ghost var s := Contents();
      assert forall i :: 0 <= i < size ==> Slot(i) != rear;
      data[rear] := value;
      ModOnce(rear + 1, capacity);
      rear := (rear + 1) % capacity;
      size := size + 1;
      ghost var t := Contents();
      assert forall i :: 0 <= i < size - 1 ==> t[i] == data[Slot(i)] == s[i];
      assert t == s + [value];
    }

    method Front() returns (value: Pcb)
      requires Valid()
      ensures value == if Contents() == [] then EMPTY_PCB else Contents()[0]
    {
      if size == 0 { return EMPTY_PCB; }
      value := data[front];
    }

    method Dequeue()
      requires Valid()
      modifies this
      ensures Valid() && data == old(data)
      ensures Contents() == if old(Contents()) == [] then [] else old(Contents())[1..]
    {
      if size == 0 { return; }
      ModOnce(front + 1, capacity);
      front := (front + 1) % capacity;
      size := size - 1;
      assert forall i :: 0 <= i < size ==> Contents()[i] == old(Contents())[i + 1];
    }
  }
}
