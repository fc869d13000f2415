/** Binary-heap order on a sequence, for an arbitrary total preorder `le`. Shared by the two heaps. */
module HeapOrder {

  function Parent(i: nat): nat
    requires i > 0
  {
    (i - 1) / 2
  }

  ghost predicate TotalPreorder<T(!new)>(le: (T, T) -> bool) {
    && (forall a, b :: le(a, b) || le(b, a))
    && (forall a, b, c :: le(a, b) && le(b, c) ==> le(a, c))
  }

  ghost predicate Ordered<T(!new)>(s: seq<T>, le: (T, T) -> bool) {
    forall j :: 0 < j < |s| ==> le(s[Parent(j)], s[j])
  }

  // Only s[h] may be out of place, in either direction.
  ghost predicate HoleAt<T(!new)>(s: seq<T>, h: nat, le: (T, T) -> bool) {
    && (forall j :: 0 < j < |s| && j != h && Parent(j) != h ==> le(s[Parent(j)], s[j]))
    && (0 < h < |s| ==> forall j :: 0 < j < |s| && Parent(j) == h ==> le(s[Parent(h)], s[j]))
  }

  // Only s[h] may be too small for its parent.
  ghost predicate UpHole<T(!new)>(s: seq<T>, h: nat, le: (T, T) -> bool) {
    HoleAt(s, h, le) && h < |s| && forall j :: 0 < j < |s| && Parent(j) == h ==> le(s[h], s[j])
  }

  // Only s[h] may be too large for its children.
  ghost predicate DownHole<T(!new)>(s: seq<T>, h: nat, le: (T, T) -> bool) {
    HoleAt(s, h, le) && (0 < h < |s| ==> le(s[Parent(h)], s[h]))
  }

  function Swapped<T>(s: seq<T>, i: nat, j: nat): (r: seq<T>)
    requires i < |s| && j < |s|
    ensures multiset(r) == multiset(s)
  {
    s[i := s[j]][j := s[i]]
  }

  lemma {:induction false} RootIsLeast<T(!new)>(s: seq<T>, j: nat, le: (T, T) -> bool)
    requires TotalPreorder(le) && Ordered(s, le) && j < |s|
    ensures le(s[0], s[j])
    decreases j
  {
    if j > 0 { RootIsLeast(s, Parent(j), le); }
  }

  // One step of a sift up.
  lemma SiftUpStep<T(!new)>(s: seq<T>, h: nat, le: (T, T) -> bool)
    requires TotalPreorder(le)
    requires 0 < h < |s| && HoleAt(s, h, le) && !le(s[Parent(h)], s[h])
    ensures UpHole(Swapped(s, h, Parent(h)), Parent(h), le)
  {
  }

  // Where a sift up stops.
  lemma SiftUpDone<T(!new)>(s: seq<T>, h: nat, i: nat, le: (T, T) -> bool)
    requires TotalPreorder(le)
    requires h < |s| && (h > 0 ==> le(s[Parent(h)], s[h]))
    requires UpHole(s, h, le) || (h == i && HoleAt(s, i, le))
    ensures DownHole(s, i, le)
    ensures UpHole(s, h, le) ==> Ordered(s, le)
  {
    if UpHole(s, h, le) && 0 < i < |s| {
      forall j | 0 < j < |s| && Parent(j) == i ensures le(s[Parent(i)], s[j]) {
        assert le(s[Parent(i)], s[i]) && le(s[i], s[j]);
      }
    }
  }

  // One step of a sift down, towards the smaller child c.
  lemma SiftDownStep<T(!new)>(s: seq<T>, h: nat, c: nat, le: (T, T) -> bool)
    requires TotalPreorder(le)
    requires h < |s| && 0 < c < |s| && Parent(c) == h
    requires DownHole(s, h, le) && !le(s[h], s[c])
    requires forall j :: 0 < j < |s| && Parent(j) == h ==> le(s[c], s[j])
    ensures DownHole(Swapped(s, h, c), c, le)
  {
  }

  // Changing one entry of an ordered heap leaves a hole there.
  lemma ChangedEntryLeavesHole<T(!new)>(before: seq<T>, s: seq<T>, h: nat, le: (T, T) -> bool)
    requires TotalPreorder(le)
    requires Ordered(before, le) && |s| == |before| && h < |s|
    requires forall j :: 0 <= j < |s| && j != h ==> s[j] == before[j]
    ensures HoleAt(s, h, le)
  {
    if h > 0 {
      forall j | 0 < j < |s| && Parent(j) == h ensures le(s[Parent(h)], s[j]) {
        assert le(before[Parent(h)], before[h]) && le(before[h], before[j]);
      }
    }
  }

  // Replacing the root of an ordered heap leaves it at most too large.
  lemma ReplacedRoot<T(!new)>(before: seq<T>, s: seq<T>, le: (T, T) -> bool)
    requires Ordered(before, le) && 0 < |s| <= |before|
    requires forall j :: 0 < j < |s| ==> s[j] == before[j]
    ensures DownHole(s, 0, le)
  {
  }

  // A new last entry is at most too small.
  lemma AppendedEntry<T(!new)>(before: seq<T>, x: T, le: (T, T) -> bool)
    requires Ordered(before, le)
    ensures UpHole(before + [x], |before|, le)
  {
    var s := before + [x];
    forall j | 0 < j < |s| && j != |before| ensures le(s[Parent(j)], s[j]) {
      assert s[j] == before[j] && s[Parent(j)] == before[Parent(j)];
    }
  }
}
