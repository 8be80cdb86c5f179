/**
  `splice` as the shim performs it on a sparse array in place, against section
  15.4.4.12 of ECMA-262 edition 5.1.
*/
module Splice {
  import opened ActionGraph

  const MAX_LENGTH: nat := 0x1_0000_0000

  type Slots<T> = seq<Option<T>>

  function Filled<T>(items: seq<T>): (v: Slots<T>)
    ensures |v| == |items| && forall i :: 0 <= i < |items| ==> v[i] == Some(items[i])
  {
    seq(|items|, i requires 0 <= i < |items| => Some(items[i]))
  }

  function Min(a: int, b: int): int {
    if a < b then a else b
  }

  function Max(a: int, b: int): int {
    if a < b then b else a
  }

  /** Steps 5 and 6 of the specification: a start below zero counts from the end. */
  function ActualStart(start: int, length: nat): (s: nat)
    ensures s <= length
    ensures 0 <= start <= length ==> s == start
    ensures start < 0 <= start + length ==> s == start + length
    ensures start > length ==> s == length
    ensures start + length < 0 ==> s == 0
  {
    if start < 0 then Max(length + start, 0) else Min(start, length)
  }

  /** Step 7. */
  function ActualDeleteCount(deleteCount: int, start: nat, length: nat): (d: nat)
    requires start <= length
    ensures start + d <= length
    ensures 0 <= deleteCount <= length - start ==> d == deleteCount
    ensures deleteCount > length - start ==> d == length - start
    ensures deleteCount < 0 ==> d == 0
  {
    Min(Max(deleteCount, 0), length - start)
  }

  function Slot<T>(slots: Slots<T>, i: int): Option<T> {
    if 0 <= i < |slots| then slots[i] else None
  }

  /** The slots at some length: longer with holes, shorter by cutting. */
  function Resized<T>(slots: Slots<T>, n: nat): (r: Slots<T>)
    ensures |r| == n && forall i :: 0 <= i < n ==> r[i] == if i < |slots| then slots[i] else None
  {
    seq(n, i requires 0 <= i < n => if i < |slots| then slots[i] else None)
  }

  /** An array whose slots may be holes; its `length` is the number of slots. */
  class SparseArray<T> {
    var slots: Slots<T>

    ghost predicate Valid()
      reads this
    {
      |slots| < MAX_LENGTH
    }

    constructor ()
      ensures Valid() && slots == []
    {
      slots := [];
    }

    /** `hasOwnProperty` */
    predicate Owns(i: nat)
      reads this
    {
      i < |slots| && slots[i].Some?
    }

    /** Assigning to a slot makes the array long enough for it. */
    method Put(i: nat, value: T)
      requires Valid() && i + 1 < MAX_LENGTH
      modifies this
      ensures Valid()
      ensures slots == (if i < |old(slots)| then old(slots) else Resized(old(slots), i + 1))[i := Some(value)]
    {
      if i >= |slots| {
        slots := Resized(slots, i + 1);
      }
      slots := slots[i := Some(value)];
    }

    method Delete(i: nat)
      requires Valid()
      modifies this
      ensures Valid() && slots == if i < |old(slots)| then old(slots)[i := None] else old(slots)
    {
      if i < |slots| {
        slots := slots[i := None];
      }
    }

    /** Assigning to `length`. */
    method SetLength(n: nat)
      requires Valid() && n < MAX_LENGTH
      modifies this
      ensures Valid() && slots == Resized(old(slots), n)
    {
      slots := Resized(slots, n);
    }

    /** What the removed slots held; holes at the end do not make the returned array longer. */
    method Removed(start: nat, count: nat) returns (removed: Slots<T>)
      requires Valid() && start + count <= |slots|
      ensures |removed| <= count && (removed != [] ==> removed[|removed| - 1].Some?)
      ensures Resized(removed, count) == slots[start..start + count]
    {
      removed := [];
      var k := 0;
      while k < count
        invariant 0 <= k <= count && |removed| <= k && (removed != [] ==> removed[|removed| - 1].Some?)
        invariant Resized(removed, k) == slots[start..start + k]
      {
        ghost var was := removed;
        if Owns(start + k) {
          removed := Resized(removed, k + 1)[k := slots[start + k]];
        }
        assert Resized(removed, k + 1) == Resized(was, k) + [slots[start + k]];
        assert slots[start..start + k + 1] == slots[start..start + k] + [slots[start + k]];
        k := k + 1;
      }
    }

    /** Moving what is in one slot, be it a value or a hole, to another. */
    method Move(source: nat, target: nat)
      requires Valid() && target + 1 < MAX_LENGTH
      modifies this
      ensures Valid() && slots == Transfer(old(slots), source, target)
    {
      if Owns(source) {
        Put(target, slots[source].value);
      } else {
        Delete(target);
      }
    }

    /** Closing the gap when fewer items come than slots go. */
    method ShiftDown(start: nat, delete: nat, insert: nat)
      requires Valid() && start + delete <= |slots| && insert < delete
      modifies this
      ensures Valid() && |slots| == |old(slots)|
      ensures slots[..start + insert] == old(slots)[..start + insert]
      ensures slots[start + insert..|slots| - delete + insert] == old(slots)[start + delete..]
    {
      hide Lowered, Transfer;
      ghost var was := slots;
      var len := |slots|;
      var k := start;
      var maxK := len - delete;
      LoweredStarts(was, start + insert, delete - insert);
      while k < maxK
        invariant start <= k <= maxK && Valid() && |slots| == len
        invariant Lowered(slots, was, start + insert, k + insert, delete - insert)
      {
        LoweredOne(slots, was, start + insert, k + insert, delete - insert);
        Move(k + delete, k + insert);
        k := k + 1;
      }
      LoweredEnds(slots, was, start + insert, delete - insert);
      k := len;
      var minK := len - delete + insert;
      ghost var moved := slots;
      while k > minK
        invariant minK <= k <= len && Valid() && |slots| == len
        invariant slots[..minK] == moved[..minK]
      {
        Delete(k - 1);
        k := k - 1;
      }
      assert slots[..start + insert] == moved[..minK][..start + insert];
      assert slots[start + insert..minK] == moved[..minK][start + insert..];
    }

    /** Making room when more items come than slots go. */
    method ShiftUp(start: nat, delete: nat, insert: nat)
      requires Valid() && start + delete <= |slots| && delete < insert && |slots| - delete + insert < MAX_LENGTH
      modifies this
      ensures Valid() && |slots| <= |old(slots)| - delete + insert
      ensures var now := Resized(slots, |old(slots)| - delete + insert);
              && now[..start] == old(slots)[..start]
              && now[start + insert..] == old(slots)[start + delete..]
    {
      hide Raised, Transfer, Resized;
      ghost var was := slots;
      var len := |slots|;
      var k := len - delete;
      RaisedStarts(was, insert - delete);
      while k > start
        invariant start <= k <= len - delete && Valid()
        invariant Raised(slots, was, k + delete, insert - delete)
      {
        RaisedOne(slots, was, k + delete, insert - delete);
        Move(k + delete - 1, k + insert - 1);
        k := k - 1;
      }
      RaisedEnds(slots, was, start + delete, insert - delete);
      ghost var now := Resized(slots, len - delete + insert);
      assert now[..start] == now[..start + delete][..start] && was[..start] == was[..start + delete][..start];
    }

    /** Bringing the slots after the removed ones to where they go. */
    method MakeRoom(start: nat, delete: nat, insert: nat)
      requires Valid() && start + delete <= |slots| && |slots| - delete + insert < MAX_LENGTH
      modifies this
      ensures Valid()
      ensures var now := Resized(slots, |old(slots)| - delete + insert);
              now[..start] == old(slots)[..start] && now[start + insert..] == old(slots)[start + delete..]
    {
      hide Resized;
      ghost var was := slots;
      if insert < delete {
        ShiftDown(start, delete, insert);
      } else if insert > delete {
        ShiftUp(start, delete, insert);
      }
      Moved(was, slots, start, delete, insert);
    }

    /**
      `splice`: what is left is the slots before the start, the items, and the slots after the
      removed ones, with all holes where they were; what is returned is the removed slots.
    */
    method Run(start: int, deleteCount: int, items: seq<T>) returns (removed: Slots<T>)
      requires Valid()
      requires |slots| - ActualDeleteCount(deleteCount, ActualStart(start, |slots|), |slots|) + |items| < MAX_LENGTH
      modifies this
      ensures Valid()
      ensures var s := ActualStart(start, |old(slots)|);
              var d := ActualDeleteCount(deleteCount, s, |old(slots)|);
              && slots == old(slots)[..s] + Filled(items) + old(slots)[s + d..]
              && Resized(removed, d) == old(slots)[s..s + d]
              && |removed| <= d && (removed != [] ==> removed[|removed| - 1].Some?)
    {
      hide Resized, Filled, ActualStart, ActualDeleteCount;
      ghost var was := slots;
      var len := |slots|;
      var s := ActualStart(start, len);
      var d := ActualDeleteCount(deleteCount, s, len);
      removed := Removed(s, d);
      MakeRoom(s, d, |items|);
      ghost var end := len - d + |items|;
      PutItems(s, items, end);
      SetLength(len - d + |items|);
      Assembled(was, slots, s, d, items);
    }

    /** The items, one after the other, over what stands at the start. */
    method PutItems(start: nat, items: seq<T>, ghost end: nat)
      requires Valid() && start + |items| <= end < MAX_LENGTH
      modifies this
      ensures Valid()
      ensures Resized(slots, end)[..start] == Resized(old(slots), end)[..start]
      ensures Resized(slots, end)[start..start + |items|] == Filled(items)
      ensures Resized(slots, end)[start + |items|..] == Resized(old(slots), end)[start + |items|..]
    {
      ghost var was := slots;
      var k := start;
      for i := 0 to |items|
        invariant k == start + i && Valid() && |slots| >= |was|
        invariant forall j :: 0 <= j < i ==> k <= |slots| && slots[start + j] == Some(items[j])
        invariant forall j :: 0 <= j < |slots| && !(start <= j < k) ==> slots[j] == if j < |was| then was[j] else None
      {
        Put(k, items[i]);
        k := k + 1;
      }
    }
  }

  /** The slots after one move. */
  function Transfer<T>(slots: Slots<T>, source: nat, target: nat): Slots<T> {
    if Slot(slots, source).Some? then
      (if target < |slots| then slots else Resized(slots, target + 1))[target := slots[source]]
    else if target < |slots| then
      slots[target := None]
    else
      slots
  }

  /** The slots from `lo` up to `k` hold what was `gap` above them; the others are as they were. */
  ghost predicate Lowered<T>(now: Slots<T>, was: Slots<T>, lo: nat, k: nat, gap: nat) {
    && lo <= k && k + gap <= |now| == |was|
    && (forall i :: lo <= i < k ==> now[i] == was[i + gap])
    && (forall i :: 0 <= i < lo ==> now[i] == was[i])
    && (forall i :: k <= i < |was| ==> now[i] == was[i])
  }

  lemma {:induction false} LoweredStarts<T>(was: Slots<T>, lo: nat, gap: nat)
    requires lo + gap <= |was|
    ensures Lowered(was, was, lo, lo, gap)
  {
  }

  lemma {:induction false} LoweredOne<T>(now: Slots<T>, was: Slots<T>, lo: nat, k: nat, gap: nat)
    requires Lowered(now, was, lo, k, gap) && k + gap < |now| && gap > 0
    ensures Lowered(Transfer(now, k + gap, k), was, lo, k + 1, gap) && |Transfer(now, k + gap, k)| == |now|
  {
    assert now[k + gap] == was[k + gap];
    assert Transfer(now, k + gap, k) == now[k := was[k + gap]];
  }

  lemma {:induction false} LoweredEnds<T>(now: Slots<T>, was: Slots<T>, lo: nat, gap: nat)
    requires lo + gap <= |was| && Lowered(now, was, lo, |was| - gap, gap)
    ensures |now| == |was| && now[..lo] == was[..lo] && now[lo..|was| - gap] == was[lo + gap..]
  {
    var a, b := now[lo..|was| - gap], was[lo + gap..];
    forall i | 0 <= i < |a| ensures a[i] == b[i] {
      assert now[lo + i] == was[lo + i + gap];
    }
  }

  /** The slots from `k` on stand `gap` above; those below that are as they were. */
  ghost predicate Raised<T>(now: Slots<T>, was: Slots<T>, k: nat, gap: nat) {
    && k <= |was| <= |now| <= |was| + gap
    && (forall i :: k <= i < |was| ==> Slot(now, i + gap) == was[i])
    && (forall i :: 0 <= i < |was| && i < k + gap ==> now[i] == was[i])
  }

  lemma {:induction false} RaisedStarts<T>(was: Slots<T>, gap: nat)
    ensures Raised(was, was, |was|, gap)
  {
  }

  lemma {:induction false} RaisedOne<T>(now: Slots<T>, was: Slots<T>, k: nat, gap: nat)
    requires Raised(now, was, k, gap) && k > 0 && gap > 0
    ensures Raised(Transfer(now, k - 1, k - 1 + gap), was, k - 1, gap)
  {
    var next := Transfer(now, k - 1, k - 1 + gap);
    assert now[k - 1] == was[k - 1];
    forall i | k - 1 <= i < |was| ensures Slot(next, i + gap) == was[i] {
      assert i >= k ==> Slot(now, i + gap) == was[i];
    }
  }

  lemma {:induction false} RaisedEnds<T>(now: Slots<T>, was: Slots<T>, k: nat, gap: nat)
    requires Raised(now, was, k, gap)
    ensures |now| <= |was| + gap
    ensures Resized(now, |was| + gap)[..k] == was[..k] && Resized(now, |was| + gap)[k + gap..] == was[k..]
  {
    var r := Resized(now, |was| + gap);
    var a, b := r[k + gap..], was[k..];
    forall i | 0 <= i < |b| ensures a[i] == b[i] {
      assert Slot(now, k + i + gap) == was[k + i];
    }
  }

  lemma {:induction false} Assembled<T>(was: Slots<T>, now: Slots<T>, s: nat, d: nat, items: seq<T>)
    requires s + d <= |was| && |now| == |was| - d + |items|
    requires now[..s] == was[..s] && now[s..s + |items|] == Filled(items) && now[s + |items|..] == was[s + d..]
    ensures now == was[..s] + Filled(items) + was[s + d..]
  {
    assert now == now[..s] + now[s..s + |items|] + now[s + |items|..];
  }

  /** Whatever moved, the slots before and after the gap are where the result has them. */
  lemma {:induction false} Moved<T>(was: Slots<T>, now: Slots<T>, s: nat, d: nat, n: nat)
    requires s + d <= |was|
    requires n < d ==> |now| == |was| && now[..s + n] == was[..s + n] && now[s + n..|was| - d + n] == was[s + d..]
    requires n == d ==> now == was
    requires n > d ==>
      var r := Resized(now, |was| - d + n); r[..s] == was[..s] && r[s + n..] == was[s + d..]
    ensures var r := Resized(now, |was| - d + n); r[..s] == was[..s] && r[s + n..] == was[s + d..]
  {
    var r := Resized(now, |was| - d + n);
    if n < d {
      assert r == now[..|was| - d + n];
      assert r[..s] == now[..s + n][..s] && was[..s] == was[..s + n][..s];
      assert r[s + n..] == now[s + n..|was| - d + n];
    } else if n == d {
      assert r == now;
    }
  }
}
