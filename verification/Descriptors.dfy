/** Reading a whole list through a buffer that the kernel may fill silently. */
module Descriptors {
  import opened Wrappers

  const MIN_CAPACITY: nat := 64
  const MAX_CAPACITY: nat := 65_536
  const MAX_ATTEMPTS: nat := 8

  function Min(a: nat, b: nat): nat { if a < b then a else b }

  /** The capacity of the `n`th read. */
  function Capacity(hint: nat, n: nat): (c: nat)
    ensures MIN_CAPACITY <= c <= MAX_CAPACITY
  {
    if n == 0 then Min(hint + MIN_CAPACITY, MAX_CAPACITY) else Min(2 * Capacity(hint, n - 1), MAX_CAPACITY)
  }

  /** A reader, by the number of earlier reads and the capacity offered. */
  type Reader<!T> = (nat, nat) -> Option<seq<T>>

  /** What a kernel that only truncates answers about a list that does not change. */
  ghost predicate Stable<T(!new)>(read: Reader<T>, list: seq<T>) {
    forall n: nat, c: nat :: read(n, c) == Some(list[..Min(|list|, c)])
  }

  /** The reply to the `n`th read was complete for sure. */
  ghost predicate Conclusive<T>(read: Reader<T>, hint: nat, n: nat) {
    read(n, Capacity(hint, n)).Some? && |read(n, Capacity(hint, n)).value| < Capacity(hint, n)
  }

  /** The reply to the `n`th read filled its buffer exactly, so that it may have
      been cut. */
  ghost predicate Saturated<T>(read: Reader<T>, hint: nat, n: nat) {
    read(n, Capacity(hint, n)).Some? && |read(n, Capacity(hint, n)).value| == Capacity(hint, n)
  }

  /** How the reads may have gone. */
  ghost predicate Answered<T>(read: Reader<T>, hint: nat, r: Option<seq<T>>, attempts: nat) {
    && attempts <= MAX_ATTEMPTS && (hint >= MAX_CAPACITY <==> attempts == 0)
    && (forall n :: 0 <= n < attempts - 1 ==> Saturated(read, hint, n))
    && (r.Some? <==> attempts > 0 && Conclusive(read, hint, attempts - 1))
    && (r.Some? ==> r == read(attempts - 1, Capacity(hint, attempts - 1)))
    && (r.None? && 0 < attempts < MAX_ATTEMPTS && Saturated(read, hint, attempts - 1) ==>
          Capacity(hint, attempts - 1) == MAX_CAPACITY)
  }

  /** Whatever the reader answers, the result is the first conclusive reply, every
      earlier one having filled its buffer, after at most eight reads. A stable
      list is returned whole, exactly when the last buffer is larger than it. */
  method ReadCompleteList<T(!new)>(declared: nat, read: Reader<T>) returns (r: Option<seq<T>>, attempts: nat)
    ensures Answered(read, declared, r, attempts)
    ensures attempts <= 8 && (attempts == 0 <==> declared >= 65_536)
    ensures forall list :: Stable(read, list) ==>
      r == if declared < 65_536 && |list| < Min(65_536, 128 * Min(declared + 64, 65_536)) then Some(list) else None
  {
    r, attempts := None, 0;
    if declared < MAX_CAPACITY {
      r, attempts := ReadGrowing(declared, read);
    }
    forall list | Stable(read, list)
      ensures r == if declared < MAX_CAPACITY
          && |list| < Min(MAX_CAPACITY, 128 * Min(declared + MIN_CAPACITY, MAX_CAPACITY)) then Some(list) else None
    {
      StableAnswer(read, declared, list, r, attempts);
    }
  }

  method ReadGrowing<T>(declared: nat, read: Reader<T>) returns (r: Option<seq<T>>, attempts: nat)
    requires declared < MAX_CAPACITY
    ensures Answered(read, declared, r, attempts)
  {
    attempts := 0;
    var capacity := Min(declared + MIN_CAPACITY, MAX_CAPACITY);
    while attempts < MAX_ATTEMPTS
      invariant attempts <= MAX_ATTEMPTS && capacity == Capacity(declared, attempts)
      invariant forall n :: 0 <= n < attempts ==> Saturated(read, declared, n)
    {
      var entries := read(attempts, capacity);
      attempts := attempts + 1;
      if entries.None? { return None, attempts; }
      if |entries.value| < capacity { return entries, attempts; }
      if |entries.value| > capacity || capacity == MAX_CAPACITY { return None, attempts; }
      capacity := Min(2 * capacity, MAX_CAPACITY);
    }
    assert Saturated(read, declared, attempts - 1);
    return None, attempts;
  }

  lemma {:induction false} CapacityGrows(hint: nat, m: nat, n: nat)
    requires m <= n
    ensures Capacity(hint, m) <= Capacity(hint, n)
    decreases n
  {
    if m < n { CapacityGrows(hint, m, n - 1); }
  }

  lemma StableAnswer<T(!new)>(read: Reader<T>, hint: nat, list: seq<T>, r: Option<seq<T>>, attempts: nat)
    requires Stable(read, list) && Answered(read, hint, r, attempts)
    ensures r == if hint < MAX_CAPACITY && |list| < Min(MAX_CAPACITY, 128 * Min(hint + MIN_CAPACITY, MAX_CAPACITY))
        then Some(list) else None
  {
    if attempts > 0 {
      var last := attempts - 1;
      LastCapacity(hint);
      CapacityGrows(hint, last, MAX_ATTEMPTS - 1);
      assert read(last, Capacity(hint, last)) == Some(list[..Min(|list|, Capacity(hint, last))]);
      assert Saturated(read, hint, last) || Conclusive(read, hint, last);
      assert list[..|list|] == list;
    }
  }

  lemma LastCapacity(hint: nat)
    ensures Capacity(hint, MAX_ATTEMPTS - 1) == Min(MAX_CAPACITY, 128 * Min(hint + MIN_CAPACITY, MAX_CAPACITY))
  {
    var c := Min(hint + MIN_CAPACITY, MAX_CAPACITY);
    assert Capacity(hint, 1) == Min(2 * c, MAX_CAPACITY) && Capacity(hint, 2) == Min(4 * c, MAX_CAPACITY);
    assert Capacity(hint, 3) == Min(8 * c, MAX_CAPACITY) && Capacity(hint, 4) == Min(16 * c, MAX_CAPACITY);
    assert Capacity(hint, 5) == Min(32 * c, MAX_CAPACITY) && Capacity(hint, 6) == Min(64 * c, MAX_CAPACITY);
  }
}
