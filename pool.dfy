/** The recycling object pool (Willow/Pool.cs).

    One array holds every instance the pool has made. `InvalidCount` splits it:
    the slots `[0, InvalidCount)` are free (invalid) and may still hold an old
    instance to recycle, or null; the slots `[InvalidCount, Length)` are leased
    (valid). A null slot is `None`. `New` leases the highest free slot, growing
    the array by `ResizeAmount` at the low end when no slot is free; `CleanUp`
    moves the leased instances that fail `validate` back to the free region. */
module Pools {
  import opened Wrappers

  /** How many slots `New` adds when no free slot is left. */
  const ResizeAmount: nat := 20

  /** The size used when the constructor is given 0. */
  const DefaultSize: nat := 10

  datatype PoolError =
    | NegativeInitialSize          // ArgumentException from the constructor
    | NoParameterlessConstructor   // InvalidOperationException from the constructor
    | AllocateReturnedNull         // InvalidOperationException from New
    | IndexOutOfRange              // IndexOutOfRangeException from the indexer

  /** The entries of `s` that fail `validate`, in their order in `s`. */
  function Released<T>(validate: Option<T> -> bool, s: seq<Option<T>>): (r: seq<Option<T>>)
    ensures |r| <= |s|
    ensures forall k :: 0 <= k < |r| ==> !validate(r[k])
  {
    if s == [] then []
    else Released(validate, s[..|s| - 1]) + (if validate(s[|s| - 1]) then [] else [s[|s| - 1]])
  }

  /** The entries of `s` that pass `validate`. */
  function Kept<T>(validate: Option<T> -> bool, s: seq<Option<T>>): (r: seq<Option<T>>)
    ensures forall k :: 0 <= k < |r| ==> validate(r[k])
  {
    if s == [] then []
    else Kept(validate, s[..|s| - 1]) + (if validate(s[|s| - 1]) then [s[|s| - 1]] else [])
  }

  /** Every entry is either released or kept: the two together are a
      permutation of the input. */
  lemma {:induction false} ReleasedKeptPartition<T>(validate: Option<T> -> bool, s: seq<Option<T>>)
    ensures multiset(Released(validate, s)) + multiset(Kept(validate, s)) == multiset(s)
    ensures |Released(validate, s)| + |Kept(validate, s)| == |s|
  {
    if s != [] {
      var init, last := s[..|s| - 1], s[|s| - 1];
      ReleasedKeptPartition(validate, init);
      assert s == init + [last];
    }
  }

  /** An entry that passes `validate` is never released, one that fails it
      always is. */
  lemma {:induction false} ReleasedExactly<T>(validate: Option<T> -> bool, s: seq<Option<T>>, x: Option<T>)
    ensures x in Released(validate, s) <==> x in s && !validate(x)
  {
    if s != [] {
      var init, last := s[..|s| - 1], s[|s| - 1];
      ReleasedExactly(validate, init, x);
      assert s == init + [last];
    }
  }

  /** The array contents after the resizing step of `New`: when no slot is
      free, `ResizeAmount` null slots are put in front of the old items. */
  function Grown<T>(items: seq<Option<T>>, invalidCount: nat): (r: seq<Option<T>>)
    ensures invalidCount > 0 ==> r == items
    ensures invalidCount == 0 ==>
      && |r| == |items| + ResizeAmount
      && (forall k :: 0 <= k < ResizeAmount ==> r[k] == None)
      && (forall k :: ResizeAmount <= k < |r| ==> r[k] == items[k - ResizeAmount])
  {
    if invalidCount == 0 then seq(ResizeAmount, _ => None) + items else items
  }

  /** `s` with the entries at `i` and `j` exchanged. */
  function Swapped<T>(s: seq<T>, i: nat, j: nat): (r: seq<T>)
    requires i < |s| && j < |s|
    ensures |r| == |s| && r[i] == s[j] && r[j] == s[i]
    ensures forall k :: 0 <= k < |s| && k != i && k != j ==> r[k] == s[k]
  {
    s[i := s[j]][j := s[i]]
  }

  /** What `CleanUp` has established after checking the leased entries
      `[start, i)` of `orig`: `cur` is a permutation of `orig` that keeps the
      free prefix and the unchecked suffix, holds the released entries in
      order in `[start, ic)` and only valid entries in `[ic, i)`. */
  ghost predicate CleanUpInvariant<T>(validate: Option<T> -> bool, orig: seq<Option<T>>, cur: seq<Option<T>>,
                                      start: nat, ic: nat, i: nat)
  {
    && start <= ic <= i <= |cur| == |orig|
    && cur[..start] == orig[..start]
    && multiset(cur) == multiset(orig)
    && cur[start..ic] == Released(validate, orig[start..i])
    && (forall k :: ic <= k < i ==> validate(cur[k]))
    && cur[i..] == orig[i..]
  }

  /** What `CleanUp` leaves behind once every leased entry is checked: the
      free prefix is untouched, the released entries follow it in their
      original order, and the leased region holds exactly the entries that
      pass `validate` (as a multiset). */
  lemma {:induction false} CleanUpOutcome<T>(validate: Option<T> -> bool, orig: seq<Option<T>>, cur: seq<Option<T>>,
                                             start: nat, ic: nat)
    requires CleanUpInvariant(validate, orig, cur, start, ic, |cur|)
    ensures cur[..start] == orig[..start]
    ensures cur[start..ic] == Released(validate, orig[start..])
    ensures multiset(cur[ic..]) == multiset(Kept(validate, orig[start..]))
    ensures forall k :: ic <= k < |cur| ==> validate(cur[k])
  {
    assert orig[start..|cur|] == orig[start..];
    ReleasedKeptPartition(validate, orig[start..]);
    var prefix, released := multiset(orig[..start]), multiset(Released(validate, orig[start..]));
    var kept, left := multiset(Kept(validate, orig[start..])), multiset(cur[ic..]);
    assert cur == cur[..start] + cur[start..ic] + cur[ic..];
    assert multiset(cur) == prefix + released + left;
    assert orig == orig[..start] + orig[start..];
    assert multiset(orig) == prefix + released + kept;
    CancelLeft(prefix + released, left, kept);
  }

  lemma CancelLeft<T>(x: multiset<T>, c: multiset<T>, d: multiset<T>)
    requires x + c == x + d
    ensures c == d
  {
    forall e
      ensures c[e] == d[e]
    {
      assert (x + c)[e] == (x + d)[e];
    }
  }

  /** Appending one entry releases it exactly when it fails `validate`. */
  lemma ReleasedSnoc<T>(validate: Option<T> -> bool, s: seq<Option<T>>, x: Option<T>)
    ensures Released(validate, s + [x]) == Released(validate, s) + (if validate(x) then [] else [x])
  {
    assert (s + [x])[..|s|] == s;
  }

  /** Checking entry `i` extends the released entries of `[start, i)` by
      that entry exactly when it fails `validate`. */
  lemma ReleasedStep<T>(validate: Option<T> -> bool, orig: seq<Option<T>>, start: nat, i: nat)
    requires start <= i < |orig|
    ensures Released(validate, orig[start..i + 1])
         == Released(validate, orig[start..i]) + (if validate(orig[i]) then [] else [orig[i]])
  {
    assert orig[start..i + 1] == orig[start..i] + [orig[i]];
    ReleasedSnoc(validate, orig[start..i], orig[i]);
  }

  /** A step of `CleanUp` over a valid entry leaves it where it is. */
  lemma CleanUpKeep<T>(validate: Option<T> -> bool, orig: seq<Option<T>>, cur: seq<Option<T>>,
                       start: nat, ic: nat, i: nat)
    requires CleanUpInvariant(validate, orig, cur, start, ic, i) && i < |cur| && validate(cur[i])
    ensures CleanUpInvariant(validate, orig, cur, start, ic, i + 1)
  {
    SuffixStep(cur, orig, i);
    ValidStep(validate, orig, start, i);
  }

  /** Agreeing from `i` on, two sequences agree at `i` and from `i + 1` on. */
  lemma SuffixStep<T>(cur: seq<T>, orig: seq<T>, i: nat)
    requires i < |cur| == |orig| && cur[i..] == orig[i..]
    ensures cur[i] == orig[i] && cur[i + 1..] == orig[i + 1..]
  {
    assert cur[i] == cur[i..][0];
    assert cur[i + 1..] == cur[i..][1..];
    assert orig[i + 1..] == orig[i..][1..];
  }

  /** A valid entry adds nothing to the released ones. */
  lemma ValidStep<T>(validate: Option<T> -> bool, orig: seq<Option<T>>, start: nat, i: nat)
    requires start <= i < |orig| && validate(orig[i])
    ensures Released(validate, orig[start..i + 1]) == Released(validate, orig[start..i])
  {
    ReleasedStep(validate, orig, start, i);
    assert Released(validate, orig[start..i]) + [] == Released(validate, orig[start..i]);
  }

  /** A step of `CleanUp` over a failing entry exchanges it with the first
      leased slot `ic`, which extends the released block by that entry. */
  lemma CleanUpRelease<T>(validate: Option<T> -> bool, orig: seq<Option<T>>, cur: seq<Option<T>>,
                          start: nat, ic: nat, i: nat)
    requires CleanUpInvariant(validate, orig, cur, start, ic, i) && i < |cur| && !validate(cur[i])
    ensures CleanUpInvariant(validate, orig, Swapped(cur, i, ic), start, ic + 1, i + 1)
  {
    SuffixStep(cur, orig, i);
    ReleasedStep(validate, orig, start, i);
    var r := Swapped(cur, i, ic);
    assert r[..start] == cur[..start];
    SwappedBlock(cur, start, ic, i);
    assert r[i + 1..] == cur[i + 1..];
    SwapPermutes(cur, i, ic);
  }

  /** Exchanging entry `i` with the first entry `ic` past a block that starts
      at `start` appends entry `i` to the block. */
  lemma SwappedBlock<T>(s: seq<T>, start: nat, ic: nat, i: nat)
    requires start <= ic <= i < |s|
    ensures Swapped(s, i, ic)[start..ic + 1] == s[start..ic] + [s[i]]
  {
    var r := Swapped(s, i, ic);
    forall k | 0 <= k < ic + 1 - start
      ensures r[start..ic + 1][k] == (s[start..ic] + [s[i]])[k]
    {
      if k < ic - start {
        assert r[start + k] == s[start + k];
      }
    }
  }

  lemma SwapPermutes<T>(s: seq<T>, i: nat, j: nat)
    requires j <= i < |s|
    ensures multiset(Swapped(s, i, j)) == multiset(s)
  {
    var t := s[i := s[j]];
    assert multiset(t) == multiset(s) - multiset{s[i]} + multiset{s[j]};
    assert multiset(t[j := s[i]]) == multiset(t) - multiset{t[j]} + multiset{s[i]};
  }

  class Pool<T(==)> {
    /** The instances, free ones first. */
    var items: array<Option<T>>
    /** The number of free slots at the front of `items`. */
    var InvalidCount: nat
    /** Decides whether a leased instance is still in use. */
    const validate: Option<T> -> bool
    /** Whether the `Initialize` delegate is set. */
    var hasInitialize: bool
    /** Whether the `Deinitialize` delegate is set. */
    var hasDeinitialize: bool

    ghost predicate Valid()
      reads this
    {
      InvalidCount <= items.Length
    }

    /** The leased slots are those past the free prefix; under `Valid()`
        their count is a `nat`, which is what the pool invariant buys. */
    function ValidCount(): (n: nat)
      reads this
      requires Valid()
      ensures n + InvalidCount == items.Length
    {
      items.Length - InvalidCount
    }

    /** The indexer `this[index]`: the `index`-th leased slot. */
    function At(index: int): (r: Result<Option<T>, PoolError>)
      reads this, items
      requires Valid()
      ensures r.Ok? <==> 0 <= index < ValidCount()
      ensures r.Ok? ==> r.value == items[InvalidCount + index]
      ensures r.Err? ==> r.error == IndexOutOfRange
    {
      var slot := index + InvalidCount;
      if slot < InvalidCount || slot >= items.Length then Err(IndexOutOfRange)
      else Ok(items[slot])
    }

    constructor Init(size: nat, validate: Option<T> -> bool)
      ensures Valid() && fresh(items)
      ensures items.Length == size && InvalidCount == size
      ensures forall k :: 0 <= k < size ==> items[k] == None
      ensures this.validate == validate && !hasInitialize && !hasDeinitialize
    {
      items := new Option<T>[size](_ => None);
      InvalidCount := size;
      this.validate := validate;
      hasInitialize, hasDeinitialize := false, false;
    }

    /** The constructor `Pool(initialSize, validateFunc, allocateFunc)`.
        `allocatorAvailable` says whether an allocate delegate was given or
        `T` has a parameterless constructor the default one can call. */
    static method Create(initialSize: int, validate: Option<T> -> bool, allocatorAvailable: bool)
      returns (r: Result<Pool<T>, PoolError>)
      ensures initialSize < 0 ==> r == Err(NegativeInitialSize)
      ensures initialSize >= 0 && !allocatorAvailable ==> r == Err(NoParameterlessConstructor)
      ensures initialSize >= 0 && allocatorAvailable ==> r.Ok?
      ensures r.Ok? ==> var p := r.value;
        && fresh(p) && fresh(p.items) && p.Valid()
        && p.items.Length == (if initialSize == 0 then DefaultSize else initialSize)
        && p.InvalidCount == p.items.Length && p.ValidCount() == 0
        && (forall k :: 0 <= k < p.items.Length ==> p.items[k] == None)
        && p.validate == validate
    {
      if initialSize < 0 {
        return Err(NegativeInitialSize);
      }
      var size := if initialSize == 0 then DefaultSize else initialSize;
      var p := new Pool<T>.Init(size, validate);
      if !allocatorAvailable {
        return Err(NoParameterlessConstructor);
      }
      r := Ok(p);
    }

    method SetInitialize(present: bool)
      modifies this
      ensures hasInitialize == present && hasDeinitialize == old(hasDeinitialize)
      ensures items == old(items) && InvalidCount == old(InvalidCount)
    {
      hasInitialize := present;
    }

    method SetDeinitialize(present: bool)
      modifies this
      ensures hasDeinitialize == present && hasInitialize == old(hasInitialize)
      ensures items == old(items) && InvalidCount == old(InvalidCount)
    {
      hasDeinitialize := present;
    }

    /** Leases an instance. `allocateResult` is what the allocate delegate returns
        if it is called (it is called only for a null slot). The counter is
        lowered before the null check, so when allocation fails the null slot
        stays counted as leased. */
    method New(allocateResult: Option<T>) returns (r: Result<T, PoolError>, allocateCalled: bool, initializeCalled: bool)
      requires Valid()
      modifies this, items
      ensures Valid()
      ensures hasInitialize == old(hasInitialize) && hasDeinitialize == old(hasDeinitialize)
      ensures old(InvalidCount) > 0 ==> items == old(items)
      ensures old(InvalidCount) == 0 ==> fresh(items)
      ensures InvalidCount == (if old(InvalidCount) == 0 then ResizeAmount else old(InvalidCount)) - 1
      ensures ValidCount() == old(ValidCount()) + 1
      ensures var before := Grown(old(items[..]), old(InvalidCount));
        && |before| == items.Length
        && allocateCalled == before[InvalidCount].None?
        && items[..] == before[InvalidCount := if allocateCalled then allocateResult else before[InvalidCount]]
        && (r.Ok? <==> items[InvalidCount].Some?)
        && (r.Err? ==> r.error == AllocateReturnedNull)
      ensures r.Ok? ==> items[InvalidCount] == Some(r.value)
      ensures initializeCalled <==> r.Ok? && hasInitialize
    {
      ghost var before := Grown(items[..], InvalidCount);
      if InvalidCount == 0 {
        var newItems := new Option<T>[items.Length + ResizeAmount](_ => None);
        var i := items.Length - 1;
        while i >= 0
          invariant -1 <= i < items.Length
          modifies newItems
          invariant newItems.Length == items.Length + ResizeAmount
          invariant forall k :: ResizeAmount + i < k < newItems.Length ==> newItems[k] == items[k - ResizeAmount]
          invariant forall k :: 0 <= k < ResizeAmount + i + 1 ==> newItems[k] == None
        {
          newItems[i + ResizeAmount] := items[i];
          i := i - 1;
        }
        assert newItems[..] == before;
        items := newItems;
        InvalidCount := InvalidCount + ResizeAmount;
      }
      InvalidCount := InvalidCount - 1;
      var obj := items[InvalidCount];
      allocateCalled := obj.None?;
      initializeCalled := false;
      if obj.None? {
        if allocateResult.None? {
          return Err(AllocateReturnedNull), allocateCalled, initializeCalled;
        }
        obj := allocateResult;
        items[InvalidCount] := obj;
      }
      initializeCalled := hasInitialize;
      r := Ok(obj.value);
    }

    /** One iteration of the loop in `CleanUp`: checks the entry at `i` and,
        when it fails `validate`, moves it to the first leased slot and
        reports it released. */
    method CheckSlot(i: nat, ghost orig: seq<Option<T>>, ghost start: nat) returns (released: Option<Option<T>>)
      requires CleanUpInvariant(validate, orig, items[..], start, InvalidCount, i) && i < items.Length
      modifies this, items
      ensures items == old(items)
      ensures hasInitialize == old(hasInitialize) && hasDeinitialize == old(hasDeinitialize)
      ensures CleanUpInvariant(validate, orig, items[..], start, InvalidCount, i + 1)
      ensures released == if validate(orig[i]) then None else Some(orig[i])
    {
      var obj := items[i];
      ghost var cur := items[..];
      assert obj == orig[i] by {
        assert orig[i] == cur[i..][0];
      }
      if validate(obj) {
        CleanUpKeep(validate, orig, cur, start, InvalidCount, i);
        released := None;
      } else {
        CleanUpRelease(validate, orig, cur, start, InvalidCount, i);
        Exchange(i, InvalidCount);
        InvalidCount := InvalidCount + 1;
        released := Some(obj);
      }
    }

    /** Exchanges the entries at `i` and `j`; nothing moves when they are the
        same slot. */
    method Exchange(i: nat, j: nat)
      requires i < items.Length && j < items.Length
      modifies items
      ensures items[..] == Swapped(old(items[..]), i, j)
    {
      if i != j {
        items[i], items[j] := items[j], items[i];
      }
    }

    /** Checks every leased instance and moves the ones that fail `validate`
        to the free region, keeping the array and the free prefix as they
        were: afterwards `CleanUpInvariant` holds over the whole array, so
        the released instances fill `[old(InvalidCount), InvalidCount)` in
        their original order and every leased instance is valid. Returns
        the instances handed to `Deinitialize`. */
    method CleanUp() returns (deinitialized: seq<Option<T>>)
      requires Valid()
      modifies this, items
      ensures Valid() && items == old(items)
      ensures hasInitialize == old(hasInitialize) && hasDeinitialize == old(hasDeinitialize)
      ensures CleanUpInvariant(validate, old(items[..]), items[..], old(InvalidCount), InvalidCount, items.Length)
      ensures deinitialized == if hasDeinitialize then Released(validate, old(items[InvalidCount..])) else []
    {
      ghost var start := InvalidCount;
      ghost var orig := items[..];
      var released := [];
      var i := InvalidCount;
      while i < items.Length
        modifies this, items
        invariant items == old(items)
        invariant hasInitialize == old(hasInitialize) && hasDeinitialize == old(hasDeinitialize)
        invariant CleanUpInvariant(validate, orig, items[..], start, InvalidCount, i)
        invariant released == Released(validate, orig[start..i])
      {
        var r := CheckSlot(i, orig, start);
        ReleasedStep(validate, orig, start, i);
        released := released + if r.Some? then [r.value] else [];
        i := i + 1;
      }
      deinitialized := if hasDeinitialize then released else [];
      assert orig[start..i] == orig[start..];
    }
  }
}
