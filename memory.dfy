/** The allocator's bookkeeping: the four allocation counters, and the tracker that maps
    each live pointer to the size allocated there.  size_t is 64 bits wide, so every sum
    wraps modulo 2^64; pointers are addresses, 0 being null. */
module Memory {

  const SizeModulus: nat := 0x1_0000_0000_0000_0000

  /** size_t addition: the exact sum while it fits, the sum less 2^64 once it does not. */
  function AddSize(a: nat, b: nat): (r: nat)
    requires a < SizeModulus && b < SizeModulus
    ensures r < SizeModulus
    ensures a + b < SizeModulus ==> r == a + b
    ensures a + b >= SizeModulus ==> r == a + b - SizeModulus
  {
    if a + b < SizeModulus then a + b else a + b - SizeModulus
  }

  /** MemoryStatistics: allocations and deallocations are each counted twice, in a total
      and in a "current" counter, which are updated together. */
  class MemoryStatistics {
    var totalAllocated: nat
    var totalDeallocated: nat
    var currentAllocated: nat
    var currentDeallocated: nat

    /** Each counter is a size_t, and each pair moves in step. */
    predicate Valid()
      reads this
    {
      totalAllocated < SizeModulus && totalDeallocated < SizeModulus
      && currentAllocated == totalAllocated && currentDeallocated == totalDeallocated
    }

    /** All four counters start at 0. */
    constructor ()
      ensures Valid()
      ensures totalAllocated == 0 && totalDeallocated == 0 && currentAllocated == 0 && currentDeallocated == 0
    {
      totalAllocated, totalDeallocated, currentAllocated, currentDeallocated := 0, 0, 0, 0;
    }

    /** Adds the size to both allocation counters; the deallocation counters stay. */
    method Allocation(size: nat)
      requires Valid() && size < SizeModulus
      modifies this
      ensures Valid()
      ensures totalAllocated == AddSize(old(totalAllocated), size) && currentAllocated == AddSize(old(currentAllocated), size)
      ensures totalDeallocated == old(totalDeallocated) && currentDeallocated == old(currentDeallocated)
    {
      totalAllocated := AddSize(totalAllocated, size);
      currentAllocated := AddSize(currentAllocated, size);
    }

    /** Adds the size to both deallocation counters; the allocation counters stay. */
    method Deallocation(size: nat)
      requires Valid() && size < SizeModulus
      modifies this
      ensures Valid()
      ensures totalDeallocated == AddSize(old(totalDeallocated), size) && currentDeallocated == AddSize(old(currentDeallocated), size)
      ensures totalAllocated == old(totalAllocated) && currentAllocated == old(currentAllocated)
    {
      totalDeallocated := AddSize(totalDeallocated, size);
      currentDeallocated := AddSize(currentDeallocated, size);
    }

    /** The four values logged, in the order logged; no counter changes. */
    method PrintStats() returns (logged: seq<nat>)
      requires Valid()
      ensures logged == [totalAllocated, totalDeallocated, currentAllocated, currentDeallocated]
      ensures logged[0] == logged[2] && logged[1] == logged[3]
    {
      logged := [totalAllocated, totalDeallocated, currentAllocated, currentDeallocated];
    }
  }

  /** The sum of the sizes stored under the given keys, in no particular order. */
  ghost function SumOver(m: map<nat, nat>, keys: set<nat>): nat
    requires keys <= m.Keys
    decreases keys
  {
    if keys == {} then 0 else var p :| p in keys; m[p] + SumOver(m, keys - {p})
  }

  /** The sum does not depend on which key is taken first. */
  lemma {:induction false} SumOverRemove(m: map<nat, nat>, keys: set<nat>, p: nat)
    requires keys <= m.Keys && p in keys
    ensures SumOver(m, keys) == m[p] + SumOver(m, keys - {p})
    decreases keys
  {
    var q :| q in keys && SumOver(m, keys) == m[q] + SumOver(m, keys - {q});
    if q != p {
      SumOverRemove(m, keys - {q}, p);
      SumOverRemove(m, keys - {p}, q);
      assert keys - {q} - {p} == keys - {p} - {q};
    }
  }

  /** Sizes stored under keys the sum does not look at do not matter. */
  lemma {:induction false} SumOverIgnoresOthers(m: map<nat, nat>, n: map<nat, nat>, keys: set<nat>)
    requires keys <= m.Keys && keys <= n.Keys && forall p :: p in keys ==> m[p] == n[p]
    ensures SumOver(m, keys) == SumOver(n, keys)
    decreases keys
  {
    if keys != {} {
      var p :| p in keys;
      SumOverRemove(m, keys, p);
      SumOverRemove(n, keys, p);
      SumOverIgnoresOthers(m, n, keys - {p});
    }
  }

  /** The total the tracker reports, before it is reduced to a size_t. */
  ghost function SizeSum(m: map<nat, nat>): nat {
    SumOver(m, m.Keys)
  }

  /** Recording a size under a pointer replaces whatever size it had in the sum. */
  lemma SumAfterAdd(m: map<nat, nat>, p: nat, size: nat)
    ensures SizeSum(m[p := size]) == SizeSum(m - {p}) + size
    ensures p !in m ==> SizeSum(m[p := size]) == SizeSum(m) + size
  {
    var n := m[p := size];
    SumOverRemove(n, n.Keys, p);
    assert n.Keys - {p} == (m - {p}).Keys;
    SumOverIgnoresOthers(n, m - {p}, n.Keys - {p});
    if p !in m {
      assert m - {p} == m;
    }
  }

  /** Removing a pointer takes its size out of the sum. */
  lemma SumAfterRemove(m: map<nat, nat>, p: nat)
    requires p in m
    ensures SizeSum(m - {p}) + m[p] == SizeSum(m)
  {
    SumOverRemove(m, m.Keys, p);
    assert m.Keys - {p} == (m - {p}).Keys;
    SumOverIgnoresOthers(m, m - {p}, m.Keys - {p});
  }

  /** Recording a pointer the map did not hold and removing it again restores the map. */
  lemma AddThenRemoveRestores(m: map<nat, nat>, p: nat, size: nat)
    requires p !in m
    ensures m[p := size] - {p} == m
  {
  }

  /** Taking away a remainder of size_t additions changes nothing modulo 2^64. */
  lemma AddSizeMod(a: nat, b: nat, rest: nat)
    requires a < SizeModulus && b < SizeModulus
    ensures (AddSize(a, b) + rest) % SizeModulus == (a + (b + rest)) % SizeModulus
  {
    if a + b >= SizeModulus {
      assert AddSize(a, b) + rest == (a + (b + rest)) - SizeModulus;
    }
  }

  /** MemoryTracker: the size of every live allocation, under its pointer. */
  class MemoryTracker {
    var allocationsHistory: map<nat, nat>

    constructor ()
      ensures allocationsHistory == map[]
    {
      allocationsHistory := map[];
    }

    /** Records the size under the pointer, replacing an earlier entry for it. */
    method Add(ptr: nat, size: nat)
      modifies this
      ensures allocationsHistory == old(allocationsHistory)[ptr := size]
    {
      allocationsHistory := allocationsHistory[ptr := size];
    }

    /** Forgets the pointer; a pointer not recorded leaves the map as it is. */
    method Remove(ptr: nat)
      modifies this
      ensures allocationsHistory == old(allocationsHistory) - {ptr}
      ensures ptr !in old(allocationsHistory) ==> allocationsHistory == old(allocationsHistory)
    {
      allocationsHistory := allocationsHistory - {ptr};
    }

    /** The total it logs: the sum of all recorded sizes, as a size_t. */
    method PrintStats() returns (totalSize: nat)
      requires forall p :: p in allocationsHistory ==> allocationsHistory[p] < SizeModulus
      ensures totalSize == SizeSum(allocationsHistory) % SizeModulus
    {
      var history := allocationsHistory;
      var remaining := history.Keys;
      totalSize := 0;
      while remaining != {}
        invariant remaining <= history.Keys && totalSize < SizeModulus
        invariant (totalSize + SumOver(history, remaining)) % SizeModulus == SizeSum(history) % SizeModulus
        decreases remaining
      {
        var p :| p in remaining;
        SumOverRemove(history, remaining, p);
        AddSizeMod(totalSize, history[p], SumOver(history, remaining - {p}));
        totalSize := AddSize(totalSize, history[p]);
        remaining := remaining - {p};
      }
    }
  }

  /** WindowsAllocator built with statistics on: it owns a tracker and records every
      allocation in it. */
  class WindowsAllocator {
    const tracker: MemoryTracker

    constructor ()
      ensures fresh(tracker) && tracker.allocationsHistory == map[]
    {
      tracker := new MemoryTracker();
    }

    /** Records the pointer VirtualAlloc returned with the requested size, even a null
        one, logs the tracker's total and returns the pointer. */
    method Allocate(size: nat, virtualAllocResult: nat) returns (memoryPointer: nat)
      requires size < SizeModulus
      requires forall p :: p in tracker.allocationsHistory ==> tracker.allocationsHistory[p] < SizeModulus
      modifies tracker
      ensures memoryPointer == virtualAllocResult
      ensures tracker.allocationsHistory == old(tracker.allocationsHistory)[virtualAllocResult := size]
      ensures forall p :: p in tracker.allocationsHistory ==> tracker.allocationsHistory[p] < SizeModulus
    {
      memoryPointer := virtualAllocResult;
      tracker.Add(memoryPointer, size);
      var _ := tracker.PrintStats();
    }

    /** Forgets the pointer before handing it to VirtualFree. */
    method Deallocate(ptr: nat, size: nat)
      modifies tracker
      ensures tracker.allocationsHistory == old(tracker.allocationsHistory) - {ptr}
    {
      tracker.Remove(ptr);
    }

    method GetTracker() returns (r: MemoryTracker)
      ensures r == tracker
    {
      r := tracker;
    }
  }
}
