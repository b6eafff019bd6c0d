/** Adapter selection of the older renderer: enumeration in index order, software adapters
    skipped, the first adapter that passes the feature-level 12_0 probe chosen, and its
    performance class judged from the vendor id. */
module Adapters {
  import opened Calls

  /** DXGI_ADAPTER_FLAG_SOFTWARE. */
  const AdapterFlagSoftware: bv32 := 2

  /** PCI vendor ids the renderer recognises. */
  const VendorNvidia: nat := 0x10DE
  const VendorAmd: nat := 0x1002
  const VendorIntel: nat := 0x8086

  /** One enumerated adapter: its object, its DXGI_ADAPTER_DESC1 flags and vendor id, and
      whether a device of feature level 12_0 can be created on it. */
  datatype AdapterDesc = AdapterDesc(handle: Ptr, flags: bv32, vendorId: nat, supportsLevel12: bool)

  predicate IsSoftware(a: AdapterDesc) {
    a.flags & AdapterFlagSoftware != 0
  }

  /** An adapter the search accepts: hardware, and it passes the probe. */
  predicate Suitable(a: AdapterDesc) {
    !IsSoftware(a) && a.supportsLevel12
  }

  /** The vendor switch: NVIDIA and AMD are dedicated, Intel integrated, anyone else unknown. */
  function TryToDeterminePerformanceClass(vendorId: nat): (r: GPUPerformanceClass)
    ensures r == Dedicated <==> vendorId == VendorNvidia || vendorId == VendorAmd
    ensures r == Integrated <==> vendorId == VendorIntel
    ensures r == Unknown <==> vendorId !in {VendorNvidia, VendorAmd, VendorIntel}
  {
    if vendorId == VendorNvidia then Dedicated
    else if vendorId == VendorAmd then Dedicated
    else if vendorId == VendorIntel then Integrated
    else Unknown
  }

  /** The index of the first suitable adapter at or after i, or |adapters| when there is none. */
  function FirstSuitableFrom(adapters: seq<AdapterDesc>, i: nat): (r: nat)
    requires i <= |adapters|
    ensures i <= r <= |adapters|
    ensures r < |adapters| ==> Suitable(adapters[r])
    ensures forall k :: i <= k < r ==> !Suitable(adapters[k])
    decreases |adapters| - i
  {
    if i == |adapters| then i
    else if Suitable(adapters[i]) then i
    else FirstSuitableFrom(adapters, i + 1)
  }

  /** The adapter the search stores: the first suitable one, or none when the enumeration
      runs out (the enumeration then leaves its output empty). */
  function SelectedAdapter(adapters: seq<AdapterDesc>): Ptr {
    var r := FirstSuitableFrom(adapters, 0);
    if r < |adapters| then adapters[r].handle else Null
  }

  /** The calls of FindSuitableHardwareAdapter: the factory cast, then the enumeration. */
  function SearchCalls(factory7Available: bool, adapters: seq<AdapterDesc>): seq<Call> {
    if factory7Available then EnumerationCalls(adapters, 0) else [Fatal]
  }

  /** The adapter FindSuitableHardwareAdapter leaves: unchanged when the factory cast fails
      (that return comes before the store), the selection otherwise. */
  function AdapterAfterSearch(factory7Available: bool, adapters: seq<AdapterDesc>, previous: Ptr): Ptr {
    if factory7Available then SelectedAdapter(adapters) else previous
  }

  /** The calls of the enumeration loop from index i on: each step enumerates index i, which
      past the last adapter answers "not found" and ends the loop; a software adapter is
      skipped; a hardware adapter is probed, and one that passes is reported with its
      performance class and ends the loop. */
  function EnumerationCalls(adapters: seq<AdapterDesc>, i: nat): seq<Call>
    requires i <= |adapters|
    decreases |adapters| - i
  {
    if i == |adapters| then [EnumAdapter(i)]
    else if IsSoftware(adapters[i]) then [EnumAdapter(i)] + EnumerationCalls(adapters, i + 1)
    else if adapters[i].supportsLevel12 then
      [EnumAdapter(i), ProbeDevice(i), ReportAdapter(i), ReportPerformanceClass(TryToDeterminePerformanceClass(adapters[i].vendorId))]
    else [EnumAdapter(i), ProbeDevice(i)] + EnumerationCalls(adapters, i + 1)
  }

  /** The loop enumerates exactly the indices up to the selected adapter, or up to one past
      the last adapter when none is suitable. */
  lemma {:induction false} EnumeratesUpToSelection(adapters: seq<AdapterDesc>, i: nat)
    requires i <= |adapters|
    ensures forall k: nat :: EnumAdapter(k) in EnumerationCalls(adapters, i) <==> i <= k <= FirstSuitableFrom(adapters, i)
    decreases |adapters| - i
  {
    if i < |adapters| && !Suitable(adapters[i]) {
      EnumeratesUpToSelection(adapters, i + 1);
      var rest := EnumerationCalls(adapters, i + 1);
      if IsSoftware(adapters[i]) {
        assert EnumerationCalls(adapters, i) == [EnumAdapter(i)] + rest;
      } else {
        assert EnumerationCalls(adapters, i) == [EnumAdapter(i), ProbeDevice(i)] + rest;
      }
    }
  }

  /** It probes exactly the hardware adapters up to the selected one, so never a software
      adapter. */
  lemma {:induction false} ProbesHardwareOnly(adapters: seq<AdapterDesc>, i: nat)
    requires i <= |adapters|
    ensures forall k: nat :: ProbeDevice(k) in EnumerationCalls(adapters, i) <==>
      i <= k <= FirstSuitableFrom(adapters, i) && k < |adapters| && !IsSoftware(adapters[k])
    decreases |adapters| - i
  {
    if i < |adapters| && !Suitable(adapters[i]) {
      ProbesHardwareOnly(adapters, i + 1);
      var rest := EnumerationCalls(adapters, i + 1);
      if IsSoftware(adapters[i]) {
        assert EnumerationCalls(adapters, i) == [EnumAdapter(i)] + rest;
      } else {
        assert EnumerationCalls(adapters, i) == [EnumAdapter(i), ProbeDevice(i)] + rest;
      }
    }
  }

  /** It reports one adapter, the selected one, and only when there is one. */
  lemma {:induction false} ReportsSelectionOnly(adapters: seq<AdapterDesc>, i: nat)
    requires i <= |adapters|
    ensures forall k: nat :: ReportAdapter(k) in EnumerationCalls(adapters, i) <==>
      k == FirstSuitableFrom(adapters, i) && k < |adapters|
    decreases |adapters| - i
  {
    if i < |adapters| && !Suitable(adapters[i]) {
      ReportsSelectionOnly(adapters, i + 1);
      var rest := EnumerationCalls(adapters, i + 1);
      if IsSoftware(adapters[i]) {
        assert EnumerationCalls(adapters, i) == [EnumAdapter(i)] + rest;
      } else {
        assert EnumerationCalls(adapters, i) == [EnumAdapter(i), ProbeDevice(i)] + rest;
      }
    }
  }

  /** The last call of a successful search reports the selected adapter's performance class. */
  lemma {:induction false} EnumerationEndsWithClass(adapters: seq<AdapterDesc>, i: nat)
    requires i <= |adapters|
    ensures var r := FirstSuitableFrom(adapters, i);
      var calls := EnumerationCalls(adapters, i);
      r < |adapters| ==> calls[|calls| - 1] == ReportPerformanceClass(TryToDeterminePerformanceClass(adapters[r].vendorId))
    ensures FirstSuitableFrom(adapters, i) == |adapters| ==>
      EnumerationCalls(adapters, i)[|EnumerationCalls(adapters, i)| - 1] == EnumAdapter(|adapters|)
    decreases |adapters| - i
  {
    if i < |adapters| && !Suitable(adapters[i]) {
      EnumerationEndsWithClass(adapters, i + 1);
    }
  }

  /** The first suitable index is the one every earlier index fails and that itself passes
      (or the end of the list). */
  lemma {:induction false} FirstSuitableIs(adapters: seq<AdapterDesc>, i: nat, r: nat)
    requires i <= r <= |adapters|
    requires forall k :: i <= k < r ==> !Suitable(adapters[k])
    requires r < |adapters| ==> Suitable(adapters[r])
    ensures FirstSuitableFrom(adapters, i) == r
    decreases r - i
  {
    if i < r {
      FirstSuitableIs(adapters, i + 1, r);
    }
  }

  /** With no suitable adapter nothing is stored; otherwise the stored adapter is the first
      suitable one, which is hardware. */
  lemma SelectedIsFirstSuitable(adapters: seq<AdapterDesc>)
    ensures (forall k :: 0 <= k < |adapters| ==> !Suitable(adapters[k])) ==> SelectedAdapter(adapters) == Null
    ensures forall r :: 0 <= r < |adapters| && Suitable(adapters[r]) && (forall k :: 0 <= k < r ==> !Suitable(adapters[k])) ==>
      SelectedAdapter(adapters) == adapters[r].handle && !IsSoftware(adapters[r])
  {
    if forall k :: 0 <= k < |adapters| ==> !Suitable(adapters[k]) {
      FirstSuitableIs(adapters, 0, |adapters|);
    }
    forall r | 0 <= r < |adapters| && Suitable(adapters[r]) && (forall k :: 0 <= k < r ==> !Suitable(adapters[k]))
      ensures FirstSuitableFrom(adapters, 0) == r
    {
      FirstSuitableIs(adapters, 0, r);
    }
  }
}
