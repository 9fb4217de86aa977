/**
 * Physical device selection: whether a device offers every requested
 * extension, and the first device an application predicate accepts.
 */
module Devices {
  import opened Vk

  /** Every requested extension is among the available ones. */
  predicate Supports(available: seq<string>, required: seq<string>)
  {
    forall i :: 0 <= i < |required| ==> required[i] in available
  }

  /**
   * physical_device_able: checks the requested extensions in order and stops
   * at the first one the device lacks, which it reports (a warning);
   * otherwise the device is able.
   */
  method PhysicalDeviceAble(available: seq<string>, required: seq<string>) returns (able: bool, missing: Option<string>)
    ensures able <==> Supports(available, required)
    ensures able <==> missing.None?
    ensures !able ==> missing.value !in available
    ensures !able ==> (exists i :: 0 <= i < |required| && required[i] == missing.value && Supports(available, required[..i]))
  {
    var i := 0;
    while i < |required|
      invariant 0 <= i <= |required|
      invariant Supports(available, required[..i])
    {
      if required[i] !in available {
        return false, Some(required[i]);
      }
      assert required[..i + 1] == required[..i] + [required[i]];
      i := i + 1;
    }
    assert required[..i] == required;
    return true, None;
  }

  /**
   * pick_physical_device: the first device, in enumeration order, that the
   * predicate accepts; none (the null device, with an error logged) when it
   * accepts none.
   */
  method PickPhysicalDevice<D>(devices: seq<D>, accepts: D -> bool) returns (picked: Option<D>)
    ensures picked.None? <==> forall i :: 0 <= i < |devices| ==> !accepts(devices[i])
    ensures picked.Some? ==> accepts(picked.value)
    ensures picked.Some? ==> (exists i :: 0 <= i < |devices| && devices[i] == picked.value && (forall j :: 0 <= j < i ==> !accepts(devices[j])))
  {
    var i := 0;
    while i < |devices|
      invariant 0 <= i <= |devices|
      invariant forall j :: 0 <= j < i ==> !accepts(devices[j])
    {
      if accepts(devices[i]) {
        return Some(devices[i]);
      }
      i := i + 1;
    }
    return None;
  }
}
