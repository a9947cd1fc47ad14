/**
 * The status-bar adapter singleton: the same set-once cell as the storage
 * adapter, whose web fallback is an inline adapter that does nothing.
 */
module PlatformStatusBar {
  import opened Wrappers
  import opened PlatformDetect

  datatype StatusBarAdapter = NativeStatusBarAdapter | WebStatusBarAdapter | InlineNoOpStatusBar

  datatype StatusBarError = StatusBarNotInitialized

  /** What `createStatusBarAdapter` returns, given the cell and the platform. */
  function CreateAccess(instance: Option<StatusBarAdapter>, p: Platform): (a: StatusBarAdapter)
    ensures instance.Some? ==> a == instance.value
    ensures instance.None? ==> (a == NativeStatusBarAdapter <==> p == Native)
    ensures instance.None? ==> a != InlineNoOpStatusBar
  {
    if instance.Some? then instance.value
    else if p == Native then NativeStatusBarAdapter
    else WebStatusBarAdapter
  }

  /** What `getStatusBarAdapter` returns, given the cell and the platform. */
  function SyncAccess(instance: Option<StatusBarAdapter>, p: Platform): (r: Result<StatusBarAdapter, StatusBarError>)
    ensures instance.Some? ==> r == Ok(instance.value)
    ensures r.Err? <==> instance.None? && p == Native
    ensures instance.None? && p == Web ==> r == Ok(InlineNoOpStatusBar)
  {
    if instance.Some? then Ok(instance.value)
    else if p == Native then Err(StatusBarNotInitialized)
    else Ok(InlineNoOpStatusBar)
  }

  /** The module-level `_instance` cell of the status-bar adapter. */
  class StatusBarCell {
    var instance: Option<StatusBarAdapter>

    constructor ()
      ensures instance == None
    {
      instance := None;
    }

    /** `createStatusBarAdapter`. */
    method CreateStatusBarAdapter(detector: PlatformDetector, nativeProbe: bool) returns (a: StatusBarAdapter)
      modifies this, detector
      ensures a == CreateAccess(old(instance), old(detector.Resolve(nativeProbe)))
      ensures instance == Some(a)
      ensures old(instance).Some? ==> unchanged(detector)
      ensures old(instance).None? ==> detector.cached == Some(old(detector.Resolve(nativeProbe)))
    {
      if instance.Some? {
        return instance.value;
      }
      var native := detector.IsNative(nativeProbe);
      if native {
        instance := Some(NativeStatusBarAdapter);
      } else {
        instance := Some(WebStatusBarAdapter);
      }
      a := instance.value;
    }

    /** `getStatusBarAdapter`: the cached adapter, a no-op one on the web, or an error on native. */
    method GetStatusBarAdapter(detector: PlatformDetector, nativeProbe: bool) returns (r: Result<StatusBarAdapter, StatusBarError>)
      modifies this, detector
      ensures r == SyncAccess(old(instance), old(detector.Resolve(nativeProbe)))
      ensures instance == if r.Ok? then Some(r.value) else old(instance)
      ensures old(instance).Some? ==> unchanged(detector)
      ensures old(instance).None? ==> detector.cached == Some(old(detector.Resolve(nativeProbe)))
    {
      if instance.Some? {
        return Ok(instance.value);
      }
      var native := detector.IsNative(nativeProbe);
      if !native {
        instance := Some(InlineNoOpStatusBar);
        return Ok(instance.value);
      }
      r := Err(StatusBarNotInitialized);
    }
  }

  /** Once the cell holds an adapter, both accessors return that adapter and the cell stays as it is. */
  method CellIsSetOnce(cell: StatusBarCell, detector: PlatformDetector, probe1: bool, probe2: bool)
    returns (a: StatusBarAdapter, b: Result<StatusBarAdapter, StatusBarError>)
    requires cell.instance.Some?
    modifies cell, detector
    ensures a == old(cell.instance.value) && b == Ok(a)
    ensures cell.instance == old(cell.instance)
  {
    a := cell.CreateStatusBarAdapter(detector, probe1);
    b := cell.GetStatusBarAdapter(detector, probe2);
  }
}
