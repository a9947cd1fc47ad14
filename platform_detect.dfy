/**
 * The platform resolver: whether the app runs inside the native shell or in
 * a browser, decided by the first query and remembered for the life of the
 * process.
 */
module PlatformDetect {
  import opened Wrappers

  datatype Platform = Native | Web

  /** What the native-platform probe reports, as a platform. */
  function FromProbe(nativeProbe: bool): Platform {
    if nativeProbe then Native else Web
  }

  /** The module-level `_platform` cell. */
  class PlatformDetector {
    var cached: Option<Platform>

    constructor ()
      ensures cached == None
    {
      cached := None;
    }

    /**
     * The platform a query would report now: the remembered one, or else what
     * the probe says.
     */
    function Resolve(nativeProbe: bool): (p: Platform)
      reads this
      ensures cached.Some? ==> p == cached.value
      ensures cached.None? ==> (p == Native <==> nativeProbe)
    {
      if cached.Some? then cached.value else FromProbe(nativeProbe)
    }

    /** `getPlatform`: consults the probe only on the first call. */
    method GetPlatform(nativeProbe: bool) returns (p: Platform)
      modifies this
      ensures p == old(Resolve(nativeProbe))
      ensures cached == Some(p)
      ensures old(cached).Some? ==> cached == old(cached)
    {
      if cached == None {
        cached := Some(FromProbe(nativeProbe));
      }
      p := cached.value;
    }

    method IsNative(nativeProbe: bool) returns (b: bool)
      modifies this
      ensures b <==> old(Resolve(nativeProbe)) == Native
      ensures cached == Some(old(Resolve(nativeProbe)))
    {
      var p := GetPlatform(nativeProbe);
      b := p == Native;
    }

    method IsWeb(nativeProbe: bool) returns (b: bool)
      modifies this
      ensures b <==> old(Resolve(nativeProbe)) == Web
      ensures cached == Some(old(Resolve(nativeProbe)))
    {
      var p := GetPlatform(nativeProbe);
      b := p == Web;
    }
  }

  /**
   * Once asked, the answer never changes: `isNative` and `isWeb` disagree even
   * when the probe would answer differently the second time.
   */
  method ExactlyOneOf(d: PlatformDetector, firstProbe: bool, laterProbe: bool) returns (native: bool, web: bool)
    modifies d
    ensures native != web
    ensures native <==> old(d.Resolve(firstProbe)) == Native
  {
    native := d.IsNative(firstProbe);
    web := d.IsWeb(laterProbe);
  }
}
