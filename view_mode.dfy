/**
 * The responsive view-mode hook: a list/grid preference that may be kept in
 * storage under a caller-chosen key, and a width breakpoint below which the
 * mobile mode is shown instead, without touching the preference.
 */
module ResponsiveViewMode {
  import opened Wrappers
  import opened PlatformStorage

  datatype ViewMode = List | Grid

  const DefaultViewMode := List
  const DefaultMobileMode := Grid
  const DefaultBreakpoint := 768

  /** The name a mode is stored under. */
  function ModeName(m: ViewMode): string {
    match m
    case List => "list"
    case Grid => "grid"
  }

  /** The mode a stored string restores: the legacy 'cards' becomes grid, unknown values restore nothing. */
  function StoredMode(saved: Option<string>): (r: Option<ViewMode>)
    ensures r == Some(Grid) <==> saved == Some("cards") || saved == Some("grid")
    ensures r == Some(List) <==> saved == Some("list")
    ensures r.Some? && saved != Some("cards") ==> saved == Some(ModeName(r.value))
  {
    if saved == Some("cards") then Some(Grid)
    else if saved == Some("list") then Some(List)
    else if saved == Some("grid") then Some(Grid)
    else None
  }

  /** A stored mode restores itself. */
  lemma StoredModeRoundTrip(m: ViewMode)
    ensures StoredMode(Some(ModeName(m))) == Some(m)
  {
  }

  /** A storage key is in use only when given and non-empty (`if (storageKey)`). */
  predicate KeyGiven(storageKey: Option<string>) {
    storageKey.Some? && storageKey.value != ""
  }

  /** The hook's state for one component. */
  class ViewModeHook {
    var viewMode: ViewMode
    var isMobile: bool
    const mobileMode: ViewMode
    const breakpoint: int
    const storageKey: Option<string>

    constructor (defaultMode: ViewMode, mobileMode: ViewMode, breakpoint: int, storageKey: Option<string>)
      ensures viewMode == defaultMode && !isMobile
      ensures this.mobileMode == mobileMode && this.breakpoint == breakpoint && this.storageKey == storageKey
    {
      viewMode := defaultMode;
      isMobile := false;
      this.mobileMode := mobileMode;
      this.breakpoint := breakpoint;
      this.storageKey := storageKey;
    }

    /** The hook called with only a storage key: list on desktop, grid below 768 pixels. */
    constructor WithDefaults(storageKey: Option<string>)
      ensures viewMode == DefaultViewMode && !isMobile
      ensures mobileMode == DefaultMobileMode && breakpoint == DefaultBreakpoint && this.storageKey == storageKey
    {
      viewMode := DefaultViewMode;
      isMobile := false;
      mobileMode := DefaultMobileMode;
      breakpoint := DefaultBreakpoint;
      this.storageKey := storageKey;
    }

    /** The mode shown: the mobile mode on narrow screens, else the preference. */
    function EffectiveViewMode(): (m: ViewMode)
      reads this
      ensures isMobile ==> m == mobileMode
      ensures !isMobile ==> m == viewMode
    {
      if isMobile then mobileMode else viewMode
    }

    /** Hydration: reads storage only when a key is given, and adopts only a recognised value. */
    method Hydrate(store: KeyValueStore)
      modifies this
      ensures isMobile == old(isMobile)
      ensures !KeyGiven(storageKey) ==> viewMode == old(viewMode)
      ensures KeyGiven(storageKey) ==>
        var saved := StoredMode(if storageKey.value in store.entries then Some(store.entries[storageKey.value]) else None);
        viewMode == if saved.Some? then saved.value else old(viewMode)
    {
      if !KeyGiven(storageKey) {
        return;
      }
      var savedMode := store.GetItem(storageKey.value);
      var restored := StoredMode(savedMode);
      if restored.Some? {
        viewMode := restored.value;
      }
    }

    /** Choose a mode; it is written under the key when one is given. */
    method SetViewMode(m: ViewMode, store: KeyValueStore)
      modifies this, store
      ensures viewMode == m && isMobile == old(isMobile)
      ensures KeyGiven(storageKey) ==> store.entries == old(store.entries)[storageKey.value := ModeName(m)]
      ensures !KeyGiven(storageKey) ==> store.entries == old(store.entries)
    {
      viewMode := m;
      if KeyGiven(storageKey) {
        store.SetItem(storageKey.value, ModeName(m));
      }
    }

    /** The resize check: records whether the window is narrower than the breakpoint, and nothing else. */
    method CheckMobile(width: int)
      modifies this
      ensures isMobile <==> width < breakpoint
      ensures viewMode == old(viewMode)
    {
      isMobile := width < breakpoint;
    }
  }

  /**
   * A chosen mode comes back on the next mount when a key is given, even if it
   * was chosen on a narrow screen that showed the mobile mode instead.
   */
  method ChoiceSurvivesRemount(h: ViewModeHook, store: KeyValueStore, m: ViewMode, width: int) returns (h2: ViewModeHook)
    requires KeyGiven(h.storageKey)
    modifies h, store
    ensures h2.viewMode == m
    ensures h.EffectiveViewMode() == if width < h.breakpoint then h.mobileMode else m
  {
    h.CheckMobile(width);
    h.SetViewMode(m, store);
    h2 := new ViewModeHook(DefaultViewMode, h.mobileMode, h.breakpoint, h.storageKey);
    h2.Hydrate(store);
    StoredModeRoundTrip(m);
  }
}
