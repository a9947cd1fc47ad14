/**
 * The theme context: an applied and a pending value for the colour theme and
 * for the accent colour. The pending value previews a choice; applying it
 * makes it current and writes it to storage; resetting discards it. At start
 * the stored values are accepted only when they name a known option.
 */
module ThemeContext {
  import opened Wrappers
  import opened PlatformStorage

  datatype Theme = Light | Dark | System

  datatype AccentColor = Blue | Green | Purple | Orange | Teal

  const ThemeKey := "theme_preference"
  const AccentKey := "accent_color"

  const ThemeNames: seq<string> := ["light", "dark", "system"]
  const ValidAccentColors: seq<string> := ["blue", "green", "purple", "orange", "teal"]

  const DarkStatusBarColor := "#171717"
  const LightStatusBarColor := "#f5f5f5"

  function ThemeName(t: Theme): string {
    match t
    case Light => "light"
    case Dark => "dark"
    case System => "system"
  }

  function AccentName(a: AccentColor): string {
    match a
    case Blue => "blue"
    case Green => "green"
    case Purple => "purple"
    case Orange => "orange"
    case Teal => "teal"
  }

  /** The theme a stored string names, if it is one of the whitelisted names. */
  function StoredTheme(saved: Option<string>): (r: Option<Theme>)
    ensures r.Some? <==> saved.Some? && saved.value in ThemeNames
    ensures r.Some? ==> ThemeName(r.value) == saved.value
  {
    if saved == Some("light") then Some(Light)
    else if saved == Some("dark") then Some(Dark)
    else if saved == Some("system") then Some(System)
    else None
  }

  /** The accent colour a stored string names, if it is in `VALID_ACCENT_COLORS`. */
  function StoredAccent(saved: Option<string>): (r: Option<AccentColor>)
    ensures r.Some? <==> saved.Some? && saved.value in ValidAccentColors
    ensures r.Some? ==> AccentName(r.value) == saved.value
  {
    if saved == Some("blue") then Some(Blue)
    else if saved == Some("green") then Some(Green)
    else if saved == Some("purple") then Some(Purple)
    else if saved == Some("orange") then Some(Orange)
    else if saved == Some("teal") then Some(Teal)
    else None
  }

  /** What is written on apply is accepted again on the next start. */
  lemma StoredNamesRoundTrip(t: Theme, a: AccentColor)
    ensures StoredTheme(Some(ThemeName(t))) == Some(t)
    ensures StoredAccent(Some(AccentName(a))) == Some(a)
  {
  }

  /** Whether the page is dark: fixed by the theme, or by the system preference under 'system'. */
  function ComputeIsDark(t: Theme, systemPrefersDark: bool): (r: bool)
    ensures t != System ==> (r <==> t == Dark)
    ensures t == System ==> r == systemPrefersDark
  {
    if t == System then systemPrefersDark else t == Dark
  }

  datatype StatusBarStyle = StatusBarStyle(isDark: bool, backgroundColor: string)

  /** The style pushed to the status bar whenever darkness changes. */
  function StatusBarStyleFor(isDark: bool): (s: StatusBarStyle)
    ensures s.isDark == isDark
    ensures s.backgroundColor == (if isDark then DarkStatusBarColor else LightStatusBarColor)
  {
    StatusBarStyle(isDark, if isDark then DarkStatusBarColor else LightStatusBarColor)
  }

  /**
   * The status bar follows the page: under light or dark it ignores the system
   * preference, and under 'system' it takes the dark colour exactly when the
   * system prefers dark.
   */
  lemma StatusBarFollowsTheme(t: Theme, prefersDark: bool, otherPreference: bool)
    ensures t != System ==>
      StatusBarStyleFor(ComputeIsDark(t, prefersDark)) == StatusBarStyleFor(ComputeIsDark(t, otherPreference))
    ensures t == System ==>
      (StatusBarStyleFor(ComputeIsDark(t, prefersDark)).backgroundColor == DarkStatusBarColor <==> prefersDark)
  {
    if t == System && !prefersDark {
      assert DarkStatusBarColor[1] != LightStatusBarColor[1];
    }
  }

  /** The provider's four state cells. */
  class ThemeProvider {
    var theme: Theme
    var pendingTheme: Theme
    var accentColor: AccentColor
    var pendingAccentColor: AccentColor

    constructor ()
      ensures theme == System && pendingTheme == System
      ensures accentColor == Blue && pendingAccentColor == Blue
    {
      theme, pendingTheme := System, System;
      accentColor, pendingAccentColor := Blue, Blue;
    }

    /** Whether a previewed theme is waiting to be applied or discarded. */
    predicate HasPendingChanges(): (pending: bool)
      reads this
      ensures pending <==> pendingTheme != theme
    {
      pendingTheme != theme
    }

    /** Whether a previewed accent colour is waiting to be applied or discarded. */
    predicate HasAccentPendingChanges(): (pending: bool)
      reads this
      ensures pending <==> pendingAccentColor != accentColor
    {
      pendingAccentColor != accentColor
    }

    function IsDark(systemPrefersDark: bool): bool
      reads this
    {
      ComputeIsDark(theme, systemPrefersDark)
    }

    /** Hydration from storage: a whitelisted stored value replaces both the applied and the pending value. */
    method Hydrate(store: KeyValueStore)
      modifies this
      ensures var saved := StoredTheme(if ThemeKey in store.entries then Some(store.entries[ThemeKey]) else None);
        if saved.Some? then theme == saved.value && pendingTheme == saved.value
        else theme == old(theme) && pendingTheme == old(pendingTheme)
      ensures var saved := StoredAccent(if AccentKey in store.entries then Some(store.entries[AccentKey]) else None);
        if saved.Some? then accentColor == saved.value && pendingAccentColor == saved.value
        else accentColor == old(accentColor) && pendingAccentColor == old(pendingAccentColor)
    {
      var savedTheme := store.GetItem(ThemeKey);
      var savedAccent := store.GetItem(AccentKey);
      var t := StoredTheme(savedTheme);
      if t.Some? {
        theme := t.value;
        pendingTheme := t.value;
      }
      var a := StoredAccent(savedAccent);
      if a.Some? {
        accentColor := a.value;
        pendingAccentColor := a.value;
      }
    }

    /** Preview a theme: only the pending value changes, and nothing is written. */
    method SetTheme(t: Theme)
      modifies this
      ensures pendingTheme == t
      ensures theme == old(theme) && accentColor == old(accentColor) && pendingAccentColor == old(pendingAccentColor)
    {
      pendingTheme := t;
    }

    /** Make the pending theme current and write it to storage. */
    method ApplyTheme(store: KeyValueStore)
      modifies this, store
      ensures theme == old(pendingTheme) && !HasPendingChanges()
      ensures pendingTheme == old(pendingTheme) && accentColor == old(accentColor) && pendingAccentColor == old(pendingAccentColor)
      ensures store.entries == old(store.entries)[ThemeKey := ThemeName(theme)]
    {
      theme := pendingTheme;
      store.SetItem(ThemeKey, ThemeName(pendingTheme));
    }

    /** Discard the pending theme. */
    method ResetPendingTheme()
      modifies this
      ensures pendingTheme == old(theme) && !HasPendingChanges()
      ensures theme == old(theme) && accentColor == old(accentColor) && pendingAccentColor == old(pendingAccentColor)
    {
      pendingTheme := theme;
    }

    method SetAccentColor(a: AccentColor)
      modifies this
      ensures pendingAccentColor == a
      ensures accentColor == old(accentColor) && theme == old(theme) && pendingTheme == old(pendingTheme)
    {
      pendingAccentColor := a;
    }

    method ApplyAccentColor(store: KeyValueStore)
      modifies this, store
      ensures accentColor == old(pendingAccentColor) && !HasAccentPendingChanges()
      ensures pendingAccentColor == old(pendingAccentColor) && theme == old(theme) && pendingTheme == old(pendingTheme)
      ensures store.entries == old(store.entries)[AccentKey := AccentName(accentColor)]
    {
      accentColor := pendingAccentColor;
      store.SetItem(AccentKey, AccentName(pendingAccentColor));
    }

    method ResetPendingAccentColor()
      modifies this
      ensures pendingAccentColor == old(accentColor) && !HasAccentPendingChanges()
      ensures accentColor == old(accentColor) && theme == old(theme) && pendingTheme == old(pendingTheme)
    {
      pendingAccentColor := accentColor;
    }
  }

  /**
   * An applied theme and accent survive a restart: a new provider hydrated from
   * the same storage starts with them, with nothing pending.
   */
  method AppliedChoiceSurvivesRestart(p: ThemeProvider, store: KeyValueStore, t: Theme, a: AccentColor)
    returns (q: ThemeProvider)
    modifies p, store
    ensures q.theme == t && q.accentColor == a
    ensures !q.HasPendingChanges() && !q.HasAccentPendingChanges()
  {
    p.SetTheme(t);
    p.ApplyTheme(store);
    p.SetAccentColor(a);
    p.ApplyAccentColor(store);
    q := new ThemeProvider();
    q.Hydrate(store);
    StoredNamesRoundTrip(t, a);
  }
}
