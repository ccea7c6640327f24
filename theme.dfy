/**
 * The colour theme: a three-way cycle auto -> light -> dark, the effective
 * theme (the system preference stands in for "auto"), the `data-theme`
 * attribute and the map tile set that follow from it.
 */
module Theme {
  import opened Values

  const Themes: seq<string> := ["auto", "light", "dark"]

  /** `Array.prototype.indexOf`: -1 when absent. */
  function IndexOf(s: seq<string>, x: string): (i: int)
    ensures -1 <= i < |s|
    ensures i == -1 <==> x !in s
    ensures 0 <= i ==> s[i] == x && forall j :: 0 <= j < i ==> s[j] != x
  {
    if s == [] then -1
    else if s[0] == x then 0
    else
      var k := IndexOf(s[1..], x);
      if k == -1 then -1 else k + 1
  }

  /** The toggle: the theme after `t` in the cycle. */
  function NextTheme(t: string): string {
    Themes[(IndexOf(Themes, t) + 1) % |Themes|]
  }

  /** The stored preference, or "auto" when there is none. */
  function InitialTheme(stored: Option<string>): (t: string)
    ensures stored.Some? && stored.value != "" ==> t == stored.value
    ensures stored.None? || stored.value == "" ==> t == "auto"
  {
    if stored.Some? && stored.value != "" then stored.value else "auto"
  }

  /** The theme actually shown: "auto" follows the system preference. */
  function Effective(theme: string, systemDark: bool): string {
    if theme == "auto" then (if systemDark then "dark" else "light") else theme
  }

  datatype Tiles = LightTiles | DarkTiles

  function TilesFor(effective: string): Tiles {
    if effective == "light" then LightTiles else DarkTiles
  }

  /** The toggle walks auto -> light -> dark -> auto; any other value goes
      to "auto". */
  lemma NextThemeCycle(t: string)
    ensures t == "auto" ==> NextTheme(t) == "light"
    ensures t == "light" ==> NextTheme(t) == "dark"
    ensures t == "dark" ==> NextTheme(t) == "auto"
    ensures t !in Themes ==> NextTheme(t) == "auto"
    ensures NextTheme(t) in Themes
  {
    var i := IndexOf(Themes, t);
    if t == "auto" {
      assert Themes[0] == t;
    } else if t == "light" {
      assert Themes[1] == t && Themes[0] != t;
    } else if t == "dark" {
      assert Themes[2] == t && Themes[0] != t && Themes[1] != t;
    }
  }

  /** Three presses return to the start exactly when the start is one of the
      three themes. */
  lemma ThreePressesReturn(t: string)
    ensures NextTheme(NextTheme(NextTheme(t))) == t <==> t in Themes
  {
    NextThemeCycle(t);
    NextThemeCycle(NextTheme(t));
    NextThemeCycle(NextTheme(NextTheme(t)));
  }

  /** "auto" resolves to the system preference; a chosen theme ignores it. */
  lemma EffectiveResolution(theme: string, systemDark: bool)
    ensures theme == "auto" ==> Effective(theme, systemDark) == (if systemDark then "dark" else "light")
    ensures theme != "auto" ==> Effective(theme, systemDark) == theme
    ensures theme != "auto" ==> Effective(theme, true) == Effective(theme, false)
  {
  }

  /** The light tile set is used exactly when the effective theme is light. */
  lemma TilesFollowTheme(effective: string)
    ensures TilesFor(effective) == LightTiles <==> effective == "light"
  {
  }

  /** The theme state of the page: the chosen theme, the stored preference,
      the system preference, the `data-theme="light"` attribute and, once a
      map exists, its tile layer. */
  class ThemeControl {
    var currentTheme: string
    var stored: Option<string>
    var systemDark: bool
    var dataThemeLight: bool
    var hasMap: bool
    var tiles: Option<Tiles>

    /** What is shown agrees with the chosen theme. */
    predicate Valid()
      reads this
    {
      dataThemeLight == (Effective(currentTheme, systemDark) == "light")
      && (hasMap ==> tiles == Some(TilesFor(Effective(currentTheme, systemDark))))
      && (!hasMap ==> tiles.None?)
    }

    /** Page start: read the stored preference and apply it; no map yet. */
    constructor (storedTheme: Option<string>, systemIsDark: bool)
      ensures Valid()
      ensures currentTheme == InitialTheme(storedTheme) && stored == storedTheme
      ensures systemDark == systemIsDark && !hasMap
    {
      currentTheme := InitialTheme(storedTheme);
      stored := storedTheme;
      systemDark := systemIsDark;
      hasMap := false;
      tiles := None;
      dataThemeLight := Effective(InitialTheme(storedTheme), systemIsDark) == "light";
    }

    /** `apply(theme)`: set the attribute and, with a map, the tiles. */
    method Apply(theme: string)
      modifies this
      ensures dataThemeLight == (Effective(theme, systemDark) == "light")
      ensures hasMap ==> tiles == Some(TilesFor(Effective(theme, systemDark)))
      ensures !hasMap ==> tiles == old(tiles)
      ensures currentTheme == old(currentTheme) && stored == old(stored)
      ensures systemDark == old(systemDark) && hasMap == old(hasMap)
    {
      var effective := Effective(theme, systemDark);
      dataThemeLight := effective == "light";
      UpdateMap(effective);
    }

    /** `updateMap`: a no-op until the map exists. */
    method UpdateMap(effective: string)
      modifies this
      ensures hasMap ==> tiles == Some(TilesFor(effective))
      ensures !hasMap ==> tiles == old(tiles)
      ensures currentTheme == old(currentTheme) && stored == old(stored) && systemDark == old(systemDark)
      ensures hasMap == old(hasMap) && dataThemeLight == old(dataThemeLight)
    {
      if hasMap {
        tiles := Some(TilesFor(effective));
      }
    }

    /** The toggle button: advance, store, apply. */
    method Toggle()
      requires Valid()
      modifies this
      ensures Valid()
      ensures currentTheme == NextTheme(old(currentTheme))
      ensures stored == Some(currentTheme)
      ensures systemDark == old(systemDark) && hasMap == old(hasMap)
    {
      var i := IndexOf(Themes, currentTheme);
      currentTheme := Themes[(i + 1) % |Themes|];
      stored := Some(currentTheme);
      Apply(currentTheme);
    }

    /** The system preference changed: re-apply only when following it. */
    method OnSystemChange(nowDark: bool)
      requires Valid()
      modifies this
      ensures Valid()
      ensures systemDark == nowDark
      ensures currentTheme == old(currentTheme) && stored == old(stored) && hasMap == old(hasMap)
      ensures old(currentTheme) != "auto" ==> dataThemeLight == old(dataThemeLight) && tiles == old(tiles)
    {
      systemDark := nowDark;
      if currentTheme == "auto" {
        Apply("auto");
      }
    }

    /** The map is created on first render and takes its tiles from the
        `data-theme` attribute. */
    method CreateMap()
      requires Valid()
      modifies this
      ensures Valid()
      ensures hasMap
      ensures currentTheme == old(currentTheme) && stored == old(stored) && systemDark == old(systemDark)
      ensures dataThemeLight == old(dataThemeLight)
    {
      if !hasMap {
        hasMap := true;
        UpdateMap(if dataThemeLight then "light" else "dark");
      }
    }
  }
}
