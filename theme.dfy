/** The theme switcher of the client: the fixed list of themes, the index of
    the current one, and the theme id kept in the browser's storage under
    the key `cophotographer_theme`. */
module Themes {
  import opened Optional

  datatype Theme = Theme(id: string, name: string, description: string)

  /** `THEMES`, in display order. */
  const Themes: seq<Theme> := [
    Theme("classic", "经典", "Nikon 35Ti复古风格"),
    Theme("cute", "粉色", "日系CCD相机风格"),
    Theme("minimal", "极简", "现代简约风格")
  ]

  /** `THEMES.findIndex(t => t.id === id)`: the first index with that id, or -1. */
  function FindThemeIndex(id: string): (k: int)
    ensures -1 <= k < |Themes|
    ensures k == -1 <==> forall j :: 0 <= j < |Themes| ==> Themes[j].id != id
    ensures k != -1 ==> Themes[k].id == id && forall j :: 0 <= j < k ==> Themes[j].id != id
  {
    FindFrom(id, 0)
  }

  /** The search of `findIndex` from position `from` on. */
  function FindFrom(id: string, from: nat): (k: int)
    requires from <= |Themes|
    ensures k == -1 || from <= k < |Themes|
    ensures k == -1 <==> forall j :: from <= j < |Themes| ==> Themes[j].id != id
    ensures k != -1 ==> Themes[k].id == id && forall j :: from <= j < k ==> Themes[j].id != id
    decreases |Themes| - from
  {
    if from == |Themes| then -1
    else if Themes[from].id == id then from
    else FindFrom(id, from + 1)
  }

  /** The ids are distinct, so looking up the id of a theme finds that theme. */
  lemma FindOwnId(k: nat)
    requires k < |Themes|
    ensures FindThemeIndex(Themes[k].id) == k
  {
    var found := FindThemeIndex(Themes[k].id);
    assert Themes[0].id != Themes[1].id && Themes[0].id != Themes[2].id && Themes[1].id != Themes[2].id;
    assert found != -1 && Themes[found].id == Themes[k].id;
  }

  /** `(i + 1) % THEMES.length`: the theme after `i`, wrapping round. */
  function Next(i: int): (j: int)
    requires 0 <= i < |Themes|
    ensures 0 <= j < |Themes|
    ensures j == 0 <==> i == |Themes| - 1
    ensures i < |Themes| - 1 ==> j == i + 1
  {
    (i + 1) % |Themes|
  }

  /** Switching as many times as there are themes comes back to the start. */
  lemma SwitchCycle(i: int)
    requires 0 <= i < |Themes|
    ensures Next(Next(Next(i))) == i
  {
  }

  /** The index `initTheme` ends with: the one of the saved id when a
      non-empty id is saved and names a theme, otherwise the current one. */
  function RestoredIndex(current: int, saved: Option<string>): (k: int)
    ensures saved.None? || FindThemeIndex(saved.value) == -1 ==> k == current
    ensures saved.Some? && FindThemeIndex(saved.value) != -1 ==> k == FindThemeIndex(saved.value) && Themes[k].id == saved.value
    ensures 0 <= current < |Themes| ==> 0 <= k < |Themes|
  {
    assert FindThemeIndex([]) == -1 by {
      assert Themes[0].id != [] && Themes[1].id != [] && Themes[2].id != [];
    }
    if saved.Some? && saved.value != [] && FindThemeIndex(saved.value) != -1 then FindThemeIndex(saved.value)
    else current
  }

  /** Saving the id of a theme and starting again restores that theme,
      whatever the page started with. */
  lemma RestoreAfterSave(current: int, k: nat)
    requires k < |Themes|
    ensures RestoredIndex(current, Some(Themes[k].id)) == k
  {
    FindOwnId(k);
  }

  /** The theme state of a page: `currentThemeIndex` and the stored id. */
  class ThemeState {
    var index: int
    var stored: Option<string>

    ghost predicate Valid()
      reads this
    {
      0 <= index < |Themes|
    }

    /** A fresh page: the first theme, with whatever the browser has stored. */
    constructor (stored: Option<string>)
      ensures index == 0 && this.stored == stored && Valid()
    {
      index := 0;
      this.stored := stored;
    }

    /** `getCurrentTheme`. */
    function Current(): (t: Theme)
      requires Valid()
      reads this
      ensures t in Themes
    {
      Themes[index]
    }

    /** `initTheme`: take over the stored theme when there is one. */
    method InitTheme()
      requires Valid()
      modifies this
      ensures index == RestoredIndex(old(index), stored) && stored == old(stored)
      ensures Valid()
    {
      if stored.Some? && stored.value != [] {
        var themeIndex := FindThemeIndex(stored.value);
        if themeIndex != -1 {
          index := themeIndex;
        }
      }
    }

    /** `switchTheme`: the next theme, saved as the preference. */
    method SwitchTheme()
      requires Valid()
      modifies this
      ensures index == Next(old(index)) && stored == Some(Themes[index].id)
      ensures Valid()
    {
      index := (index + 1) % |Themes|;
      stored := Some(Themes[index].id);
    }

    /** `setThemeById`: a known id selects and saves its theme and answers
        true; an unknown id changes nothing and answers false. */
    method SetThemeById(themeId: string) returns (found: bool)
      requires Valid()
      modifies this
      ensures Valid()
      ensures found <==> exists j :: 0 <= j < |Themes| && Themes[j].id == themeId
      ensures found ==> Themes[index].id == themeId && stored == Some(themeId)
      ensures !found ==> index == old(index) && stored == old(stored)
    {
      var themeIndex := FindThemeIndex(themeId);
      if themeIndex != -1 {
        index := themeIndex;
        stored := Some(themeId);
        found := true;
      } else {
        found := false;
      }
    }
  }
}
