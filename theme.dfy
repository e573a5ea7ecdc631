/** The theme provider: the active interface theme (Material or ShadCN),
    restored from the browser's storage when it is valid, switched by
    toggling or setting, and written back to storage and to the
    document's `data-theme` attribute after every change. Storage and the
    attribute are fields of the provider. */
module Theme {
  import opened Wrappers

  /** `ThemeType`. */
  datatype ThemeKind = Material | Shadcn

  /** The stored spelling of a theme. */
  function ThemeName(t: ThemeKind): string {
    match t
    case Material => "material"
    case Shadcn => "shadcn"
  }

  /** A saved value is accepted only when it is set and spells one of the
      two themes. */
  function ParseTheme(saved: Option<string>): (r: Option<ThemeKind>)
    ensures r.Some? <==> saved == Some("material") || saved == Some("shadcn")
    ensures r.Some? ==> ThemeName(r.value) == saved.value
  {
    if saved == Some("material") then Some(Material)
    else if saved == Some("shadcn") then Some(Shadcn)
    else None
  }

  /** What is stored is read back as the same theme. */
  lemma ParseThemeRoundTrip(t: ThemeKind)
    ensures ParseTheme(Some(ThemeName(t))) == Some(t)
  {
  }

  /** The two spellings differ, so a stored value names one theme only. */
  lemma ThemeNameInjective(t: ThemeKind, u: ThemeKind)
    ensures ThemeName(t) == ThemeName(u) <==> t == u
  {
  }

  /** The one other theme. */
  function Toggled(t: ThemeKind): (r: ThemeKind)
    ensures r != t
  {
    if t == Material then Shadcn else Material
  }

  /** Toggling twice gives the theme back. */
  lemma ToggleInvolution(t: ThemeKind)
    ensures Toggled(Toggled(t)) == t
  {
  }

  /** `defaultTheme = 'material'`. */
  function InitialTheme(defaultTheme: Option<ThemeKind>): (r: ThemeKind)
    ensures defaultTheme.Some? ==> r == defaultTheme.value
    ensures defaultTheme.None? ==> r == Material
  {
    if defaultTheme.Some? then defaultTheme.value else Material
  }

  /** `localStorage.getItem('theme')`. */
  function SavedValue(storage: map<string, string>): Option<string> {
    if "theme" in storage then Some(storage["theme"]) else None
  }

  /** The theme after the mount effect: the saved one when it is valid,
      otherwise the initial one, unchanged. */
  function Restored(initial: ThemeKind, storage: map<string, string>): (r: ThemeKind)
    ensures ParseTheme(SavedValue(storage)).Some? ==> ThemeName(r) == storage["theme"]
    ensures ParseTheme(SavedValue(storage)).None? ==> r == initial
  {
    match ParseTheme(SavedValue(storage))
    case Some(t) => t
    case None => initial
  }

  /** Restoring after the theme has been written back changes nothing. */
  lemma RestoreAfterPersist(initial: ThemeKind, t: ThemeKind, storage: map<string, string>)
    ensures Restored(initial, storage["theme" := ThemeName(t)]) == t
  {
  }

  class ThemeProvider {
    var currentTheme: ThemeKind
    /** The browser's `localStorage`. */
    var storage: map<string, string>
    /** The `data-theme` attribute of the document element. */
    var dataTheme: Option<string>

    /** Storage and the attribute both hold the current theme. */
    ghost predicate Valid()
      reads this
    {
      "theme" in storage && storage["theme"] == ThemeName(currentTheme)
      && dataTheme == Some(ThemeName(currentTheme))
    }

    /** The persistence effect: write the current theme to storage and to
        the attribute. */
    method Persist()
      modifies this
      ensures Valid()
      ensures currentTheme == old(currentTheme)
      ensures storage == old(storage)["theme" := ThemeName(currentTheme)]
    {
      storage := storage["theme" := ThemeName(currentTheme)];
      dataTheme := Some(ThemeName(currentTheme));
    }

    /** Mounting: start from the default, let the mount effect adopt a valid
        saved theme, and persist each state the provider takes. */
    constructor(defaultTheme: Option<ThemeKind>, browserStorage: map<string, string>)
      ensures Valid()
      ensures currentTheme == Restored(InitialTheme(defaultTheme), browserStorage)
      ensures storage == browserStorage["theme" := ThemeName(currentTheme)]
    {
      currentTheme := InitialTheme(defaultTheme);
      storage := browserStorage;
      dataTheme := None;
      new;
      var saved := SavedValue(storage);
      Persist();
      var parsed := ParseTheme(saved);
      if parsed.Some? {
        currentTheme := parsed.value;
        Persist();
      }
    }

    /** `isMaterial`. */
    function IsMaterial(): (r: bool)
      reads this
      ensures r <==> ThemeName(currentTheme) == "material"
    {
      currentTheme == Material
    }

    /** `toggleTheme`: switch to the other theme and persist it. */
    method ToggleTheme()
      modifies this
      ensures Valid()
      ensures currentTheme == Toggled(old(currentTheme))
      ensures storage == old(storage)["theme" := ThemeName(currentTheme)]
    {
      currentTheme := if currentTheme == Material then Shadcn else Material;
      Persist();
    }

    /** `setTheme(theme)`: adopt exactly `theme` and persist it. */
    method SetTheme(theme: ThemeKind)
      modifies this
      ensures Valid()
      ensures currentTheme == theme
      ensures storage == old(storage)["theme" := ThemeName(theme)]
    {
      currentTheme := theme;
      Persist();
    }
  }

  /** Toggling twice restores both the theme and what is stored. */
  method ToggleTwice(p: ThemeProvider)
    requires p.Valid()
    modifies p
    ensures p.Valid()
    ensures p.currentTheme == old(p.currentTheme)
    ensures p.storage == old(p.storage)
  {
    p.ToggleTheme();
    p.ToggleTheme();
    ToggleInvolution(old(p.currentTheme));
  }

  /** A reload after any change comes back with the same theme, whatever
      default the provider is given. */
  method ReloadKeepsTheme(p: ThemeProvider, defaultTheme: Option<ThemeKind>) returns (q: ThemeProvider)
    requires p.Valid()
    ensures q.currentTheme == p.currentTheme
    ensures q.Valid()
  {
    q := new ThemeProvider(defaultTheme, p.storage);
  }
}
