/**
 * The theme store: light or dark, chosen at start-up from local storage or
 * the system's colour-scheme preference, applied as the document's
 * `data-theme` attribute and saved back to storage whenever it changes.
 */
module ThemeStore {

  import opened Wrappers

  const StorageKey := "blogger-theme"

  datatype Theme = Light | Dark

  function Name(theme: Theme): (name: string)
    ensures name == "light" || name == "dark"
  {
    match theme
    case Light => "light"
    case Dark => "dark"
  }

  lemma NameInjective(a: Theme, b: Theme)
    requires Name(a) == Name(b)
    ensures a == b
  {
  }

  /**
   * `getInitialTheme`: a stored "light" or "dark" wins; otherwise dark when
   * `matchMedia` exists and reports a dark preference, else light.
   * `prefersDark` is `None` when the browser has no `matchMedia`.
   */
  function InitialTheme(stored: Option<string>, prefersDark: Option<bool>): (theme: Theme)
    ensures stored == Some("light") ==> theme == Light
    ensures stored == Some("dark") ==> theme == Dark
    ensures stored != Some("light") && stored != Some("dark") ==> (theme == Dark <==> prefersDark == Some(true))
  {
    if stored == Some("light") then Light
    else if stored == Some("dark") then Dark
    else if prefersDark == Some(true) then Dark
    else Light
  }

  /** A saved theme is the one chosen at the next start, whatever the system prefers. */
  lemma SavedThemeRestored(theme: Theme, prefersDark: Option<bool>)
    ensures InitialTheme(Some(Name(theme)), prefersDark) == theme
  {
  }

  /** The other theme. */
  function Toggled(theme: Theme): (other: Theme)
    ensures other != theme
  {
    if theme == Light then Dark else Light
  }

  lemma ToggledTwice(theme: Theme)
    ensures Toggled(Toggled(theme)) == theme
  {
  }

  class ThemeStore {
    var currentTheme: Theme
    var storage: map<string, string>
    /** The document element's `data-theme` attribute. */
    var dataTheme: Option<string>

    /** The document always shows the current theme. */
    ghost predicate Valid()
      reads this
    {
      dataTheme == Some(Name(currentTheme))
    }

    /** The store as created: the initial theme, applied at once; storage is not written until a change. */
    constructor (stored: map<string, string>, prefersDark: Option<bool>)
      ensures Valid()
      ensures currentTheme == InitialTheme(if StorageKey in stored then Some(stored[StorageKey]) else None, prefersDark)
      ensures storage == stored
    {
      var initial := InitialTheme(if StorageKey in stored then Some(stored[StorageKey]) else None, prefersDark);
      currentTheme := initial;
      storage := stored;
      dataTheme := Some(Name(initial));
    }

    /** The watcher: applies the new theme to the document and saves it. */
    method Changed()
      modifies this
      ensures currentTheme == old(currentTheme)
      ensures dataTheme == Some(Name(currentTheme))
      ensures storage == old(storage)[StorageKey := Name(currentTheme)]
    {
      dataTheme := Some(Name(currentTheme));
      storage := storage[StorageKey := Name(currentTheme)];
    }

    /** `toggleTheme`: always a change, so always applied and saved. */
    method ToggleTheme()
      requires Valid()
      modifies this
      ensures Valid()
      ensures currentTheme == Toggled(old(currentTheme))
      ensures storage == old(storage)[StorageKey := Name(currentTheme)]
    {
      currentTheme := Toggled(currentTheme);
      Changed();
    }

    /** `setTheme`: the watcher runs only when the theme differs from the current one. */
    method SetTheme(theme: Theme)
      requires Valid()
      modifies this
      ensures Valid()
      ensures currentTheme == theme
      ensures storage == if theme != old(currentTheme) then old(storage)[StorageKey := Name(theme)] else old(storage)
    {
      if theme != currentTheme {
        currentTheme := theme;
        Changed();
      }
    }
  }

  /** A toggled theme survives a reload, whatever the system prefers then. */
  method ToggleSurvivesReload(stored: map<string, string>, prefersDark: Option<bool>, prefersDarkLater: Option<bool>)
    returns (before: Theme, reloaded: ThemeStore)
    ensures reloaded.currentTheme == Toggled(before)
    ensures reloaded.dataTheme == Some(Name(Toggled(before)))
  {
    var store := new ThemeStore(stored, prefersDark);
    before := store.currentTheme;
    store.ToggleTheme();
    SavedThemeRestored(store.currentTheme, prefersDarkLater);
    reloaded := new ThemeStore(store.storage, prefersDarkLater);
  }
}
