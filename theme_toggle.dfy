/**
 * The theme switch (src/components/landing/ThemeToggle.tsx): the theme
 * chosen when the component mounts, the toggle, and what both write to the
 * document's class list and to `localStorage`. The system's
 * `prefers-color-scheme: dark` answer is an input.
 */
module Theme {
  import opened Wrappers
  import opened JsValues
  import opened Browser

  const ThemeKey := "theme"

  /** `shouldBeDark`: a stored "dark", or nothing (or "") stored and a system preference for dark. */
  function ShouldBeDark(stored: Option<string>, prefersDark: bool): (dark: bool)
    ensures stored == Some("dark") ==> dark
    ensures stored == Some("light") ==> !dark
    ensures !TruthyString(stored) ==> dark == prefersDark
    ensures TruthyString(stored) && stored != Some("dark") ==> !dark
  {
    stored == Some("dark") || (!TruthyString(stored) && prefersDark)
  }

  /** The value the toggle stores for a theme. */
  function StoredValue(isDark: bool): (s: string)
    ensures s == "dark" <==> isDark
    ensures s == "light" <==> !isDark
  {
    if isDark then "dark" else "light"
  }

  /** Whatever the system prefers, mounting again reads back the theme the toggle stored. */
  lemma StoredThemeRoundTrip(isDark: bool, prefersDark: bool)
    ensures ShouldBeDark(Some(StoredValue(isDark)), prefersDark) == isDark
  {
  }

  class ThemeToggle {
    const storage: LocalStorage
    const root: DocumentRoot
    var isDark: bool

    /** First render: `useState(false)`; nothing is read or written yet. */
    constructor (storage: LocalStorage, root: DocumentRoot)
      ensures this.storage == storage && this.root == root
      ensures !isDark
    {
      this.storage := storage;
      this.root := root;
      isDark := false;
    }

    /** The mount effect: decide the theme from storage and system preference, and apply it. */
    method Mount(prefersDark: bool)
      modifies this, root
      ensures isDark == ShouldBeDark(storage.GetItem(ThemeKey), prefersDark)
      ensures root.darkClass == isDark
      ensures storage.entries == old(storage.entries)
    {
      var stored := storage.GetItem(ThemeKey);
      var shouldBeDark := ShouldBeDark(stored, prefersDark);
      isDark := shouldBeDark;
      root.ToggleDark(shouldBeDark);
    }

    /** `toggleTheme`: flip, apply to the document, and persist. */
    method Toggle()
      modifies this, root, storage
      ensures isDark == !old(isDark)
      ensures root.darkClass == isDark
      ensures storage.entries == old(storage.entries)[ThemeKey := StoredValue(isDark)]
    {
      var newIsDark := !isDark;
      isDark := newIsDark;
      root.ToggleDark(newIsDark);
      storage.SetItem(ThemeKey, StoredValue(newIsDark));
    }
  }

  /** A toggle followed by a fresh mount (a reload) on the same storage keeps the toggled theme. */
  method ReloadAfterToggle(initial: map<string, string>, prefersDark: bool, prefersDarkLater: bool)
    returns (before: bool, after: bool)
    ensures after == before
  {
    var storage := new LocalStorage(initial);
    var root := new DocumentRoot(false);
    var first := new ThemeToggle(storage, root);
    first.Mount(prefersDark);
    first.Toggle();
    before := first.isDark;
    var second := new ThemeToggle(storage, root);
    second.Mount(prefersDarkLater);
    StoredThemeRoundTrip(before, prefersDarkLater);
    after := second.isDark;
  }
}
