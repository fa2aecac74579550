/**
 * The theme store: the current theme, written through to the persisted
 * "kanban-theme" entry and to the document's `data-theme` attribute after
 * every change. The stored entry and the system preference are inputs.
 */
module ThemeContext {

  const Light := "light"
  const Dark := "dark"
  const StorageKey := "kanban-theme"

  predicate IsTheme(t: string) {
    t == Light || t == Dark
  }

  /**
   * The theme the mount effect settles on: a saved (non-empty) entry wins,
   * unvalidated; otherwise dark exactly when the system prefers dark.
   */
  function InitialTheme(saved: string, prefersDark: bool): (t: string)
    ensures saved != "" ==> t == saved
    ensures saved == "" ==> IsTheme(t) && (t == Dark <==> prefersDark)
  {
    if saved != "" then saved else if prefersDark then Dark else Light
  }

  /** `prev === "light" ? "dark" : "light"`. */
  function Toggled(t: string): (r: string)
    ensures IsTheme(r)
    ensures r == Dark <==> t == Light
  {
    if t == Light then Dark else Light
  }

  /** On the two themes, toggling is an involution; any other value toggles into "light". */
  lemma ToggleTwice(t: string)
    ensures IsTheme(t) ==> Toggled(Toggled(t)) == t
    ensures !IsTheme(t) ==> Toggled(t) == Light && Toggled(Toggled(t)) == Dark
  {
  }

  class ThemeStore {
    var theme: string
    /** The value stored under `StorageKey`; "" when there is none. */
    var stored: string
    /** The document element's `data-theme` attribute; "" before it is first set. */
    var dataTheme: string

    /** The write-through effect has run for the current theme. */
    ghost predicate Synced()
      reads this
    {
      stored == theme && dataTheme == theme
    }

    /** Before the mount effect runs the theme is "light"; storage holds whatever was saved earlier. */
    constructor (saved: string)
      ensures theme == Light && stored == saved && dataTheme == ""
    {
      theme := Light;
      stored := saved;
      dataTheme := "";
    }

    /** The write-through effect. */
    method Persist()
      modifies this`stored, this`dataTheme
      ensures Synced()
    {
      dataTheme := theme;
      stored := theme;
    }

    /**
     * The first commit: the load effect reads storage, then the write-through
     * effect records the initial "light"; the resolved theme is then
     * written through in its turn.
     */
    method Mount(prefersDark: bool)
      modifies this
      ensures theme == InitialTheme(old(stored), prefersDark)
      ensures Synced()
    {
      var saved := stored;
      Persist();
      if saved != "" {
        theme := saved;
      } else {
        theme := if prefersDark then Dark else Light;
      }
      Persist();
    }

    method ToggleTheme()
      modifies this
      ensures theme == Toggled(old(theme))
      ensures Synced()
    {
      theme := if theme == Light then Dark else Light;
      Persist();
    }

    method SetTheme(newTheme: string)
      requires IsTheme(newTheme)
      modifies this
      ensures theme == newTheme
      ensures Synced()
    {
      theme := newTheme;
      Persist();
    }
  }
}
