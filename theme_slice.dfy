/** The theme slice of src/store/slices/themeSlice.ts; each reducer also persists the mode. */
module ThemeSlice {
  import opened Types
  import opened Constants
  import opened SecureStorage

  /** The mode `toggleTheme` switches to. */
  function Toggled(m: ThemeMode): (r: ThemeMode)
    ensures r != m
  {
    if m == Light then Dark else Light
  }

  /** Toggling twice restores the mode. */
  lemma ToggleTwice(m: ThemeMode)
    ensures Toggled(Toggled(m)) == m
  {
  }

  class ThemeState {
    var mode: ThemeMode

    /** `initialState`. */
    constructor ()
      ensures mode == Light
    {
      mode := Light;
    }

    /** `setTheme`: the mode becomes `m` and is stored under "theme_mode". */
    method SetTheme(store: SecureStore, m: ThemeMode)
      modifies this, store
      ensures mode == m
      ensures store.items == old(store.items)[ThemeModeKey := ThemeName(m)]
    {
      mode := m;
      store.SetItem(ThemeModeKey, ThemeName(m));
    }

    /** `toggleTheme`: light and dark swap, and the new mode is stored. */
    method ToggleTheme(store: SecureStore)
      modifies this, store
      ensures mode == Toggled(old(mode))
      ensures store.items == old(store.items)[ThemeModeKey := ThemeName(mode)]
    {
      mode := if mode == Light then Dark else Light;
      store.SetItem(ThemeModeKey, ThemeName(mode));
    }
  }

  /** Two `setTheme` calls with the same mode leave the state and the store as one call does. */
  method SetThemeTwice(m: ThemeMode, initial: map<string, string>)
    returns (once: ThemeState, storeOnce: SecureStore, twice: ThemeState, storeTwice: SecureStore)
    ensures once.mode == twice.mode == m
    ensures storeOnce.items == storeTwice.items
  {
    storeOnce := new SecureStore(initial);
    storeTwice := new SecureStore(initial);
    once := new ThemeState();
    twice := new ThemeState();
    once.SetTheme(storeOnce, m);
    twice.SetTheme(storeTwice, m);
    twice.SetTheme(storeTwice, m);
  }
}
