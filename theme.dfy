/**
 * The theme store: one boolean (dark or light) resolved at mount time from the
 * saved preference and the system colour-scheme preference, written back to
 * the saved "theme" entry and to the root element's `dark` class by an
 * effect, and flipped by the toggle.
 */
module Theme {
  import opened Wrappers

  const Dark: string := "dark"
  const Light: string := "light"

  /** The string the effect saves for a state. */
  function ThemeValue(darkMode: bool): (s: string)
    ensures s == Dark || s == Light
    ensures s == Dark <==> darkMode
  {
    if darkMode then Dark else Light
  }

  /**
   * The value the mount-time effect hands to `setDarkMode`, or None when it
   * does not call it. `media` is the colour-scheme query: None when the
   * environment offers no `matchMedia`, otherwise whether it matches dark.
   */
  function Preference(saved: Option<string>, media: Option<bool>): (p: Option<bool>)
    ensures saved == Some(Dark) ==> p == Some(true)
    ensures saved == Some(Light) ==> p == Some(false)
    ensures saved != Some(Dark) && saved != Some(Light) ==>
      (p == Some(true) <==> media == Some(true)) && p != Some(false)
  {
    if saved == Some(Dark) then Some(true)
    else if saved == Some(Light) then Some(false)
    else if media == Some(true) then Some(true)
    else None
  }

  /** The theme the provider settles on, starting from `useState(false)`. */
  function InitialTheme(saved: Option<string>, media: Option<bool>): (darkMode: bool)
    ensures saved == Some(Dark) ==> darkMode
    ensures saved == Some(Light) ==> !darkMode
    ensures saved != Some(Dark) && saved != Some(Light) ==> (darkMode <==> media == Some(true))
  {
    Preference(saved, media).GetOr(false)
  }

  /** A saved value written by the store resolves back to the state that wrote it, whatever the system says. */
  lemma SavedThemeRoundTrip(darkMode: bool, media: Option<bool>)
    ensures InitialTheme(Some(ThemeValue(darkMode)), media) == darkMode
  {
  }

  class ThemeStore {
    var darkMode: bool
    /** The saved "theme" entry; None when nothing is saved. */
    var stored: Option<string>
    /** Whether the root element carries the `dark` class. */
    var rootDark: bool

    /** The saved entry and the root class agree with the state, as the effect leaves them. */
    ghost predicate Synced()
      reads this
    {
      stored == Some(ThemeValue(darkMode)) && rootDark == darkMode
    }

    /** `useState(false)` in an environment whose saved entry and root class are given. */
    constructor (saved: Option<string>, root: bool)
      ensures !darkMode && stored == saved && rootDark == root
    {
      darkMode := false;
      stored := saved;
      rootDark := root;
    }

    /** The apply-and-persist effect, run after each render in which `darkMode` changed. */
    method ApplyTheme()
      modifies this`stored, this`rootDark
      ensures Synced()
      ensures darkMode == old(darkMode)
    {
      if darkMode {
        rootDark := true;
        stored := Some(Dark);
      } else {
        rootDark := false;
        stored := Some(Light);
      }
    }

    /** `toggleTheme`: the state flips; the effect has not run yet. */
    method ToggleTheme()
      modifies this`darkMode
      ensures darkMode == !old(darkMode)
    {
      darkMode := !darkMode;
    }

    /**
     * Mounting the provider. The first effect reads the saved entry and queues
     * its state update; the second effect then runs for the current state and
     * saves it (at first mount "light"); if the queued update changed the
     * state, the re-render runs the second effect again.
     */
    method Mount(media: Option<bool>)
      modifies this
      ensures Synced()
      ensures darkMode == Preference(old(stored), media).GetOr(old(darkMode))
    {
      var saved := stored;
      var pending := Preference(saved, media);
      ApplyTheme();
      if pending.Some? && pending.value != darkMode {
        darkMode := pending.value;
        ApplyTheme();
      }
    }

    /** A click on the header control: the toggle and the effect of the re-render. */
    method Click()
      modifies this`darkMode, this`stored, this`rootDark
      ensures Synced()
      ensures darkMode == !old(darkMode)
    {
      ToggleTheme();
      ApplyTheme();
    }
  }

  /**
   * Mounting a fresh provider: the saved entry is read before the first effect
   * overwrites it, so the settled state is the one the earlier session saved,
   * and the saved entry ends equal to it.
   */
  method MountFresh(saved: Option<string>, root: bool, media: Option<bool>) returns (store: ThemeStore)
    ensures fresh(store)
    ensures store.darkMode == InitialTheme(saved, media)
    ensures store.stored == Some(ThemeValue(InitialTheme(saved, media)))
    ensures store.rootDark == InitialTheme(saved, media)
  {
    store := new ThemeStore(saved, root);
    store.Mount(media);
  }

  /** Two clicks restore the state, the saved entry and the root class. */
  method ClickTwice(store: ThemeStore)
    requires store.Synced()
    modifies store
    ensures store.darkMode == old(store.darkMode)
    ensures store.stored == old(store.stored) && store.rootDark == old(store.rootDark)
  {
    store.Click();
    store.Click();
  }

  /** What `useContext(ThemeContext)` yields: the default value outside a provider. */
  datatype ThemeContextValue = DefaultContext | Provided(store: ThemeStore)

  function ContextDarkMode(ctx: ThemeContextValue): (darkMode: bool)
    reads if ctx.Provided? then {ctx.store} else {}
    ensures ctx.DefaultContext? ==> !darkMode
    ensures ctx.Provided? ==> darkMode == ctx.store.darkMode
  {
    if ctx.Provided? then ctx.store.darkMode else false
  }

  /** The context's `toggleTheme`: a click under a provider, nothing at all outside one. */
  method ContextToggle(ctx: ThemeContextValue)
    modifies if ctx.Provided? then {ctx.store} else {}
    ensures ctx.Provided? ==> ctx.store.darkMode == !old(ctx.store.darkMode) && ctx.store.Synced()
  {
    if ctx.Provided? {
      ctx.store.Click();
    }
  }
}
