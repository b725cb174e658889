/**
 * The theme switcher of public/js/theme.js: a light/dark state held as the
 * `dark-mode` class on the body, persisted under one storage key, shown on
 * every `.theme-toggle` button, and following the system colour-scheme
 * preference only while the user has stored no choice.
 *
 * Local storage is a map from keys to strings; the system preference is a
 * boolean input (false when the browser has no `matchMedia`).
 */
module Theme {
  import opened Wrappers

  const ThemeKey := "portfolio-theme"
  const Light := "light"
  const Dark := "dark"

  const SunIcon := "\U{2600}\U{FE0F}"
  const MoonIcon := "\U{1F319}"
  const SwitchToLight := "Switch to Light Mode"
  const SwitchToDark := "Switch to Dark Mode"

  /** A `.theme-toggle` button: its text, `title` and `aria-label`. */
  datatype ToggleButton = ToggleButton(text: string, title: string, ariaLabel: string)

  /** Everything the switcher reads or writes: whether the body has
      `dark-mode`, local storage, and the toggle buttons. */
  datatype ThemeState = ThemeState(dark: bool, storage: map<string, string>, buttons: seq<ToggleButton>)

  /** `localStorage.getItem(THEME_KEY)`. */
  function StoredTheme(storage: map<string, string>): Option<string> {
    if ThemeKey in storage then Some(storage[ThemeKey]) else None
  }

  /** Whether a stored value counts as a user's choice: it is present and is
      not the empty string. */
  predicate HasSavedChoice(storage: map<string, string>) {
    StoredTheme(storage).Some? && StoredTheme(storage).value != ""
  }

  /** The theme name of a body class state. */
  function ThemeName(dark: bool): (theme: string)
    ensures theme == Dark <==> dark
    ensures theme == Light <==> !dark
  {
    if dark then Dark else Light
  }

  /** `getSavedTheme`: the user's stored choice, whatever string it is;
      otherwise the theme the system prefers. */
  function SavedTheme(storage: map<string, string>, prefersDark: bool): (theme: string)
    ensures theme != ""
    ensures HasSavedChoice(storage) ==> theme == storage[ThemeKey]
    ensures !HasSavedChoice(storage) ==> (theme == Dark <==> prefersDark) && (theme == Light <==> !prefersDark)
  {
    match StoredTheme(storage)
    case Some(saved) =>
      if saved != "" then saved
      else if prefersDark then Dark else Light
    case None =>
      if prefersDark then Dark else Light
  }

  /** The label every toggle button shows under `theme`: a sun offering the
      light theme when `theme` is dark, a moon offering the dark theme for
      every other string. Title and `aria-label` always agree. */
  function ButtonFor(theme: string): (b: ToggleButton)
    ensures b.title == b.ariaLabel
    ensures b.text == SunIcon <==> theme == Dark
    ensures b.title == SwitchToLight <==> theme == Dark
    ensures b.text == MoonIcon <==> theme != Dark
    ensures b.title == SwitchToDark <==> theme != Dark
  {
    var icon := if theme == Dark then SunIcon else MoonIcon;
    var title := if theme == Dark then SwitchToLight else SwitchToDark;
    ToggleButton(icon, title, title)
  }

  /** The buttons agree with the body class. */
  predicate ButtonsShowState(s: ThemeState) {
    forall k :: 0 <= k < |s.buttons| ==> s.buttons[k] == ButtonFor(ThemeName(s.dark))
  }

  /** `applyTheme(theme)`: the body is dark exactly when `theme` is `dark`
      (any other string, known or not, gives the light state), every button is
      relabelled to match, and storage is untouched. */
  function ApplyThemeSpec(s: ThemeState, theme: string): (r: ThemeState)
    ensures r.dark <==> theme == Dark
    ensures r.storage == s.storage
    ensures |r.buttons| == |s.buttons|
    ensures ButtonsShowState(r)
  {
    ThemeState(theme == Dark, s.storage, seq(|s.buttons|, _ => ButtonFor(theme)))
  }

  /** `toggleTheme`: flips the body class, stores the new theme under the
      theme key and relabels the buttons. */
  function ToggleSpec(s: ThemeState): (r: ThemeState)
    ensures r.dark == !s.dark
    ensures r.storage == s.storage[ThemeKey := ThemeName(r.dark)]
    ensures |r.buttons| == |s.buttons|
    ensures ButtonsShowState(r)
  {
    var current := if s.dark then Dark else Light;
    var newTheme := if current == Dark then Light else Dark;
    ApplyThemeSpec(s.(storage := s.storage[ThemeKey := newTheme]), newTheme)
  }

  /** The system-preference listener: with no stored choice the theme follows
      `matches`; with one the change is ignored. */
  function SystemChangeSpec(s: ThemeState, matches: bool): (r: ThemeState)
    ensures HasSavedChoice(s.storage) ==> r == s
    ensures !HasSavedChoice(s.storage) ==>
      r.dark == matches && r.storage == s.storage && |r.buttons| == |s.buttons| && ButtonsShowState(r)
  {
    if !HasSavedChoice(s.storage) then ApplyThemeSpec(s, if matches then Dark else Light) else s
  }

  /** `initTheme`: the saved or system-preferred theme is applied. */
  function InitSpec(s: ThemeState, prefersDark: bool): (r: ThemeState)
    ensures r.dark <==> SavedTheme(s.storage, prefersDark) == Dark
    ensures r.storage == s.storage
    ensures |r.buttons| == |s.buttons|
    ensures ButtonsShowState(r)
  {
    ApplyThemeSpec(s, SavedTheme(s.storage, prefersDark))
  }

  /** On first load with nothing stored, the system-preferred theme is the one
      applied. */
  lemma InitFollowsSystemPreference(s: ThemeState, prefersDark: bool)
    requires !HasSavedChoice(s.storage)
    ensures InitSpec(s, prefersDark).dark == prefersDark
    ensures InitSpec(s, prefersDark).storage == s.storage
  {
  }

  /** On a load with a stored choice, the body is dark exactly when the stored
      string is `dark`, whatever the system prefers; any other stored string
      gives the light state. */
  lemma InitFollowsSavedChoice(s: ThemeState, prefersDark: bool)
    requires HasSavedChoice(s.storage)
    ensures InitSpec(s, prefersDark).dark <==> s.storage[ThemeKey] == Dark
    ensures InitSpec(s, prefersDark).storage == s.storage
  {
  }

  /** Two toggles restore the body class; the theme key then holds the
      original theme, and when the buttons agreed with the body before, they
      agree again. */
  lemma ToggleTwice(s: ThemeState)
    ensures ToggleSpec(ToggleSpec(s)).dark == s.dark
    ensures ButtonsShowState(s) ==> ToggleSpec(ToggleSpec(s)) == s.(storage := s.storage[ThemeKey := ThemeName(s.dark)])
  {
  }

  /** After a toggle the stored value is a saved choice equal to the applied
      theme, so the next page load applies the same theme, whatever the system
      prefers. */
  lemma ToggleIsRemembered(s: ThemeState, prefersDark: bool)
    ensures HasSavedChoice(ToggleSpec(s).storage)
    ensures SavedTheme(ToggleSpec(s).storage, prefersDark) == ThemeName(ToggleSpec(s).dark)
    ensures InitSpec(ToggleSpec(s), prefersDark) == ToggleSpec(s)
  {
  }

  /** Once the user has toggled, system-preference changes have no effect. */
  lemma SystemChangeIgnoredAfterToggle(s: ThemeState, matches: bool)
    ensures SystemChangeSpec(ToggleSpec(s), matches) == ToggleSpec(s)
  {
  }

  /** The theme switcher as the page holds it. */
  class ThemeSwitcher {
    var dark: bool
    var storage: map<string, string>
    const buttons: array<ToggleButton>

    ghost function State(): ThemeState
      reads this, buttons
    {
      ThemeState(dark, storage, buttons[..])
    }

    /** Page load: `initTheme` on the page's initial body class, storage and
        buttons. */
    constructor (dark: bool, storage: map<string, string>, prefersDark: bool, toggles: seq<ToggleButton>)
      ensures fresh(buttons)
      ensures State() == InitSpec(ThemeState(dark, storage, toggles), prefersDark)
    {
      this.dark := dark;
      this.storage := storage;
      this.buttons := new ToggleButton[|toggles|](k requires 0 <= k < |toggles| => toggles[k]);
      new;
      ApplyTheme(SavedTheme(storage, prefersDark));
    }

    /** `updateToggleButtons(theme)`: every button gets the icon, title and
        `aria-label` for `theme`. */
    method UpdateToggleButtons(theme: string)
      modifies buttons
      ensures buttons[..] == seq(buttons.Length, _ => ButtonFor(theme))
    {
      var shown := ButtonFor(theme);
      var i := 0;
      while i < buttons.Length
        invariant 0 <= i <= buttons.Length
        invariant forall k :: 0 <= k < i ==> buttons[k] == shown
      {
        buttons[i] := shown;
        i := i + 1;
      }
    }

    /** `applyTheme(theme)`. */
    method ApplyTheme(theme: string)
      modifies this, buttons
      ensures State() == ApplyThemeSpec(old(State()), theme)
    {
      dark := theme == Dark;
      UpdateToggleButtons(theme);
    }

    /** `toggleTheme`, run by a click on any toggle button. */
    method ToggleTheme()
      modifies this, buttons
      ensures State() == ToggleSpec(old(State()))
    {
      var currentTheme := if dark then Dark else Light;
      var newTheme := if currentTheme == Dark then Light else Dark;
      storage := storage[ThemeKey := newTheme];
      ApplyTheme(newTheme);
    }

    /** The `prefers-color-scheme: dark` change listener. */
    method SystemPreferenceChanged(matches: bool)
      modifies this, buttons
      ensures State() == SystemChangeSpec(old(State()), matches)
    {
      if !HasSavedChoice(storage) {
        ApplyTheme(if matches then Dark else Light);
      }
    }
  }
}
