/** The light/dark switch (src/components/ThemeToggle.tsx): the theme it starts
    from, what a click writes to `localStorage` and to the document, and the
    accessible state it renders. */
module ThemeToggle {
  import opened Types
  import opened Browser

  const THEME_KEY: string := "theme"
  const LIGHT: string := "light"
  const DARK: string := "dark"

  /** The theme a click switches to. Anything but "light" counts as not light,
      so a stored value outside the two names switches to "light". */
  function Toggled(theme: string): (next: string)
    ensures next == LIGHT || next == DARK
    ensures next == DARK <==> theme == LIGHT
  {
    if theme == LIGHT then DARK else LIGHT
  }

  /** The saved theme when it is a non-empty string, otherwise the system preference. */
  function InitialTheme(saved: Option<string>, prefersDark: bool): (theme: string)
    ensures Truthy(saved) ==> theme == saved.value
    ensures !Truthy(saved) ==> (theme == DARK <==> prefersDark) && (theme == LIGHT || theme == DARK)
  {
    if Truthy(saved) then saved.value else if prefersDark then DARK else LIGHT
  }

  /** Two clicks return to the start for either of the two themes. */
  lemma ToggleTwice(theme: string)
    requires theme == LIGHT || theme == DARK
    ensures Toggled(Toggled(theme)) == theme
  {
  }

  /** A stored value outside the two names is not restored by two clicks:
      "blue" switches to "light" and then to "dark". */
  lemma UnknownThemeIsNotRestored()
    ensures Toggled("blue") == LIGHT && Toggled(Toggled("blue")) == DARK
  {
  }

  /** The theme a click stores is the theme the next mount starts from,
      whatever the system preference. */
  lemma ToggledThemeSurvivesReload(theme: string, prefersDark: bool)
    ensures InitialTheme(Some(Toggled(theme)), prefersDark) == Toggled(theme)
  {
  }

  /** The theme after `n` clicks from `theme`. */
  function ToggledTimes(theme: string, n: nat): (t: string)
    ensures n > 0 ==> t == LIGHT || t == DARK
    ensures n > 0 ==> t == Toggled(ToggledTimes(theme, n - 1))
  {
    if n == 0 then theme else Toggled(ToggledTimes(theme, n - 1))
  }

  /** After the first click the theme alternates: every second click brings it back. */
  lemma {:induction false} ToggledTimesAlternates(theme: string, n: nat)
    requires n > 0
    ensures ToggledTimes(theme, n + 2) == ToggledTimes(theme, n)
    ensures ToggledTimes(theme, n) == (if n % 2 == 1 then Toggled(theme) else Toggled(Toggled(theme)))
  {
    if n > 1 {
      ToggledTimesAlternates(theme, n - 1);
    }
  }

  /** What `n` clicks from `theme` report to `onChange`, one call per click. */
  function Reports(theme: string, n: nat): (r: seq<Effect>)
    ensures |r| == n
    ensures forall k | 0 <= k < n :: r[k] == Called(OnThemeChange(ToggledTimes(theme, k + 1)))
  {
    if n == 0 then [] else Reports(theme, n - 1) + [Called(OnThemeChange(ToggledTimes(theme, n)))]
  }

  datatype Icon = Moon | Sun

  class Component {
    var theme: string

    constructor ()
      ensures theme == LIGHT
    {
      theme := LIGHT;
    }

    /** The mount effect: read the saved theme, fall back to the system
        preference, and set the document's dark class to match. */
    method Mount(w: Window)
      modifies this, w`darkClass
      ensures theme == InitialTheme(w.GetItem(THEME_KEY), w.prefersDark)
      ensures w.darkClass <==> theme == DARK
    {
      var saved := w.GetItem(THEME_KEY);
      theme := InitialTheme(saved, w.prefersDark);
      w.ToggleDarkClass(theme == DARK);
    }

    /** A click: switch the theme, persist it, update the document and tell the parent. */
    method Toggle(w: Window)
      modifies this, w`storage, w`darkClass, w`trace
      ensures theme == Toggled(old(theme))
      ensures w.storage == old(w.storage)[THEME_KEY := theme]
      ensures w.darkClass <==> theme == DARK
      ensures w.trace == old(w.trace) + [Called(OnThemeChange(theme))]
    {
      theme := Toggled(theme);
      w.SetItem(THEME_KEY, theme);
      w.ToggleDarkClass(theme == DARK);
      w.Call(OnThemeChange(theme));
    }

    /** `aria-pressed` */
    predicate AriaPressed()
      reads this
    {
      theme == DARK
    }

    /** The icon shows what the page is now: a moon while light, a sun otherwise. */
    function ShownIcon(): Icon
      reads this
    {
      if theme == LIGHT then Moon else Sun
    }

    /** `aria-label`: the one supplied, or one naming the theme a click switches to. */
    function AriaLabel(ariaLabel: Option<string>): (r: string)
      reads this
      ensures Truthy(ariaLabel) ==> r == ariaLabel.value
      ensures !Truthy(ariaLabel) ==> r == "Switch to " + Toggled(theme) + " mode"
    {
      if Truthy(ariaLabel) then ariaLabel.value
      else "Switch to " + (if theme == LIGHT then DARK else LIGHT) + " mode"
    }
  }

  /** While the theme is one of the two names, the switch is pressed exactly
      when the sun is shown; a stored value outside them shows the sun unpressed. */
  lemma PressedMatchesIcon(c: Component)
    ensures c.theme == LIGHT || c.theme == DARK ==> (c.AriaPressed() <==> c.ShownIcon() == Sun)
    ensures c.theme != LIGHT && c.theme != DARK ==> !c.AriaPressed() && c.ShownIcon() == Sun
  {
  }

  /** Mounting and then clicking any number of times keeps the document's dark
      class equal to the component's theme being "dark", and the stored theme
      equal to the component's theme after the first click. The k-th click
      reports to `onChange` the theme reached by k clicks from the mounted one. */
  method MountThenToggle(w: Window, clicks: nat) returns (c: Component)
    modifies w`storage, w`darkClass, w`trace
    ensures fresh(c)
    ensures w.darkClass <==> c.theme == DARK
    ensures clicks > 0 ==> w.GetItem(THEME_KEY) == Some(c.theme)
    ensures clicks > 0 ==> c.theme == LIGHT || c.theme == DARK
    ensures |w.trace| == |old(w.trace)| + clicks
    ensures c.theme == ToggledTimes(InitialTheme(old(w.GetItem(THEME_KEY)), w.prefersDark), clicks)
    ensures w.trace == old(w.trace) + Reports(InitialTheme(old(w.GetItem(THEME_KEY)), w.prefersDark), clicks)
  {
    c := new Component();
    c.Mount(w);
    ghost var start := c.theme;
    var i := 0;
    while i < clicks
      invariant 0 <= i <= clicks
      invariant w.darkClass <==> c.theme == DARK
      invariant i > 0 ==> THEME_KEY in w.storage && w.storage[THEME_KEY] == c.theme
      invariant i > 0 ==> c.theme == LIGHT || c.theme == DARK
      invariant |w.trace| == |old(w.trace)| + i
      invariant c.theme == ToggledTimes(start, i)
      invariant w.trace == old(w.trace) + Reports(start, i)
    {
      c.Toggle(w);
      i := i + 1;
    }
  }
}
