/**
 * The theme controller of matplotlib-dark (src/matplotlib_dark/core.py).
 *
 * matplotlib's global style dictionary `rcParams` maps a style key to a value, and its key
 * set is fixed by the library: every key the controller writes is always present. Here
 * the fifteen entries the controller writes are fields of `RcParams`, named after their
 * keys, and every other entry stays in the map `others`; `Get` is the dictionary view.
 * The controller keeps one module-global snapshot of the dictionary, taken by the first
 * `set_theme` and consumed by `light_mode`.
 *
 * The module first gives each operation as a function on a `Style` value (the style
 * dictionary together with the snapshot) and proves what the code promises about those
 * functions; then `ThemeController`, whose methods update the two pieces of state in
 * place, is proved to follow the functions step by step.
 */
module Core {
  import opened Wrappers
  import opened Themes

  /** A style value. Only the shapes the controller writes are distinguished; every other
      value of the library is an opaque `Other`. `AlphaPoint3` stands for the float 0.3. */
  datatype Value =
    | Str(s: string)
    | Bool(b: bool)
    | AlphaPoint3
    | Cycle(colors: seq<string>)
    | Other(repr: string)

  /** `rcParams`: one field per key the controller writes, every other key in `others`. */
  datatype RcParams = RcParams(
    figureFacecolor: Value,    // 'figure.facecolor'
    axesFacecolor: Value,      // 'axes.facecolor'
    axesEdgecolor: Value,      // 'axes.edgecolor'
    axesLabelcolor: Value,     // 'axes.labelcolor'
    axesGrid: Value,           // 'axes.grid'
    gridColor: Value,          // 'grid.color'
    gridAlpha: Value,          // 'grid.alpha'
    textColor: Value,          // 'text.color'
    xtickColor: Value,         // 'xtick.color'
    ytickColor: Value,         // 'ytick.color'
    legendFacecolor: Value,    // 'legend.facecolor'
    legendEdgecolor: Value,    // 'legend.edgecolor'
    savefigFacecolor: Value,   // 'savefig.facecolor'
    savefigEdgecolor: Value,   // 'savefig.edgecolor'
    axesPropCycle: Value,      // 'axes.prop_cycle'
    others: map<string, Value>)

  /** The names of the keys that have a field of their own. */
  const FieldKeys: set<string> := {
    "figure.facecolor", "axes.facecolor", "axes.edgecolor", "axes.labelcolor",
    "axes.grid", "grid.color", "grid.alpha", "text.color", "xtick.color", "ytick.color",
    "legend.facecolor", "legend.edgecolor", "savefig.facecolor", "savefig.edgecolor",
    "axes.prop_cycle" }

  /** `rcParams[key]`, or None for a key the dictionary does not hold. */
  function Get(p: RcParams, key: string): Option<Value> {
    if key == "figure.facecolor" then Some(p.figureFacecolor)
    else if key == "axes.facecolor" then Some(p.axesFacecolor)
    else if key == "axes.edgecolor" then Some(p.axesEdgecolor)
    else if key == "axes.labelcolor" then Some(p.axesLabelcolor)
    else if key == "axes.grid" then Some(p.axesGrid)
    else if key == "grid.color" then Some(p.gridColor)
    else if key == "grid.alpha" then Some(p.gridAlpha)
    else if key == "text.color" then Some(p.textColor)
    else if key == "xtick.color" then Some(p.xtickColor)
    else if key == "ytick.color" then Some(p.ytickColor)
    else if key == "legend.facecolor" then Some(p.legendFacecolor)
    else if key == "legend.edgecolor" then Some(p.legendEdgecolor)
    else if key == "savefig.facecolor" then Some(p.savefigFacecolor)
    else if key == "savefig.edgecolor" then Some(p.savefigEdgecolor)
    else if key == "axes.prop_cycle" then Some(p.axesPropCycle)
    else if key in p.others then Some(p.others[key])
    else None
  }

  /** `p.update(q)` with a dictionary `q` that holds every key of its own: each key of `q`
      takes `q`'s value, every other key of `p` keeps its own. */
  function Update(p: RcParams, q: RcParams): (r: RcParams)
    ensures forall key :: Get(r, key) == if Get(q, key).Some? then Get(q, key) else Get(p, key)
  {
    q.(others := p.others + q.others)
  }

  /** The style and the held snapshot (`_original_params`). */
  datatype Style = Style(rcParams: RcParams, original: Option<RcParams>)

  /** The error `set_theme` raises for an unknown name (a ValueError). */
  datatype ThemeError = UnknownTheme(name: string, available: seq<string>)

  /** How a `set_theme` call ends: it returns, or it raises. */
  datatype Outcome = Applied | Failed(error: ThemeError)

  /** The palette used when a theme record has no `colors` entry. */
  const FallbackColors := [
    "#8FBCBB", "#88C0D0", "#81A1C1", "#5E81AC",
    "#BF616A", "#D08770", "#EBCB8B", "#A3BE8C", "#B48EAD"]

  /** The accent palette a theme puts in the colour cycle. */
  function Palette(th: Theme): seq<string> {
    th.colors.GetOr(FallbackColors)
  }

  /** What the style reads as once theme `th` is on it, key by key. */
  predicate ShowsTheme(p: RcParams, th: Theme) {
    // backgrounds of the figure and of saved files
    && p.figureFacecolor == Str(th.bgColor)
    && p.savefigFacecolor == Str(th.bgColor)
    && p.savefigEdgecolor == Str(th.bgColor)
    && p.axesFacecolor == Str(th.axesBg)
    // every foreground colour is the text colour
    && p.axesEdgecolor == Str(th.textColor)
    && p.axesLabelcolor == Str(th.textColor)
    && p.textColor == Str(th.textColor)
    && p.xtickColor == Str(th.textColor)
    && p.ytickColor == Str(th.textColor)
    // a faint grid, always on
    && p.axesGrid == Bool(true)
    && p.gridAlpha == AlphaPoint3
    && p.gridColor == Str(th.gridColor)
    // the legend box takes the axes background and the grid colour
    && p.legendFacecolor == Str(th.axesBg)
    && p.legendEdgecolor == Str(th.gridColor)
    // the colour cycle is the accent palette, in order
    && p.axesPropCycle == Cycle(Palette(th))
  }

  /** `rcParams.update({...})` with the theme's dictionary literal. */
  function ThemeUpdate(p: RcParams, th: Theme): RcParams {
    p.(
      figureFacecolor := Str(th.bgColor),
      axesFacecolor := Str(th.axesBg),
      axesEdgecolor := Str(th.textColor),
      axesLabelcolor := Str(th.textColor),
      axesGrid := Bool(true),
      gridColor := Str(th.gridColor),
      gridAlpha := AlphaPoint3,
      textColor := Str(th.textColor),
      xtickColor := Str(th.textColor),
      ytickColor := Str(th.textColor),
      legendFacecolor := Str(th.axesBg),
      legendEdgecolor := Str(th.gridColor),
      savefigFacecolor := Str(th.bgColor),
      savefigEdgecolor := Str(th.bgColor))
  }

  /** The dictionary update followed by `rcParams['axes.prop_cycle'] = cycler(...)`:
      afterwards the style shows the theme and every other key keeps its value. */
  function ApplyTheme(p: RcParams, th: Theme): (q: RcParams)
    ensures ShowsTheme(q, th)
    ensures q.others == p.others
  {
    ThemeUpdate(p, th).(axesPropCycle := Cycle(Palette(th)))
  }

  /** Read through the dictionary's own key names, a themed style has the theme's
      background on the figure and on saved files, and its axes background on the axes. */
  lemma ThemedBackgroundsByName(p: RcParams, th: Theme)
    requires ShowsTheme(p, th)
    ensures Get(p, "figure.facecolor") == Some(Str(th.bgColor))
    ensures Get(p, "savefig.facecolor") == Some(Str(th.bgColor))
    ensures Get(p, "savefig.edgecolor") == Some(Str(th.bgColor))
    ensures Get(p, "axes.facecolor") == Some(Str(th.axesBg))
  {
  }

  /** Read through the key names, every foreground colour of a themed style is the
      theme's text colour. */
  lemma ThemedForegroundByName(p: RcParams, th: Theme)
    requires ShowsTheme(p, th)
    ensures Get(p, "axes.edgecolor") == Some(Str(th.textColor))
    ensures Get(p, "axes.labelcolor") == Some(Str(th.textColor))
    ensures Get(p, "text.color") == Some(Str(th.textColor))
    ensures Get(p, "xtick.color") == Some(Str(th.textColor))
    ensures Get(p, "ytick.color") == Some(Str(th.textColor))
  {
  }

  /** Read through the key names, a themed style has the grid on at opacity 0.3 in the
      grid colour, the legend box in the axes background and grid colour, and the
      theme's palette as its colour cycle. */
  lemma ThemedGridLegendCycleByName(p: RcParams, th: Theme)
    requires ShowsTheme(p, th)
    ensures Get(p, "axes.grid") == Some(Bool(true))
    ensures Get(p, "grid.alpha") == Some(AlphaPoint3)
    ensures Get(p, "grid.color") == Some(Str(th.gridColor))
    ensures Get(p, "legend.facecolor") == Some(Str(th.axesBg))
    ensures Get(p, "legend.edgecolor") == Some(Str(th.gridColor))
    ensures Get(p, "axes.prop_cycle") == Some(Cycle(Palette(th)))
  {
  }

  /** Two styles that show the same theme and agree on every other key are equal: a
      theme covers everything it writes. */
  lemma ShowsThemeDetermines(p: RcParams, q: RcParams, th: Theme)
    requires ShowsTheme(p, th) && ShowsTheme(q, th) && p.others == q.others
    ensures p == q
  {
  }

  /** `get_available_themes()`: the table's names in declaration order, each of which
      the table can look up, none twice. */
  function GetAvailableThemes(): (names: seq<string>)
    ensures |names| == |Registry|
    ensures forall i :: 0 <= i < |Registry| ==> names[i] == Registry[i].0
    ensures Distinct(names)
    ensures forall n :: n in names <==> Lookup(Registry, n).Some?
  {
    RegistryNamesDistinct();
    Names(Registry)
  }

  /** The elements of `parts` separated by `sep` (Python's `sep.join(parts)`). */
  function Join(parts: seq<string>, sep: string): string {
    if parts == [] then ""
    else if |parts| == 1 then parts[0]
    else parts[0] + sep + Join(parts[1..], sep)
  }

  const MessageHead := "Unknown theme '"

  /** The text of the ValueError: it names the rejected theme, then lists the valid ones. */
  function Message(e: ThemeError): (text: string)
    ensures |MessageHead + e.name| <= |text|
    ensures text[..|MessageHead + e.name|] == MessageHead + e.name
  {
    var head := MessageHead + e.name;
    var text := head + "'. Available themes: " + Join(e.available, ", ");
    assert text[..|head|] == head;
    text
  }

  /** `set_theme(name)` on a style: an unknown name raises before anything is written;
      a known one takes the snapshot only if none is held and puts the theme on the
      style, leaving every other key as it was. */
  function SetThemeStep(s: Style, name: string): (r: (Outcome, Style))
    ensures r.0.Applied? <==> name in GetAvailableThemes()
    ensures r.0.Failed? ==> r.0.error == UnknownTheme(name, GetAvailableThemes()) && r.1 == s
    ensures r.0.Applied? ==>
      && Lookup(Registry, name).Some?
      && ShowsTheme(r.1.rcParams, Lookup(Registry, name).value)
      && r.1.rcParams.others == s.rcParams.others
    ensures s.original.Some? ==> r.1.original == s.original
    ensures s.original.None? && r.0.Applied? ==> r.1.original == Some(s.rcParams)
  {
    match Lookup(Registry, name)
    case None => (Failed(UnknownTheme(name, GetAvailableThemes())), s)
    case Some(th) =>
      var original := if s.original.None? then Some(s.rcParams) else s.original;
      (Applied, Style(ApplyTheme(s.rcParams, th), original))
  }

  /** `light_mode()` on a style: write the snapshot back and drop it, or, with no
      snapshot, reset to the library defaults `defaults` (`plt.rcdefaults()`). */
  function LightModeStep(s: Style, defaults: RcParams): (r: Style)
    ensures r.original.None?
    ensures s.original.None? ==> r.rcParams == defaults
    ensures s.original.Some? ==> forall key ::
      Get(r.rcParams, key) == if Get(s.original.value, key).Some?
        then Get(s.original.value, key) else Get(s.rcParams, key)
  {
    match s.original
    case None => Style(defaults, None)
    case Some(saved) => Style(Update(s.rcParams, saved), None)
  }

  /** A run of `set_theme` calls, in order; a call that raises changes nothing. */
  function SetThemes(s: Style, names: seq<string>): Style
    decreases |names|
  {
    if names == [] then s else SetThemes(SetThemeStep(s, names[0]).1, names[1..])
  }

  /** The fixed-key-set invariant: beyond the keys with fields of their own, the style
      (and the snapshot, when held) holds exactly the keys `keys`. */
  ghost predicate WellFormed(s: Style, keys: set<string>) {
    && keys !! FieldKeys
    && s.rcParams.others.Keys == keys
    && (s.original.Some? ==> s.original.value.others.Keys == keys)
  }

  /** Writing back a snapshot with the style's own key set replaces the style by it. */
  lemma UpdateSameKeys(p: RcParams, q: RcParams)
    requires p.others.Keys == q.others.Keys
    ensures Update(p, q) == q
  {
    assert p.others + q.others == q.others;
  }

  /** Both operations keep the key set fixed (the defaults have the library's key set). */
  lemma StepsPreserveWellFormed(s: Style, name: string, defaults: RcParams)
    requires WellFormed(s, defaults.others.Keys)
    ensures WellFormed(SetThemeStep(s, name).1, defaults.others.Keys)
    ensures WellFormed(LightModeStep(s, defaults), defaults.others.Keys)
  {
    if s.original.Some? {
      UpdateSameKeys(s.rcParams, s.original.value);
    }
  }

  /** An unknown name raises and leaves the style and the snapshot as they were. */
  lemma UnknownThemeChangesNothing(s: Style, name: string)
    requires name !in GetAvailableThemes()
    ensures SetThemeStep(s, name) == (Failed(UnknownTheme(name, GetAvailableThemes())), s)
  {
  }

  /** Applying the same theme twice is the same as applying it once. */
  lemma SetThemeIdempotent(s: Style, name: string)
    ensures SetThemeStep(SetThemeStep(s, name).1, name) == SetThemeStep(s, name)
  {
    match Lookup(Registry, name)
    case None =>
    case Some(th) =>
      var q := ApplyTheme(s.rcParams, th);
      ShowsThemeDetermines(ApplyTheme(q, th), q, th);
  }

  /** Switching themes: the second theme fully covers the first, and the snapshot still
      holds the style from before the first; a first call that raises changes nothing. */
  lemma LastThemeWins(s: Style, first: string, second: string)
    requires second in GetAvailableThemes()
    ensures SetThemeStep(SetThemeStep(s, first).1, second) == SetThemeStep(s, second)
  {
    if first in GetAvailableThemes() {
      var a := Lookup(Registry, first).value;
      var b := Lookup(Registry, second).value;
      var p := s.rcParams;
      ShowsThemeDetermines(ApplyTheme(ApplyTheme(p, a), b), ApplyTheme(p, b), b);
    }
  }

  /** Some name of the run is a known theme. */
  predicate AnyKnown(names: seq<string>) {
    exists n :: n in names && n in GetAvailableThemes()
  }

  /** After a run of `set_theme` calls the snapshot is the style from before the run if
      one call succeeded and none was held, and otherwise the one held before; the keys
      no theme writes are untouched. */
  lemma {:induction false} SetThemesSnapshot(s: Style, names: seq<string>)
    decreases |names|
    ensures SetThemes(s, names).rcParams.others == s.rcParams.others
    ensures SetThemes(s, names).original
      == if s.original.None? && AnyKnown(names) then Some(s.rcParams) else s.original
  {
    if names != [] {
      var t := SetThemeStep(s, names[0]).1;
      SetThemesSnapshot(t, names[1..]);
      assert names == [names[0]] + names[1..];
      if names[0] in GetAvailableThemes() {
        assert AnyKnown(names);
      } else {
        assert AnyKnown(names) == AnyKnown(names[1..]);
      }
    }
  }

  /** After a non-empty run whose last name is a known theme, the style shows that theme,
      whatever the earlier calls did. */
  lemma {:induction false} SetThemesShowsLast(s: Style, names: seq<string>)
    requires names != []
    requires names[|names| - 1] in GetAvailableThemes()
    decreases |names|
    ensures Lookup(Registry, names[|names| - 1]).Some?
    ensures ShowsTheme(SetThemes(s, names).rcParams, Lookup(Registry, names[|names| - 1]).value)
  {
    var t := SetThemeStep(s, names[0]).1;
    if |names| > 1 {
      assert names[1..][|names| - 2] == names[|names| - 1];
      SetThemesShowsLast(t, names[1..]);
    }
  }

  /** Any run of `set_theme` calls with at least one success, started without a
      snapshot and followed by `light_mode`, gives back exactly the style from before the
      run and holds no snapshot; the calls that raised do not disturb this. */
  lemma RestoreAfterThemes(s: Style, names: seq<string>, defaults: RcParams)
    requires s.original.None?
    requires AnyKnown(names)
    ensures LightModeStep(SetThemes(s, names), defaults) == s
  {
    SetThemesSnapshot(s, names);
    UpdateSameKeys(SetThemes(s, names).rcParams, s.rcParams);
  }

  /** Without a snapshot `light_mode` resets to the defaults, so calling it twice in a
      row leaves the defaults both times, with no snapshot. */
  lemma LightModeTwice(s: Style, defaults: RcParams)
    ensures LightModeStep(LightModeStep(s, defaults), defaults) == Style(defaults, None)
    ensures s.original.None? ==> LightModeStep(s, defaults) == Style(defaults, None)
  {
  }

  /** The sequence `dracula`, `neon`, `light_mode` from a style whose figure background is
      white and that holds no snapshot: each theme shows its background, and the style
      from before the run, white background included, comes back. */
  lemma DraculaNeonScenario(s: Style, defaults: RcParams)
    requires s.original.None?
    requires s.rcParams.figureFacecolor == Str("white")
    ensures SetThemeStep(s, "dracula").1.rcParams.figureFacecolor == Str("#282A36")
    ensures SetThemeStep(SetThemeStep(s, "dracula").1, "neon").1.rcParams.figureFacecolor
      == Str("#0a0a0a")
    ensures LightModeStep(SetThemeStep(SetThemeStep(s, "dracula").1, "neon").1, defaults) == s
  {
    RegistryBackgrounds();
    var t1 := SetThemeStep(s, "dracula").1;
    var t2 := SetThemeStep(t1, "neon").1;
    assert t2.original == Some(s.rcParams) && t2.rcParams.others == s.rcParams.others;
    UpdateSameKeys(t2.rcParams, s.rcParams);
  }

  /** The controller: matplotlib's global `rcParams`, the module-global
      `_original_params`, and the library defaults that `plt.rcdefaults()` restores. */
  class ThemeController {
    const defaults: RcParams
    var rcParams: RcParams
    var originalParams: Option<RcParams>

    ghost predicate Valid()
      reads this
    {
      WellFormed(Style(rcParams, originalParams), defaults.others.Keys)
    }

    /** The state as a `Style` value. */
    function State(): Style
      reads this
    {
      Style(rcParams, originalParams)
    }

    /** Module import: the style as the library set it up, no snapshot held. */
    constructor (defaults: RcParams, initial: RcParams)
      requires defaults.others.Keys !! FieldKeys
      requires initial.others.Keys == defaults.others.Keys
      ensures Valid()
      ensures this.defaults == defaults && rcParams == initial && originalParams == None
    {
      this.defaults := defaults;
      rcParams := initial;
      originalParams := None;
    }

    /** `set_theme(theme_name)`. */
    method SetTheme(themeName: string) returns (outcome: Outcome)
      requires Valid()
      modifies this
      ensures Valid()
      ensures (outcome, State()) == SetThemeStep(old(State()), themeName)
      ensures outcome.Failed? ==> unchanged(this)
    {
      var found := Lookup(Registry, themeName);
      if found.None? {
        outcome := Failed(UnknownTheme(themeName, GetAvailableThemes()));
        return;
      }
      if originalParams.None? {
        originalParams := Some(rcParams);
      }
      var theme := found.value;
      rcParams := ThemeUpdate(rcParams, theme);
      rcParams := rcParams.(axesPropCycle := Cycle(Palette(theme)));
      outcome := Applied;
    }

    /** `dark_mode(theme='default')`: the same as `set_theme`. */
    method DarkMode(theme: string := "default") returns (outcome: Outcome)
      requires Valid()
      modifies this
      ensures Valid()
      ensures (outcome, State()) == SetThemeStep(old(State()), theme)
    {
      outcome := SetTheme(theme);
    }

    /** `light_mode()`. */
    method LightMode()
      requires Valid()
      modifies this
      ensures Valid()
      ensures State() == LightModeStep(old(State()), defaults)
      ensures old(originalParams).Some? ==> rcParams == old(originalParams).value
    {
      if originalParams.None? {
        rcParams := defaults;
      } else {
        UpdateSameKeys(rcParams, originalParams.value);
        rcParams := Update(rcParams, originalParams.value);
        originalParams := None;
      }
    }
  }

  /** What a caller can conclude from the method contracts alone: each theme test of the
      suite applies a theme, reads its figure background and restores the style. */
  method ThemeBackgroundsScenario(defaults: RcParams, initial: RcParams)
    requires defaults.others.Keys !! FieldKeys
    requires initial.others.Keys == defaults.others.Keys
  {
    RegistryBackgrounds();
    var c := new ThemeController(defaults, initial);
    var o := c.DarkMode();
    assert c.rcParams.figureFacecolor == Str("#1e1e1e");
    c.LightMode();
    assert c.rcParams == initial;
    o := c.DarkMode("nord");
    assert c.rcParams.figureFacecolor == Str("#2E3440");
    c.LightMode();
    assert c.rcParams == initial;
    o := c.DarkMode("monokai");
    assert c.rcParams.figureFacecolor == Str("#272822");
    c.LightMode();
    assert c.rcParams == initial;
    o := c.DarkMode("dracula");
    assert c.rcParams.figureFacecolor == Str("#282A36");
    c.LightMode();
    assert c.rcParams == initial;
    o := c.SetTheme("nord");
    assert c.rcParams.figureFacecolor == Str("#2E3440");
    c.LightMode();
    assert c.rcParams == initial && c.originalParams == None;
  }

  /** What a caller can conclude from the method contracts alone: an unknown name raises
      and changes nothing, `light_mode` brings back the style from before the first
      theme, and a second `light_mode` resets to the defaults. */
  method RestoreScenario(defaults: RcParams, initial: RcParams)
    requires defaults.others.Keys !! FieldKeys
    requires initial.others.Keys == defaults.others.Keys
  {
    var c := new ThemeController(defaults, initial);
    RegistryRejects();
    var o := c.DarkMode("nonexistent");
    assert o.Failed? && c.rcParams == initial && c.originalParams == None;
    o := c.DarkMode();
    assert o == Applied && c.rcParams.figureFacecolor == Str("#1e1e1e") by {
      RegistryBackgrounds();
    }
    c.LightMode();
    assert c.rcParams == initial;
    o := c.SetTheme("nord");
    o := c.SetTheme("monokai");
    c.LightMode();
    assert c.rcParams == initial && c.originalParams == None;
    c.LightMode();
    assert c.rcParams == defaults;
  }
}
