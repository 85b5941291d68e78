# matplotlib-dark theme controller in Dafny

matplotlib-dark switches matplotlib's global style dictionary (`rcParams`) to a dark
theme and back again. This project models its core:

- the theme table `THEMES` (`src/matplotlib_dark/themes.py`);
- the controller (`src/matplotlib_dark/core.py`):
  - `set_theme` writes fourteen style keys and the colour cycle from a theme record;
  - `dark_mode` forwards to `set_theme`;
  - `light_mode` restores the style;
  - `get_available_themes` lists the theme names;
  - `_original_params` is the module-global snapshot that the first `set_theme` takes
    and `light_mode` consumes.

The project has three modules:

- `Wrappers` (`wrappers.dfy`): the `Option` datatype.
- `Themes` (`themes.dfy`): the theme record, dictionary lookup on the ordered table, the six
  themes with their exact colours, and the facts about the table.
- `Core` (`core.dfy`):
  - the style dictionary;
  - `set_theme` and `light_mode` as functions on a `Style` value (the dictionary plus the
    snapshot), with the lemmas about them;
  - the class `ThemeController`. Its fields `rcParams` and `originalParams` are the two
    pieces of global state. Its methods update them in place, and each method's contract
    ties it to the step function.

Representation choices:

- **The style dictionary.** matplotlib's `rcParams` has a key set fixed by the library.
  So the fifteen keys the controller writes are fields of the record `RcParams`, and every
  other key lives in its map `others`. `Get` reads the record as a dictionary by key name,
  and `Update` is `dict.update`. `WellFormed` states the fixed key set: the `others` map of
  the style, and of the snapshot when one is held, has the library's remaining keys.
- **`plt.rcdefaults()`.** The library's default style is a value `defaults` that is
  fixed when the controller is created. Its contents are not modelled.
- **The `ValueError`.** An unknown name is an `Outcome.Failed` carrying the name and the
  list of available names. `Message` builds the error text from that value.

Two details of the code:

- `set_theme` writes the legend's face and edge colours but not `legend.labelcolor`, so
  neither does the model.
- The docstrings of `dark_mode` and `get_available_themes` mention four themes. The table
  has six, and the model has six.

Two methods are usage examples of the class contracts. They carry no contract of their
own, and each assertion in them follows from the method contracts alone.

- `Core.ThemeBackgroundsScenario` replays the theme tests of `tests/test_core.py:8-33`
  and `:60-64`. It applies default, nord, monokai and dracula through `DarkMode`, and nord
  through `SetTheme`. After each it asserts the figure background the test expects, then
  calls `LightMode` and asserts that the starting style is back.
- `Core.RestoreScenario` covers `tests/test_core.py:36-47`. An unknown name raises and
  changes neither the style nor the snapshot. `light_mode` after `dark_mode` gives back the
  starting style. So does `light_mode` after two themes in a row, with no snapshot left.
  A second `light_mode` resets to the defaults.

## Model

| member | source | states |
|---|---|---|
| Themes.Names | src/matplotlib_dark/themes.py:3-104 | The key view of the table has one name per entry, in declaration order. |
| Themes.Lookup | src/matplotlib_dark/core.py:67 | A lookup finds a theme exactly when the name is a key of the table, and what it finds is filed under that name. |
| Themes.LookupEntry | src/matplotlib_dark/core.py:78 | In a table whose names are distinct, looking up the i-th name gives the i-th theme. |
| Themes.RegistryOrder | src/matplotlib_dark/themes.py:3-104 | The table holds exactly six themes: default, nord, monokai, dracula, neon and material, in that order. |
| Themes.RegistryNamesDistinct | src/matplotlib_dark/themes.py:3-104 | No theme name is declared twice. |
| Themes.RegistryComplete | src/matplotlib_dark/themes.py:3-104 | Every theme defines all four colours and an accent list of at least six colours. The accent lists have lengths 7, 9, 6, 7, 9 and 9 in declaration order. |
| Themes.RegistryBackgrounds | src/matplotlib_dark/themes.py:4-85 | Looking up default, nord, monokai, dracula and neon finds their records. Their backgrounds are #1e1e1e, #2E3440, #272822, #282A36 and #0a0a0a. |
| Themes.RegistryRejects | src/matplotlib_dark/core.py:67 | The name "nonexistent", which the test suite tries, is not found in the table. |
| Themes.NeonQuirks | src/matplotlib_dark/themes.py:69-85 | neon's accent list holds #ff00ff twice, so it has a duplicate. Its grid colour is the nine-character #ffffff40, which carries an alpha suffix. |
| Core.Update | src/matplotlib_dark/core.py:47 | After the update, every key of the snapshot takes the snapshot's value, and every other key keeps the style's value. |
| Core.ApplyTheme | src/matplotlib_dark/core.py:80-103 | The themed style shows the theme on all fifteen written keys, and every other key is unchanged. |
| Core.ThemedBackgroundsByName | src/matplotlib_dark/core.py:82-83 | Read by key name, a themed style has the theme's background on figure.facecolor, savefig.facecolor and savefig.edgecolor, and its axes background on axes.facecolor. |
| Core.ThemedForegroundByName | src/matplotlib_dark/core.py:84-91 | Read by key name, axes.edgecolor, axes.labelcolor, text.color, xtick.color and ytick.color all hold the theme's text colour. |
| Core.ThemedGridLegendCycleByName | src/matplotlib_dark/core.py:86-103 | Read by key name, the grid is on at alpha 0.3 in the grid colour, and the legend has the axes background and grid colour. axes.prop_cycle holds the theme's palette, or the nine-colour fallback when the record has no colours. |
| Core.ShowsThemeDetermines | src/matplotlib_dark/core.py:80-103 | Two styles that show the same theme and agree on every other key are equal, so a theme fully covers the keys it writes. |
| Core.GetAvailableThemes | src/matplotlib_dark/core.py:106-122 | Returns the table's names in declaration order, with no duplicates. A name is in the list exactly when the table can look it up. |
| Core.Message | src/matplotlib_dark/core.py:68-72 | The error text starts with "Unknown theme '" followed by the rejected name. |
| Core.SetThemeStep | src/matplotlib_dark/core.py:51-103 | The call succeeds exactly when the name is an available theme. On failure it reports the name and the available list, and the style and snapshot are unchanged. On success the style shows the theme and every other key is unchanged. A held snapshot is kept. With no snapshot held, the pre-call style becomes the snapshot. |
| Core.LightModeStep | src/matplotlib_dark/core.py:31-48 | No snapshot is held afterwards. Without a snapshot, the style becomes the library defaults. With one, the snapshot's keys are written back over the style. |
| Core.UpdateSameKeys | src/matplotlib_dark/core.py:47 | Writing back a snapshot that has the style's own key set gives exactly the snapshot. |
| Core.StepsPreserveWellFormed | src/matplotlib_dark/core.py:44-48 | set_theme and light_mode keep the key set of the style and of the snapshot equal to the library's key set. |
| Core.UnknownThemeChangesNothing | src/matplotlib_dark/core.py:67-72 | An unknown name raises and changes neither the style nor the snapshot. |
| Core.SetThemeIdempotent | src/matplotlib_dark/core.py:74-103 | Applying a theme twice is the same as applying it once. |
| Core.LastThemeWins | src/matplotlib_dark/core.py:67-103 | Calling set_theme with any name and then with a known theme is the same as applying only the known theme, snapshot included. |
| Core.SetThemesSnapshot | src/matplotlib_dark/core.py:74-76 | After any run of set_theme calls, the other keys are untouched. The snapshot is the pre-run style if none was held and some call succeeded; otherwise it is the one held before. |
| Core.SetThemesShowsLast | src/matplotlib_dark/core.py:67-103 | After a non-empty run of set_theme calls whose last name is a known theme, the style shows that theme, whatever the earlier calls did, including any that raised. |
| Core.RestoreAfterThemes | src/matplotlib_dark/core.py:31-103 | Start with no snapshot and run set_theme calls, at least one of which succeeds, then call light_mode. The result is exactly the style before the run, with no snapshot held, whatever calls in between raised. |
| Core.LightModeTwice | src/matplotlib_dark/core.py:44-45 | light_mode without a snapshot resets to the defaults. Calling light_mode twice in a row leaves the defaults and no snapshot. |
| Core.DraculaNeonScenario | src/matplotlib_dark/core.py:31-103 | From a white style with no snapshot, dracula shows #282A36 and then neon shows #0a0a0a. light_mode then brings back the original style. |
| Core.ThemeController.constructor | src/matplotlib_dark/core.py:7-8 | At module import the style is the library's and no snapshot is held. |
| Core.ThemeController.SetTheme | src/matplotlib_dark/core.py:51-103 | Updates the two globals in place exactly as SetThemeStep describes and keeps the key-set invariant. A call that raises changes nothing. |
| Core.ThemeController.DarkMode | src/matplotlib_dark/core.py:11-28 | Behaves exactly as set_theme, with default as the theme when none is given. |
| Core.ThemeController.LightMode | src/matplotlib_dark/core.py:31-48 | Updates the globals in place exactly as LightModeStep describes. A held snapshot is restored exactly. |

## Left out

- matplotlib itself is not part of this model:
  - its rcParams validators are not modelled;
  - the `cycler` object is modelled only as its ordered colour list;
  - the contents of `plt.rcdefaults()` are not modelled.
- The float 0.3 written to `grid.alpha` is an opaque value (`AlphaPoint3`), because no
  arithmetic is done on it.
- Core.Message: only the head of the error text ("Unknown theme '" and the name) is
  stated. The tail lists the names joined by ", ", but no contract states it.
- The key-set invariant is assumed of the library, not enforced by it: `WellFormed` asks
  that the defaults and the starting style have the same key set.
- Plotting, figure creation and any I/O are not modelled. `generate_images.py` and the
  package's `__init__.py` re-exports are not part of this model.
- Concurrent callers are not modelled. The snapshot is a plain global with no locking, and
  the model is sequential.
