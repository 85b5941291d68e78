/**
 * The fixed table of dark themes of matplotlib-dark (src/matplotlib_dark/themes.py).
 *
 * The table is an insertion-ordered dictionary from a theme name to a record of four
 * colours and an ordered accent palette. It is modelled as a sequence of (name, theme)
 * pairs so that declaration order is kept; dictionary lookup is `Lookup`, the key view
 * is `Names`. Colours are opaque strings: nothing checks their syntax.
 */
module Themes {
  import opened Wrappers

  /** One theme record. `colors` is optional in the record, as the controller reads it
      with a fallback; every entry of `Registry` has one. */
  datatype Theme = Theme(
    bgColor: string,
    axesBg: string,
    textColor: string,
    gridColor: string,
    colors: Option<seq<string>>)

  type ThemeTable = seq<(string, Theme)>

  /** No name occurs twice. */
  predicate Distinct(names: seq<string>) {
    forall i, j :: 0 <= i < j < |names| ==> names[i] != names[j]
  }

  /** The keys of the table, in declaration order (`THEMES.keys()`). */
  function Names(t: ThemeTable): (names: seq<string>)
    ensures |names| == |t|
    ensures forall i :: 0 <= i < |t| ==> names[i] == t[i].0
  {
    if t == [] then [] else [t[0].0] + Names(t[1..])
  }

  /** Dictionary lookup: the theme filed under `name`, if any (the first entry with that
      name, which for a table with distinct names is the only one). */
  function Lookup(t: ThemeTable, name: string): (r: Option<Theme>)
    ensures r.Some? <==> name in Names(t)
    ensures r.Some? ==> exists i :: 0 <= i < |t| && t[i] == (name, r.value)
  {
    if t == [] then None
    else if t[0].0 == name then Some(t[0].1)
    else
      var r := Lookup(t[1..], name);
      assert r.Some? ==> exists i :: 0 <= i < |t| - 1 && t[1..][i] == (name, r.value);
      r
  }

  /** In a table with distinct names, looking up the name of the i-th entry finds the
      i-th entry's theme. */
  lemma {:induction false} LookupEntry(t: ThemeTable, i: nat)
    requires Distinct(Names(t))
    requires i < |t|
    ensures Lookup(t, t[i].0) == Some(t[i].1)
  {
    if i > 0 {
      assert Names(t)[0] != Names(t)[i];
      assert Distinct(Names(t[1..])) by {
        forall a, b | 0 <= a < b < |t| - 1
          ensures Names(t[1..])[a] != Names(t[1..])[b]
        {
          assert Names(t)[a + 1] != Names(t)[b + 1];
        }
      }
      LookupEntry(t[1..], i - 1);
    }
  }

  const DefaultTheme := Theme("#1e1e1e", "#2d2d2d", "#e4e4e4", "#505050", Some([
    "#61AFEF", "#98C379", "#E06C75", "#C678DD", "#56B6C2", "#E5C07B", "#D19A66"]))

  const NordTheme := Theme("#2E3440", "#3B4252", "#ECEFF4", "#4C566A", Some([
    "#88C0D0", "#A3BE8C", "#EBCB8B", "#D08770", "#BF616A", "#B48EAD", "#5E81AC",
    "#8FBCBB", "#81A1C1"]))

  const MonokaiTheme := Theme("#272822", "#3E3D32", "#F8F8F2", "#75715E", Some([
    "#66D9EF", "#A6E22E", "#F92672", "#FD971F", "#AE81FF", "#E6DB74"]))

  const DraculaTheme := Theme("#282A36", "#44475A", "#F8F8F2", "#6272A4", Some([
    "#8BE9FD", "#50FA7B", "#FFB86C", "#FF79C6", "#BD93F9", "#FF5555", "#F1FA8C"]))

  const NeonTheme := Theme("#0a0a0a", "#1a1a1a", "#ffffff", "#ffffff40", Some([
    "#00ffff", "#00ff00", "#ff00ff", "#ffff00", "#ff0080", "#00ff80", "#ff00ff",
    "#ff8000", "#0080ff"]))

  const MaterialTheme := Theme("#212121", "#303030", "#FFFFFF", "#424242", Some([
    "#2196F3", "#4CAF50", "#FF5722", "#9C27B0", "#00BCD4", "#FFEB3B", "#E91E63",
    "#FF9800", "#009688"]))

  /** `THEMES`, in declaration order. */
  const Registry: ThemeTable := [
    ("default", DefaultTheme),
    ("nord", NordTheme),
    ("monokai", MonokaiTheme),
    ("dracula", DraculaTheme),
    ("neon", NeonTheme),
    ("material", MaterialTheme)
  ]

  /** The table holds exactly six themes, in this order. */
  lemma RegistryOrder()
    ensures Names(Registry) == ["default", "nord", "monokai", "dracula", "neon", "material"]
  {
  }

  /** No name is declared twice. */
  lemma RegistryNamesDistinct()
    ensures Distinct(Names(Registry))
  {
    RegistryOrder();
    var names := ["default", "nord", "monokai", "dracula", "neon", "material"];
    forall i, j | 0 <= i < j < |names|
      ensures names[i] != names[j]
    {
      // names of equal length differ in their first or second letter
      if |names[i]| == |names[j]| {
        assert names[i][0] != names[j][0] || names[i][1] != names[j][1];
      }
    }
  }

  /** Every theme defines all four colours and a non-empty accent list of at least six
      colours; the accent lists have lengths 7, 9, 6, 7, 9, 9 in declaration order. */
  lemma RegistryComplete()
    ensures forall i :: 0 <= i < |Registry| ==>
      var th := Registry[i].1;
      th.bgColor != "" && th.axesBg != "" && th.textColor != "" && th.gridColor != "" &&
      th.colors.Some? && 6 <= |th.colors.value|
    ensures seq(|Registry|, i requires 0 <= i < |Registry| => |Registry[i].1.colors.GetOr([])|)
      == [7, 9, 6, 7, 9, 9]
  {
  }

  /** The backgrounds the test suite expects for the first four themes, and `neon`'s. */
  lemma RegistryBackgrounds()
    ensures Lookup(Registry, "default") == Some(DefaultTheme) && DefaultTheme.bgColor == "#1e1e1e"
    ensures Lookup(Registry, "nord") == Some(NordTheme) && NordTheme.bgColor == "#2E3440"
    ensures Lookup(Registry, "monokai") == Some(MonokaiTheme) && MonokaiTheme.bgColor == "#272822"
    ensures Lookup(Registry, "dracula") == Some(DraculaTheme) && DraculaTheme.bgColor == "#282A36"
    ensures Lookup(Registry, "neon") == Some(NeonTheme) && NeonTheme.bgColor == "#0a0a0a"
  {
    RegistryNamesDistinct();
    LookupEntry(Registry, 0);
    LookupEntry(Registry, 1);
    LookupEntry(Registry, 2);
    LookupEntry(Registry, 3);
    LookupEntry(Registry, 4);
  }

  /** A name the table does not declare, such as the one the test suite tries, is not
      found. */
  lemma RegistryRejects()
    ensures Lookup(Registry, "nonexistent").None?
  {
    RegistryOrder();
    assert "nonexistent" !in Names(Registry) by {
      forall i | 0 <= i < |Names(Registry)|
        ensures Names(Registry)[i] != "nonexistent"
      {
        assert |Names(Registry)[i]| < |"nonexistent"|;
      }
    }
  }

  /** Accent lists are not sets: `neon` names magenta twice. Colours are not validated:
      `neon`'s grid colour carries an alpha suffix. */
  lemma NeonQuirks()
    ensures NeonTheme.colors.value[2] == NeonTheme.colors.value[6] == "#ff00ff"
    ensures !Distinct(NeonTheme.colors.value)
    ensures NeonTheme.gridColor == "#ffffff40" && |NeonTheme.gridColor| == 9
  {
    assert NeonTheme.colors.value[2] == NeonTheme.colors.value[6];
  }
}
