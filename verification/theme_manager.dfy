/** `ThemeManager` in `src/themes/theme-manager.js`: the registry of named themes, and
    the flattening of a theme into CSS custom properties. */
module Themes {
  import opened Wrappers
  import opened Text
  import opened Collections
  import opened JsObjects

  /** A colour entry: one colour, or a series such as the chart palette. */
  datatype Colour = Single(value: string) | Series(values: seq<string>)

  type Colours = seq<(string, Colour)>

  /** A section of named settings, in `Object.entries` order. */
  type Section = seq<(string, string)>

  datatype Theme = Theme(name: string, colors: Colours, typography: Section, spacing: Section,
                         borderRadius: Section, shadows: Section)

  /** The object given to `registerTheme`: `None` is a key it does not have. */
  datatype ThemeSpec = ThemeSpec(name: Option<string>, colors: Option<Colours>, typography: Option<Section>,
                                 spacing: Option<Section>, borderRadius: Option<Section>, shadows: Option<Section>)

  const Spacing: Section := [("xs", "4px"), ("sm", "8px"), ("md", "16px"), ("lg", "24px"), ("xl", "32px")]

  const Radii: Section := [("sm", "2px"), ("md", "4px"), ("lg", "8px"), ("xl", "16px")]

  const Typography: Section := [
    ("fontFamily", "system-ui, -apple-system, BlinkMacSystemFont, \"Segoe UI\", Roboto, Oxygen, Ubuntu, Cantarell, \"Open Sans\", \"Helvetica Neue\", sans-serif"),
    ("fontSize", "14px"), ("fontWeightRegular", "400"), ("fontWeightBold", "700"),
    ("titleSize", "16px"), ("subtitleSize", "14px"), ("labelSize", "12px")]

  const LightShadows: Section := [
    ("none", "none"),
    ("sm", "0 1px 3px rgba(0,0,0,0.12), 0 1px 2px rgba(0,0,0,0.24)"),
    ("md", "0 3px 6px rgba(0,0,0,0.16), 0 3px 6px rgba(0,0,0,0.23)"),
    ("lg", "0 10px 20px rgba(0,0,0,0.19), 0 6px 6px rgba(0,0,0,0.23)"),
    ("xl", "0 14px 28px rgba(0,0,0,0.25), 0 10px 10px rgba(0,0,0,0.22)")]

  const DeepShadows: Section := [
    ("none", "none"),
    ("sm", "0 1px 3px rgba(0,0,0,0.24), 0 1px 2px rgba(0,0,0,0.48)"),
    ("md", "0 3px 6px rgba(0,0,0,0.32), 0 3px 6px rgba(0,0,0,0.46)"),
    ("lg", "0 10px 20px rgba(0,0,0,0.38), 0 6px 6px rgba(0,0,0,0.46)"),
    ("xl", "0 14px 28px rgba(0,0,0,0.50), 0 10px 10px rgba(0,0,0,0.44)")]

  /** The colour names every built-in theme defines, in order, before the chart series. */
  function Palette(c: seq<string>, chart: seq<string>): Colours
    requires |c| == 10
  {
    [("background", Single(c[0])), ("surface", Single(c[1])), ("primary", Single(c[2])),
     ("secondary", Single(c[3])), ("text", Single(c[4])), ("textSecondary", Single(c[5])),
     ("border", Single(c[6])), ("success", Single(c[7])), ("warning", Single(c[8])),
     ("error", Single(c[9])), ("chart", Series(chart))]
  }

  const LightTheme := Theme("Light",
    Palette(["#ffffff", "#f5f5f5", "#2196f3", "#ff9800", "#212121", "#757575", "#e0e0e0", "#4caf50", "#ff9800", "#f44336"],
            ["#2196f3", "#4caf50", "#ff9800", "#f44336", "#9c27b0", "#00bcd4", "#ffeb3b", "#795548"]),
    Typography, Spacing, Radii, LightShadows)

  const DarkTheme := Theme("Dark",
    Palette(["#121212", "#1e1e1e", "#90caf9", "#ffb74d", "#ffffff", "#b0b0b0", "#424242", "#81c784", "#ffb74d", "#e57373"],
            ["#90caf9", "#81c784", "#ffb74d", "#e57373", "#ce93d8", "#80deea", "#fff59d", "#a1887f"]),
    Typography, Spacing, Radii, DeepShadows)

  const OceanTheme := Theme("Ocean",
    Palette(["#263238", "#37474f", "#80deea", "#c5e1a5", "#eceff1", "#b0bec5", "#546e7a", "#c5e1a5", "#fff59d", "#ef9a9a"],
            ["#80deea", "#c5e1a5", "#fff59d", "#ef9a9a", "#ce93d8", "#90caf9", "#ffcc80", "#bcaaa4"]),
    Typography, Spacing, Radii, DeepShadows)

  function Pick<T>(base: T, given: Option<T>): T
  {
    if given.Some? then given.value else base
  }

  /** `{...base, ...spec, name: spec.name || key}`: a shallow overlay, so a section the
      spec gives replaces the base's section whole. */
  function Derive(base: Theme, key: string, spec: ThemeSpec): (t: Theme)
    ensures t.name == if spec.name.Some? && spec.name.value != "" then spec.name.value else key
    ensures spec.colors.Some? ==> t.colors == spec.colors.value
    ensures spec.colors.None? ==> t.colors == base.colors
    ensures spec.typography.Some? ==> t.typography == spec.typography.value
    ensures spec.typography.None? ==> t.typography == base.typography
    ensures spec.spacing.Some? ==> t.spacing == spec.spacing.value
    ensures spec.spacing.None? ==> t.spacing == base.spacing
    ensures spec.borderRadius.Some? ==> t.borderRadius == spec.borderRadius.value
    ensures spec.borderRadius.None? ==> t.borderRadius == base.borderRadius
    ensures spec.shadows.Some? ==> t.shadows == spec.shadows.value
    ensures spec.shadows.None? ==> t.shadows == base.shadows
  {
    Theme(if spec.name.Some? && spec.name.value != "" then spec.name.value else key,
          Pick(base.colors, spec.colors), Pick(base.typography, spec.typography),
          Pick(base.spacing, spec.spacing), Pick(base.borderRadius, spec.borderRadius),
          Pick(base.shadows, spec.shadows))
  }

  /** The static `themes` object: its keys in creation order, and the themes. */
  class ThemeManager {
    var keys: seq<string>
    var themes: map<string, Theme>

    /** Every key is listed once, the listed keys are exactly the registered ones, and
        `light` is always there. */
    predicate Valid()
      reads this
    {
      NoDup(keys) && themes.Keys == (set k | k in keys) && "light" in themes
    }

    /** The registry as the module defines it: light, dark and ocean. */
    constructor ()
      ensures Valid()
      ensures keys == ["light", "dark", "ocean"]
      ensures themes == map["light" := LightTheme, "dark" := DarkTheme, "ocean" := OceanTheme]
    {
      keys := ["light", "dark", "ocean"];
      themes := map["light" := LightTheme, "dark" := DarkTheme, "ocean" := OceanTheme];
    }

    /** `getTheme(name)`: the registered theme, else the light theme. `None` stands for a
        name every object inherits (such as `"constructor"`), for which the inherited
        member comes back instead of a theme. Whatever theme it gives is a registered
        one. */
    function GetTheme(name: string): (t: Option<Theme>)
      requires Valid()
      reads this
      ensures t.Some? ==> t.value in themes.Values
      ensures t.None? <==> name !in themes && name in InheritedMembers
      ensures name in themes ==> t == Some(themes[name])
      ensures name !in themes && name !in InheritedMembers ==> t == Some(themes["light"])
      ensures name !in themes && name in InheritedMembers ==> t.None?
    {
      if name in themes then Some(themes[name])
      else if name in InheritedMembers then None
      else Some(themes["light"])
    }

    /** `registerTheme(key, spec)`: the key now holds the light theme overlaid by the
        spec; every other key keeps its theme, and a new key is listed last. */
    method RegisterTheme(key: string, spec: ThemeSpec)
      requires Valid()
      modifies this
      ensures Valid()
      ensures themes == old(themes)[key := Derive(old(themes)["light"], key, spec)]
      ensures keys == if key in old(themes) then old(keys) else old(keys) + [key]
      ensures GetTheme(key) == Some(Derive(old(themes)["light"], key, spec))
      ensures forall n :: n != key && n in old(themes) ==> GetTheme(n) == Some(old(themes)[n])
    {
      var t := Derive(themes["light"], key, spec);
      if key !in themes {
        assert key !in keys;
        assert NoDup(keys + [key]) by {
          forall i, j | 0 <= i < j < |keys| + 1 ensures (keys + [key])[i] != (keys + [key])[j] {
            if j == |keys| {
              assert (keys + [key])[i] == keys[i];
            }
          }
        }
        assert (set k | k in keys + [key]) == (set k | k in keys) + {key};
        keys := keys + [key];
      }
      themes := themes[key := t];
    }

    /** `getAvailableThemes()`: every key with its theme's display name, in
        `Object.keys` order. */
    function AvailableThemes(): (r: seq<(string, string)>)
      requires Valid()
      reads this
      ensures |r| == |keys|
      ensures forall i :: 0 <= i < |r| ==> r[i].0 in themes && r[i].1 == themes[r[i].0].name
      ensures forall i :: 0 <= i < |r| ==> r[i].0 == EntriesOrder(keys)[i]
    {
      var order := EntriesOrder(keys);
      EntriesOrderPermutation(keys);
      assert forall i :: 0 <= i < |order| ==> order[i] in multiset(keys);
      var ts := themes;
      seq(|order|, i requires 0 <= i < |order| => (order[i], ts[order[i]].name))
    }

    /** Each registered key is listed exactly once. */
    lemma AvailableThemesComplete()
      requires Valid()
      ensures forall k :: k in themes ==> exists i :: 0 <= i < |AvailableThemes()| && AvailableThemes()[i].0 == k
      ensures NoDup(Map(AvailableThemes(), KeyOf))
    {
      var order := EntriesOrder(keys);
      EntriesOrderPermutation(keys);
      PermutationNoDup(keys, order);
      assert Map(AvailableThemes(), KeyOf) == order;
      forall k | k in themes
        ensures exists i :: 0 <= i < |AvailableThemes()| && AvailableThemes()[i].0 == k
      {
        assert k in multiset(order);
        var i :| 0 <= i < |order| && order[i] == k;
        assert AvailableThemes()[i].0 == k;
      }
    }
  }

  function KeyOf(p: (string, string)): string
  {
    p.0
  }

  // ---------------------------------------------------------------------------------
  // CSS custom properties

  /** The variables one colour entry yields: one for a single colour, one per element,
      numbered from 0, for a series. */
  function ColourVarsOf(key: string, c: Colour): (r: Section)
  {
    match c
    case Single(v) => [("--dd-color-" + key, v)]
    case Series(vs) => seq(|vs|, i requires 0 <= i < |vs| => ("--dd-color-" + key + "-" + NatToString(i), vs[i]))
  }

  function Width(e: (string, Colour)): int
  {
    if e.1.Single? then 1 else |e.1.values|
  }

  function ColourVars(colors: Colours): Section
  {
    if |colors| == 0 then []
    else ColourVars(colors[..|colors| - 1]) + ColourVarsOf(colors[|colors| - 1].0, colors[|colors| - 1].1)
  }

  /** A colour entry yields exactly its own variables, in order, and the colours yield
      one variable per single colour plus one per series element. */
  lemma {:induction false} ColourVarsFacts(colors: Colours)
    ensures |ColourVars(colors)| == SumOf(colors, Width)
    ensures forall j, x :: 0 <= j < |colors| && x in ColourVarsOf(colors[j].0, colors[j].1) ==> x in ColourVars(colors)
  {
    if |colors| > 0 {
      var front := colors[..|colors| - 1];
      ColourVarsFacts(front);
      var last := colors[|colors| - 1];
      assert |ColourVarsOf(last.0, last.1)| == Width(last);
      forall j, x | 0 <= j < |colors| && x in ColourVarsOf(colors[j].0, colors[j].1)
        ensures x in ColourVars(colors)
      {
        if j < |colors| - 1 {
          assert colors[j] == front[j];
        }
      }
    }
  }

  /** The variables of a plain section, each name carrying the section's prefix. */
  function SectionVars(prefix: string, s: Section): Section
  {
    seq(|s|, i requires 0 <= i < |s| => (prefix + s[i].0, s[i].1))
  }

  /** Every assignment `_themeToCssVars` makes, in the order it makes them. */
  function CssAssignments(t: Theme): Section
  {
    ColourVars(t.colors) + SectionVars("--dd-typography-", t.typography) +
      SectionVars("--dd-spacing-", t.spacing) + SectionVars("--dd-border-radius-", t.borderRadius) +
      SectionVars("--dd-shadow-", t.shadows)
  }

  /** `obj[k] = v` on an object of strings: an existing name keeps its place. */
  function Assign(obj: Section, k: string, v: string): Section
  {
    if obj == [] then [(k, v)]
    else if obj[0].0 == k then [(k, v)] + obj[1..]
    else [obj[0]] + Assign(obj[1..], k, v)
  }

  /** The object the assignments build: a later assignment to a name overwrites an
      earlier one in place. */
  function Collapse(s: Section): Section
  {
    if |s| == 0 then [] else Assign(Collapse(s[..|s| - 1]), s[|s| - 1].0, s[|s| - 1].1)
  }

  /** `_themeToCssVars(theme)`. */
  function CssVars(t: Theme): Section
  {
    Collapse(CssAssignments(t))
  }

  /** Assigning a name the object does not hold adds it last. */
  lemma {:induction false} AssignNew(obj: Section, k: string, v: string)
    requires k !in Map(obj, KeyOf)
    ensures Assign(obj, k, v) == obj + [(k, v)]
  {
    if obj != [] {
      assert KeyOf(obj[0]) == Map(obj, KeyOf)[0];
      assert Map(obj[1..], KeyOf) == Map(obj, KeyOf)[1..];
      AssignNew(obj[1..], k, v);
      assert obj == [obj[0]] + obj[1..];
    }
  }

  /** When no name is assigned twice, the object holds exactly the assignments, in order. */
  lemma {:induction false} CollapseDistinct(s: Section)
    requires NoDup(Map(s, KeyOf))
    ensures Collapse(s) == s
  {
    if |s| > 0 {
      var front := s[..|s| - 1];
      var names := Map(s, KeyOf);
      assert Map(front, KeyOf) == names[..|s| - 1];
      CollapseDistinct(front);
      assert s[|s| - 1].0 !in Map(front, KeyOf) by {
        forall i | 0 <= i < |front| ensures Map(front, KeyOf)[i] != s[|s| - 1].0 {
          assert names[i] != names[|s| - 1];
        }
      }
      AssignNew(front, s[|s| - 1].0, s[|s| - 1].1);
      assert front + [s[|s| - 1]] == s;
    }
  }

  /** A plain section yields exactly one variable per entry, with the section's prefix. */
  lemma SectionVarsFacts(prefix: string, s: Section)
    ensures |SectionVars(prefix, s)| == |s|
    ensures forall i :: 0 <= i < |s| ==> SectionVars(prefix, s)[i] == (prefix + s[i].0, s[i].1)
    ensures NoDup(Map(s, KeyOf)) ==> NoDup(Map(SectionVars(prefix, s), KeyOf))
  {
    var names := Map(SectionVars(prefix, s), KeyOf);
    if NoDup(Map(s, KeyOf)) {
      forall i, j | 0 <= i < j < |s| ensures names[i] != names[j] {
        assert Map(s, KeyOf)[i] != Map(s, KeyOf)[j];
        assert names[i] == prefix + s[i].0 && names[j] == prefix + s[j].0;
        assert (prefix + s[i].0)[|prefix|..] == s[i].0;
        assert (prefix + s[j].0)[|prefix|..] == s[j].0;
      }
    }
  }

  /** The theme flattens to one variable per plain-section entry and one per colour or
      series element, in order, whenever the names it produces are all distinct. */
  lemma CssVarsCount(t: Theme)
    requires NoDup(Map(CssAssignments(t), KeyOf))
    ensures CssVars(t) == CssAssignments(t)
    ensures |CssVars(t)| == SumOf(t.colors, Width) + |t.typography| + |t.spacing| + |t.borderRadius| + |t.shadows|
  {
    CollapseDistinct(CssAssignments(t));
    ColourVarsFacts(t.colors);
  }
}
