/**
 * Widget design tokens (widgets/design-tokens.ts): the four CSS custom
 * properties of the widget's shadow root, the light and dark presets, the
 * override merge and the `:host { ... }` serialiser. The serialiser is also
 * the one the widget manager uses for its inline theme table.
 */
module DesignTokens {
  import opened Wrappers
  import opened Text
  import opened JsObject

  /** `widgetCssVariables`, in declaration order. */
  const WidgetCssVariables: seq<string> :=
    ["--widget-bg", "--widget-text", "--widget-primary", "--widget-border"]

  datatype WidgetTheme = Light | Dark | Custom

  /** `widgetThemePresets.light`. */
  const LightPreset: Entries := [
    Entry("--widget-bg", "#ffffff"),
    Entry("--widget-text", "#000000"),
    Entry("--widget-primary", "#3b82f6"),
    Entry("--widget-border", "#e5e7eb")
  ]

  /** `widgetThemePresets.dark`. */
  const DarkPreset: Entries := [
    Entry("--widget-bg", "#1f2937"),
    Entry("--widget-text", "#ffffff"),
    Entry("--widget-primary", "#60a5fa"),
    Entry("--widget-border", "#374151")
  ]

  /** `widgetThemePresets[theme]`; "custom" has no preset. */
  function ThemePreset(theme: WidgetTheme): (r: Option<Entries>)
    ensures r.Some? <==> theme != Custom
    ensures r.Some? ==> IsTokenSet(r.value) && Keys(r.value) == WidgetCssVariables && NoNewline(r.value)
  {
    PresetsAreTokenSets();
    PresetsHaveNoNewline();
    match theme
    case Light => Some(LightPreset)
    case Dark => Some(DarkPreset)
    case Custom => None
  }

  /** A `WidgetThemeTokens` value: exactly the four widget variables, each once. */
  predicate IsTokenSet(e: Entries) {
    && DistinctKeys(e)
    && (forall i :: 0 <= i < |e| ==> e[i].key in WidgetCssVariables)
    && (forall i :: 0 <= i < |WidgetCssVariables| ==> WidgetCssVariables[i] in Keys(e))
  }

  /** A `Partial<WidgetThemeTokens>` value: some of the four variables, each at most once. */
  predicate IsPartialTokenSet(e: Entries) {
    && DistinctKeys(e)
    && forall i :: 0 <= i < |e| ==> e[i].key in WidgetCssVariables
  }

  lemma WidgetCssVariablesDistinct()
    ensures |WidgetCssVariables| == 4
    ensures forall i, j :: 0 <= i < j < 4 ==> WidgetCssVariables[i] != WidgetCssVariables[j]
  {
  }

  /** Both presets define all four variables, each once, in declaration order. */
  lemma PresetsAreTokenSets()
    ensures IsTokenSet(LightPreset) && Keys(LightPreset) == WidgetCssVariables
    ensures IsTokenSet(DarkPreset) && Keys(DarkPreset) == WidgetCssVariables
  {
    FourTokens("#ffffff", "#000000", "#3b82f6", "#e5e7eb");
    FourTokens("#1f2937", "#ffffff", "#60a5fa", "#374151");
  }

  /** The four variables in declaration order, with any values, make a token set. */
  lemma FourTokens(v0: string, v1: string, v2: string, v3: string)
    ensures var w := WidgetCssVariables;
      var e := [Entry(w[0], v0), Entry(w[1], v1), Entry(w[2], v2), Entry(w[3], v3)];
      IsTokenSet(e) && Keys(e) == w
  {
    WidgetCssVariablesDistinct();
    var w := WidgetCssVariables;
    var e := [Entry(w[0], v0), Entry(w[1], v1), Entry(w[2], v2), Entry(w[3], v3)];
    assert Keys(e) == w;
  }

  /**
   * `mergeThemeTokens(base, overrides)`: `{ ...base, ...(overrides || {}) }`.
   * The result is a full token set with `base`'s property order; every
   * overridden variable takes the override and every other keeps `base`'s value.
   */
  function MergeThemeTokens(base: Entries, overrides: Option<Entries>): (r: Entries)
    requires IsTokenSet(base)
    requires overrides.Some? ==> IsPartialTokenSet(overrides.value)
    ensures IsTokenSet(r)
    ensures Keys(r) == Keys(base)
    ensures forall k :: Lookup(r, k) == (if overrides.Some? && k in Keys(overrides.value) then Lookup(overrides.value, k) else Lookup(base, k))
    ensures overrides.None? ==> r == base
  {
    var o := overrides.GetOr([]);
    KeysSpreadOverridesOnly(base, o);
    SpreadKeepsDistinct(base, o);
    forall k ensures Lookup(Spread(base, o), k) == if k in Keys(o) then Lookup(o, k) else Lookup(base, k) {
      LookupSpread(base, o, k);
    }
    Spread(base, o)
  }

  /** One CSS declaration line, `key: value;`. */
  function Declaration(e: Entry): string {
    e.key + ": " + e.value + ";"
  }

  /** `Object.entries(obj).map(([key, value]) => `${key}: ${value};`)`. */
  function Declarations(e: Entries): (ds: seq<string>)
    ensures |ds| == |e|
    ensures forall i :: 0 <= i < |e| ==> ds[i] == Declaration(e[i])
  {
    if e == [] then [] else [Declaration(e[0])] + Declarations(e[1..])
  }

  /** `:host {\n${declarations.join("\n")}\n}`. */
  function HostBlock(e: Entries): string {
    ":host {\n" + Join(Declarations(e), "\n") + "\n}"
  }

  /** `tokensToHostCss(tokens)`. */
  function TokensToHostCss(tokens: Entries): string
    requires IsTokenSet(tokens)
  {
    HostBlock(tokens)
  }

  predicate NoNewline(e: Entries) {
    forall x :: x in e ==> '\n' !in x.key && '\n' !in x.value
  }

  /**
   * Read back line by line, a non-empty host block is the `:host {` opener,
   * one `key: value;` line per property in property order, and the closing
   * brace.
   */
  lemma {:induction false} HostBlockLines(e: Entries)
    requires |e| >= 1 && NoNewline(e)
    ensures Split(HostBlock(e), '\n') == [":host {"] + Declarations(e) + ["}"]
  {
    var ds := Declarations(e);
    var lines := [":host {"] + ds + ["}"];
    JoinAround(":host {", ds, "}", "\n");
    assert HostBlock(e) == Join(lines, "\n");
    forall i | 0 <= i < |lines| ensures '\n' !in lines[i] {
      if 1 <= i <= |ds| {
        assert e[i - 1] in e;
        assert lines[i] == Declaration(e[i - 1]);
      }
    }
    SplitJoin(lines, '\n');
  }

  lemma {:induction false} JoinAround(first: string, mid: seq<string>, last: string, sep: string)
    requires |mid| >= 1
    ensures Join([first] + mid + [last], sep) == first + sep + Join(mid, sep) + sep + last
  {
    assert ([first] + mid + [last])[1..] == mid + [last];
    JoinSnoc(mid, last, sep);
  }

  lemma {:induction false} JoinSnoc(parts: seq<string>, last: string, sep: string)
    requires |parts| >= 1
    ensures Join(parts + [last], sep) == Join(parts, sep) + sep + last
  {
    if |parts| > 1 {
      assert (parts + [last])[1..] == parts[1..] + [last];
      JoinSnoc(parts[1..], last, sep);
    }
  }

  /**
   * The block injected for a preset theme, with or without overrides, has
   * exactly four declaration lines, one per widget variable, in declaration order.
   */
  lemma PresetCssLines(theme: WidgetTheme, overrides: Option<Entries>)
    requires theme != Custom
    requires overrides.Some? ==> IsPartialTokenSet(overrides.value) && NoNewline(overrides.value)
    ensures var tokens := MergeThemeTokens(ThemePreset(theme).value, overrides);
      && Split(TokensToHostCss(tokens), '\n') == [":host {"] + Declarations(tokens) + ["}"]
      && |Declarations(tokens)| == 4
      && forall i :: 0 <= i < 4 ==> Keys(tokens)[i] == WidgetCssVariables[i]
  {
    var base := ThemePreset(theme).value;
    var tokens := MergeThemeTokens(base, overrides);
    SpreadEntriesFrom(base, overrides.GetOr([]));
    assert NoNewline(tokens);
    HostBlockLines(tokens);
    assert Keys(tokens) == WidgetCssVariables;
  }

  lemma PresetsHaveNoNewline()
    ensures NoNewline(LightPreset) && NoNewline(DarkPreset)
  {
    LightPresetNoNewline();
    DarkPresetNoNewline();
  }

  lemma LightPresetNoNewline()
    ensures NoNewline(LightPreset)
  {
    var k0, k1, k2, k3 := "--widget-bg", "--widget-text", "--widget-primary", "--widget-border";
    var v0, v1, v2, v3 := "#ffffff", "#000000", "#3b82f6", "#e5e7eb";
    NewlineFreeEntries(k0, v0, k1, v1, k2, v2, k3, v3);
    assert LightPreset == [Entry(k0, v0), Entry(k1, v1), Entry(k2, v2), Entry(k3, v3)];
  }

  lemma DarkPresetNoNewline()
    ensures NoNewline(DarkPreset)
  {
    var k0, k1, k2, k3 := "--widget-bg", "--widget-text", "--widget-primary", "--widget-border";
    var v0, v1, v2, v3 := "#1f2937", "#ffffff", "#60a5fa", "#374151";
    NewlineFreeEntries(k0, v0, k1, v1, k2, v2, k3, v3);
    assert DarkPreset == [Entry(k0, v0), Entry(k1, v1), Entry(k2, v2), Entry(k3, v3)];
  }

  /** Four entries built from newline-free keys and values have no newline. */
  lemma NewlineFreeEntries(k0: string, v0: string, k1: string, v1: string, k2: string, v2: string, k3: string, v3: string)
    requires '\n' !in k0 && '\n' !in v0 && '\n' !in k1 && '\n' !in v1
    requires '\n' !in k2 && '\n' !in v2 && '\n' !in k3 && '\n' !in v3
    ensures NoNewline([Entry(k0, v0), Entry(k1, v1), Entry(k2, v2), Entry(k3, v3)])
  {
  }

  lemma {:induction false} LookupDistinct(e: Entries, i: nat)
    requires DistinctKeys(e) && i < |e|
    ensures Lookup(e, e[i].key) == Some(e[i].value)
  {
    if i > 0 {
      assert e[0].key != e[i].key;
      LookupDistinct(e[1..], i - 1);
    }
  }
}
