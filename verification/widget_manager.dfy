/**
 * The widget runtime (widgets/widget-manager.tsx): a registry of live widget
 * instances keyed by container id. `Init` finds or creates the container,
 * attaches a shadow root, injects the style text and mounts a React root;
 * `Destroy` unmounts and removes the host; `UpdateConfig` re-renders with a
 * shallow-merged configuration.
 *
 * The host document is reduced to what these operations touch: the ids of
 * its elements, the elements that already carry a shadow root, the
 * containers appended to `document.body`, the React roots that are mounted,
 * every render call and every `onReady` call, in order.
 */
module WidgetManager {
  import opened Wrappers
  import opened Text
  import opened JsObject
  import DesignTokens

  /**
   * `WidgetConfig` (widgets/types.ts). Optional fields are `Option`s
   * (`None` is `undefined`); the four callbacks are kept only as present or
   * absent. `theme` and `position` are strings: the bootstrap script passes
   * whatever the host page wrote, and the manager has a fallback for names it
   * does not know.
   */
  datatype WidgetConfig = WidgetConfig(
    containerId: string,
    apiKey: string,
    apiEndpoint: Option<string>,
    theme: Option<string>,
    customStyles: Option<Entries>,
    buttonText: Option<string>,
    headerTitle: Option<string>,
    position: Option<string>,
    placeholder: Option<string>,
    initialExpanded: Option<bool>,
    onReady: bool,
    onMessage: bool,
    onExpand: bool,
    onCollapse: bool)

  /** `Partial<WidgetConfig>`: `Some` for every property the patch carries. */
  datatype ConfigPatch = ConfigPatch(
    containerId: Option<string>,
    apiKey: Option<string>,
    apiEndpoint: Option<string>,
    theme: Option<string>,
    customStyles: Option<Entries>,
    buttonText: Option<string>,
    headerTitle: Option<string>,
    position: Option<string>,
    placeholder: Option<string>,
    initialExpanded: Option<bool>,
    onReady: Option<bool>,
    onMessage: Option<bool>,
    onExpand: Option<bool>,
    onCollapse: Option<bool>)

  const EmptyPatch := ConfigPatch(None, None, None, None, None, None, None, None, None, None, None, None, None, None)

  function Pick<T>(patched: Option<T>, current: T): T {
    if patched.Some? then patched.value else current
  }

  function PickOpt<T>(patched: Option<T>, current: Option<T>): Option<T> {
    if patched.Some? then patched else current
  }

  /** `{ ...config, ...patch }`. */
  function MergeConfig(c: WidgetConfig, p: ConfigPatch): WidgetConfig {
    WidgetConfig(
      Pick(p.containerId, c.containerId),
      Pick(p.apiKey, c.apiKey),
      PickOpt(p.apiEndpoint, c.apiEndpoint),
      PickOpt(p.theme, c.theme),
      PickOpt(p.customStyles, c.customStyles),
      PickOpt(p.buttonText, c.buttonText),
      PickOpt(p.headerTitle, c.headerTitle),
      PickOpt(p.position, c.position),
      PickOpt(p.placeholder, c.placeholder),
      PickOpt(p.initialExpanded, c.initialExpanded),
      Pick(p.onReady, c.onReady),
      Pick(p.onMessage, c.onMessage),
      Pick(p.onExpand, c.onExpand),
      Pick(p.onCollapse, c.onCollapse))
  }

  /** The patch that carries every property of `c`. */
  function FullPatch(c: WidgetConfig): ConfigPatch {
    ConfigPatch(
      Some(c.containerId), Some(c.apiKey), c.apiEndpoint, c.theme, c.customStyles,
      c.buttonText, c.headerTitle, c.position, c.placeholder, c.initialExpanded,
      Some(c.onReady), Some(c.onMessage), Some(c.onExpand), Some(c.onCollapse))
  }

  /**
   * The merge changes exactly the patched properties: the empty patch is the
   * identity, applying a patch twice is applying it once, and a patch that
   * carries every property yields the configuration it was made from.
   */
  lemma MergeConfigLaws(c: WidgetConfig, p: ConfigPatch, d: WidgetConfig)
    ensures MergeConfig(c, EmptyPatch) == c
    ensures MergeConfig(MergeConfig(c, p), p) == MergeConfig(c, p)
    ensures MergeConfig(c, FullPatch(d)).containerId == d.containerId
    ensures d.apiEndpoint.Some? && d.theme.Some? && d.customStyles.Some? && d.buttonText.Some?
         && d.headerTitle.Some? && d.position.Some? && d.placeholder.Some? && d.initialExpanded.Some?
         ==> MergeConfig(c, FullPatch(d)) == d
  {
  }

  /** A patch touches only the properties it carries. */
  lemma MergeKeepsUnpatched(c: WidgetConfig, p: ConfigPatch)
    ensures p.theme.None? ==> MergeConfig(c, p).theme == c.theme
    ensures p.position.None? ==> MergeConfig(c, p).position == c.position
    ensures p.customStyles.None? ==> MergeConfig(c, p).customStyles == c.customStyles
    ensures p.containerId.None? ==> MergeConfig(c, p).containerId == c.containerId
    ensures p.apiKey.None? ==> MergeConfig(c, p).apiKey == c.apiKey
    ensures p.theme.Some? ==> MergeConfig(c, p).theme == p.theme
    ensures p.position.Some? ==> MergeConfig(c, p).position == p.position
  {
  }

  // Defaults of the destructuring at the top of `init`.
  function ThemeName(c: WidgetConfig): string { c.theme.GetOr("dark") }
  function PositionName(c: WidgetConfig): string { c.position.GetOr("bottom-right") }
  function CustomStyles(c: WidgetConfig): Entries { c.customStyles.GetOr([]) }

  /** The `positions` table of `getPositionStyles`. */
  const Positions: Entries := [
    Entry("bottom-right", "bottom: 20px; right: 20px;"),
    Entry("bottom-left", "bottom: 20px; left: 20px;"),
    Entry("top-right", "top: 20px; right: 20px;"),
    Entry("top-left", "top: 20px; left: 20px;"),
    Entry("center", "top: 50%; left: 50%; transform: translate(-50%, -50%);")
  ]

  /**
   * `getPositionStyles(position)`: the table's declarations for a known
   * position, the bottom-right ones for any other name.
   */
  function PositionStyles(position: string): (r: string)
    ensures Entry(position, r) in Positions || (position !in Keys(Positions) && r == "bottom: 20px; right: 20px;")
  {
    // Every value of the table is non-empty, so `positions[position] || ...`
    // falls back exactly when the name is not one of the table's own keys
    // (names inherited from `Object.prototype` are not modelled).
    match Lookup(Positions, position)
    case Some(v) => v
    case None => "bottom: 20px; right: 20px;"
  }

  /** The manager's inline `themes` table. */
  const InlineLight: Entries := [
    Entry("--widget-bg", "#ffffff"),
    Entry("--widget-text", "#000000"),
    Entry("--widget-primary", "#3b82f6"),
    Entry("--widget-border", "#e5e7eb")
  ]

  const InlineDark: Entries := [
    Entry("--widget-bg", "#1f2937"),
    Entry("--widget-text", "#ffffff"),
    Entry("--widget-primary", "#60a5fa"),
    Entry("--widget-border", "#374151")
  ]

  /** `themes[theme]`: only "light" and "dark" have an entry. */
  function InlineTheme(theme: string): Option<Entries> {
    if theme == "light" then Some(InlineLight)
    else if theme == "dark" then Some(InlineDark)
    else None
  }

  /**
   * `generateThemeStyles(theme, customStyles)`: the selected inline theme
   * (nothing for "custom" or an unknown name) with the custom styles spread
   * over it, serialised as a `:host` block.
   */
  function ThemeStyles(theme: string, custom: Entries): string {
    DesignTokens.HostBlock(Spread(InlineTheme(theme).GetOr([]), custom))
  }

  /** The inline table is the design-token presets, value for value and in the same order. */
  lemma InlineThemesArePresets()
    ensures InlineTheme("light") == DesignTokens.ThemePreset(DesignTokens.Light)
    ensures InlineTheme("dark") == DesignTokens.ThemePreset(DesignTokens.Dark)
  {
  }

  /**
   * For "light" and "dark" with overrides of the widget variables, the
   * manager's theme block is what the design-token helpers produce:
   * `tokensToHostCss(mergeThemeTokens(preset, customStyles))`.
   */
  lemma ThemeStylesAgreeWithTokens(theme: DesignTokens.WidgetTheme, custom: Entries)
    requires theme != DesignTokens.Custom
    requires DesignTokens.IsPartialTokenSet(custom)
    ensures ThemeStyles(if theme == DesignTokens.Light then "light" else "dark", custom)
         == DesignTokens.TokensToHostCss(DesignTokens.MergeThemeTokens(DesignTokens.ThemePreset(theme).value, Some(custom)))
  {
    InlineThemesArePresets();
  }

  /**
   * For "custom" or any name without an inline theme, the block holds only
   * the custom styles, each once and in their own order.
   */
  lemma {:induction false} ThemeStylesWithoutPreset(theme: string, custom: Entries)
    requires theme != "light" && theme != "dark"
    requires DistinctKeys(custom)
    ensures ThemeStyles(theme, custom) == DesignTokens.HostBlock(custom)
  {
    assert InlineTheme(theme).GetOr([]) == [];
    SpreadDisjoint([], custom);
    assert [] + custom == custom;
  }

  /**
   * Every property of the selected theme or of the custom styles is declared
   * in the theme block, with the custom value when it has one and the theme's
   * value otherwise.
   */
  lemma {:induction false} ThemeStylesDeclare(theme: string, custom: Entries, k: string)
    requires DistinctKeys(custom)
    requires k in Keys(InlineTheme(theme).GetOr([])) || k in Keys(custom)
    ensures var v := if k in Keys(custom) then Lookup(custom, k) else Lookup(InlineTheme(theme).GetOr([]), k);
      v.Some? && IsInfix(k + ": " + v.value + ";", ThemeStyles(theme, custom))
  {
    var base := InlineTheme(theme).GetOr([]);
    var merged := Spread(base, custom);
    LookupSpread(base, custom, k);
    var v := Lookup(merged, k).value;
    var i :| 0 <= i < |merged| && merged[i] == Entry(k, v);
    var ds := DesignTokens.Declarations(merged);
    assert ds[i] == k + ": " + v + ";";
    JoinHasParts(ds, "\n", i);
    InfixExtend(ds[i], ":host {\n", Join(ds, "\n"), "\n}");
  }

  const ResetOpen := "\n\n/* Reset and base styles for Shadow DOM host */\n:host {\n  all: initial;\n  display: block;\n  position: fixed;\n  "
  const ResetClose := "\n  z-index: 9999;\n  font-family: system-ui, -apple-system, sans-serif;\n}\n\n/* Custom theme styles */\n"

  /** The text of the injected `<style>` element. */
  function StyleText(widgetCss: string, position: string, theme: string, custom: Entries): string {
    "\n" + widgetCss + ResetOpen + PositionStyles(position) + ResetClose + ThemeStyles(theme, custom) + "\n"
  }

  /** The pieces of a seven-part concatenation at odd positions occur in it. */
  lemma {:induction false} SevenParts(a: string, b: string, c: string, d: string, e: string, f: string, g: string)
    ensures IsInfix(b, a + b + c + d + e + f + g)
    ensures IsInfix(d, a + b + c + d + e + f + g)
    ensures IsInfix(f, a + b + c + d + e + f + g)
  {
    var s := a + b + c + d + e + f + g;
    assert s[|a|..|a| + |b|] == b;
    assert OccursAt(b, s, |a|);
    assert s[|a + b + c|..|a + b + c| + |d|] == d;
    assert OccursAt(d, s, |a + b + c|);
    assert s[|a + b + c + d + e|..|a + b + c + d + e| + |f|] == f;
    assert OccursAt(f, s, |a + b + c + d + e|);
  }

  /**
   * The style text carries the widget stylesheet, the position declarations
   * and the theme block.
   */
  lemma StyleTextParts(widgetCss: string, position: string, theme: string, custom: Entries)
    ensures IsInfix(widgetCss, StyleText(widgetCss, position, theme, custom))
    ensures IsInfix(PositionStyles(position), StyleText(widgetCss, position, theme, custom))
    ensures IsInfix(ThemeStyles(theme, custom), StyleText(widgetCss, position, theme, custom))
  {
    SevenParts("\n", widgetCss, ResetOpen, PositionStyles(position), ResetClose, ThemeStyles(theme, custom), "\n");
  }

  /** The style text `init` injects for a configuration, with its defaults applied. */
  function InitialStyle(widgetCss: string, c: WidgetConfig): string {
    StyleText(widgetCss, PositionName(c), ThemeName(c), CustomStyles(c))
  }

  /** The style a configuration gets: its position and theme declarations, and its custom values. */
  lemma StyleDeclares(widgetCss: string, c: WidgetConfig, k: string)
    requires DistinctKeys(CustomStyles(c))
    requires k in Keys(InlineTheme(ThemeName(c)).GetOr([])) || k in Keys(CustomStyles(c))
    ensures var s := StyleText(widgetCss, PositionName(c), ThemeName(c), CustomStyles(c));
      var v := if k in Keys(CustomStyles(c)) then Lookup(CustomStyles(c), k) else Lookup(InlineTheme(ThemeName(c)).GetOr([]), k);
      && IsInfix(PositionStyles(PositionName(c)), s)
      && v.Some? && IsInfix(k + ": " + v.value + ";", s)
  {
    var s := StyleText(widgetCss, PositionName(c), ThemeName(c), CustomStyles(c));
    StyleTextParts(widgetCss, PositionName(c), ThemeName(c), CustomStyles(c));
    ThemeStylesDeclare(ThemeName(c), CustomStyles(c), k);
    var v := if k in Keys(CustomStyles(c)) then Lookup(CustomStyles(c), k) else Lookup(InlineTheme(ThemeName(c)).GetOr([]), k);
    InfixTrans(k + ": " + v.value + ";", ThemeStyles(ThemeName(c), CustomStyles(c)), s);
  }

  /**
   * `WidgetInstance`: the React root's handle, the configuration the
   * shadow root's style element was generated from (`InitialStyle` of it is
   * the injected text) and the current configuration.
   */
  datatype Instance = Instance(root: nat, styledWith: WidgetConfig, config: WidgetConfig)

  /** One `root.render(<FloatingWidget config=... />)` call. */
  datatype Render = Render(root: nat, config: WidgetConfig)

  class Manager {
    /** The bundled widget stylesheet (`widgetStyles`). */
    const widgetCss: string
    var instances: map<string, Instance>
    /** Ids of the elements in the host document. */
    var elements: set<string>
    /** Ids of the elements that carry a shadow root. */
    var shadowHosts: set<string>
    /** Containers appended to `document.body`, in order. */
    var bodyAppends: seq<string>
    /** React roots currently mounted. */
    var mounted: set<nat>
    var nextRoot: nat
    var renders: seq<Render>
    /** Container ids whose `onReady` was called, in call order. */
    var readyCalls: seq<string>

    /** The text of the style element in `containerId`'s shadow root. */
    function StyleOf(containerId: string): (s: string)
      reads this
      requires containerId in instances
      ensures IsInfix(widgetCss, s)
    {
      var c := instances[containerId].styledWith;
      StyleTextParts(widgetCss, PositionName(c), ThemeName(c), CustomStyles(c));
      InitialStyle(widgetCss, c)
    }

    /**
     * Every registered id names an element of the document that carries the
     * shadow root the manager attached, and owns its own mounted React root.
     */
    ghost predicate Valid()
      reads this
    {
      && shadowHosts <= elements
      && instances.Keys <= shadowHosts
      && (forall id :: id in instances ==> instances[id].root in mounted)
      && (forall r :: r in mounted ==> r < nextRoot)
      && (forall a, b :: a in instances && b in instances && a != b ==> instances[a].root != instances[b].root)
    }

    /** A manager over a page with the given elements, some of which already have a shadow root. */
    constructor (widgetCss: string, pageElements: set<string>, pageShadowHosts: set<string>)
      requires pageShadowHosts <= pageElements
      ensures Valid()
      ensures this.widgetCss == widgetCss && instances == map[]
      ensures elements == pageElements && shadowHosts == pageShadowHosts
      ensures bodyAppends == [] && mounted == {} && renders == [] && readyCalls == []
    {
      this.widgetCss := widgetCss;
      instances := map[];
      elements := pageElements;
      shadowHosts := pageShadowHosts;
      bodyAppends := [];
      mounted := {};
      nextRoot := 0;
      renders := [];
      readyCalls := [];
    }

    /**
     * `init(config)`. The container must not carry a shadow root yet (a
     * second `attachShadow` is rejected by the browser); in particular the id
     * is not registered. The container is found or created and appended to
     * the body, the instance is registered with a fresh root and a style
     * generated from this configuration's defaults, and `onReady` is called
     * once, after registration.
     */
    method Init(config: WidgetConfig)
      requires Valid()
      requires config.containerId !in shadowHosts
      modifies this
      ensures Valid()
      ensures config.containerId !in old(instances)
      ensures instances == old(instances)[config.containerId := Instance(old(nextRoot), config, config)]
      ensures old(nextRoot) !in old(mounted) && mounted == old(mounted) + {old(nextRoot)}
      ensures renders == old(renders) + [Render(old(nextRoot), config)]
      ensures elements == old(elements) + {config.containerId} && shadowHosts == old(shadowHosts) + {config.containerId}
      ensures bodyAppends == if config.containerId in old(elements) then old(bodyAppends) else old(bodyAppends) + [config.containerId]
      ensures readyCalls == if config.onReady then old(readyCalls) + [config.containerId] else old(readyCalls)
    {
      var id := config.containerId;
      var inst := Instance(nextRoot, config, config);
      assert forall other :: other in instances ==> instances[other].root < inst.root;
      if id !in elements {
        elements := elements + {id};
        bodyAppends := bodyAppends + [id];
      }
      shadowHosts := shadowHosts + {id};
      nextRoot := nextRoot + 1;
      mounted := mounted + {inst.root};
      renders := renders + [Render(inst.root, config)];
      instances := instances[id := inst];
      if config.onReady {
        readyCalls := readyCalls + [id];
      }
    }

    /**
     * `destroy(containerId)`: unmounts the instance's root, removes its host
     * element and forgets it; an unknown id changes nothing.
     */
    method Destroy(containerId: string)
      requires Valid()
      modifies this
      ensures Valid()
      ensures containerId !in old(instances) ==> unchanged(this)
      ensures containerId in old(instances) ==>
        && instances == old(instances) - {containerId}
        && mounted == old(mounted) - {old(instances[containerId].root)}
        && elements == old(elements) - {containerId}
        && shadowHosts == old(shadowHosts) - {containerId}
        && bodyAppends == old(bodyAppends) && renders == old(renders) && readyCalls == old(readyCalls)
    {
      if containerId in instances {
        var inst := instances[containerId];
        mounted := mounted - {inst.root};
        elements := elements - {containerId};
        shadowHosts := shadowHosts - {containerId};
        instances := instances - {containerId};
      }
    }

    /**
     * `updateConfig(containerId, patch)`: re-renders the instance with
     * `{ ...config, ...patch }` and stores that configuration. The injected
     * style text is not regenerated. An unknown id changes nothing.
     */
    method UpdateConfig(containerId: string, patch: ConfigPatch)
      requires Valid()
      modifies this
      ensures Valid()
      ensures containerId !in old(instances) ==> unchanged(this)
      ensures containerId in old(instances) ==>
        var inst := old(instances[containerId]);
        && instances == old(instances)[containerId := inst.(config := MergeConfig(inst.config, patch))]
        && renders == old(renders) + [Render(inst.root, MergeConfig(inst.config, patch))]
        && elements == old(elements) && shadowHosts == old(shadowHosts) && mounted == old(mounted)
        && bodyAppends == old(bodyAppends) && readyCalls == old(readyCalls)
    {
      if containerId in instances {
        var inst := instances[containerId];
        var updated := MergeConfig(inst.config, patch);
        renders := renders + [Render(inst.root, updated)];
        instances := instances[containerId := inst.(config := updated)];
      }
    }
  }

  /**
   * Two widgets with different container ids are independent: destroying
   * one leaves the other registered with the same root, style and
   * configuration, and its root still mounted.
   */
  method TwoWidgets(m: Manager, a: WidgetConfig, b: WidgetConfig)
    requires m.Valid()
    requires a.containerId != b.containerId
    requires a.containerId !in m.shadowHosts && b.containerId !in m.shadowHosts
    modifies m
    ensures m.Valid()
    ensures a.containerId !in m.instances && b.containerId in m.instances
    ensures m.instances[b.containerId].config == b && m.instances[b.containerId].root in m.mounted
  {
    m.Init(a);
    m.Init(b);
    var kept := m.instances[b.containerId];
    m.Destroy(a.containerId);
    assert m.instances[b.containerId] == kept;
  }
}
