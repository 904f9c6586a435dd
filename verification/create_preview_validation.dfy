/**
 * The request validator of the preview endpoint
 * (app/api/create-preview/validation.ts): the schema's rules, the issues
 * it reports, the parse that succeeds exactly when every rule holds, and the
 * formatter that renders the issues on one line.
 *
 * A body is a map from key to value; keys outside the schema are dropped by
 * the parse and play no part. A value is a string or something else (a
 * number, `null`, an object...), named by its JSON type. URL parsing is the
 * parameter `isUrl`.
 */
module CreatePreviewValidation {
  import opened Wrappers
  import opened Text
  import opened GistKinds
  import Generator

  datatype Value = Str(s: string) | NonString(typeName: string)

  type Body = map<string, Value>

  /**
   * The parsed JSON handed to the validator: an object, or any other JSON
   * value named by the type zod reports for it (`null`, `array`, `string`...).
   */
  datatype Json = JsonObject(fields: Body) | JsonOther(typeName: string)

  /** A problem found by the parse: the key it is about, and its message. */
  datatype Issue = Issue(path: seq<string>, message: string)

  /** `CreatePreviewRequest`: the body once it passed the parse. */
  datatype CreatePreviewRequest = CreatePreviewRequest(
    gistType: GistType,
    title: string,
    slug: string,
    goal: Goal,
    audience: Audience,
    vibe: Vibe,
    sourceUrl: string,
    userId: string,
    heroStyle: Option<HeroStyle>,
    ctaPlacement: Option<string>)

  const TypeOptions := ["person", "product", "place"]
  const GoalOptions := ["book", "buy", "waitlist"]
  const AudienceOptions := ["prospects", "fans", "investors"]
  const VibeOptions := ["friendly", "professional", "bold"]
  const HeroStyleOptions := ["image", "video", "gradient"]

  /** The schema's keys, in its order. */
  const SchemaKeys := ["type", "title", "slug", "goal", "audience", "vibe", "source_url", "userId", "hero_style", "cta_placement"]

  /** `'a' | 'b' | 'c'`: how the enum options are listed in a message. */
  function Quoted(options: seq<string>): string {
    Join(QuoteEach(options), " | ")
  }

  function QuoteEach(options: seq<string>): (r: seq<string>)
    ensures |r| == |options|
    ensures forall i :: 0 <= i < |options| ==> r[i] == "'" + options[i] + "'"
  {
    if options == [] then [] else ["'" + options[0] + "'"] + QuoteEach(options[1..])
  }

  /** A required value that is missing or of the wrong type: the one issue its key gets. */
  function TypeIssue(key: string, expected: string, v: Option<Value>): Issue
    requires v.None? || v.value.NonString?
  {
    if v.None? then Issue([key], "Required")
    else Issue([key], "Expected " + expected + ", received " + v.value.typeName)
  }

  /** The issues of a required enum (`z.enum(options)`). */
  function EnumIssues(key: string, options: seq<string>, v: Option<Value>): (r: seq<Issue>)
    ensures r == [] <==> v.Some? && v.value.Str? && v.value.s in options
    ensures |r| <= 1 && forall x :: x in r ==> x.path == [key]
  {
    if v.None? || v.value.NonString? then [TypeIssue(key, Quoted(options), v)]
    else if v.value.s in options then []
    else [Issue([key], "Invalid enum value. Expected " + Quoted(options) + ", received '" + v.value.s + "'")]
  }

  /** The issues of a required string: a type issue, or the messages of the checks it fails on. */
  function StringIssues(key: string, v: Option<Value>, failed: string -> seq<string>): (r: seq<Issue>)
    ensures v.Some? && v.value.Str? ==> (r == [] <==> failed(v.value.s) == [])
    ensures v.None? || v.value.NonString? ==> |r| == 1
    ensures forall x :: x in r ==> x.path == [key]
  {
    if v.None? || v.value.NonString? then [TypeIssue(key, "string", v)]
    else AtKey(key, failed(v.value.s))
  }

  function AtKey(key: string, messages: seq<string>): (r: seq<Issue>)
    ensures |r| == |messages|
    ensures forall i :: 0 <= i < |r| ==> r[i] == Issue([key], messages[i])
  {
    if messages == [] then [] else [Issue([key], messages[0])] + AtKey(key, messages[1..])
  }

  function If(cond: bool, message: string): seq<string> {
    if cond then [message] else []
  }

  /** The checks of `title`: `.min(1, ...)` then `.max(100, ...)`. */
  function TitleChecks(s: string): (r: seq<string>)
    ensures r == [] <==> 1 <= |s| <= 100
  {
    If(|s| < 1, "Title is required") + If(|s| > 100, "Title must be 100 characters or less")
  }

  /** The checks of `slug`: length 1..100, then `/^[a-z0-9-]+$/`; every failing check reports. */
  function SlugChecks(s: string): (r: seq<string>)
    ensures r == [] <==> 1 <= |s| <= 100 && Generator.MatchesSlugPattern(s)
  {
    If(|s| < 1, "Slug is required")
      + If(|s| > 100, "Slug must be 100 characters or less")
      + If(!Generator.MatchesSlugPattern(s), "Slug must contain only lowercase letters, numbers, and hyphens")
  }

  /** The checks of `source_url`: `.url(...)` then `.max(500, ...)`. */
  function SourceUrlChecks(isUrl: string -> bool): string -> seq<string> {
    s => If(!isUrl(s), "Source URL must be a valid URL") + If(|s| > 500, "URL must be 500 characters or less")
  }

  function UserIdChecks(s: string): (r: seq<string>)
    ensures r == [] <==> |s| >= 1
  {
    If(|s| < 1, "User ID is required")
  }

  function NoChecks(s: string): (r: seq<string>)
    ensures r == []
  {
    []
  }

  function Get(body: Body, key: string): Option<Value> {
    if key in body then Some(body[key]) else None
  }

  /** An optional value: no issue when absent, the required value's issues otherwise. */
  function Optional(v: Option<Value>, present: seq<Issue>): seq<Issue> {
    if v.None? then [] else present
  }

  /** The rule of one key of the schema, stated on its own. */
  predicate KeyRule(body: Body, isUrl: string -> bool, key: string) {
    if key == "type" then HasString(body, key) && body[key].s in TypeOptions
    else if key == "title" then HasString(body, key) && 1 <= |body[key].s| <= 100
    else if key == "slug" then HasString(body, key) && 1 <= |body[key].s| <= 100 && Generator.MatchesSlugPattern(body[key].s)
    else if key == "goal" then HasString(body, key) && body[key].s in GoalOptions
    else if key == "audience" then HasString(body, key) && body[key].s in AudienceOptions
    else if key == "vibe" then HasString(body, key) && body[key].s in VibeOptions
    else if key == "source_url" then HasString(body, key) && isUrl(body[key].s) && |body[key].s| <= 500
    else if key == "userId" then HasString(body, key) && |body[key].s| >= 1
    else if key == "hero_style" then key in body ==> HasString(body, key) && body[key].s in HeroStyleOptions
    else if key == "cta_placement" then key in body ==> HasString(body, key)
    else true
  }

  /** The string under `key`, when there is one. */
  predicate HasString(body: Body, key: string) {
    key in body && body[key].Str?
  }

  /** The issues the parse reports for one key: none exactly when its rule holds. */
  function KeyIssues(body: Body, isUrl: string -> bool, key: string): (r: seq<Issue>)
    ensures forall x :: x in r ==> x.path == [key]
    ensures r == [] <==> KeyRule(body, isUrl, key)
  {
    var v := Get(body, key);
    if key == "type" then EnumIssues(key, TypeOptions, v)
    else if key == "title" then StringIssues(key, v, TitleChecks)
    else if key == "slug" then StringIssues(key, v, SlugChecks)
    else if key == "goal" then EnumIssues(key, GoalOptions, v)
    else if key == "audience" then EnumIssues(key, AudienceOptions, v)
    else if key == "vibe" then EnumIssues(key, VibeOptions, v)
    else if key == "source_url" then
      assert v.Some? && v.value.Str? ==>
        (SourceUrlChecks(isUrl)(v.value.s) == [] <==> isUrl(v.value.s) && |v.value.s| <= 500);
      StringIssues(key, v, SourceUrlChecks(isUrl))
    else if key == "userId" then StringIssues(key, v, UserIdChecks)
    else if key == "hero_style" then Optional(v, EnumIssues(key, HeroStyleOptions, v))
    else if key == "cta_placement" then Optional(v, StringIssues(key, v, NoChecks))
    else []
  }

  /** The issues of `keys`, key by key. */
  function IssuesFor(body: Body, isUrl: string -> bool, keys: seq<string>): (r: seq<Issue>)
    ensures forall x :: x in r ==> |x.path| == 1 && x.path[0] in keys
    ensures r == [] <==> forall k :: k in keys ==> KeyRule(body, isUrl, k)
  {
    if keys == [] then []
    else
      var here := KeyIssues(body, isUrl, keys[0]);
      var rest := IssuesFor(body, isUrl, keys[1..]);
      assert forall k :: k in keys <==> k == keys[0] || k in keys[1..];
      here + rest
  }

  /** Every issue of the body, in the schema's key order. */
  function Issues(body: Body, isUrl: string -> bool): (r: seq<Issue>)
    ensures forall x :: x in r ==> |x.path| == 1 && x.path[0] in SchemaKeys
    ensures r == [] <==> RulesHold(body, isUrl)
  {
    IssuesFor(body, isUrl, SchemaKeys)
  }

  /** The schema's rules: each key's. */
  predicate RulesHold(body: Body, isUrl: string -> bool) {
    forall k :: k in SchemaKeys ==> KeyRule(body, isUrl, k)
  }

  /** What the rules say about each field, spelled out. */
  lemma {:induction false} RulesSpelledOut(body: Body, isUrl: string -> bool)
    requires RulesHold(body, isUrl)
    ensures HasString(body, "type") && body["type"].s in TypeOptions
    ensures HasString(body, "title") && 1 <= |body["title"].s| <= 100
    ensures HasString(body, "slug") && 1 <= |body["slug"].s| <= 100 && Generator.MatchesSlugPattern(body["slug"].s)
    ensures HasString(body, "goal") && body["goal"].s in GoalOptions
    ensures HasString(body, "audience") && body["audience"].s in AudienceOptions
    ensures HasString(body, "vibe") && body["vibe"].s in VibeOptions
    ensures HasString(body, "source_url") && isUrl(body["source_url"].s) && |body["source_url"].s| <= 500
    ensures HasString(body, "userId") && |body["userId"].s| >= 1
    ensures "hero_style" in body ==> HasString(body, "hero_style") && body["hero_style"].s in HeroStyleOptions
    ensures "cta_placement" in body ==> HasString(body, "cta_placement")
  {
    assert KeyRule(body, isUrl, SchemaKeys[0]) && KeyRule(body, isUrl, SchemaKeys[1]);
    assert KeyRule(body, isUrl, SchemaKeys[2]) && KeyRule(body, isUrl, SchemaKeys[3]);
    assert KeyRule(body, isUrl, SchemaKeys[4]) && KeyRule(body, isUrl, SchemaKeys[5]);
    assert KeyRule(body, isUrl, SchemaKeys[6]) && KeyRule(body, isUrl, SchemaKeys[7]);
    assert KeyRule(body, isUrl, SchemaKeys[8]) && KeyRule(body, isUrl, SchemaKeys[9]);
  }

  /** The converse: a body with every field as the rules want it keeps the rules. */
  lemma RulesFromFields(body: Body, isUrl: string -> bool)
    requires HasString(body, "type") && body["type"].s in TypeOptions
    requires HasString(body, "title") && 1 <= |body["title"].s| <= 100
    requires HasString(body, "slug") && 1 <= |body["slug"].s| <= 100 && Generator.MatchesSlugPattern(body["slug"].s)
    requires HasString(body, "goal") && body["goal"].s in GoalOptions
    requires HasString(body, "audience") && body["audience"].s in AudienceOptions
    requires HasString(body, "vibe") && body["vibe"].s in VibeOptions
    requires HasString(body, "source_url") && isUrl(body["source_url"].s) && |body["source_url"].s| <= 500
    requires HasString(body, "userId") && |body["userId"].s| >= 1
    requires "hero_style" in body ==> HasString(body, "hero_style") && body["hero_style"].s in HeroStyleOptions
    requires "cta_placement" in body ==> HasString(body, "cta_placement")
    ensures RulesHold(body, isUrl)
  {
    forall k | k in SchemaKeys ensures KeyRule(body, isUrl, k) {
      var i :| 0 <= i < |SchemaKeys| && SchemaKeys[i] == k;
    }
  }

  /** `.optional()` on a string: absent is `undefined`. */
  function OptionalString(body: Body, key: string): (r: Option<string>)
    requires key in body ==> HasString(body, key)
    ensures r.Some? <==> key in body
    ensures r.Some? ==> r.value == body[key].s
  {
    if key in body then Some(body[key].s) else None
  }

  /**
   * `validateCreatePreviewRequest(body)`: a value that is not an object fails
   * with the one issue `Expected object, received <type>` at the empty path.
   * An object gives the parsed request when every rule holds (each field as
   * sent, the enums read as their values), and the thrown error with all the
   * issues otherwise.
   */
  function ValidateCreatePreviewRequest(json: Json, isUrl: string -> bool): (r: Result<CreatePreviewRequest, seq<Issue>>)
    ensures json.JsonOther? ==> r == Failure([Issue([], "Expected object, received " + json.typeName)])
    ensures r.Success? <==> json.JsonObject? && RulesHold(json.fields, isUrl)
    ensures json.JsonObject? && r.Failure? ==> r.error == Issues(json.fields, isUrl) && r.error != []
    ensures r.Success? ==> ReadFrom(json.fields, r.value)
  {
    match json
    case JsonOther(t) => Failure([Issue([], "Expected object, received " + t)])
    case JsonObject(body) =>
      var issues := Issues(body, isUrl);
      if issues != [] then Failure(issues) else Success(Parsed(body, isUrl))
  }

  /** `body` holds the string `s` under `key`. */
  predicate StringAt(body: Body, key: string, s: string) {
    key in body && body[key] == Str(s)
  }

  /**
   * Each field of the request is the string sent under its key (an enum as
   * the value of that name); an optional field is present exactly when its
   * key is.
   */
  predicate ReadFrom(body: Body, r: CreatePreviewRequest) {
    && StringAt(body, "type", TypeName(r.gistType))
    && StringAt(body, "title", r.title)
    && StringAt(body, "slug", r.slug)
    && StringAt(body, "goal", GoalName(r.goal))
    && StringAt(body, "audience", AudienceName(r.audience))
    && StringAt(body, "vibe", VibeName(r.vibe))
    && StringAt(body, "source_url", r.sourceUrl)
    && StringAt(body, "userId", r.userId)
    && (r.heroStyle.Some? <==> "hero_style" in body)
    && (r.heroStyle.Some? ==> StringAt(body, "hero_style", HeroStyleName(r.heroStyle.value)))
    && (r.ctaPlacement.Some? <==> "cta_placement" in body)
    && (r.ctaPlacement.Some? ==> StringAt(body, "cta_placement", r.ctaPlacement.value))
  }

  /** The request read from a body that keeps every rule. */
  function Parsed(body: Body, isUrl: string -> bool): (r: CreatePreviewRequest)
    requires RulesHold(body, isUrl)
    ensures ReadFrom(body, r)
  {
    RulesSpelledOut(body, isUrl);
    var heroStyle := if "hero_style" in body then ParseHeroStyle(body["hero_style"].s) else None;
    CreatePreviewRequest(
      ParseType(body["type"].s).value,
      body["title"].s,
      body["slug"].s,
      ParseGoal(body["goal"].s).value,
      ParseAudience(body["audience"].s).value,
      ParseVibe(body["vibe"].s).value,
      body["source_url"].s,
      body["userId"].s,
      heroStyle,
      OptionalString(body, "cta_placement"))
  }

  /** One issue as `path.joined.by.dots: message`. */
  function Render(issue: Issue): (r: string)
    ensures |r| >= |issue.message| + 2
    ensures r[|r| - |issue.message|..] == issue.message
  {
    Join(issue.path, ".") + ": " + issue.message
  }

  function RenderEach(issues: seq<Issue>): (r: seq<string>)
    ensures |r| == |issues|
    ensures forall i :: 0 <= i < |issues| ==> r[i] == Render(issues[i])
  {
    if issues == [] then [] else [Render(issues[0])] + RenderEach(issues[1..])
  }

  /** `formatValidationError(error)`: the rendered issues joined by `", "`. */
  function FormatValidationError(issues: seq<Issue>): (r: string)
    ensures issues == [] ==> r == ""
    ensures |issues| == 1 ==> r == Render(issues[0])
  {
    Join(RenderEach(issues), ", ")
  }

  /**
   * The formatted text is the rendered issues in order with one `", "`
   * between each two: the `i`-th rendered issue starts after the issues
   * before it and their separators and is followed by `", "` unless it is
   * the last, and the text is exactly as long as these pieces together.
   */
  lemma FormattedHoldsEveryIssue(issues: seq<Issue>, i: nat)
    requires i < |issues|
    ensures OccursAt(Render(issues[i]), FormatValidationError(issues), PartOffset(RenderEach(issues), ", ", i))
    ensures i + 1 < |issues| ==>
      OccursAt(", ", FormatValidationError(issues), PartOffset(RenderEach(issues), ", ", i) + |Render(issues[i])|)
    ensures IsInfix(Render(issues[i]), FormatValidationError(issues))
    ensures |FormatValidationError(issues)| == Sum(RenderEach(issues)) + 2 * (|issues| - 1)
  {
    JoinHasParts(RenderEach(issues), ", ", i);
    if i + 1 < |issues| {
      JoinHasSeparators(RenderEach(issues), ", ", i);
    }
    JoinLength(RenderEach(issues), ", ");
  }
}
