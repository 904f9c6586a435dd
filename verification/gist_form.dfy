/**
 * The gist creation form (hooks/use-gist-form.ts): the initial state, the
 * reducer, the ordered list of validation errors and the conversion to the
 * data sent to the API. URL parsing (`new URL(...)`) is the parameter
 * `isUrl`: true exactly when the constructor would not throw.
 */
module GistForm {
  import opened Wrappers
  import opened Text
  import opened GistKinds
  import Generator

  /** `GistFormState`; `None` is `null`. */
  datatype FormState = FormState(
    gistType: Option<GistType>,
    title: string,
    slug: string,
    goal: Option<Goal>,
    audience: Option<Audience>,
    vibe: Option<Vibe>,
    sourceUrl: string,
    heroStyle: Option<HeroStyle>,
    ctaPlacement: string,
    previewChoice: string,
    publishDecision: string)

  /** `initialState`: every choice null, every text empty. */
  const InitialState := FormState(None, "", "", None, None, None, "", None, "", "", "")

  /** `GistFormAction`, plus any other action object, which the reducer ignores. */
  datatype Action =
    | SetType(gistType: GistType)
    | SetTitle(title: string)
    | SetSlug(slug: string)
    | SetGoal(goal: Goal)
    | SetAudience(audience: Audience)
    | SetVibe(vibe: Vibe)
    | SetSourceUrl(url: string)
    | SetHeroStyle(heroStyle: HeroStyle)
    | SetCtaPlacement(ctaPlacement: string)
    | SetPreviewChoice(previewChoice: string)
    | SetPublishDecision(publishDecision: string)
    | ResetForm
    | OtherAction

  /** The slug `SET_TITLE` derives: `title ? generateSlug(title) : ""`. */
  function SlugFor(title: string): (slug: string)
    ensures Generator.IsCleanSlug(slug)
    ensures title == "" ==> slug == ""
  {
    if title != "" then Generator.GenerateSlug(title) else ""
  }

  /** `gistFormReducer(state, action)`. */
  function Reduce(s: FormState, a: Action): FormState {
    match a
    case SetType(t) => s.(gistType := Some(t))
    case SetTitle(t) => s.(title := t, slug := SlugFor(t))
    case SetSlug(v) => s.(slug := v)
    case SetGoal(g) => s.(goal := Some(g))
    case SetAudience(v) => s.(audience := Some(v))
    case SetVibe(v) => s.(vibe := Some(v))
    case SetSourceUrl(u) => s.(sourceUrl := u)
    case SetHeroStyle(h) => s.(heroStyle := Some(h))
    case SetCtaPlacement(v) => s.(ctaPlacement := v)
    case SetPreviewChoice(v) => s.(previewChoice := v)
    case SetPublishDecision(v) => s.(publishDecision := v)
    case ResetForm => InitialState
    case OtherAction => s
  }

  datatype Field =
    | TypeField | TitleField | SlugField | GoalField | AudienceField | VibeField
    | SourceUrlField | HeroStyleField | CtaPlacementField | PreviewChoiceField | PublishDecisionField

  predicate SameField(s: FormState, t: FormState, f: Field) {
    match f
    case TypeField => s.gistType == t.gistType
    case TitleField => s.title == t.title
    case SlugField => s.slug == t.slug
    case GoalField => s.goal == t.goal
    case AudienceField => s.audience == t.audience
    case VibeField => s.vibe == t.vibe
    case SourceUrlField => s.sourceUrl == t.sourceUrl
    case HeroStyleField => s.heroStyle == t.heroStyle
    case CtaPlacementField => s.ctaPlacement == t.ctaPlacement
    case PreviewChoiceField => s.previewChoice == t.previewChoice
    case PublishDecisionField => s.publishDecision == t.publishDecision
  }

  /** The fields an action may write: its own (the title also writes the slug). */
  function Writes(a: Action): set<Field> {
    match a
    case SetType(_) => {TypeField}
    case SetTitle(_) => {TitleField, SlugField}
    case SetSlug(_) => {SlugField}
    case SetGoal(_) => {GoalField}
    case SetAudience(_) => {AudienceField}
    case SetVibe(_) => {VibeField}
    case SetSourceUrl(_) => {SourceUrlField}
    case SetHeroStyle(_) => {HeroStyleField}
    case SetCtaPlacement(_) => {CtaPlacementField}
    case SetPreviewChoice(_) => {PreviewChoiceField}
    case SetPublishDecision(_) => {PublishDecisionField}
    case ResetForm => {TypeField, TitleField, SlugField, GoalField, AudienceField, VibeField,
                       SourceUrlField, HeroStyleField, CtaPlacementField, PreviewChoiceField, PublishDecisionField}
    case OtherAction => {}
  }

  /** Every field an action does not write keeps its value. */
  lemma ReduceWritesOnlyOwnField(s: FormState, a: Action, f: Field)
    requires f !in Writes(a)
    ensures SameField(Reduce(s, a), s, f)
  {
  }

  /**
   * Each SET action stores its payload; the title also stores its derived
   * slug; reset gives the initial state; any other action changes nothing.
   */
  lemma ReduceStoresPayload(s: FormState, a: Action)
    ensures a.SetType? ==> Reduce(s, a).gistType == Some(a.gistType)
    ensures a.SetTitle? ==> Reduce(s, a).title == a.title && Reduce(s, a).slug == SlugFor(a.title)
    ensures a.SetTitle? && a.title != "" ==> Reduce(s, a).slug == Generator.GenerateSlug(a.title)
    ensures a.SetTitle? && a.title == "" ==> Reduce(s, a).slug == ""
    ensures a.SetSlug? ==> Reduce(s, a).slug == a.slug
    ensures a.SetGoal? ==> Reduce(s, a).goal == Some(a.goal)
    ensures a.SetAudience? ==> Reduce(s, a).audience == Some(a.audience)
    ensures a.SetVibe? ==> Reduce(s, a).vibe == Some(a.vibe)
    ensures a.SetSourceUrl? ==> Reduce(s, a).sourceUrl == a.url
    ensures a.SetHeroStyle? ==> Reduce(s, a).heroStyle == Some(a.heroStyle)
    ensures a.SetCtaPlacement? ==> Reduce(s, a).ctaPlacement == a.ctaPlacement
    ensures a.SetPreviewChoice? ==> Reduce(s, a).previewChoice == a.previewChoice
    ensures a.SetPublishDecision? ==> Reduce(s, a).publishDecision == a.publishDecision
    ensures a.ResetForm? ==> Reduce(s, a) == InitialState
    ensures a.OtherAction? ==> Reduce(s, a) == s
  {
  }

  /** The checks of `validateForm`, in the order it makes them. */
  datatype Check =
    | TypeCheck | TitleCheck | SlugCheck | GoalCheck | AudienceCheck | VibeCheck
    | SourceUrlCheck | UrlFormatCheck | SlugFormatCheck

  const AllChecks := [TypeCheck, TitleCheck, SlugCheck, GoalCheck, AudienceCheck, VibeCheck,
                      SourceUrlCheck, UrlFormatCheck, SlugFormatCheck]

  /** A check's place in `AllChecks`. */
  function Rank(c: Check): nat {
    match c
    case TypeCheck => 0
    case TitleCheck => 1
    case SlugCheck => 2
    case GoalCheck => 3
    case AudienceCheck => 4
    case VibeCheck => 5
    case SourceUrlCheck => 6
    case UrlFormatCheck => 7
    case SlugFormatCheck => 8
  }

  /** The message a failing check pushes. */
  function Message(c: Check): string {
    match c
    case TypeCheck => "Type is required"
    case TitleCheck => "Title is required"
    case SlugCheck => "Slug is required"
    case GoalCheck => "Goal is required"
    case AudienceCheck => "Audience is required"
    case VibeCheck => "Vibe is required"
    case SourceUrlCheck => "Source URL is required"
    case UrlFormatCheck => "Invalid URL format"
    case SlugFormatCheck => "Slug must contain only lowercase letters, numbers, and hyphens"
  }

  /**
   * The condition under which `validateForm` pushes a check's message. A
   * text is blank (`!text.trim()`) when it holds only whitespace: `Trim`
   * gives the empty string exactly then.
   */
  predicate Fails(s: FormState, isUrl: string -> bool, c: Check) {
    match c
    case TypeCheck => s.gistType.None?
    case TitleCheck => AllWhitespace(s.title)
    case SlugCheck => AllWhitespace(s.slug)
    case GoalCheck => s.goal.None?
    case AudienceCheck => s.audience.None?
    case VibeCheck => s.vibe.None?
    case SourceUrlCheck => AllWhitespace(s.sourceUrl)
    case UrlFormatCheck => !AllWhitespace(s.sourceUrl) && !isUrl(s.sourceUrl)
    case SlugFormatCheck => s.slug != "" && !Generator.MatchesSlugPattern(s.slug)
  }

  predicate Increasing(cs: seq<Check>) {
    forall i, j :: 0 <= i < j < |cs| ==> Rank(cs[i]) < Rank(cs[j])
  }

  /** The checks of `checks` that fail, in their order: the pushes of the straight-line checks. */
  function FailingChecks(checks: seq<Check>, s: FormState, isUrl: string -> bool): (r: seq<Check>)
    ensures forall c :: c in r <==> c in checks && Fails(s, isUrl, c)
    ensures Increasing(checks) ==> Increasing(r)
  {
    if checks == [] then []
    else
      var rest := FailingChecks(checks[1..], s, isUrl);
      assert forall c :: c in checks <==> c == checks[0] || c in checks[1..];
      assert Increasing(checks) ==> forall c :: c in rest ==> Rank(checks[0]) < Rank(c);
      if Fails(s, isUrl, checks[0]) then [checks[0]] + rest else rest
  }

  function Messages(cs: seq<Check>): (r: seq<string>)
    ensures |r| == |cs|
    ensures forall i :: 0 <= i < |cs| ==> r[i] == Message(cs[i])
  {
    if cs == [] then [] else [Message(cs[0])] + Messages(cs[1..])
  }

  /** The result of `validateForm`. */
  datatype Validation = Validation(isValid: bool, errors: seq<string>, canSubmit: bool)

  /** `validateForm(state)`. */
  function Validate(s: FormState, isUrl: string -> bool): Validation {
    var errors := Messages(FailingChecks(AllChecks, s, isUrl));
    var isValid := |errors| == 0;
    Validation(isValid, errors,
      isValid && s.gistType.Some? && s.goal.Some? && s.audience.Some? && s.vibe.Some?)
  }

  lemma MessagesDistinct(c: Check, d: Check)
    ensures Message(c) == Message(d) ==> c == d
  {
  }

  lemma EveryCheckListed(c: Check)
    ensures c in AllChecks
  {
    assert AllChecks[Rank(c)] == c;
  }

  /** The error list holds a check's message exactly when the check fails. */
  lemma ValidateErrors(s: FormState, isUrl: string -> bool, c: Check)
    ensures Message(c) in Validate(s, isUrl).errors <==> Fails(s, isUrl, c)
  {
    var cs := FailingChecks(AllChecks, s, isUrl);
    var errors := Validate(s, isUrl).errors;
    EveryCheckListed(c);
    if Fails(s, isUrl, c) {
      assert c in cs;
      var i :| 0 <= i < |cs| && cs[i] == c;
      assert errors[i] == Message(c);
    }
    if Message(c) in errors {
      var i :| 0 <= i < |cs| && errors[i] == Message(c);
      MessagesDistinct(c, cs[i]);
      assert cs[i] in cs;
    }
  }

  /** The errors come in check order, each at most once. */
  lemma ValidateErrorsOrdered(s: FormState, isUrl: string -> bool)
    ensures exists cs :: Increasing(cs) && Validate(s, isUrl).errors == Messages(cs)
  {
    var cs := FailingChecks(AllChecks, s, isUrl);
    assert forall i :: 0 <= i < |AllChecks| ==> Rank(AllChecks[i]) == i;
    assert Increasing(AllChecks);
    assert Validate(s, isUrl).errors == Messages(cs);
  }

  /** The form is valid exactly when no check fails. */
  lemma ValidIffNoFailure(s: FormState, isUrl: string -> bool)
    ensures Validate(s, isUrl).isValid <==> forall c :: !Fails(s, isUrl, c)
  {
    var cs := FailingChecks(AllChecks, s, isUrl);
    if cs != [] {
      assert cs[0] in cs;
    } else {
      forall c ensures !Fails(s, isUrl, c) {
        EveryCheckListed(c);
      }
    }
  }

  /**
   * `canSubmit` adds nothing to `isValid`: a null choice already produced its
   * "is required" error.
   */
  lemma CanSubmitIsValid(s: FormState, isUrl: string -> bool)
    ensures Validate(s, isUrl).canSubmit == Validate(s, isUrl).isValid
  {
    ValidIffNoFailure(s, isUrl);
    assert s.gistType.None? ==> Fails(s, isUrl, TypeCheck);
    assert s.goal.None? ==> Fails(s, isUrl, GoalCheck);
    assert s.audience.None? ==> Fails(s, isUrl, AudienceCheck);
    assert s.vibe.None? ==> Fails(s, isUrl, VibeCheck);
  }

  /** A slug set through `SET_TITLE` never draws the slug-format error. */
  lemma TitleSlugPassesFormat(s: FormState, title: string, isUrl: string -> bool)
    ensures Message(SlugFormatCheck) !in Validate(Reduce(s, SetTitle(title)), isUrl).errors
  {
    var t := Reduce(s, SetTitle(title));
    assert t.slug == SlugFor(title);
    assert !Fails(t, isUrl, SlugFormatCheck);
    ValidateErrors(t, isUrl, SlugFormatCheck);
  }

  /** `GistCreationData`; `None` for an optional field is `undefined`. */
  datatype GistCreationData = GistCreationData(
    gistType: GistType,
    title: string,
    slug: string,
    goal: Goal,
    audience: Audience,
    vibe: Vibe,
    sourceUrl: string,
    heroStyle: Option<HeroStyle>,
    ctaPlacement: Option<string>,
    previewChoice: Option<string>,
    publishDecision: Option<string>)

  /** `value || undefined` for a string field. */
  function NonEmpty(value: string): (r: Option<string>)
    ensures r.None? <==> value == ""
    ensures r.Some? ==> r.value == value
  {
    if value == "" then None else Some(value)
  }

  /**
   * `toGistCreationData()`: nothing unless the form can be submitted;
   * otherwise the required fields as they are and each empty optional
   * field left out.
   */
  function ToGistCreationData(s: FormState, isUrl: string -> bool): (r: Option<GistCreationData>)
    ensures r.None? <==> !Validate(s, isUrl).canSubmit
    ensures r.Some? ==>
      && Some(r.value.gistType) == s.gistType && Some(r.value.goal) == s.goal
      && Some(r.value.audience) == s.audience && Some(r.value.vibe) == s.vibe
      && r.value.title == s.title && r.value.slug == s.slug && r.value.sourceUrl == s.sourceUrl
      && r.value.heroStyle == s.heroStyle
      && (r.value.ctaPlacement.None? <==> s.ctaPlacement == "")
      && (r.value.previewChoice.None? <==> s.previewChoice == "")
      && (r.value.publishDecision.None? <==> s.publishDecision == "")
  {
    if !Validate(s, isUrl).canSubmit then None
    else Some(GistCreationData(
      s.gistType.value, s.title, s.slug, s.goal.value, s.audience.value, s.vibe.value, s.sourceUrl,
      s.heroStyle, NonEmpty(s.ctaPlacement), NonEmpty(s.previewChoice), NonEmpty(s.publishDecision)))
  }

  /**
   * Data handed to the API has a non-blank title, slug and source URL, a
   * source URL that parses, and a slug of `[a-z0-9-]` characters.
   */
  lemma SubmittedDataWellFormed(s: FormState, isUrl: string -> bool)
    requires ToGistCreationData(s, isUrl).Some?
    ensures !AllWhitespace(s.title) && !AllWhitespace(s.slug) && !AllWhitespace(s.sourceUrl)
    ensures isUrl(s.sourceUrl) && Generator.MatchesSlugPattern(s.slug)
  {
    CanSubmitIsValid(s, isUrl);
    PassesCheck(s, isUrl, TitleCheck);
    PassesCheck(s, isUrl, SlugCheck);
    PassesCheck(s, isUrl, SourceUrlCheck);
    PassesCheck(s, isUrl, UrlFormatCheck);
    PassesCheck(s, isUrl, SlugFormatCheck);
  }

  lemma PassesCheck(s: FormState, isUrl: string -> bool, c: Check)
    requires Validate(s, isUrl).isValid
    ensures !Fails(s, isUrl, c)
  {
    ValidIffNoFailure(s, isUrl);
  }
}
