/**
 * The ten-step gist creation wizard
 * (components/widgets/gist-creation-widget/gist-creation-widget.tsx): the
 * step it shows, the form actions its option buttons and text inputs
 * dispatch, the back button, and the submission to the preview endpoint at
 * the source step. The form state and its validation are those of
 * `GistForm`; `isUrl` stands for URL parsing. The submission is split at its
 * `await`: `InputSubmit` returns the data whose body (`BodyOf`) it posts,
 * `CompleteSubmit` receives what came back, and `SuccessTimerFires` is the
 * delayed advance after a success. Callbacks and the clipboard are recorded
 * in order.
 */
module GistCreationWidget {
  import opened Wrappers
  import opened GistKinds
  import opened GistForm
  import opened CreatePreviewValidation
  import opened WidgetApi
  import Generator
  import opened Text

  /** The field each step of `PHASES` collects, in step order. */
  datatype PhaseField =
    | TypeStep | TitleStep | GoalStep | AudienceStep | VibeStep
    | SourceUrlStep | HeroStyleStep | CtaPlacementStep | PreviewChoiceStep | PublishDecisionStep

  const Phases := [TypeStep, TitleStep, GoalStep, AudienceStep, VibeStep,
                   SourceUrlStep, HeroStyleStep, CtaPlacementStep, PreviewChoiceStep, PublishDecisionStep]

  /** `PHASES.length`. */
  const StepCount := 10

  /** `PHASES[step - 1].field`. */
  function PhaseAt(step: nat): PhaseField
    requires 1 <= step <= StepCount
  {
    Phases[step - 1]
  }

  /** The steps with a text input instead of option buttons. */
  predicate IsInputStep(f: PhaseField) {
    f == TitleStep || f == SourceUrlStep
  }

  /** The `value` of each option button of a step, in display order. */
  function OptionValues(f: PhaseField): (r: seq<string>)
    ensures |r| == (if IsInputStep(f) then 0 else 3)
  {
    match f
    case TypeStep => ["person", "product", "place"]
    case GoalStep => ["book", "buy", "waitlist"]
    case AudienceStep => ["prospects", "fans", "investors"]
    case VibeStep => ["friendly", "professional", "bold"]
    case HeroStyleStep => ["image", "video", "gradient"]
    case CtaPlacementStep => ["floating", "inline", "sidebar"]
    case PreviewChoiceStep => ["preview", "edit_headline", "edit_colors"]
    case PublishDecisionStep => ["private", "public", "later"]
    case TitleStep => []
    case SourceUrlStep => []
  }

  /** The action `handleOptionClick` dispatches for the `k`-th option of a step. */
  function OptionAction(f: PhaseField, k: nat): Action
    requires k < |OptionValues(f)|
  {
    var value := OptionValues(f)[k];
    match f
    case TypeStep => SetType([Person, Product, Place][k])
    case GoalStep => SetGoal([Book, Buy, Waitlist][k])
    case AudienceStep => SetAudience([Prospects, Fans, Investors][k])
    case VibeStep => SetVibe([Friendly, Professional, Bold][k])
    case HeroStyleStep => SetHeroStyle([Image, Video, Gradient][k])
    case CtaPlacementStep => SetCtaPlacement(value)
    case PreviewChoiceStep => SetPreviewChoice(value)
    case PublishDecisionStep => SetPublishDecision(value)
  }

  /** The form field a step's options write. */
  function FieldOf(f: PhaseField): Field {
    match f
    case TypeStep => TypeField
    case TitleStep => TitleField
    case GoalStep => GoalField
    case AudienceStep => AudienceField
    case VibeStep => VibeField
    case SourceUrlStep => SourceUrlField
    case HeroStyleStep => HeroStyleField
    case CtaPlacementStep => CtaPlacementField
    case PreviewChoiceStep => PreviewChoiceField
    case PublishDecisionStep => PublishDecisionField
  }

  /**
   * An option button dispatches the SET action of its step's own field, and
   * the value it stores is the one the button carries.
   */
  lemma OptionDispatchesOwnField(f: PhaseField, k: nat, s: FormState)
    requires k < |OptionValues(f)|
    ensures Writes(OptionAction(f, k)) == {FieldOf(f)}
    ensures var t := Reduce(s, OptionAction(f, k));
      match f
      case TypeStep => t.gistType.Some? && TypeName(t.gistType.value) == OptionValues(f)[k]
      case GoalStep => t.goal.Some? && GoalName(t.goal.value) == OptionValues(f)[k]
      case AudienceStep => t.audience.Some? && AudienceName(t.audience.value) == OptionValues(f)[k]
      case VibeStep => t.vibe.Some? && VibeName(t.vibe.value) == OptionValues(f)[k]
      case HeroStyleStep => t.heroStyle.Some? && HeroStyleName(t.heroStyle.value) == OptionValues(f)[k]
      case CtaPlacementStep => t.ctaPlacement == OptionValues(f)[k]
      case PreviewChoiceStep => t.previewChoice == OptionValues(f)[k]
      case PublishDecisionStep => t.publishDecision == OptionValues(f)[k]
      case _ => false
  {
  }

  const AnonymousUser := "temp-anonymous-user"
  const IncompleteMessage := "Please complete all required fields"
  const FailureMessage := "Failed to create preview"

  /** `CreatePreviewResponse`. */
  datatype CreatePreviewResponse = CreatePreviewResponse(success: bool, previewUrl: string, slug: string, gistId: Option<string>)

  /**
   * What the awaited part of the submission produced: a parsed success body,
   * a refusal whose body's `error` is given ("" when absent), or an exception
   * (the request failed or a body was not JSON).
   */
  datatype SubmitOutcome =
    | Created(response: CreatePreviewResponse)
    | Refused(errorField: string)
    | Threw(thrown: Thrown)

  /** The message the `catch` stores for a failed submission. */
  function FailureText(outcome: SubmitOutcome): (r: string)
    requires !outcome.Created?
    ensures outcome.Refused? && outcome.errorField != "" ==> r == outcome.errorField
    ensures outcome.Refused? && outcome.errorField == "" ==> r == FailureMessage
    ensures outcome.Threw? && outcome.thrown.ErrorValue? ==> r == outcome.thrown.message
    ensures outcome.Threw? && outcome.thrown.NonError? ==> r == FailureMessage
  {
    match outcome
    case Refused(e) => if e != "" then e else FailureMessage
    case Threw(ErrorValue(m)) => m
    case Threw(NonError) => FailureMessage
  }

  /** The JSON body posted: `{ ...data, userId }`, leaving out the fields that are `undefined`. */
  function BodyOf(d: GistCreationData): (b: Body)
    ensures StringAt(b, "type", TypeName(d.gistType)) && StringAt(b, "title", d.title) && StringAt(b, "slug", d.slug)
    ensures StringAt(b, "goal", GoalName(d.goal)) && StringAt(b, "audience", AudienceName(d.audience))
    ensures StringAt(b, "vibe", VibeName(d.vibe)) && StringAt(b, "source_url", d.sourceUrl)
    ensures StringAt(b, "userId", AnonymousUser)
    ensures ("hero_style" in b <==> d.heroStyle.Some?) && (d.heroStyle.Some? ==> StringAt(b, "hero_style", HeroStyleName(d.heroStyle.value)))
    ensures ("cta_placement" in b <==> d.ctaPlacement.Some?) && (d.ctaPlacement.Some? ==> StringAt(b, "cta_placement", d.ctaPlacement.value))
    ensures ("preview_choice" in b <==> d.previewChoice.Some?) && (d.previewChoice.Some? ==> StringAt(b, "preview_choice", d.previewChoice.value))
    ensures ("publish_decision" in b <==> d.publishDecision.Some?) && (d.publishDecision.Some? ==> StringAt(b, "publish_decision", d.publishDecision.value))
  {
    var required, optional := RequiredEntries(d), OptionalEntries(d);
    KeySetsDisjoint();
    DisjointUnion(required, optional);
    required + optional
  }

  /** The keys every posted body has. */
  const RequiredKeys: set<string> := {"type", "title", "slug", "goal", "audience", "vibe", "source_url", "userId"}
  /** The keys a posted body has only when the field is defined. */
  const OptionalKeys: set<string> := {"hero_style", "cta_placement", "preview_choice", "publish_decision"}

  lemma KeySetsDisjoint()
    ensures RequiredKeys !! OptionalKeys
  {
  }

  /** Merging two bodies with no key in common keeps every entry of each. */
  lemma DisjointUnion(a: Body, o: Body)
    requires a.Keys !! o.Keys
    ensures forall k :: k in a + o <==> k in a || k in o
    ensures forall k :: k in a ==> (a + o)[k] == a[k]
    ensures forall k :: k in o ==> (a + o)[k] == o[k]
  {
  }

  /** The optional fields that are defined. */
  function OptionalEntries(d: GistCreationData): (b: Body)
    ensures b.Keys <= OptionalKeys
    ensures ("hero_style" in b <==> d.heroStyle.Some?) && (d.heroStyle.Some? ==> StringAt(b, "hero_style", HeroStyleName(d.heroStyle.value)))
    ensures ("cta_placement" in b <==> d.ctaPlacement.Some?) && (d.ctaPlacement.Some? ==> StringAt(b, "cta_placement", d.ctaPlacement.value))
    ensures ("preview_choice" in b <==> d.previewChoice.Some?) && (d.previewChoice.Some? ==> StringAt(b, "preview_choice", d.previewChoice.value))
    ensures ("publish_decision" in b <==> d.publishDecision.Some?) && (d.publishDecision.Some? ==> StringAt(b, "publish_decision", d.publishDecision.value))
  {
    var heroStyle := if d.heroStyle.Some? then Some(HeroStyleName(d.heroStyle.value)) else None;
    var b1 := WithOptional(map[], "hero_style", heroStyle);
    var b2 := WithOptional(b1, "cta_placement", d.ctaPlacement);
    var b3 := WithOptional(b2, "preview_choice", d.previewChoice);
    WithOptional(b3, "publish_decision", d.publishDecision)
  }

  /** The keys every posted body has, `userId` among them. */
  function RequiredEntries(d: GistCreationData): (b: Body)
    ensures StringAt(b, "type", TypeName(d.gistType)) && StringAt(b, "title", d.title) && StringAt(b, "slug", d.slug)
    ensures StringAt(b, "goal", GoalName(d.goal)) && StringAt(b, "audience", AudienceName(d.audience))
    ensures StringAt(b, "vibe", VibeName(d.vibe)) && StringAt(b, "source_url", d.sourceUrl)
    ensures StringAt(b, "userId", AnonymousUser)
    ensures b.Keys == RequiredKeys
  {
    map[
      "type" := Str(TypeName(d.gistType)),
      "title" := Str(d.title),
      "slug" := Str(d.slug),
      "goal" := Str(GoalName(d.goal)),
      "audience" := Str(AudienceName(d.audience)),
      "vibe" := Str(VibeName(d.vibe)),
      "source_url" := Str(d.sourceUrl),
      "userId" := Str(AnonymousUser)]
  }

  /** `body` with `key` set when the value is defined, and without it otherwise. */
  function WithOptional(body: Body, key: string, value: Option<string>): (r: Body)
    requires key !in body
    ensures key in r <==> value.Some?
    ensures value.Some? ==> r[key] == Str(value.value)
    ensures forall k :: k != key ==> (k in r <==> k in body) && (k in body ==> r[k] == body[k])
  {
    if value.Some? then body[key := Str(value.value)] else body
  }

  class Wizard {
    /** URL parsing, as the form's validation uses it. */
    const isUrl: string -> bool
    /** `window.location.origin`. */
    const origin: string
    var step: nat
    var isSubmitting: bool
    var error: Option<string>
    var showSuccess: bool
    var form: FormState
    /** The steps passed to `onStepChange`, in order. */
    var stepReports: seq<nat>
    /** The responses passed to `onComplete`, in order. */
    var completions: seq<CreatePreviewResponse>
    /** The texts written to the clipboard, in order. */
    var clipboard: seq<string>

    /** The step is a valid `PHASES` position. */
    predicate Valid()
      reads this
    {
      1 <= step <= StepCount
    }

    constructor (isUrl: string -> bool, origin: string)
      ensures Valid()
      ensures this.isUrl == isUrl && this.origin == origin
      ensures step == 1 && !isSubmitting && error == None && !showSuccess && form == InitialState
      ensures stepReports == [] && completions == [] && clipboard == []
    {
      this.isUrl := isUrl;
      this.origin := origin;
      step := 1;
      isSubmitting := false;
      error := None;
      showSuccess := false;
      form := InitialState;
      stepReports := [];
      completions := [];
      clipboard := [];
    }

    /** The "move to next step" block: one step on, reported, unless on the last step. */
    method Advance()
      requires Valid()
      modifies this
      ensures Valid()
      ensures old(step) < StepCount ==> step == old(step) + 1 && stepReports == old(stepReports) + [step]
      ensures old(step) == StepCount ==> step == old(step) && stepReports == old(stepReports)
      ensures form == old(form) && error == old(error) && isSubmitting == old(isSubmitting)
      ensures showSuccess == old(showSuccess) && completions == old(completions) && clipboard == old(clipboard)
    {
      if step < StepCount {
        step := step + 1;
        stepReports := stepReports + [step];
      }
    }

    /**
     * `handleOptionClick` for the `k`-th button of the current step: clears
     * the error, dispatches the step's SET action, and advances. "preview"
     * reports a completion with the slug as it was before the click;
     * "private" with a slug copies the preview link and shows success.
     */
    method OptionClick(k: nat)
      requires Valid() && k < |OptionValues(PhaseAt(step))|
      modifies this
      ensures Valid()
      ensures form == Reduce(old(form), OptionAction(PhaseAt(old(step)), k))
      ensures error == None && isSubmitting == old(isSubmitting)
      ensures step == (if old(step) < StepCount then old(step) + 1 else old(step))
      ensures stepReports == old(stepReports) + (if old(step) < StepCount then [step] else [])
      ensures var value := OptionValues(PhaseAt(old(step)))[k];
        && completions == old(completions) +
          (if PhaseAt(old(step)) == PreviewChoiceStep && value == "preview"
           then [CreatePreviewResponse(true, "/preview/" + old(form).slug, old(form).slug, None)] else [])
        && var copies := PhaseAt(old(step)) == PublishDecisionStep && value == "private" && old(form).slug != "";
          && clipboard == old(clipboard) + (if copies then [origin + "/preview/" + old(form).slug] else [])
          && showSuccess == (old(showSuccess) || copies)
    {
      error := None;
      var f := PhaseAt(step);
      var value := OptionValues(f)[k];
      var slug := form.slug;
      form := Reduce(form, OptionAction(f, k));
      if f == PreviewChoiceStep && value == "preview" {
        completions := completions + [CreatePreviewResponse(true, "/preview/" + slug, slug, None)];
      }
      if f == PublishDecisionStep && value == "private" && slug != "" {
        clipboard := clipboard + [origin + "/preview/" + slug];
        showSuccess := true;
      }
      Advance();
    }

    /** The text input's `onChange`: dispatches the title or the source URL as typed. */
    method InputChange(value: string)
      requires Valid()
      modifies this
      ensures Valid() && step == old(step) && error == old(error)
      ensures PhaseAt(step) == TitleStep ==> form == Reduce(old(form), SetTitle(value))
      ensures PhaseAt(step) == SourceUrlStep ==> form == Reduce(old(form), SetSourceUrl(value))
      ensures !IsInputStep(PhaseAt(step)) ==> form == old(form)
      ensures isSubmitting == old(isSubmitting) && showSuccess == old(showSuccess)
      ensures stepReports == old(stepReports) && completions == old(completions) && clipboard == old(clipboard)
    {
      var f := PhaseAt(step);
      if f == TitleStep {
        form := Reduce(form, SetTitle(value));
      } else if f == SourceUrlStep {
        form := Reduce(form, SetSourceUrl(value));
      }
    }

    /**
     * `handleApiSubmit` up to its `await`: without submittable data it sets
     * the incomplete-fields error and posts nothing; otherwise it marks the
     * submission in flight and returns the data it posts; the request body
     * is `BodyOf` that data.
     */
    method ApiSubmit() returns (posted: Option<GistCreationData>)
      requires Valid()
      modifies this
      ensures Valid() && step == old(step) && form == old(form)
      ensures posted == ToGistCreationData(form, isUrl)
      ensures posted.None? ==> error == Some(IncompleteMessage) && isSubmitting == old(isSubmitting)
      ensures posted.Some? ==> error == None && isSubmitting
      ensures stepReports == old(stepReports) && completions == old(completions)
      ensures clipboard == old(clipboard) && showSuccess == old(showSuccess)
    {
      posted := ToGistCreationData(form, isUrl);
      if posted.None? {
        error := Some(IncompleteMessage);
      } else {
        isSubmitting := true;
        error := None;
      }
    }

    /**
     * The input form's submit, which hands `handleInputSubmit` the field's
     * current value. At the title step it re-dispatches the title (changing
     * nothing) and advances. At the source step it posts when the form can be
     * submitted, and advances otherwise. Either way the error ends up
     * cleared: the incomplete-fields error cannot arise here, since posting
     * needs the same `canSubmit` that makes the data available.
     */
    method InputSubmit() returns (posted: Option<GistCreationData>)
      requires Valid()
      modifies this
      ensures Valid() && error == None
      ensures PhaseAt(old(step)) == TitleStep ==> form == Reduce(old(form), SetTitle(old(form).title))
      ensures PhaseAt(old(step)) != TitleStep ==> form == old(form)
      ensures var f := PhaseAt(old(step));
        && (f == SourceUrlStep && Validate(form, isUrl).canSubmit <==> posted.Some?)
        && (posted.Some? ==> posted == ToGistCreationData(form, isUrl) && isSubmitting && step == old(step))
        && (posted.None? && IsInputStep(f) ==> step == (if old(step) < StepCount then old(step) + 1 else old(step)))
        && (!IsInputStep(f) ==> step == old(step))
        && (posted.None? ==> isSubmitting == old(isSubmitting))
        && stepReports == old(stepReports) + (if posted.None? && IsInputStep(f) && old(step) < StepCount then [step] else [])
      ensures showSuccess == old(showSuccess) && completions == old(completions) && clipboard == old(clipboard)
    {
      error := None;
      var f := PhaseAt(step);
      posted := None;
      if f == TitleStep {
        form := Reduce(form, SetTitle(form.title));
        Advance();
      } else if f == SourceUrlStep {
        var canSubmit := Validate(form, isUrl).canSubmit;
        form := Reduce(form, SetSourceUrl(form.sourceUrl));
        assert form == old(form);
        if canSubmit {
          posted := ApiSubmit();
        } else {
          Advance();
        }
      }
    }

    /**
     * The rest of `handleApiSubmit`: a success shows the success state and
     * reports the response through `onComplete`; a failure stores its
     * message. The step does not change here, and the submission is no
     * longer in flight.
     */
    method CompleteSubmit(outcome: SubmitOutcome)
      requires Valid()
      modifies this
      ensures Valid() && step == old(step) && form == old(form) && !isSubmitting
      ensures outcome.Created? ==>
        showSuccess && completions == old(completions) + [outcome.response] && error == old(error)
      ensures !outcome.Created? ==>
        error == Some(FailureText(outcome)) && completions == old(completions) && showSuccess == old(showSuccess)
      ensures stepReports == old(stepReports) && clipboard == old(clipboard)
    {
      if outcome.Created? {
        showSuccess := true;
        completions := completions + [outcome.response];
      } else {
        error := Some(FailureText(outcome));
      }
      isSubmitting := false;
    }

    /**
     * The success timer, two seconds after a success: hides the success
     * state and moves to the step after the one captured when the
     * submission started, whatever the step is by then.
     */
    method SuccessTimerFires(capturedStep: nat)
      requires Valid() && 1 <= capturedStep <= StepCount
      modifies this
      ensures Valid() && !showSuccess && form == old(form) && error == old(error)
      ensures capturedStep < StepCount ==> step == capturedStep + 1 && stepReports == old(stepReports) + [step]
      ensures capturedStep == StepCount ==> step == old(step) && stepReports == old(stepReports)
      ensures isSubmitting == old(isSubmitting) && completions == old(completions) && clipboard == old(clipboard)
    {
      showSuccess := false;
      if capturedStep < StepCount {
        step := capturedStep + 1;
        stepReports := stepReports + [step];
      }
    }

    /** `handleBack`: one step back, reported, with the error cleared, unless on the first step. */
    method Back()
      requires Valid()
      modifies this
      ensures Valid() && form == old(form) && isSubmitting == old(isSubmitting)
      ensures old(step) > 1 ==> step == old(step) - 1 && stepReports == old(stepReports) + [step] && error == None
      ensures old(step) == 1 ==> step == 1 && stepReports == old(stepReports) && error == old(error)
      ensures showSuccess == old(showSuccess) && completions == old(completions) && clipboard == old(clipboard)
    {
      if step > 1 {
        step := step - 1;
        stepReports := stepReports + [step];
        error := None;
      }
    }
  }

  /**
   * The slug is the one derived from the title in the initial state and
   * after every action the wizard dispatches (it never dispatches
   * `SET_SLUG`); with the slug so derived, the title step's re-dispatch of
   * the title changes nothing.
   */
  lemma SlugStaysDerived(s: FormState, a: Action)
    requires s.slug == SlugFor(s.title) && !a.SetSlug?
    ensures InitialState.slug == SlugFor(InitialState.title)
    ensures Reduce(s, a).slug == SlugFor(Reduce(s, a).title)
    ensures Reduce(s, SetTitle(s.title)) == s
  {
    assert InitialState.title == "" && InitialState.slug == "";
    if !a.SetTitle? && !a.ResetForm? {
      assert Reduce(s, a).title == s.title && Reduce(s, a).slug == s.slug;
    }
  }

  /**
   * The body the wizard posts passes the endpoint's validator whenever the
   * title and slug fit in 100 characters and the URL in 500: the form's own
   * checks cover every other rule. The parsed request carries the form's
   * values.
   */
  lemma {:induction false} PostedBodyPasses(s: FormState, isUrl: string -> bool)
    requires ToGistCreationData(s, isUrl).Some?
    requires |s.title| <= 100 && |s.slug| <= 100 && |s.sourceUrl| <= 500
    ensures var d := ToGistCreationData(s, isUrl).value;
      var r := ValidateCreatePreviewRequest(JsonObject(BodyOf(d)), isUrl);
      && r.Success?
      && r.value.gistType == d.gistType && r.value.goal == d.goal
      && r.value.audience == d.audience && r.value.vibe == d.vibe
      && r.value.title == s.title && r.value.slug == s.slug && r.value.sourceUrl == s.sourceUrl
      && r.value.userId == AnonymousUser && r.value.heroStyle == s.heroStyle
  {
    var d := ToGistCreationData(s, isUrl).value;
    var b := BodyOf(d);
    SubmittedDataWellFormed(s, isUrl);
    assert |s.title| >= 1;
    BodyKeepsRules(d, isUrl);
    var r := ValidateCreatePreviewRequest(JsonObject(b), isUrl);
    ReadBackEnums(d, r.value);
  }

  /** The rules the body keeps, key by key. */
  lemma BodyKeepsRules(d: GistCreationData, isUrl: string -> bool)
    requires 1 <= |d.title| <= 100
    requires Generator.MatchesSlugPattern(d.slug) && |d.slug| <= 100
    requires isUrl(d.sourceUrl) && |d.sourceUrl| <= 500
    ensures RulesHold(BodyOf(d), isUrl)
  {
    var b := BodyOf(d);
    assert TypeName(d.gistType) in TypeOptions && GoalName(d.goal) in GoalOptions;
    assert AudienceName(d.audience) in AudienceOptions && VibeName(d.vibe) in VibeOptions;
    assert d.heroStyle.Some? ==> HeroStyleName(d.heroStyle.value) in HeroStyleOptions;
    RulesFromFields(b, isUrl);
  }

  /** The enum values read back from the body are the ones written into it. */
  lemma ReadBackEnums(d: GistCreationData, r: CreatePreviewRequest)
    requires ReadFrom(BodyOf(d), r)
    ensures r.gistType == d.gistType && r.goal == d.goal && r.audience == d.audience && r.vibe == d.vibe
    ensures r.heroStyle == d.heroStyle
  {
    NamesRoundTrip(d.gistType, d.goal, d.audience, d.vibe, if d.heroStyle.Some? then d.heroStyle.value else Image);
    NamesRoundTrip(r.gistType, r.goal, r.audience, r.vibe, if r.heroStyle.Some? then r.heroStyle.value else Image);
  }
}
