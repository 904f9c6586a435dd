/**
 * The onboarding flow (components/widgets/onboarding-widget/onboarding-widget.tsx):
 * eighteen phases, a header with clamped Previous/Next over the first eight,
 * a validation detour after phases 5 and 6, timed auto-advances out of
 * phases 11 and 13, and the height handed to the container.
 *
 * Each timer is a method the environment calls when it fires; a timer whose
 * effect was cleaned up never fires, which the method's precondition says.
 * The `isStreaming` flag is reset whenever the phase changes and cleared
 * when a phase's description has finished its animation.
 */
module OnboardingWidget {

  const PhaseCount := 18
  const LastPhase := 17
  /** The last phase the header's Next reaches. */
  const LastHeaderPhase := 7

  /** `phaseTitles`: the labels of the header's Previous and Next. */
  const PhaseTitles: seq<string> := [
    "Get Started", "Context", "Online Presence", "Socials", "Goals",
    "Audience", "[Ad] Paywall", "Connections", "Customization"
  ]

  /** Whether `phases[p].description` is non-empty (the streamed text is shown). */
  predicate HasDescription(p: int) {
    0 <= p <= 10 && p != 6
  }

  /** `phases[p].suggestions.length`. */
  function SuggestionCount(p: int): (r: nat)
    ensures r > 0 <==> 0 <= p <= 10
  {
    if 0 <= p <= 9 then 3 else if p == 10 then 2 else 0
  }

  /** The phases whose suggestion or pricing choice goes through the validation detour. */
  predicate ValidatesOnChoice(p: int) { p == 5 || p == 6 }

  /**
   * `calculatedHeight`: 700 during the detour, a per-phase height otherwise,
   * capped at 810.
   */
  function CalculatedHeight(phase: int, inTransition: bool): (r: int)
    ensures inTransition ==> r == 700
    ensures 261 <= r <= 810
  {
    var raw :=
      if inTransition then 700
      else if phase == 0 then 380
      else if phase == 12 then 680
      else if phase == 13 then 261
      else if phase == 14 then 400
      else if phase == 17 then 720
      else if phase == 16 then 720
      else if phase == 15 then 720
      else if phase == 6 then 700
      else if phase == 8 || phase == 9 || phase == 10 then 720
      else if phase == 11 then 261
      else 480;
    if raw < 810 then raw else 810
  }

  /** No phase asks for more than 720, so the cap at 810 never changes the height. */
  lemma HeightCapNeverBinds(phase: int, inTransition: bool)
    ensures CalculatedHeight(phase, inTransition) <= 720
  {
  }

  class Onboarding {
    var phase: int
    var inTransition: bool
    var showCheckmark: bool
    var isStreaming: bool

    /**
     * The phase indexes `phases`; the detour only runs from a phase that
     * starts it; the checkmark only shows during the detour; a phase with
     * no description never stops streaming.
     */
    ghost predicate Valid()
      reads this
    {
      && 0 <= phase < PhaseCount
      && (inTransition ==> ValidatesOnChoice(phase))
      && (showCheckmark ==> inTransition)
      && (!HasDescription(phase) ==> isStreaming)
    }

    constructor()
      ensures Valid()
      ensures phase == 0 && !inTransition && !showCheckmark && isStreaming
    {
      phase := 0;
      inTransition := false;
      showCheckmark := false;
      isStreaming := true;
    }

    /** `setCurrentPhase(p)` and the effect it triggers: a new phase streams again. */
    method SetPhase(p: int)
      requires Valid() && !inTransition && 0 <= p < PhaseCount
      modifies this
      ensures Valid()
      ensures phase == p && inTransition == old(inTransition) && showCheckmark == old(showCheckmark)
      ensures isStreaming == (if p != old(phase) then true else old(isStreaming))
    {
      if p != phase {
        phase := p;
        isStreaming := true;
      }
    }

    /**
     * `handleSuggestionClick`, on an enabled suggestion button (shown
     * outside the detour, disabled while streaming): phases 5 and 6 start
     * the detour and keep the phase; others step forward, at most to 17.
     */
    method SuggestionClick()
      requires Valid() && !inTransition && !isStreaming && SuggestionCount(phase) > 0
      modifies this
      ensures Valid() && !showCheckmark
      ensures ValidatesOnChoice(old(phase)) ==> inTransition && phase == old(phase) && isStreaming == old(isStreaming)
      ensures !ValidatesOnChoice(old(phase)) ==> !inTransition && phase == Min(old(phase) + 1, LastPhase) && isStreaming
    {
      if phase == 5 || phase == 6 {
        inTransition := true;
      } else {
        SetPhase(Min(phase + 1, LastPhase));
      }
    }

    /** `handlePricingSelect`: phase 6 starts the detour; elsewhere the phase steps forward, at most to 17. */
    method PricingSelect()
      requires Valid() && !inTransition
      modifies this
      ensures Valid()
      ensures old(phase) == 6 ==> inTransition && phase == 6 && isStreaming == old(isStreaming)
      ensures old(phase) != 6 ==> !inTransition && phase == Min(old(phase) + 1, LastPhase)
      ensures old(phase) != 6 ==> isStreaming == (if old(phase) < LastPhase then true else old(isStreaming))
      ensures showCheckmark == old(showCheckmark)
    {
      if phase == 6 {
        inTransition := true;
      } else {
        SetPhase(Min(phase + 1, LastPhase));
      }
    }

    /** The header's Previous, shown for phases 1 to 7: one phase back, never below 0. */
    method HeaderPrevious()
      requires Valid() && !inTransition && 0 < phase <= LastHeaderPhase
      modifies this
      ensures Valid() && !inTransition
      ensures phase == Max(old(phase) - 1, 0) && phase < old(phase)
      ensures isStreaming && showCheckmark == old(showCheckmark)
    {
      SetPhase(Max(phase - 1, 0));
    }

    /** The header's Next, shown for phases 0 to 7: one phase on, never past 7. */
    method HeaderNext()
      requires Valid() && !inTransition && phase <= LastHeaderPhase
      modifies this
      ensures Valid() && !inTransition
      ensures phase == Min(old(phase) + 1, LastHeaderPhase) && phase <= LastHeaderPhase
      ensures isStreaming == (if old(phase) < LastHeaderPhase then true else old(isStreaming))
      ensures showCheckmark == old(showCheckmark)
    {
      SetPhase(Min(phase + 1, LastHeaderPhase));
    }

    /** The chevrons of phases 16 and 17: one phase back (never below 0) or on (never past 17). */
    method ChevronPrevious()
      requires Valid() && !inTransition && (phase == 16 || phase == 17)
      modifies this
      ensures Valid() && phase == Max(old(phase) - 1, 0)
    {
      SetPhase(Max(phase - 1, 0));
    }

    method ChevronNext()
      requires Valid() && !inTransition && (phase == 16 || phase == 17)
      modifies this
      ensures Valid() && phase == Min(old(phase) + 1, LastPhase)
    {
      SetPhase(Min(phase + 1, LastPhase));
    }

    /**
     * The direct jumps: the success screen's continue (12 to 13), "Test
     * Voice Mode" (14 to 15), the voice button (15 to 16) and "Try it now"
     * (16 to 17).
     */
    method Jump()
      requires Valid() && !inTransition && (phase == 12 || phase == 14 || phase == 15 || phase == 16)
      modifies this
      ensures Valid() && phase == old(phase) + 1 && isStreaming
    {
      SetPhase(phase + 1);
    }

    /** The description of this phase finished streaming: its suggestions become enabled. */
    method StreamingComplete()
      requires Valid() && !inTransition && HasDescription(phase)
      modifies this
      ensures Valid() && !isStreaming
      ensures phase == old(phase) && inTransition == old(inTransition) && showCheckmark == old(showCheckmark)
    {
      isStreaming := false;
    }

    /** The detour's one-second timer: the spinner gives way to the checkmark. */
    method CheckmarkTimerFires()
      requires Valid() && inTransition
      modifies this
      ensures Valid() && showCheckmark
      ensures phase == old(phase) && inTransition && isStreaming == old(isStreaming)
    {
      showCheckmark := true;
    }

    /** The detour's 1.8-second timer: both flags clear and the phase moves one on. */
    method TransitionComplete()
      requires Valid() && inTransition
      modifies this
      ensures Valid() && !inTransition && !showCheckmark
      ensures phase == old(phase) + 1 && isStreaming
    {
      inTransition := false;
      showCheckmark := false;
      SetPhase(phase + 1);
    }

    /** The three-second timers of phases 11 and 13: on to 12 and 14. */
    method AutoAdvanceFires()
      requires Valid() && !inTransition && (phase == 11 || phase == 13)
      modifies this
      ensures Valid() && phase == old(phase) + 1
    {
      SetPhase(phase + 1);
    }

    /** The label of the header's Previous. */
    function PreviousLabel(): (r: string)
      reads this
      requires 0 < phase <= LastHeaderPhase
      ensures r in PhaseTitles[..LastHeaderPhase]
    {
      PhaseTitles[phase - 1]
    }

    /** The label of the header's Next: in range of the nine titles for every header phase. */
    function NextLabel(): (r: string)
      reads this
      requires 0 <= phase <= LastHeaderPhase
      ensures r in PhaseTitles[1..]
    {
      PhaseTitles[phase + 1]
    }

    /** The height this state hands the container. */
    function Height(): (r: int)
      reads this
      ensures inTransition ==> r == 700
      ensures r <= 810
    {
      CalculatedHeight(phase, inTransition)
    }
  }

  /**
   * The suggestions of phase 6 are never enabled: it has no description,
   * so it never stops streaming, and only the pricing cards start its detour.
   */
  lemma NoSuggestionAtPaywall(w: Onboarding)
    requires w.Valid() && !w.isStreaming
    ensures w.phase != 6
  {
  }

  function Min(a: int, b: int): int { if a < b then a else b }
  function Max(a: int, b: int): int { if a > b then a else b }

  /**
   * The detour keeps the flow inside the header's range: choosing at
   * phase 5 or 6 and letting the detour finish lands on 6 or 7.
   */
  method ChooseThenValidate(w: Onboarding)
    requires w.Valid() && !w.inTransition && w.phase == 6
    modifies w
    ensures w.Valid() && !w.inTransition && w.phase == 7
  {
    w.PricingSelect();
    w.CheckmarkTimerFires();
    w.TransitionComplete();
  }
}
