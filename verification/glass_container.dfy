/**
 * The expanding glass container (components/ai-elements/glass_widget_container.tsx):
 * a collapsed pill that a first click widens to an intermediate width and a
 * second click expands, driven either by its own state or by a controlled
 * `isExpanded` prop.
 *
 * `onExpandChange` calls are recorded in `expandChanges`; the parent's
 * re-render with a new controlled value is the method `SetControlled`; the
 * animation callbacks are the methods `AnimationStart`/`AnimationComplete`.
 */
module GlassContainer {
  import opened Wrappers

  const IntermediateWidth := 234
  const DefaultCollapsedWidth := 128
  const DefaultCollapsedHeight := 48
  const DefaultExpandedWidth := 392
  const FallbackExpandedHeight := 300

  /** `expandedHeight || 300`: an absent or zero height falls back to 300. */
  function ExpandedHeightOr(expandedHeight: Option<int>): (r: int)
    ensures expandedHeight.Some? && expandedHeight.value != 0 ==> r == expandedHeight.value
    ensures expandedHeight.None? || expandedHeight.value == 0 ==> r == FallbackExpandedHeight
  {
    if expandedHeight.Some? && expandedHeight.value != 0 then expandedHeight.value else FallbackExpandedHeight
  }

  class Container {
    /** The controlled `isExpanded` prop; `None` when uncontrolled. */
    var controlled: Option<bool>
    var internalExpanded: bool
    var showIntermediate: bool
    var allowDynamicHeight: bool
    /** The arguments `onExpandChange` was called with, in order. */
    var expandChanges: seq<bool>
    const collapsedWidth: int
    const collapsedHeight: int
    const expandedWidth: int
    const expandedHeight: Option<int>

    /** `controlledIsExpanded ?? internalExpanded`. */
    function IsExpanded(): (r: bool)
      reads this
      ensures controlled.Some? ==> r == controlled.value
      ensures controlled.None? ==> r == internalExpanded
    {
      controlled.GetOr(internalExpanded)
    }

    /** Uncontrolled, the intermediate width is only ever shown while collapsed. */
    ghost predicate Valid()
      reads this
    {
      controlled.None? ==> (showIntermediate ==> !internalExpanded)
    }

    /** The props with their defaults (`defaultExpanded` false, widths 128 and 392, height 48). */
    constructor(controlledIsExpanded: Option<bool>, defaultExpanded: bool,
                collapsedWidthProp: Option<int>, collapsedHeightProp: Option<int>,
                expandedWidthProp: Option<int>, expandedHeightProp: Option<int>)
      ensures Valid()
      ensures controlled == controlledIsExpanded && internalExpanded == defaultExpanded
      ensures !showIntermediate && !allowDynamicHeight && expandChanges == []
      ensures collapsedWidth == collapsedWidthProp.GetOr(DefaultCollapsedWidth)
      ensures collapsedHeight == collapsedHeightProp.GetOr(DefaultCollapsedHeight)
      ensures expandedWidth == expandedWidthProp.GetOr(DefaultExpandedWidth)
      ensures expandedHeight == expandedHeightProp
    {
      controlled := controlledIsExpanded;
      internalExpanded := defaultExpanded;
      showIntermediate := false;
      allowDynamicHeight := false;
      expandChanges := [];
      collapsedWidth := collapsedWidthProp.GetOr(DefaultCollapsedWidth);
      collapsedHeight := collapsedHeightProp.GetOr(DefaultCollapsedHeight);
      expandedWidth := expandedWidthProp.GetOr(DefaultExpandedWidth);
      expandedHeight := expandedHeightProp;
    }

    /**
     * `handleToggle`: collapsed without the intermediate width, only that
     * width is shown; collapsed with it, the container asks to expand (and
     * expands itself when uncontrolled); expanded, it asks to collapse (and
     * collapses itself when uncontrolled). A controlled container never
     * touches its own state.
     */
    method Toggle()
      requires Valid()
      modifies this
      ensures Valid()
      ensures controlled == old(controlled) && allowDynamicHeight == old(allowDynamicHeight)
      ensures !old(IsExpanded()) && !old(showIntermediate) ==>
        showIntermediate && expandChanges == old(expandChanges) && internalExpanded == old(internalExpanded)
      ensures !old(IsExpanded()) && old(showIntermediate) ==>
        && !showIntermediate && expandChanges == old(expandChanges) + [true]
        && internalExpanded == (if controlled.None? then true else old(internalExpanded))
      ensures old(IsExpanded()) ==>
        && !showIntermediate && expandChanges == old(expandChanges) + [false]
        && internalExpanded == (if controlled.None? then false else old(internalExpanded))
      ensures controlled.Some? ==> internalExpanded == old(internalExpanded)
    {
      var expanded := IsExpanded();
      if !expanded && !showIntermediate {
        showIntermediate := true;
      } else if !expanded && showIntermediate {
        if controlled.None? {
          internalExpanded := true;
        }
        expandChanges := expandChanges + [true];
        showIntermediate := false;
      } else {
        if controlled.None? {
          internalExpanded := false;
        }
        expandChanges := expandChanges + [false];
        showIntermediate := false;
      }
    }

    /** A click on the container: it toggles only while collapsed. */
    method Click()
      requires Valid()
      modifies this
      ensures Valid()
      ensures controlled == old(controlled) && allowDynamicHeight == old(allowDynamicHeight)
      ensures old(IsExpanded()) ==>
        internalExpanded == old(internalExpanded) && showIntermediate == old(showIntermediate)
        && expandChanges == old(expandChanges)
      ensures !old(IsExpanded()) && !old(showIntermediate) ==>
        showIntermediate && expandChanges == old(expandChanges) && internalExpanded == old(internalExpanded)
      ensures !old(IsExpanded()) && old(showIntermediate) ==>
        && !showIntermediate && expandChanges == old(expandChanges) + [true]
        && internalExpanded == (if controlled.None? then true else old(internalExpanded))
    {
      if !IsExpanded() {
        Toggle();
      }
    }

    /** The parent renders the container with a new controlled value. */
    method SetControlled(value: bool)
      requires Valid() && controlled.Some?
      modifies this
      ensures Valid() && controlled == Some(value) && IsExpanded() == value
      ensures internalExpanded == old(internalExpanded) && showIntermediate == old(showIntermediate)
      ensures expandChanges == old(expandChanges) && allowDynamicHeight == old(allowDynamicHeight)
    {
      controlled := Some(value);
    }

    /** `onAnimationComplete`: once expanded, the height is left to the content. */
    method AnimationComplete()
      modifies this
      ensures allowDynamicHeight == (old(allowDynamicHeight) || IsExpanded())
      ensures controlled == old(controlled) && internalExpanded == old(internalExpanded)
      ensures showIntermediate == old(showIntermediate) && expandChanges == old(expandChanges)
    {
      if IsExpanded() && !allowDynamicHeight {
        allowDynamicHeight := true;
      }
    }

    /** `onAnimationStart`: a collapsing container returns to a fixed height. */
    method AnimationStart()
      modifies this
      ensures allowDynamicHeight == (old(allowDynamicHeight) && IsExpanded())
      ensures controlled == old(controlled) && internalExpanded == old(internalExpanded)
      ensures showIntermediate == old(showIntermediate) && expandChanges == old(expandChanges)
    {
      if !IsExpanded() && allowDynamicHeight {
        allowDynamicHeight := false;
      }
    }

    /** `getContainerWidth()`: the expanded width, else 234 while intermediate, else the collapsed width. */
    function Width(): (r: int)
      reads this
      ensures IsExpanded() ==> r == expandedWidth
      ensures !IsExpanded() && showIntermediate ==> r == IntermediateWidth
      ensures !IsExpanded() && !showIntermediate ==> r == collapsedWidth
    {
      if IsExpanded() then expandedWidth
      else if showIntermediate then IntermediateWidth
      else collapsedWidth
    }

    /** `getContainerHeight()`: `None` is `undefined`, the content's own height. */
    function Height(): (r: Option<int>)
      reads this
      ensures !IsExpanded() ==> r == Some(collapsedHeight)
      ensures IsExpanded() && allowDynamicHeight ==> r == None
      ensures IsExpanded() && !allowDynamicHeight ==> r == Some(ExpandedHeightOr(expandedHeight))
    {
      if !IsExpanded() then Some(collapsedHeight)
      else if allowDynamicHeight then None
      else Some(ExpandedHeightOr(expandedHeight))
    }
  }

  /**
   * The height the container animates to: `'auto'` (here `None`) once the
   * dynamic height is on, `getContainerHeight()` otherwise.
   */
  function AnimatedHeight(c: Container): (r: Option<int>)
    reads c
    ensures c.allowDynamicHeight ==> r == None
    ensures !c.allowDynamicHeight && !c.IsExpanded() ==> r == Some(c.collapsedHeight)
    ensures !c.allowDynamicHeight && c.IsExpanded() ==> r == Some(ExpandedHeightOr(c.expandedHeight))
  {
    if c.allowDynamicHeight then None else c.Height()
  }

  /**
   * Uncontrolled, two clicks on the collapsed pill pass through the
   * intermediate width to the expanded one, with one `onExpandChange(true)`.
   */
  method TwoClicksExpand(c: Container)
    requires c.Valid() && c.controlled.None? && !c.internalExpanded && !c.showIntermediate
    modifies c
    ensures c.Valid() && c.IsExpanded() && c.Width() == c.expandedWidth
    ensures c.expandChanges == old(c.expandChanges) + [true]
  {
    c.Click();
    assert c.Width() == IntermediateWidth;
    c.Click();
  }

  /**
   * Controlled, two clicks ask the parent to expand and change nothing of
   * the container's own until the parent answers.
   */
  method ControlledClicksAsk(c: Container)
    requires c.Valid() && c.controlled == Some(false) && !c.showIntermediate
    modifies c
    ensures c.Valid() && !c.IsExpanded() && c.internalExpanded == old(c.internalExpanded)
    ensures c.expandChanges == old(c.expandChanges) + [true]
  {
    c.Click();
    c.Click();
  }
}
