/**
 * The rotating "Searching through …" carousel
 * (components/animations/searching-animation.tsx): an index into the item
 * list that an interval advances cyclically, and the previous, current and
 * next items around it.
 *
 * The interval is the method `Tick`, called each time it fires; the props are
 * fixed for the life of the carousel.
 */
module SearchingAnimation {
  import opened Wrappers

  const DefaultItems: seq<string> := [
    "the web", "social media", "news articles", "trending topics",
    "expert sources", "latest updates"
  ]

  /** `(i - 1 + n) % n`: the index before `i`, wrapping to the last. */
  function PrevIndex(i: nat, n: nat): (r: nat)
    requires i < n
    ensures r < n
    ensures i > 0 ==> r == i - 1
    ensures i == 0 ==> r == n - 1
  {
    (i - 1 + n) % n
  }

  /** `(i + 1) % n`: the index after `i`, wrapping to the first. */
  function NextIndex(i: nat, n: nat): (r: nat)
    requires i < n
    ensures r < n
    ensures i < n - 1 ==> r == i + 1
    ensures i == n - 1 ==> r == 0
  {
    (i + 1) % n
  }

  /** Stepping forward undoes stepping back, and the other way round. */
  lemma PrevNextInverse(i: nat, n: nat)
    requires i < n
    ensures NextIndex(PrevIndex(i, n), n) == i
    ensures PrevIndex(NextIndex(i, n), n) == i
  {
  }

  datatype Visible = Visible(prev: string, current: string, next: string)

  /**
   * `getVisibleItems()`: the items around `index`; for an empty list every
   * lookup is `undefined`, here `None`.
   */
  function VisibleItems(items: seq<string>, index: nat): (r: Option<Visible>)
    requires items == [] || index < |items|
    ensures r.None? <==> items == []
    ensures r.Some? ==>
      && r.value.current == items[index]
      && r.value.prev == items[PrevIndex(index, |items|)]
      && r.value.next == items[NextIndex(index, |items|)]
  {
    if items == [] then None
    else Some(Visible(items[PrevIndex(index, |items|)], items[index], items[NextIndex(index, |items|)]))
  }

  /** With one item, previous, current and next are that item. */
  lemma SingleItemEverywhere(item: string)
    ensures VisibleItems([item], 0) == Some(Visible(item, item, item))
  {
  }

  /** Where the index is after `k` ticks from `start`. */
  function After(start: nat, k: nat, n: nat): (r: nat)
    requires start < n
    ensures r < n
    decreases k
  {
    if k == 0 then start else NextIndex(After(start, k - 1, n), n)
  }

  /** `(start + k) % n` for `k <= n`, written without the remainder. */
  function Shift(start: nat, k: nat, n: nat): (r: nat)
    requires start < n && k <= n
  {
    if start + k < n then start + k else start + k - n
  }

  /** Up to a full round, `k` ticks move the index `k` places on, cyclically. */
  lemma {:induction false} AfterIsShift(start: nat, k: nat, n: nat)
    requires start < n && k <= n
    ensures After(start, k, n) == Shift(start, k, n)
    decreases k
  {
    if k > 0 {
      AfterIsShift(start, k - 1, n);
    }
  }

  /**
   * A full round: `n` ticks return to the start, and the first `n` ticks
   * stop on `n` different items, so every item is shown once.
   */
  lemma FullRound(start: nat, n: nat)
    requires start < n
    ensures After(start, n, n) == start
    ensures forall j, k :: 0 <= j < k < n ==> After(start, j, n) != After(start, k, n)
  {
    AfterIsShift(start, n, n);
    forall j, k | 0 <= j < k < n
      ensures After(start, j, n) != After(start, k, n)
    {
      AfterIsShift(start, j, n);
      AfterIsShift(start, k, n);
    }
  }

  class Carousel {
    const items: seq<string>
    const isActive: bool
    var index: nat

    ghost predicate Valid()
      reads this
    {
      items == [] || index < |items|
    }

    /** The props with their defaults; the index starts at 0. */
    constructor(itemsProp: Option<seq<string>>, isActiveProp: Option<bool>)
      ensures Valid() && index == 0
      ensures items == itemsProp.GetOr(DefaultItems) && isActive == isActiveProp.GetOr(true)
    {
      items := itemsProp.GetOr(DefaultItems);
      isActive := isActiveProp.GetOr(true);
      index := 0;
    }

    /** Whether the effect starts the interval: only when active and with more than one item. */
    predicate Rotates()
      reads this
    {
      isActive && |items| > 1
    }

    /** The interval fires: the index moves one place on, wrapping to 0. */
    method Tick()
      requires Valid() && Rotates()
      modifies this
      ensures Valid() && index == NextIndex(old(index), |items|)
    {
      index := (index + 1) % |items|;
    }

    /** The items on show. */
    function Shown(): (r: Option<Visible>)
      reads this
      requires Valid()
      ensures r.None? <==> items == []
      ensures r.Some? ==> r.value.current == items[index]
    {
      VisibleItems(items, index)
    }
  }
}
