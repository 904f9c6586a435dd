/**
 * The content templates of a gist (lib/gist-templates.ts): the hero
 * headline built around the title, the subhead table indexed by goal and
 * vibe, the tile list of each gist type, and the styling of each vibe.
 */
module GistTemplates {
  import opened Text
  import opened GistKinds
  import opened Generator

  /** `audienceMap[audience]`. */
  function AudienceWord(a: Audience): string {
    match a
    case Prospects => "Professionals"
    case Fans => "Enthusiasts"
    case Investors => "Partners"
  }

  /** The text a type's headline puts before the title. */
  function HeadlineLead(t: GistType): string {
    match t
    case Person => ""
    case Product => "Introducing "
    case Place => "Visit "
  }

  /** The text a type's headline puts after the title. */
  function HeadlineTail(t: GistType, a: Audience): string {
    match t
    case Person => " - " + AudienceWord(a) + " Expert"
    case Product => " for " + AudienceWord(a)
    case Place => " - Perfect for " + AudienceWord(a)
  }

  /**
   * `generateHeroHeadline(type, title, audience)`: the title, unchanged,
   * between a lead fixed by the type and a tail naming the audience.
   */
  function HeroHeadline(t: GistType, title: string, a: Audience): (r: string)
    ensures r == HeadlineLead(t) + title + HeadlineTail(t, a)
    ensures OccursAt(title, r, |HeadlineLead(t)|)
  {
    var r := match t
      case Person => title + " - " + AudienceWord(a) + " Expert"
      case Product => "Introducing " + title + " for " + AudienceWord(a)
      case Place => "Visit " + title + " - Perfect for " + AudienceWord(a);
    assert r == HeadlineLead(t) + title + HeadlineTail(t, a);
    assert r[|HeadlineLead(t)|..|HeadlineLead(t)| + |title|] == title;
    r
  }

  /**
   * The headline gives the title back: two titles that make the same
   * headline for the same type and audience are the same title.
   */
  lemma HeadlineDeterminesTitle(t: GistType, a: Audience, x: string, y: string)
    requires HeroHeadline(t, x, a) == HeroHeadline(t, y, a)
    ensures x == y
  {
    var h := HeroHeadline(t, x, a);
    var k := |HeadlineLead(t)|;
    assert |x| == |y|;
    assert x == h[k..k + |x|] == y;
  }

  /** `generateHeroSubhead(goal, vibe)`: one entry of the goal-by-vibe table. */
  function HeroSubhead(goal: Goal, vibe: Vibe): (r: string)
    ensures |r| > 0
  {
    match goal
    case Book =>
      (match vibe
       case Friendly => "Let's connect! Schedule a time that works for you."
       case Professional => "Schedule a consultation to discuss your needs."
       case Bold => "Ready to take the next step? Book your session now.")
    case Buy =>
      (match vibe
       case Friendly => "Get yours today and join our community!"
       case Professional => "Secure your purchase with confidence."
       case Bold => "Don't wait. Get it now while supplies last.")
    case Waitlist =>
      (match vibe
       case Friendly => "Be the first to know! Join our exclusive list."
       case Professional => "Register your interest for early access."
       case Bold => "Join the waitlist and get ahead of the curve.")
  }

  predicate DistinctIds(tiles: seq<Tile>) {
    forall i, j :: 0 <= i < j < |tiles| ==> tiles[i].id != tiles[j].id
  }

  /** The ids of `tiles`, in order. */
  function Ids(tiles: seq<Tile>): (r: seq<string>)
    ensures |r| == |tiles| && forall i :: 0 <= i < |tiles| ==> r[i] == tiles[i].id
  {
    if tiles == [] then [] else [tiles[0].id] + Ids(tiles[1..])
  }

  /** One entry of the tile templates: a type's tile, named by the type and the tile id. */
  datatype TileKey =
    | Bio | Highlights | Contact | PersonFaq
    | Features | Benefits | Pricing | ProductReviews | ProductFaq
    | About | Visit | Gallery | PlaceReviews | PlaceFaq

  /** The tile keys of each type, in the order the templates list them. */
  function TileKeys(t: GistType): seq<TileKey> {
    match t
    case Person => [Bio, Highlights, Contact, PersonFaq]
    case Product => [Features, Benefits, Pricing, ProductReviews, ProductFaq]
    case Place => [About, Visit, Gallery, PlaceReviews, PlaceFaq]
  }

  /** The id a template gives its tile. */
  function TileId(k: TileKey): string {
    match k
    case Bio => "bio"
    case Highlights => "highlights"
    case Contact => "contact"
    case Features => "features"
    case Benefits => "benefits"
    case Pricing => "pricing"
    case About => "about"
    case Visit => "visit"
    case Gallery => "gallery"
    case ProductReviews | PlaceReviews => "reviews"
    case PersonFaq | ProductFaq | PlaceFaq => "faq"
  }

  /** The kind, title and content a template gives a tile. */
  function TileText(k: TileKey): (string, string, string) {
    match k
    case Bio => ("text", "About Me", "Learn more about my background, experience, and what drives me.")
    case Highlights => ("list", "Key Highlights", "Notable achievements, credentials, and areas of expertise.")
    case Contact => ("link", "Get in Touch", "Let's connect and explore how we can work together.")
    case PersonFaq => ("text", "FAQ", "Answers to commonly asked questions about my services.")
    case Features => ("list", "Key Features", "Everything you need to know about what makes this special.")
    case Benefits => ("text", "Benefits", "How this product will improve your life or workflow.")
    case Pricing => ("link", "Pricing", "Simple, transparent pricing that fits your budget.")
    case ProductReviews => ("text", "What People Say", "Real testimonials from satisfied customers.")
    case ProductFaq => ("text", "FAQ", "Common questions about features, pricing, and support.")
    case About => ("text", "About This Place", "Discover the story and unique character of this location.")
    case Visit => ("link", "Plan Your Visit", "Hours, location, and everything you need to know.")
    case Gallery => ("image", "Photo Gallery", "See stunning images and virtual tours.")
    case PlaceReviews => ("text", "Visitor Reviews", "What others are saying about their experience.")
    case PlaceFaq => ("text", "FAQ", "Answers to frequently asked questions about visiting.")
  }

  /** The tile a template entry stands for. */
  function TileOf(k: TileKey): (r: Tile)
    ensures r.id == TileId(k)
  {
    var (kind, title, content) := TileText(k);
    Tile(TileId(k), kind, title, content)
  }

  /**
   * `generateTilesForType(type)`: four tiles for a person, five for a
   * product or a place, with distinct ids, the last one always the FAQ.
   */
  function TilesForType(t: GistType): (r: seq<Tile>)
    ensures |r| == (if t == Person then 4 else 5)
    ensures DistinctIds(r)
    ensures r[|r| - 1].id == "faq"
  {
    var keys := TileKeys(t);
    TileKeysShape(t);
    seq(|keys|, i requires 0 <= i < |keys| => TileOf(keys[i]))
  }

  /** Each type's keys: how many, ids pairwise different, the FAQ last. */
  lemma TileKeysShape(t: GistType)
    ensures var ks := TileKeys(t);
      && |ks| == (if t == Person then 4 else 5)
      && (forall i, j :: 0 <= i < j < |ks| ==> TileId(ks[i]) != TileId(ks[j]))
      && TileId(ks[|ks| - 1]) == "faq"
  {
  }

  /** The style settings of a vibe. */
  datatype Styling = Styling(primaryColor: string, typography: string, tone: string)

  predicate IsHexDigit(c: char) {
    '0' <= c <= '9' || 'A' <= c <= 'F' || 'a' <= c <= 'f'
  }

  /** A `#RRGGBB` color. */
  predicate IsHexColor(s: string) {
    |s| == 7 && s[0] == '#' && forall i :: 1 <= i < 7 ==> IsHexDigit(s[i])
  }

  /** `applyVibeStyling(vibe)`: each vibe its own `#RRGGBB` color, typography and tone. */
  function VibeStyling(v: Vibe): (r: Styling)
    ensures IsHexColor(r.primaryColor)
  {
    match v
    case Friendly => Styling("#FF6B6B", "rounded", "casual")
    case Professional => Styling("#4A5568", "serif", "formal")
    case Bold => Styling("#9333EA", "sans-serif-bold", "energetic")
  }

  /** No two vibes share a color, a typography or a tone. */
  lemma VibeStylingsDistinct(v: Vibe, w: Vibe)
    requires v != w
    ensures VibeStyling(v).primaryColor != VibeStyling(w).primaryColor
    ensures VibeStyling(v).typography != VibeStyling(w).typography
    ensures VibeStyling(v).tone != VibeStyling(w).tone
  {
  }
}
