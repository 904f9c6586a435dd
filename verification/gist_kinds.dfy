/**
 * The closed vocabularies of a gist (components/widgets/onboarding-widget/types.ts,
 * convex/schema.ts): its type, goal, audience, vibe and hero style, with
 * the strings they are written as and the parse back from a string.
 */
module GistKinds {
  import opened Wrappers

  datatype GistType = Person | Product | Place
  datatype Goal = Book | Buy | Waitlist
  datatype Audience = Prospects | Fans | Investors
  datatype Vibe = Friendly | Professional | Bold
  datatype HeroStyle = Image | Video | Gradient

  function TypeName(t: GistType): string {
    match t
    case Person => "person"
    case Product => "product"
    case Place => "place"
  }

  function GoalName(g: Goal): string {
    match g
    case Book => "book"
    case Buy => "buy"
    case Waitlist => "waitlist"
  }

  function AudienceName(a: Audience): string {
    match a
    case Prospects => "prospects"
    case Fans => "fans"
    case Investors => "investors"
  }

  function VibeName(v: Vibe): string {
    match v
    case Friendly => "friendly"
    case Professional => "professional"
    case Bold => "bold"
  }

  function HeroStyleName(h: HeroStyle): string {
    match h
    case Image => "image"
    case Video => "video"
    case Gradient => "gradient"
  }

  /** The enum check for a type: exactly the three names are accepted, each as its own value. */
  function ParseType(s: string): (r: Option<GistType>)
    ensures r.Some? <==> s == "person" || s == "product" || s == "place"
    ensures r.Some? ==> TypeName(r.value) == s
  {
    if s == "person" then Some(Person)
    else if s == "product" then Some(Product)
    else if s == "place" then Some(Place)
    else None
  }

  function ParseGoal(s: string): (r: Option<Goal>)
    ensures r.Some? <==> s == "book" || s == "buy" || s == "waitlist"
    ensures r.Some? ==> GoalName(r.value) == s
  {
    if s == "book" then Some(Book)
    else if s == "buy" then Some(Buy)
    else if s == "waitlist" then Some(Waitlist)
    else None
  }

  function ParseAudience(s: string): (r: Option<Audience>)
    ensures r.Some? <==> s == "prospects" || s == "fans" || s == "investors"
    ensures r.Some? ==> AudienceName(r.value) == s
  {
    if s == "prospects" then Some(Prospects)
    else if s == "fans" then Some(Fans)
    else if s == "investors" then Some(Investors)
    else None
  }

  function ParseVibe(s: string): (r: Option<Vibe>)
    ensures r.Some? <==> s == "friendly" || s == "professional" || s == "bold"
    ensures r.Some? ==> VibeName(r.value) == s
  {
    if s == "friendly" then Some(Friendly)
    else if s == "professional" then Some(Professional)
    else if s == "bold" then Some(Bold)
    else None
  }

  function ParseHeroStyle(s: string): (r: Option<HeroStyle>)
    ensures r.Some? <==> s == "image" || s == "video" || s == "gradient"
    ensures r.Some? ==> HeroStyleName(r.value) == s
  {
    if s == "image" then Some(Image)
    else if s == "video" then Some(Video)
    else if s == "gradient" then Some(Gradient)
    else None
  }

  /** Writing a value and parsing it back gives the value: the names are distinct. */
  lemma NamesRoundTrip(t: GistType, g: Goal, a: Audience, v: Vibe, h: HeroStyle)
    ensures ParseType(TypeName(t)) == Some(t)
    ensures ParseGoal(GoalName(g)) == Some(g)
    ensures ParseAudience(AudienceName(a)) == Some(a)
    ensures ParseVibe(VibeName(v)) == Some(v)
    ensures ParseHeroStyle(HeroStyleName(h)) == Some(h)
  {
  }
}
