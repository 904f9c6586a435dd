/**
 * The gist content generator (lib/generator.ts): `generateSlug`, the
 * call-to-action text and the placeholder content built from scraped
 * metadata.
 *
 * `generateSlug(title)` lowercases the title, replaces every run of
 * characters outside `[a-z0-9]` by one hyphen, and strips the hyphens left at
 * either end. Lowercasing is modelled for ASCII letters only.
 */
module Generator {
  import opened Wrappers
  import opened GistKinds

  predicate IsAlnum(c: char) { 'a' <= c <= 'z' || '0' <= c <= '9' }

  /** A character of `[a-z0-9-]`. */
  predicate IsSlugChar(c: char) { IsAlnum(c) || c == '-' }

  /** `/^[a-z0-9-]+$/.test(s)`: one or more slug characters. */
  predicate MatchesSlugPattern(s: string) {
    |s| >= 1 && forall i :: 0 <= i < |s| ==> IsSlugChar(s[i])
  }

  predicate NoDoubleHyphen(s: string) {
    forall i :: 0 <= i < |s| - 1 ==> !(s[i] == '-' && s[i + 1] == '-')
  }

  /** What `generateSlug` produces: slug characters only, single hyphens, none at either end. */
  predicate IsCleanSlug(s: string) {
    && (forall i :: 0 <= i < |s| ==> IsSlugChar(s[i]))
    && NoDoubleHyphen(s)
    && (s != [] ==> s[0] != '-' && s[|s| - 1] != '-')
  }

  function LowerChar(c: char): char {
    if 'A' <= c <= 'Z' then (c as int + 32) as char else c
  }

  /** `toLowerCase()` on ASCII letters. */
  function Lower(s: string): (r: string)
    ensures |r| == |s|
    ensures forall i :: 0 <= i < |s| ==> r[i] == LowerChar(s[i])
  {
    if s == [] then [] else [LowerChar(s[0])] + Lower(s[1..])
  }

  /** The characters of `s` in `[a-z0-9]`, in order. */
  function AlnumOnly(s: string): (r: string) {
    if s == [] then [] else (if IsAlnum(s[0]) then [s[0]] else []) + AlnumOnly(s[1..])
  }

  /** `s` without its hyphens. */
  function RemoveHyphens(s: string): (r: string) {
    if s == [] then [] else (if s[0] == '-' then [] else [s[0]]) + RemoveHyphens(s[1..])
  }

  /** The rest of `s` after its leading run of characters outside `[a-z0-9]`. */
  function DropRun(s: string): (r: string)
    ensures |r| <= |s|
    ensures r != [] ==> r[|r| - 1] == s[|s| - 1]
    ensures r == [] || IsAlnum(r[0])
    ensures AlnumOnly(r) == AlnumOnly(s)
  {
    if s != [] && !IsAlnum(s[0]) then DropRun(s[1..]) else s
  }

  /**
   * `.replace(/[^a-z0-9]+/g, "-")`: each maximal run outside `[a-z0-9]`
   * becomes one hyphen. The result holds only slug characters and no doubled
   * hyphen, starts with a hyphen exactly when `s` starts with such a run, and
   * keeps the `[a-z0-9]` characters of `s` in order.
   */
  function CollapseRuns(s: string): (r: string)
    ensures forall i :: 0 <= i < |r| ==> IsSlugChar(r[i])
    ensures NoDoubleHyphen(r)
    ensures r == [] <==> s == []
    ensures r != [] ==> (r[0] == '-' <==> !IsAlnum(s[0]))
    ensures RemoveHyphens(r) == AlnumOnly(s)
    decreases |s|
  {
    if s == [] then []
    else if IsAlnum(s[0]) then
      var rest := CollapseRuns(s[1..]);
      assert ([s[0]] + rest)[1..] == rest;
      [s[0]] + rest
    else
      var tail := DropRun(s[1..]);
      var rest := CollapseRuns(tail);
      assert (['-'] + rest)[1..] == rest;
      ['-'] + rest
  }

  /** Dropping a run that ends inside `x` leaves what follows `x` untouched. */
  lemma {:induction false} DropRunAppend(x: string, y: string)
    requires x != [] && IsAlnum(x[|x| - 1])
    ensures DropRun(x + y) == DropRun(x) + y
    decreases |x|
  {
    if !IsAlnum(x[0]) {
      assert (x + y)[1..] == x[1..] + y;
      DropRunAppend(x[1..], y);
    }
  }

  /** A run of separators is dropped entirely, up to the next `[a-z0-9]` character. */
  lemma {:induction false} DropSeparators(run: string, s: string)
    requires forall i :: 0 <= i < |run| ==> !IsAlnum(run[i])
    requires s == [] || IsAlnum(s[0])
    ensures DropRun(run + s) == s
    decreases |run|
  {
    if run == [] {
      assert run + s == s;
    } else {
      assert (run + s)[1..] == run[1..] + s;
      DropSeparators(run[1..], s);
    }
  }

  /**
   * Collapsing works piece by piece when the first piece ends in an
   * `[a-z0-9]` character: no run of separators straddles the cut.
   */
  lemma {:induction false} CollapseRunsAppend(x: string, y: string)
    requires x == [] || IsAlnum(x[|x| - 1])
    ensures CollapseRuns(x + y) == CollapseRuns(x) + CollapseRuns(y)
    decreases |x|
  {
    if x == [] {
      assert x + y == y;
    } else if IsAlnum(x[0]) {
      assert (x + y)[1..] == x[1..] + y;
      CollapseRunsAppend(x[1..], y);
    } else {
      assert (x + y)[1..] == x[1..] + y;
      DropRunAppend(x[1..], y);
      CollapseRunsAppend(DropRun(x[1..]), y);
    }
  }

  /** A non-empty run of separators before a word, or at the end, becomes exactly one hyphen. */
  lemma CollapseRunOfSeparators(run: string, s: string)
    requires run != [] && forall i :: 0 <= i < |run| ==> !IsAlnum(run[i])
    requires s == [] || IsAlnum(s[0])
    ensures CollapseRuns(run + s) == "-" + CollapseRuns(s)
  {
    assert (run + s)[1..] == run[1..] + s;
    DropSeparators(run[1..], s);
  }

  /**
   * Two words of `[a-z0-9]` with separators between them become the two
   * words joined by one hyphen: "hello world" gives "hello-world".
   */
  lemma SlugJoinsWords(x: string, sep: string, y: string)
    requires x != [] && forall i :: 0 <= i < |x| ==> IsAlnum(x[i])
    requires y != [] && forall i :: 0 <= i < |y| ==> IsAlnum(y[i])
    requires sep != [] && forall i :: 0 <= i < |sep| ==> !IsAlnum(LowerChar(sep[i]))
    ensures GenerateSlug(x + sep + y) == x + "-" + y
  {
    var low := Lower(sep);
    var c := x + "-" + y;
    LowerWords(x, sep, y);
    CollapseRunsAppend(x, low + y);
    CollapseRunOfSeparators(low, y);
    CollapseKeepsSlug(x);
    CollapseKeepsSlug(y);
    AppendAssoc(x, "-", y);
    assert CollapseRuns(Lower(x + sep + y)) == c;
    TrimsKeepWords(x, y);
  }

  /** Lowercasing leaves the words alone and lowers only the separators. */
  lemma LowerWords(x: string, sep: string, y: string)
    requires forall i :: 0 <= i < |x| ==> IsAlnum(x[i])
    requires forall i :: 0 <= i < |y| ==> IsAlnum(y[i])
    ensures Lower(x + sep + y) == x + (Lower(sep) + y)
  {
    LowerAppend(x + sep, y);
    LowerAppend(x, sep);
    LowerKeepsSlug(x);
    LowerKeepsSlug(y);
    AppendAssoc(x, Lower(sep), y);
  }

  lemma AppendAssoc(a: string, b: string, c: string)
    ensures a + b + c == a + (b + c)
  {
  }

  /** Lowercasing works character by character, so piece by piece. */
  lemma LowerAppend(a: string, b: string)
    ensures Lower(a + b) == Lower(a) + Lower(b)
  {
    forall i | 0 <= i < |a + b| ensures Lower(a + b)[i] == (Lower(a) + Lower(b))[i] {
      if i < |a| {
        assert (a + b)[i] == a[i];
      } else {
        assert (a + b)[i] == b[i - |a|];
      }
    }
  }

  /** Two words joined by a hyphen have no hyphen at either end to trim. */
  lemma TrimsKeepWords(x: string, y: string)
    requires x != [] && IsAlnum(x[0])
    requires y != [] && IsAlnum(y[|y| - 1])
    ensures TrimTrailingHyphens(TrimLeadingHyphens(x + "-" + y)) == x + "-" + y
  {
    var c := x + "-" + y;
    assert c != [] && c[0] == x[0] != '-';
    assert TrimLeadingHyphens(c) == c;
    assert c[|c| - 1] == y[|y| - 1] != '-';
  }

  /** `.replace(/^-+/, "")`. */
  function TrimLeadingHyphens(s: string): (r: string)
    ensures r == [] || r[0] != '-'
    ensures |r| <= |s| && r == s[|s| - |r|..]
    ensures RemoveHyphens(r) == RemoveHyphens(s)
  {
    if s != [] && s[0] == '-' then TrimLeadingHyphens(s[1..]) else s
  }

  /** `.replace(/-+$/, "")`. */
  function TrimTrailingHyphens(s: string): (r: string)
    ensures r == [] || r[|r| - 1] != '-'
    ensures |r| <= |s| && r == s[..|r|]
    ensures RemoveHyphens(r) == RemoveHyphens(s)
  {
    if s != [] && s[|s| - 1] == '-' then
      RemoveHyphensAppend(s[..|s| - 1], "-");
      assert s[..|s| - 1] + "-" == s;
      TrimTrailingHyphens(s[..|s| - 1])
    else s
  }

  lemma {:induction false} RemoveHyphensAppend(a: string, b: string)
    ensures RemoveHyphens(a + b) == RemoveHyphens(a) + RemoveHyphens(b)
  {
    if a == [] {
      assert a + b == b;
    } else {
      assert (a + b)[1..] == a[1..] + b;
      RemoveHyphensAppend(a[1..], b);
    }
  }

  /** `generateSlug(title)`. */
  function GenerateSlug(title: string): (r: string)
    ensures IsCleanSlug(r)
    ensures RemoveHyphens(r) == AlnumOnly(Lower(title))
  {
    var collapsed := CollapseRuns(Lower(title));
    var lead := TrimLeadingHyphens(collapsed);
    var r := TrimTrailingHyphens(lead);
    SlugShapeKept(collapsed, lead, r);
    r
  }

  /** Cutting characters off the ends keeps the charset and the single hyphens. */
  lemma SlugShapeKept(collapsed: string, lead: string, r: string)
    requires forall i :: 0 <= i < |collapsed| ==> IsSlugChar(collapsed[i])
    requires NoDoubleHyphen(collapsed)
    requires |lead| <= |collapsed| && lead == collapsed[|collapsed| - |lead|..] && (lead == [] || lead[0] != '-')
    requires |r| <= |lead| && r == lead[..|r|] && (r == [] || r[|r| - 1] != '-')
    ensures IsCleanSlug(r)
  {
    var off := |collapsed| - |lead|;
    assert forall i :: 0 <= i < |r| ==> r[i] == lead[i] == collapsed[off + i];
    assert r != [] ==> r[0] == lead[0];
  }

  /**
   * A clean slug is its own slug: lowercasing, collapsing and trimming all
   * leave it as it is.
   */
  lemma CleanSlugIsFixed(s: string)
    requires IsCleanSlug(s)
    ensures GenerateSlug(s) == s
  {
    LowerKeepsSlug(s);
    CollapseKeepsSlug(s);
  }

  /** `generateSlug` is idempotent. */
  lemma GenerateSlugIdempotent(title: string)
    ensures GenerateSlug(GenerateSlug(title)) == GenerateSlug(title)
  {
    CleanSlugIsFixed(GenerateSlug(title));
  }

  lemma LowerKeepsSlug(s: string)
    requires forall i :: 0 <= i < |s| ==> IsSlugChar(s[i])
    ensures Lower(s) == s
  {
  }

  /** A leading `[a-z0-9]` character is kept as it is. */
  lemma CollapseWordStep(s: string)
    requires s != [] && IsAlnum(s[0])
    ensures CollapseRuns(s) == [s[0]] + CollapseRuns(s[1..])
  {
  }

  /** A lone hyphen before a word stays one hyphen. */
  lemma CollapseHyphenStep(s: string)
    requires |s| >= 2 && !IsAlnum(s[0]) && IsAlnum(s[1])
    ensures CollapseRuns(s) == ['-'] + CollapseRuns(s[1..])
  {
    assert DropRun(s[1..]) == s[1..];
  }

  lemma {:induction false} CollapseKeepsSlug(s: string)
    requires forall i :: 0 <= i < |s| ==> IsSlugChar(s[i])
    requires NoDoubleHyphen(s)
    requires s != [] ==> s[|s| - 1] != '-'
    ensures CollapseRuns(s) == s
    decreases |s|
  {
    if s != [] {
      var t := s[1..];
      if IsAlnum(s[0]) {
        CollapseWordStep(s);
      } else {
        assert |s| >= 2 && s[1] != '-' && IsSlugChar(s[1]);
        CollapseHyphenStep(s);
      }
      CollapseKeepsSlug(t);
      assert s == [s[0]] + t;
    }
  }

  /** `getCtaText(goal)`. */
  function CtaText(goal: Goal): (r: string)
    ensures goal == Book ==> r == "Book Now"
    ensures goal == Buy ==> r == "Buy Now"
    ensures goal == Waitlist ==> r == "Join Waitlist"
  {
    match goal
    case Book => "Book Now"
    case Buy => "Buy Now"
    case Waitlist => "Join Waitlist"
  }

  /** `ScrapedData` (lib/scraper.ts). */
  datatype ScrapedData = ScrapedData(title: Option<string>, description: Option<string>, ogImage: Option<string>, primaryColor: Option<string>)

  datatype Hero = Hero(headline: string, subhead: string, style: string, mediaUrl: Option<string>, cta: string)
  datatype Tile = Tile(id: string, kind: string, title: string, content: string)
  datatype GeneratedContent = GeneratedContent(hero: Hero, tiles: seq<Tile>)

  /** `value || fallback` for an optional string. */
  function OrElse(value: Option<string>, fallback: string): (r: string)
    ensures value.Some? && value.value != "" ==> r == value.value
    ensures value.None? || value.value == "" ==> r == fallback
  {
    if value.Some? && value.value != "" then value.value else fallback
  }

  const GeneratedTiles: seq<Tile> := [
    Tile("1", "text", "About", "This is a generated content tile. In production, this would contain actual content from the source URL."),
    Tile("2", "link", "Learn More", "Visit our website for more information"),
    Tile("3", "text", "Contact", "Get in touch with us for inquiries")
  ]

  /**
   * `generateGistContent(scraped, type, goal)`: the hero takes the scraped
   * title and description (with fixed fallbacks when absent or empty), the
   * gradient style, the scraped image and the goal's call to action; the
   * three placeholder tiles are fixed. The gist type only reaches the log.
   */
  function GenerateGistContent(scraped: ScrapedData, gistType: GistType, goal: Goal): (r: GeneratedContent)
    ensures r.hero.headline == OrElse(scraped.title, "Welcome to My Gist")
    ensures r.hero.subhead == OrElse(scraped.description, "Discover everything you need to know in one place")
    ensures r.hero.style == "gradient" && r.hero.mediaUrl == scraped.ogImage && r.hero.cta == CtaText(goal)
    ensures |r.tiles| == 3 && r.tiles[0].id == "1" && r.tiles[1].id == "2" && r.tiles[2].id == "3"
    ensures forall i, j :: 0 <= i < j < |r.tiles| ==> r.tiles[i].id != r.tiles[j].id
  {
    var hero := Hero(
      OrElse(scraped.title, "Welcome to My Gist"),
      OrElse(scraped.description, "Discover everything you need to know in one place"),
      "gradient",
      scraped.ogImage,
      CtaText(goal));
    GeneratedContent(hero, GeneratedTiles)
  }
}
