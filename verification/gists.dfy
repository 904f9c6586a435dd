/**
 * The `gists` table and its Convex functions (convex/gists.ts,
 * convex/schema.ts): three queries and three mutations over one table whose
 * documents are kept in creation order.
 *
 * Convex assigns each inserted document an id and a creation time; here the
 * id is a counter the table keeps, creation order is the order of `docs`,
 * and `Date.now()` is the parameter `now`. The indexes `by_slug`, `by_user`
 * and `by_status` order equal keys by creation time, so `.first()` on
 * `by_slug` is the oldest match and `.order("desc")` is newest first.
 */
module Gists {
  import opened Wrappers
  import opened GistKinds
  import opened Generator
  import opened Text

  datatype Status = Preview | Public

  /** The arguments of `createGist`. */
  datatype GistArgs = GistArgs(
    slug: string, gistType: GistType, title: string, goal: Goal,
    audience: string, vibe: string, sourceUrl: string, userId: string,
    hero: Hero, tiles: seq<Tile>, scraped: ScrapedData)

  /** A document of the `gists` table. */
  datatype Gist = Gist(
    id: nat, slug: string, status: Status, gistType: GistType, title: string,
    goal: Goal, audience: string, vibe: string, sourceUrl: string,
    userId: string, hero: Hero, tiles: seq<Tile>, scraped: ScrapedData,
    createdAt: int)

  /** The `updates` of `updateGist`: every field but the slug, the owner and the creation time. */
  datatype GistPatch = GistPatch(
    status: Option<Status>, gistType: Option<GistType>, title: Option<string>,
    goal: Option<Goal>, audience: Option<string>, vibe: Option<string>,
    sourceUrl: Option<string>, hero: Option<Hero>, tiles: Option<seq<Tile>>,
    scraped: Option<ScrapedData>)

  const NoChanges := GistPatch(None, None, None, None, None, None, None, None, None, None)

  /** The fields of a stored gist that `createGist` took from its arguments. */
  function ArgsOf(g: Gist): GistArgs {
    GistArgs(g.slug, g.gistType, g.title, g.goal, g.audience, g.vibe,
      g.sourceUrl, g.userId, g.hero, g.tiles, g.scraped)
  }

  /** The document `createGist` inserts: the arguments, in preview, stamped `now`. */
  function NewGist(id: nat, a: GistArgs, now: int): (g: Gist)
    ensures ArgsOf(g) == a
    ensures g.id == id && g.status == Preview && g.createdAt == now
  {
    Gist(id, a.slug, Preview, a.gistType, a.title, a.goal, a.audience, a.vibe,
      a.sourceUrl, a.userId, a.hero, a.tiles, a.scraped, now)
  }

  /**
   * `ctx.db.patch(id, updates)`: each field given in the patch replaces the
   * stored one, the others stay; the slug, the owner, the id and the
   * creation time never change.
   */
  function ApplyPatch(g: Gist, p: GistPatch): (r: Gist)
    ensures r.id == g.id && r.slug == g.slug && r.userId == g.userId && r.createdAt == g.createdAt
    ensures p.title.Some? ==> r.title == p.title.value
    ensures p.title.None? ==> r.title == g.title
    ensures p.status.Some? ==> r.status == p.status.value
    ensures p.status.None? ==> r.status == g.status
    ensures r.gistType == p.gistType.GetOr(g.gistType) && r.goal == p.goal.GetOr(g.goal)
    ensures r.audience == p.audience.GetOr(g.audience) && r.vibe == p.vibe.GetOr(g.vibe)
    ensures r.sourceUrl == p.sourceUrl.GetOr(g.sourceUrl) && r.hero == p.hero.GetOr(g.hero)
    ensures r.tiles == p.tiles.GetOr(g.tiles) && r.scraped == p.scraped.GetOr(g.scraped)
  {
    Gist(g.id, g.slug, p.status.GetOr(g.status), p.gistType.GetOr(g.gistType),
      p.title.GetOr(g.title), p.goal.GetOr(g.goal), p.audience.GetOr(g.audience),
      p.vibe.GetOr(g.vibe), p.sourceUrl.GetOr(g.sourceUrl), g.userId,
      p.hero.GetOr(g.hero), p.tiles.GetOr(g.tiles), p.scraped.GetOr(g.scraped),
      g.createdAt)
  }

  /** An empty patch changes nothing. */
  lemma NoChangesIsIdentity(g: Gist)
    ensures ApplyPatch(g, NoChanges) == g
  {
  }

  /** Applying the same patch twice is applying it once. */
  lemma PatchIdempotent(g: Gist, p: GistPatch)
    ensures ApplyPatch(ApplyPatch(g, p), p) == ApplyPatch(g, p)
  {
  }

  /** Documents in creation order: ids strictly increase. */
  predicate IdsIncreasing(docs: seq<Gist>) {
    forall i, j :: 0 <= i < j < |docs| ==> docs[i].id < docs[j].id
  }

  predicate IdsBelow(docs: seq<Gist>, n: nat) {
    forall i :: 0 <= i < |docs| ==> docs[i].id < n
  }

  /** No two documents share a slug. */
  predicate SlugsUnique(docs: seq<Gist>) {
    forall i, j :: 0 <= i < j < |docs| ==> docs[i].slug != docs[j].slug
  }

  /** Ids strictly decrease: newest first. */
  predicate NewestFirst(docs: seq<Gist>) {
    forall i, j :: 0 <= i < j < |docs| ==> docs[i].id > docs[j].id
  }

  /** `k` is the first position holding `slug`. */
  predicate FirstWithSlug(docs: seq<Gist>, slug: string, k: int) {
    0 <= k < |docs| && docs[k].slug == slug && forall i :: 0 <= i < k ==> docs[i].slug != slug
  }

  /** The oldest document with this slug, as `withIndex("by_slug", …).first()` finds it. */
  function FindSlug(docs: seq<Gist>, slug: string): (r: Option<Gist>)
    ensures r.None? <==> forall i :: 0 <= i < |docs| ==> docs[i].slug != slug
    ensures r.Some? ==> r.value.slug == slug && exists k :: FirstWithSlug(docs, slug, k) && docs[k] == r.value
  {
    if docs == [] then None
    else if docs[0].slug == slug then Some(docs[0])
    else
      var rest := FindSlug(docs[1..], slug);
      if rest.Some? then
        var k :| FirstWithSlug(docs[1..], slug, k) && docs[1..][k] == rest.value;
        assert FirstWithSlug(docs, slug, k + 1);
        rest
      else rest
  }

  /** The position of the document with this id. */
  function IndexOfId(docs: seq<Gist>, id: nat): (r: Option<nat>)
    ensures r.None? <==> forall i :: 0 <= i < |docs| ==> docs[i].id != id
    ensures r.Some? ==> r.value < |docs| && docs[r.value].id == id
  {
    if docs == [] then None
    else if docs[0].id == id then Some(0)
    else
      var rest := IndexOfId(docs[1..], id);
      if rest.Some? then Some(rest.value + 1) else None
  }

  /** The two indexes the queries use: `by_user` and `by_status`. */
  datatype IndexKey = ByUser(userId: string) | ByStatus(status: Status)

  /** Whether a document is under `key` in its index. */
  predicate IndexedUnder(g: Gist, key: IndexKey) {
    match key
    case ByUser(u) => g.userId == u
    case ByStatus(st) => g.status == st
  }

  /** `.withIndex(...)` on one key: the documents under it, in creation order. */
  function WithIndex(docs: seq<Gist>, key: IndexKey): (r: seq<Gist>)
    ensures forall g :: g in r <==> g in docs && IndexedUnder(g, key)
    ensures IdsIncreasing(docs) ==> IdsIncreasing(r)
  {
    if docs == [] then []
    else
      var rest := WithIndex(docs[1..], key);
      assert forall g :: g in rest ==> g in docs[1..];
      if IndexedUnder(docs[0], key) then
        FirstBelowRest(docs);
        assert IdsIncreasing(docs) ==> forall k :: 0 <= k < |rest| ==> docs[0].id < rest[k].id;
        [docs[0]] + rest
      else rest
  }

  /** In a table of increasing ids the first document's id is below every later one's. */
  lemma FirstBelowRest(docs: seq<Gist>)
    requires docs != []
    ensures IdsIncreasing(docs) ==> forall g :: g in docs[1..] ==> docs[0].id < g.id
  {
    if IdsIncreasing(docs) {
      forall g | g in docs[1..] ensures docs[0].id < g.id {
        var k :| 0 <= k < |docs| - 1 && docs[1..][k] == g;
        assert docs[k + 1] == g;
      }
    }
  }

  /** `.order("desc")`: the same documents, newest first. */
  function Descending(docs: seq<Gist>): (r: seq<Gist>)
    ensures |r| == |docs| && forall i :: 0 <= i < |r| ==> r[i] == docs[|docs| - 1 - i]
    ensures forall g :: g in r <==> g in docs
    ensures IdsIncreasing(docs) ==> NewestFirst(r)
  {
    var r := seq(|docs|, i requires 0 <= i < |docs| => docs[|docs| - 1 - i]);
    assert forall g :: g in docs ==> g in r by {
      forall g | g in docs ensures g in r {
        var k :| 0 <= k < |docs| && docs[k] == g;
        assert r[|docs| - 1 - k] == g;
      }
    }
    r
  }

  /** Removing the document at `k` keeps the table's invariants and drops its id. */
  lemma RemoveAtKeeps(docs: seq<Gist>, k: nat, n: nat)
    requires k < |docs| && IdsIncreasing(docs) && IdsBelow(docs, n) && SlugsUnique(docs)
    ensures var rest := docs[..k] + docs[k + 1..];
      && IdsIncreasing(rest) && IdsBelow(rest, n) && SlugsUnique(rest)
      && forall i :: 0 <= i < |rest| ==> rest[i].id != docs[k].id
  {
    var rest := docs[..k] + docs[k + 1..];
    assert forall i :: 0 <= i < |rest| ==> rest[i] == (if i < k then docs[i] else docs[i + 1]);
  }

  /** The id a thrown message names. */
  function IdText(id: nat): string {
    NatToString(id)
  }

  function SlugTakenMessage(slug: string): string {
    "Gist with slug \"" + slug + "\" already exists"
  }

  function NotFoundMessage(id: nat): string {
    "Gist with id \"" + IdText(id) + "\" not found"
  }

  /** Appending a document with a new slug makes it the one its slug finds. */
  lemma {:induction false} FindSlugAppend(docs: seq<Gist>, g: Gist)
    requires FindSlug(docs, g.slug).None?
    ensures FindSlug(docs + [g], g.slug) == Some(g)
  {
    if docs == [] {
      assert docs + [g] == [g];
    } else {
      assert (docs + [g])[1..] == docs[1..] + [g];
      FindSlugAppend(docs[1..], g);
    }
  }

  /** With unique slugs, the document a slug finds is the only one carrying it. */
  lemma FindSlugUnique(docs: seq<Gist>, k: nat)
    requires SlugsUnique(docs) && k < |docs|
    ensures FindSlug(docs, docs[k].slug) == Some(docs[k])
  {
    var r := FindSlug(docs, docs[k].slug);
    var j :| FirstWithSlug(docs, docs[k].slug, j) && docs[j] == r.value;
    assert j == k;
  }

  /** The `gists` table. */
  class GistTable {
    /** The documents, oldest first. */
    var docs: seq<Gist>
    /** The id the next inserted document gets. */
    var nextId: nat

    ghost predicate Valid()
      reads this
    {
      IdsIncreasing(docs) && IdsBelow(docs, nextId) && SlugsUnique(docs)
    }

    constructor()
      ensures Valid() && docs == [] && nextId == 0
    {
      docs := [];
      nextId := 0;
    }

    /** `listGists`: every document, newest first. */
    function ListGists(): (r: seq<Gist>)
      reads this
      requires Valid()
      ensures |r| == |docs| && (forall g :: g in r <==> g in docs) && NewestFirst(r)
    {
      Descending(docs)
    }

    /** `getGistBySlug`: the document with this slug, or `null`. */
    function GetGistBySlug(slug: string): (r: Option<Gist>)
      reads this
      requires Valid()
      ensures r.None? <==> forall i :: 0 <= i < |docs| ==> docs[i].slug != slug
      ensures r.Some? ==> r.value in docs && r.value.slug == slug
    {
      FindSlug(docs, slug)
    }

    /** `getGistsByUser`: the user's documents, newest first. */
    function GetGistsByUser(userId: string): (r: seq<Gist>)
      reads this
      requires Valid()
      ensures forall g :: g in r <==> g in docs && g.userId == userId
      ensures NewestFirst(r)
    {
      Descending(WithIndex(docs, ByUser(userId)))
    }

    /** `getGistsByStatus`: the documents in this status, newest first. */
    function GetGistsByStatus(status: Status): (r: seq<Gist>)
      reads this
      requires Valid()
      ensures forall g :: g in r <==> g in docs && g.status == status
      ensures NewestFirst(r)
    {
      Descending(WithIndex(docs, ByStatus(status)))
    }

    /**
     * `createGist`: a slug already in the table is refused with the
     * message naming it and the table is left as it was; otherwise the
     * arguments are inserted in preview, stamped `now`, under a new id,
     * and the slug now finds them.
     */
    method CreateGist(a: GistArgs, now: int) returns (r: Result<nat, string>)
      requires Valid()
      modifies this
      ensures Valid()
      ensures FindSlug(old(docs), a.slug).Some? ==>
        r == Failure(SlugTakenMessage(a.slug)) && docs == old(docs) && nextId == old(nextId)
      ensures FindSlug(old(docs), a.slug).None? ==>
        && r == Success(old(nextId))
        && docs == old(docs) + [NewGist(old(nextId), a, now)]
        && nextId == old(nextId) + 1
      ensures r.Success? ==> GetGistBySlug(a.slug) == Some(NewGist(r.value, a, now))
    {
      var existing := FindSlug(docs, a.slug);
      if existing.Some? {
        return Failure(SlugTakenMessage(a.slug));
      }
      var g := NewGist(nextId, a, now);
      FindSlugAppend(docs, g);
      docs := docs + [g];
      r := Success(nextId);
      nextId := nextId + 1;
    }

    /**
     * `updateGist`: an id not in the table is refused with the message
     * naming it; otherwise that one document is patched, every other stays,
     * no slug changes, and the id is returned.
     */
    method UpdateGist(id: nat, p: GistPatch) returns (r: Result<nat, string>)
      requires Valid()
      modifies this
      ensures Valid() && nextId == old(nextId) && |docs| == |old(docs)|
      ensures IndexOfId(old(docs), id).None? ==>
        r == Failure(NotFoundMessage(id)) && docs == old(docs)
      ensures IndexOfId(old(docs), id).Some? ==>
        var k := IndexOfId(old(docs), id).value;
        r == Success(id) && docs == old(docs)[k := ApplyPatch(old(docs)[k], p)]
      ensures forall i :: 0 <= i < |docs| ==> docs[i].slug == old(docs)[i].slug
    {
      var k := IndexOfId(docs, id);
      if k.None? {
        return Failure(NotFoundMessage(id));
      }
      docs := docs[k.value := ApplyPatch(docs[k.value], p)];
      r := Success(id);
    }

    /**
     * `deleteGist`: an id not in the table is refused with the message
     * naming it; otherwise that document is removed, the others keep their
     * order, and the id is no longer found.
     */
    method DeleteGist(id: nat) returns (r: Result<nat, string>)
      requires Valid()
      modifies this
      ensures Valid() && nextId == old(nextId)
      ensures IndexOfId(old(docs), id).None? ==>
        r == Failure(NotFoundMessage(id)) && docs == old(docs)
      ensures IndexOfId(old(docs), id).Some? ==>
        var k := IndexOfId(old(docs), id).value;
        r == Success(id) && docs == old(docs)[..k] + old(docs)[k + 1..]
      ensures IndexOfId(docs, id).None?
    {
      var k := IndexOfId(docs, id);
      if k.None? {
        return Failure(NotFoundMessage(id));
      }
      RemoveAtKeeps(docs, k.value, nextId);
      docs := docs[..k.value] + docs[k.value + 1..];
      r := Success(id);
    }
  }
}
