/** The decisions the HTTP routes make: which posts a listing holds and in
    what order, the titles, the bookmark and view bookkeeping with their
    status codes and messages, and the split of sources and categories into
    excluded and included ones. Requests, tokens, caching and rendering
    are not modelled; a listing is the ordered list of post ids before it
    is cut into pages. */
module Views {
  import opened Common
  import opened Models

  /** The value of the `sort` argument that asks for popular posts (also its default). */
  const PopularSort: string := "popular"

  /** The listings hold posts of the last two days. */
  const RecentDays: int := 2

  /** The tables a listing reads. */
  datatype Tables = Tables(categories: map<nat, Category>, sources: map<nat, Source>, feeds: map<nat, Feed>,
                           posts: map<nat, Post>, clicks: seq<Click>, bookmarks: seq<Bookmark>,
                           similarities: seq<Similarity>)

  function TablesOf(db: Db): (t: Tables)
    reads db
    ensures t.posts == db.posts && t.feeds == db.feeds && t.clicks == db.clicks && t.bookmarks == db.bookmarks
  {
    Tables(db.categories, db.sources, db.feeds, db.posts, db.clicks, db.bookmarks, db.similarities)
  }

  // === Ordering ===

  datatype SortOrder = Popular | Latest

  /** Any `sort` value other than "popular" means latest first. */
  function SortOf(sort: string): (o: SortOrder)
    ensures o == Popular <==> sort == PopularSort
  {
    if sort == PopularSort then Popular else Latest
  }

  /** What the ordering compares: click count, bookmark count, publication time. */
  datatype Key = Key(clicks: nat, bookmarks: nat, published: int)

  function KeyOf(t: Tables, id: nat): (k: Key)
    requires id in t.posts
    ensures k.published == t.posts[id].published
    ensures k.clicks == ClickCount(t.clicks, id) && k.bookmarks == BookmarkCount(t.bookmarks, id)
  {
    Key(ClickCount(t.clicks, id), BookmarkCount(t.bookmarks, id), t.posts[id].published)
  }

  /** `a` may be listed before `b`: it is not lower in the descending order.
      Popular compares the three figures lexicographically; latest only the time. */
  predicate Precedes(order: SortOrder, a: Key, b: Key) {
    match order
      case Popular =>
        a.clicks > b.clicks ||
        (a.clicks == b.clicks && (a.bookmarks > b.bookmarks || (a.bookmarks == b.bookmarks && a.published >= b.published)))
      case Latest => a.published >= b.published
  }

  predicate InPosts(t: Tables, s: seq<nat>) {
    forall i :: 0 <= i < |s| ==> s[i] in t.posts
  }

  predicate Ordered(t: Tables, order: SortOrder, s: seq<nat>)
    requires InPosts(t, s)
  {
    forall i, j :: 0 <= i < j < |s| ==> Precedes(order, KeyOf(t, s[i]), KeyOf(t, s[j]))
  }

  /** Both orders are transitive. */
  lemma PrecedesTransitive(order: SortOrder, a: Key, b: Key, c: Key)
    requires Precedes(order, a, b) && Precedes(order, b, c)
    ensures Precedes(order, a, c)
  {
  }

  /** A post that may precede every post of an ordered list may be put in front of it. */
  lemma OrderedCons(t: Tables, order: SortOrder, y: nat, s: seq<nat>)
    requires y in t.posts && InPosts(t, s) && Ordered(t, order, s)
    requires forall k :: 0 <= k < |s| ==> Precedes(order, KeyOf(t, y), KeyOf(t, s[k]))
    ensures InPosts(t, [y] + s) && Ordered(t, order, [y] + s)
  {
    var r := [y] + s;
    forall i, j | 0 <= i < j < |r|
      ensures Precedes(order, KeyOf(t, r[i]), KeyOf(t, r[j]))
    {
      assert r[j] == s[j - 1];
      if i > 0 {
        assert r[i] == s[i - 1];
      }
    }
  }

  /** Insert `x` into an ordered list in front of the first post it may precede. */
  function Insert(t: Tables, order: SortOrder, x: nat, s: seq<nat>): (r: seq<nat>)
    requires x in t.posts && InPosts(t, s) && Ordered(t, order, s)
    ensures multiset(r) == multiset(s) + multiset{x}
    ensures InPosts(t, r) && Ordered(t, order, r)
    decreases |s|
  {
    if s == [] || Precedes(order, KeyOf(t, x), KeyOf(t, s[0])) then
      assert forall k :: 0 <= k < |s| ==> Precedes(order, KeyOf(t, x), KeyOf(t, s[k])) by {
        forall k | 0 < k < |s|
          ensures Precedes(order, KeyOf(t, x), KeyOf(t, s[k]))
        {
          PrecedesTransitive(order, KeyOf(t, x), KeyOf(t, s[0]), KeyOf(t, s[k]));
        }
      }
      OrderedCons(t, order, x, s);
      [x] + s
    else
      var rest := Insert(t, order, x, s[1..]);
      assert s == [s[0]] + s[1..];
      assert forall k :: 0 <= k < |rest| ==> Precedes(order, KeyOf(t, s[0]), KeyOf(t, rest[k])) by {
        forall k | 0 <= k < |rest|
          ensures Precedes(order, KeyOf(t, s[0]), KeyOf(t, rest[k]))
        {
          assert rest[k] in multiset(rest);
          if rest[k] != x {
            assert rest[k] in multiset(s[1..]);
            var j :| 0 <= j < |s[1..]| && s[1..][j] == rest[k];
            assert s[j + 1] == rest[k];
          }
        }
      }
      OrderedCons(t, order, s[0], rest);
      [s[0]] + rest
  }

  /** `sort_posts`: the posts put in the order the sort asks for. Posts
      whose figures tie may come in any order; this model keeps them in
      the order they arrived. */
  function SortPosts(t: Tables, s: seq<nat>, order: SortOrder): (r: seq<nat>)
    requires InPosts(t, s)
    ensures multiset(r) == multiset(s)
    ensures InPosts(t, r) && Ordered(t, order, r)
    decreases |s|
  {
    if s == [] then []
    else
      assert s == [s[0]] + s[1..];
      Insert(t, order, s[0], SortPosts(t, s[1..], order))
  }

  // === Selection ===

  /** The post's feed belongs to a category not in `excluded`. */
  predicate CategoryAllowed(t: Tables, p: Post, excluded: set<nat>) {
    p.feedId in t.feeds && t.feeds[p.feedId].categoryId in t.categories && t.feeds[p.feedId].categoryId !in excluded
  }

  /** The post's feed belongs to a source not in `excluded`. */
  predicate SourceAllowed(t: Tables, p: Post, excluded: set<nat>) {
    p.feedId in t.feeds && t.feeds[p.feedId].sourceId in t.sources && t.feeds[p.feedId].sourceId !in excluded
  }

  predicate FromSource(t: Tables, p: Post, slug: string) {
    p.feedId in t.feeds && t.feeds[p.feedId].sourceId in t.sources && t.sources[t.feeds[p.feedId].sourceId].slug == slug
  }

  predicate InCategory(t: Tables, p: Post, slug: string) {
    p.feedId in t.feeds && t.feeds[p.feedId].categoryId in t.categories &&
    t.categories[t.feeds[p.feedId].categoryId].slug == slug
  }

  /** Which posts a route lists. `viewer` is the logged-in user, if any. */
  datatype Selection =
    | Front(delta: int, viewer: Option<User>)
    | BySource(delta: int, slug: string, viewer: Option<User>)
    | ByCategory(delta: int, slug: string, viewer: Option<User>)
    | SimilarTo(postId: nat)
    | BookmarkedBy(userId: nat)

  /** The filter of each route. The front page drops a user's excluded
      categories and sources; a source listing drops only excluded
      categories and a category listing only excluded sources. */
  predicate Keeps(t: Tables, sel: Selection, id: nat)
    requires id in t.posts
  {
    var p := t.posts[id];
    match sel
      case Front(delta, viewer) =>
        p.published >= delta &&
        (viewer.Some? ==> CategoryAllowed(t, p, viewer.value.excludedCategories) &&
                          SourceAllowed(t, p, viewer.value.excludedSources))
      case BySource(delta, slug, viewer) =>
        p.published >= delta && FromSource(t, p, slug) &&
        (viewer.Some? ==> CategoryAllowed(t, p, viewer.value.excludedCategories))
      case ByCategory(delta, slug, viewer) =>
        p.published >= delta && InCategory(t, p, slug) &&
        (viewer.Some? ==> SourceAllowed(t, p, viewer.value.excludedSources))
      case SimilarTo(postId) => id == postId || Similarity(postId, id) in t.similarities
      case BookmarkedBy(userId) => IsBookmarked(t.bookmarks, userId, id)
  }

  /** The stored posts of `scan` (the table in the order the database reads it) that the route keeps. */
  function Select(t: Tables, scan: seq<nat>, sel: Selection): (r: seq<nat>)
    ensures InPosts(t, r)
    ensures forall id :: multiset(r)[id] == if id in t.posts && Keeps(t, sel, id) then multiset(scan)[id] else 0
    decreases |scan|
  {
    if scan == [] then []
    else
      assert scan == [scan[0]] + scan[1..];
      (if scan[0] in t.posts && Keeps(t, sel, scan[0]) then [scan[0]] else []) + Select(t, scan[1..], sel)
  }

  /** Two selections that keep the same posts select the same list. */
  lemma {:induction false} SelectSame(t: Tables, scan: seq<nat>, a: Selection, b: Selection)
    requires forall id :: id in t.posts ==> (Keeps(t, a, id) <==> Keeps(t, b, id))
    ensures Select(t, scan, a) == Select(t, scan, b)
    decreases |scan|
  {
    if scan != [] {
      SelectSame(t, scan[1..], a, b);
    }
  }

  /** A route's result before paging: its title and its ordered post ids. */
  datatype Listing = Listing(title: string, ids: seq<nat>)

  /** The selected posts, each as often as the scan holds it, in the requested order. */
  function Listed(t: Tables, scan: seq<nat>, sel: Selection, order: SortOrder): (r: seq<nat>)
    ensures forall id :: multiset(r)[id] == if id in t.posts && Keeps(t, sel, id) then multiset(scan)[id] else 0
    ensures forall id :: id in r <==> id in scan && id in t.posts && Keeps(t, sel, id)
    ensures InPosts(t, r) && Ordered(t, order, r)
  {
    var r := SortPosts(t, Select(t, scan, sel), order);
    assert forall id :: id in r <==> id in scan && id in t.posts && Keeps(t, sel, id) by {
      forall id
        ensures id in r <==> id in scan && id in t.posts && Keeps(t, sel, id)
      {
        assert id in r <==> multiset(r)[id] > 0;
        assert id in scan <==> multiset(scan)[id] > 0;
      }
    }
    r
  }

  function SortTitle(order: SortOrder): string {
    if order == Popular then "Popular Posts" else "Latest Posts"
  }

  /** `all_posts`: the posts of the last two days, without the user's
      excluded categories and sources. */
  function AllPosts(t: Tables, scan: seq<nat>, now: int, viewer: Option<User>, sort: string): (l: Listing)
    ensures l.title == if sort == PopularSort then "Popular Posts" else "Latest Posts"
    ensures forall id :: id in l.ids <==>
              id in scan && id in t.posts && t.posts[id].published >= now - RecentDays * MinutesPerDay &&
              (viewer.Some? ==> CategoryAllowed(t, t.posts[id], viewer.value.excludedCategories) &&
                                SourceAllowed(t, t.posts[id], viewer.value.excludedSources))
    ensures InPosts(t, l.ids) && Ordered(t, SortOf(sort), l.ids)
  {
    Listing(SortTitle(SortOf(sort)), Listed(t, scan, Front(now - RecentDays * MinutesPerDay, viewer), SortOf(sort)))
  }

  /** What a route raises instead of answering: the framework turns it into a 500 response. */
  datatype Fault = ServerError

  /** `posts_by_source`: the recent posts of the source with this slug,
      without the user's excluded categories. An unknown slug raises when
      the title is built. */
  function PostsBySource(t: Tables, scan: seq<nat>, now: int, slug: string, viewer: Option<User>, sort: string)
    : (r: Result<Listing, Fault>)
    requires SourcesUnique(t.sources)
    ensures r.Err? <==> forall k :: k in t.sources ==> t.sources[k].slug != slug
    ensures r.Ok? ==> exists k :: k in t.sources && t.sources[k].slug == slug &&
                        r.value.title == SortTitle(SortOf(sort)) + " by " + t.sources[k].title
    ensures r.Ok? ==> forall id :: id in r.value.ids <==>
              id in scan && id in t.posts && t.posts[id].published >= now - RecentDays * MinutesPerDay &&
              FromSource(t, t.posts[id], slug) &&
              (viewer.Some? ==> CategoryAllowed(t, t.posts[id], viewer.value.excludedCategories))
    ensures r.Ok? ==> InPosts(t, r.value.ids) && Ordered(t, SortOf(sort), r.value.ids)
  {
    if forall k :: k in t.sources ==> t.sources[k].slug != slug then Err(ServerError)
    else
      var k :| k in t.sources && t.sources[k].slug == slug;
      var ids := Listed(t, scan, BySource(now - RecentDays * MinutesPerDay, slug, viewer), SortOf(sort));
      Ok(Listing(SortTitle(SortOf(sort)) + " by " + t.sources[k].title, ids))
  }

  /** `posts_by_category`: the recent posts of the category with this slug,
      without the user's excluded sources. An unknown slug raises when the
      title is built. */
  function PostsByCategory(t: Tables, scan: seq<nat>, now: int, slug: string, viewer: Option<User>, sort: string)
    : (r: Result<Listing, Fault>)
    requires CategoriesUnique(t.categories)
    ensures r.Err? <==> forall k :: k in t.categories ==> t.categories[k].slug != slug
    ensures r.Ok? ==> exists k :: k in t.categories && t.categories[k].slug == slug &&
                        r.value.title == SortTitle(SortOf(sort)) + " in " + t.categories[k].title
    ensures r.Ok? ==> forall id :: id in r.value.ids <==>
              id in scan && id in t.posts && t.posts[id].published >= now - RecentDays * MinutesPerDay &&
              InCategory(t, t.posts[id], slug) &&
              (viewer.Some? ==> SourceAllowed(t, t.posts[id], viewer.value.excludedSources))
    ensures r.Ok? ==> InPosts(t, r.value.ids) && Ordered(t, SortOf(sort), r.value.ids)
  {
    if forall k :: k in t.categories ==> t.categories[k].slug != slug then Err(ServerError)
    else
      var k :| k in t.categories && t.categories[k].slug == slug;
      var ids := Listed(t, scan, ByCategory(now - RecentDays * MinutesPerDay, slug, viewer), SortOf(sort));
      Ok(Listing(SortTitle(SortOf(sort)) + " in " + t.categories[k].title, ids))
  }

  /** A source listing does not depend on the user's excluded sources. */
  lemma BySourceIgnoresSourceExclusions(t: Tables, scan: seq<nat>, now: int, slug: string, u: User,
                                        other: set<nat>, sort: string)
    requires SourcesUnique(t.sources)
    ensures PostsBySource(t, scan, now, slug, Some(u), sort).Ok? ==>
              PostsBySource(t, scan, now, slug, Some(u), sort).value.ids ==
              PostsBySource(t, scan, now, slug, Some(u.(excludedSources := other)), sort).value.ids
  {
    var delta := now - RecentDays * MinutesPerDay;
    var mine, theirs := BySource(delta, slug, Some(u)), BySource(delta, slug, Some(u.(excludedSources := other)));
    SelectSame(t, scan, mine, theirs);
    assert Listed(t, scan, mine, SortOf(sort)) == Listed(t, scan, theirs, SortOf(sort));
    var r, r' := PostsBySource(t, scan, now, slug, Some(u), sort), PostsBySource(t, scan, now, slug, Some(u.(excludedSources := other)), sort);
    assert r.Ok? ==> r.value.ids == Listed(t, scan, mine, SortOf(sort));
    assert r'.Ok? ==> r'.value.ids == Listed(t, scan, theirs, SortOf(sort));
  }

  /** A category listing does not depend on the user's excluded categories. */
  lemma ByCategoryIgnoresCategoryExclusions(t: Tables, scan: seq<nat>, now: int, slug: string, u: User,
                                            other: set<nat>, sort: string)
    requires CategoriesUnique(t.categories)
    ensures PostsByCategory(t, scan, now, slug, Some(u), sort).Ok? ==>
              PostsByCategory(t, scan, now, slug, Some(u), sort).value.ids ==
              PostsByCategory(t, scan, now, slug, Some(u.(excludedCategories := other)), sort).value.ids
  {
    var delta := now - RecentDays * MinutesPerDay;
    var mine, theirs := ByCategory(delta, slug, Some(u)), ByCategory(delta, slug, Some(u.(excludedCategories := other)));
    SelectSame(t, scan, mine, theirs);
    assert Listed(t, scan, mine, SortOf(sort)) == Listed(t, scan, theirs, SortOf(sort));
    var r, r' := PostsByCategory(t, scan, now, slug, Some(u), sort), PostsByCategory(t, scan, now, slug, Some(u.(excludedCategories := other)), sort);
    assert r.Ok? ==> r.value.ids == Listed(t, scan, mine, SortOf(sort));
    assert r'.Ok? ==> r'.value.ids == Listed(t, scan, theirs, SortOf(sort));
  }

  /** A user with no exclusions sees the same front page as a visitor. */
  lemma FrontPageWithoutExclusions(t: Tables, scan: seq<nat>, now: int, u: User, sort: string)
    requires u.excludedSources == {} && u.excludedCategories == {}
    requires forall k :: k in t.feeds ==> t.feeds[k].sourceId in t.sources && t.feeds[k].categoryId in t.categories
    requires forall k :: k in t.posts ==> t.posts[k].feedId in t.feeds
    ensures AllPosts(t, scan, now, Some(u), sort) == AllPosts(t, scan, now, None, sort)
  {
    var delta := now - RecentDays * MinutesPerDay;
    forall id | id in t.posts
      ensures Keeps(t, Front(delta, Some(u)), id) <==> Keeps(t, Front(delta, None), id)
    {
      var p := t.posts[id];
      assert p.feedId in t.feeds;
    }
    SelectSame(t, scan, Front(delta, Some(u)), Front(delta, None));
  }

  /** Excluding more never adds a post to the front page. */
  lemma FrontPageExclusionsMonotone(t: Tables, scan: seq<nat>, now: int, u: User, v: User, sort: string)
    requires u.excludedSources <= v.excludedSources && u.excludedCategories <= v.excludedCategories
    ensures forall id :: id in AllPosts(t, scan, now, Some(v), sort).ids ==> id in AllPosts(t, scan, now, Some(u), sort).ids
  {
  }

  /** `similar_posts`: the post itself and every post recorded as similar
      to it, latest first. An unknown post raises. */
  function SimilarPosts(t: Tables, scan: seq<nat>, postId: nat): (r: Result<Listing, Fault>)
    ensures r.Err? <==> postId !in t.posts
    ensures r.Ok? ==> r.value.title == "Similar Posts"
    ensures r.Ok? ==> postId in scan ==> postId in r.value.ids
    ensures r.Ok? ==> forall id :: id in r.value.ids <==>
              id in scan && id in t.posts && (id == postId || Similarity(postId, id) in t.similarities)
    ensures r.Ok? ==> InPosts(t, r.value.ids) && Ordered(t, Latest, r.value.ids)
  {
    if postId !in t.posts then Err(ServerError)
    else Ok(Listing("Similar Posts", Listed(t, scan, SimilarTo(postId), Latest)))
  }

  // === Bookmarks ===

  predicate IsBookmarked(bookmarks: seq<Bookmark>, userId: nat, postId: nat) {
    exists i :: 0 <= i < |bookmarks| && bookmarks[i].userId == userId && bookmarks[i].postId == postId
  }

  /** No user has bookmarked the same post twice. */
  predicate NoDuplicates(bookmarks: seq<Bookmark>) {
    forall i, j :: 0 <= i < j < |bookmarks| ==>
      bookmarks[i].userId != bookmarks[j].userId || bookmarks[i].postId != bookmarks[j].postId
  }

  /** `[b.post.id for b in current_user.bookmarks]`, in table order. */
  function BookmarkedIds(bookmarks: seq<Bookmark>, userId: nat): (ids: seq<nat>)
    ensures forall id :: id in ids <==> IsBookmarked(bookmarks, userId, id)
    ensures NoDuplicates(bookmarks) ==> Distinct(ids)
    decreases |bookmarks|
  {
    if bookmarks == [] then []
    else
      var rest := BookmarkedIds(bookmarks[1..], userId);
      assert forall id :: IsBookmarked(bookmarks[1..], userId, id) ==> IsBookmarked(bookmarks, userId, id) by {
        forall id | IsBookmarked(bookmarks[1..], userId, id)
          ensures IsBookmarked(bookmarks, userId, id)
        {
          var i :| 0 <= i < |bookmarks[1..]| && bookmarks[1..][i].userId == userId && bookmarks[1..][i].postId == id;
          assert bookmarks[i + 1] == bookmarks[1..][i];
        }
      }
      assert forall id :: IsBookmarked(bookmarks, userId, id) && !(bookmarks[0].userId == userId && bookmarks[0].postId == id) ==>
        IsBookmarked(bookmarks[1..], userId, id) by {
        forall id | IsBookmarked(bookmarks, userId, id) && !(bookmarks[0].userId == userId && bookmarks[0].postId == id)
          ensures IsBookmarked(bookmarks[1..], userId, id)
        {
          var i :| 0 <= i < |bookmarks| && bookmarks[i].userId == userId && bookmarks[i].postId == id;
          assert bookmarks[1..][i - 1] == bookmarks[i];
        }
      }
      if bookmarks[0].userId == userId then
        assert NoDuplicates(bookmarks) ==> !IsBookmarked(bookmarks[1..], userId, bookmarks[0].postId);
        [bookmarks[0].postId] + rest
      else rest
  }

  /** The position of the user's first bookmark of the post (`filter_by(...).first()`). */
  function FindBookmark(bookmarks: seq<Bookmark>, userId: nat, postId: nat): (r: Option<nat>)
    ensures r.None? <==> !IsBookmarked(bookmarks, userId, postId)
    ensures r.Some? ==> r.value < |bookmarks| && bookmarks[r.value].userId == userId && bookmarks[r.value].postId == postId
    ensures r.Some? ==> forall k :: 0 <= k < r.value ==> bookmarks[k].userId != userId || bookmarks[k].postId != postId
    decreases |bookmarks|
  {
    if bookmarks == [] then None
    else if bookmarks[0].userId == userId && bookmarks[0].postId == postId then Some(0)
    else
      match FindBookmark(bookmarks[1..], userId, postId)
      case None =>
        assert forall i :: 1 <= i < |bookmarks| ==> bookmarks[i] == bookmarks[1..][i - 1];
        None
      case Some(i) => Some(i + 1)
  }

  /** A response: status code and message. */
  datatype Reply = Reply(status: nat, msg: string)

  const NoPostId: string := "No post ID provided."
  const InvalidPostId: string := "Post ID is invalid."

  /** `POST /bookmarks/ids`: the new bookmark table and the response. A
      missing or unknown post id is refused with 400; a post the user has
      already bookmarked is not bookmarked again. */
  function SaveBookmark(bookmarks: seq<Bookmark>, posts: map<nat, Post>, userId: nat, postId: Option<nat>, now: int)
    : (r: (Reply, seq<Bookmark>))
    ensures postId.None? ==> r == (Reply(400, NoPostId), bookmarks)
    ensures postId.Some? && postId.value !in posts ==> r == (Reply(400, InvalidPostId), bookmarks)
    ensures r.0.status == 200 <==> postId.Some? && postId.value in posts
    ensures r.0.status == 200 ==> r.0.msg == "Bookmark saved!" && IsBookmarked(r.1, userId, postId.value)
    ensures bookmarks <= r.1 && |r.1| <= |bookmarks| + 1
    ensures NoDuplicates(bookmarks) ==> NoDuplicates(r.1)
    ensures forall u: nat, p: nat :: (u != userId || postId != Some(p)) ==> (IsBookmarked(r.1, u, p) <==> IsBookmarked(bookmarks, u, p))
  {
    if postId.None? then (Reply(400, NoPostId), bookmarks)
    else if postId.value !in posts then (Reply(400, InvalidPostId), bookmarks)
    else if FindBookmark(bookmarks, userId, postId.value).Some? then (Reply(200, "Bookmark saved!"), bookmarks)
    else
      var saved := bookmarks + [Bookmark(userId, postId.value, now)];
      assert IsBookmarked(saved, userId, postId.value) by {
        assert saved[|bookmarks|] == Bookmark(userId, postId.value, now);
      }
      assert forall u: nat, p: nat :: (u != userId || postId != Some(p)) ==> IsBookmarked(saved, u, p) ==> IsBookmarked(bookmarks, u, p) by {
        forall u: nat, p: nat | (u != userId || postId != Some(p)) && IsBookmarked(saved, u, p)
          ensures IsBookmarked(bookmarks, u, p)
        {
          var i :| 0 <= i < |saved| && saved[i].userId == u && saved[i].postId == p;
          assert i < |bookmarks| && saved[i] == bookmarks[i];
        }
      }
      assert forall u: nat, p: nat :: IsBookmarked(bookmarks, u, p) ==> IsBookmarked(saved, u, p) by {
        forall u: nat, p: nat | IsBookmarked(bookmarks, u, p)
          ensures IsBookmarked(saved, u, p)
        {
          var i :| 0 <= i < |bookmarks| && bookmarks[i].userId == u && bookmarks[i].postId == p;
          assert saved[i] == bookmarks[i];
        }
      }
      (Reply(200, "Bookmark saved!"), saved)
  }

  /** Saving a bookmark twice is the same as saving it once. */
  lemma SaveIdempotent(bookmarks: seq<Bookmark>, posts: map<nat, Post>, userId: nat, postId: Option<nat>, now: int, later: int)
    ensures var once := SaveBookmark(bookmarks, posts, userId, postId, now);
            SaveBookmark(once.1, posts, userId, postId, later) == once
  {
  }

  /** `DELETE /bookmarks/ids`: the user's first bookmark of the post is
      deleted. When there is none (also when no post id is given) the
      route calls `delete` on nothing and raises. */
  function RemoveBookmark(bookmarks: seq<Bookmark>, userId: nat, postId: Option<nat>): (r: Result<seq<Bookmark>, Fault>)
    ensures r.Err? <==> postId.None? || !IsBookmarked(bookmarks, userId, postId.value)
    ensures r.Ok? ==> |r.value| == |bookmarks| - 1 && multiset(r.value) <= multiset(bookmarks)
    ensures r.Ok? && NoDuplicates(bookmarks) ==> NoDuplicates(r.value) && !IsBookmarked(r.value, userId, postId.value)
  {
    if postId.None? then Err(ServerError)
    else match FindBookmark(bookmarks, userId, postId.value)
      case None => Err(ServerError)
      case Some(i) =>
        var r := RemoveAt(bookmarks, i);
        assert bookmarks == bookmarks[..i] + [bookmarks[i]] + bookmarks[i + 1..];
        assert r == bookmarks[..i] + bookmarks[i + 1..];
        assert NoDuplicates(bookmarks) ==> !IsBookmarked(r, userId, postId.value);
        assert NoDuplicates(bookmarks) ==> NoDuplicates(r) by {
          if NoDuplicates(bookmarks) {
            forall a, b | 0 <= a < b < |r|
              ensures r[a].userId != r[b].userId || r[a].postId != r[b].postId
            {
              var a' := if a < i then a else a + 1;
              var b' := if b < i then b else b + 1;
              assert r[a] == bookmarks[a'] && r[b] == bookmarks[b'] && a' < b';
            }
          }
        }
        Ok(r)
  }

  /** Deleting a bookmark just saved restores the table. */
  lemma SaveThenRemove(bookmarks: seq<Bookmark>, posts: map<nat, Post>, userId: nat, postId: nat, now: int)
    requires postId in posts && !IsBookmarked(bookmarks, userId, postId)
    ensures RemoveBookmark(SaveBookmark(bookmarks, posts, userId, Some(postId), now).1, userId, Some(postId)) == Ok(bookmarks)
  {
    var saved := bookmarks + [Bookmark(userId, postId, now)];
    assert SaveBookmark(bookmarks, posts, userId, Some(postId), now).1 == saved;
    var f := FindBookmark(saved, userId, postId);
    assert f == Some(|bookmarks|) by {
      assert saved[|bookmarks|] == Bookmark(userId, postId, now);
    }
    assert RemoveAt(saved, |bookmarks|) == bookmarks;
  }

  /** `GET /bookmarks`: the user's bookmarked posts, in the order the database reads them. */
  function BookmarkedPosts(t: Tables, scan: seq<nat>, userId: nat): (l: Listing)
    ensures l.title == "Bookmarked Posts"
    ensures forall id :: id in l.ids <==> id in scan && id in t.posts && id in BookmarkedIds(t.bookmarks, userId)
  {
    var ids := Select(t, scan, BookmarkedBy(userId));
    assert forall id :: id in ids <==> id in scan && id in t.posts && id in BookmarkedIds(t.bookmarks, userId) by {
      forall id
        ensures id in ids <==> id in scan && id in t.posts && id in BookmarkedIds(t.bookmarks, userId)
      {
        assert id in ids <==> multiset(ids)[id] > 0;
        assert id in scan <==> multiset(scan)[id] > 0;
      }
    }
    Listing("Bookmarked Posts", ids)
  }

  /** The POST branch of `bookmarked_post_ids` on the database. The ids
      come with a 200 response only. */
  method BookmarkPost(db: Db, userId: nat, postId: Option<nat>, now: int) returns (reply: Reply, ids: seq<nat>)
    modifies db`bookmarks
    ensures (reply, db.bookmarks) == SaveBookmark(old(db.bookmarks), db.posts, userId, postId, now)
    ensures ids == if reply.status == 200 then BookmarkedIds(db.bookmarks, userId) else []
  {
    ids := [];
    if postId.None? {
      return Reply(400, NoPostId), ids;
    }
    if postId.value !in db.posts {
      return Reply(400, InvalidPostId), ids;
    }
    if FindBookmark(db.bookmarks, userId, postId.value).None? {
      db.bookmarks := db.bookmarks + [Bookmark(userId, postId.value, now)];
    }
    reply := Reply(200, "Bookmark saved!");
    ids := BookmarkedIds(db.bookmarks, userId);
  }

  /** The DELETE branch of `bookmarked_post_ids` on the database. */
  method BookmarkDelete(db: Db, userId: nat, postId: Option<nat>) returns (r: Result<(Reply, seq<nat>), Fault>)
    modifies db`bookmarks
    ensures var e := RemoveBookmark(old(db.bookmarks), userId, postId);
            (e.Err? ==> r.Err? && db.bookmarks == old(db.bookmarks)) &&
            (e.Ok? ==> db.bookmarks == e.value && r == Ok((Reply(200, "Bookmark removed!"), BookmarkedIds(db.bookmarks, userId))))
  {
    var e := RemoveBookmark(db.bookmarks, userId, postId);
    if e.Err? {
      return Err(ServerError);
    }
    db.bookmarks := e.value;
    r := Ok((Reply(200, "Bookmark removed!"), BookmarkedIds(db.bookmarks, userId)));
  }

  // === Views ===

  /** `track_view`: the new click table and the response. A request that is
      not JSON, has no post id or names an unknown post is refused with 400;
      otherwise one click is recorded, with the user when one is logged in. */
  function TrackView(clicks: seq<Click>, posts: map<nat, Post>, isJson: bool, postId: Option<nat>,
                     viewer: Option<nat>, now: int): (r: (Reply, seq<Click>))
    ensures !isJson ==> r == (Reply(400, "Invalid request."), clicks)
    ensures isJson && postId.None? ==> r == (Reply(400, NoPostId), clicks)
    ensures isJson && postId.Some? && postId.value !in posts ==> r == (Reply(400, InvalidPostId), clicks)
    ensures r.0.status == 200 <==> isJson && postId.Some? && postId.value in posts
    ensures r.0.status == 200 ==> r == (Reply(200, "View successfully recorded."), clicks + [Click(viewer, postId.value, now)])
  {
    if !isJson then (Reply(400, "Invalid request."), clicks)
    else if postId.None? then (Reply(400, NoPostId), clicks)
    else if postId.value !in posts then (Reply(400, InvalidPostId), clicks)
    else (Reply(200, "View successfully recorded."), clicks + [Click(viewer, postId.value, now)])
  }

  /** A recorded view raises the viewed post's click count by one and
      leaves every other count alone; a refused one changes nothing. */
  lemma TrackViewCounts(clicks: seq<Click>, posts: map<nat, Post>, isJson: bool, postId: Option<nat>,
                        viewer: Option<nat>, now: int, q: nat)
    ensures var r := TrackView(clicks, posts, isJson, postId, viewer, now);
            ClickCount(r.1, q) == ClickCount(clicks, q) + (if r.0.status == 200 && postId == Some(q) then 1 else 0)
  {
    var r := TrackView(clicks, posts, isJson, postId, viewer, now);
    if r.0.status == 200 {
      ClickCountAppend(clicks, Click(viewer, postId.value, now), q);
    }
  }

  method RecordView(db: Db, isJson: bool, postId: Option<nat>, viewer: Option<nat>, now: int) returns (reply: Reply)
    modifies db`clicks
    ensures (reply, db.clicks) == TrackView(old(db.clicks), db.posts, isJson, postId, viewer, now)
  {
    if !isJson {
      return Reply(400, "Invalid request.");
    }
    if postId.None? {
      return Reply(400, NoPostId);
    }
    if postId.value !in db.posts {
      return Reply(400, InvalidPostId);
    }
    db.clicks := db.clicks + [Click(viewer, postId.value, now)];
    reply := Reply(200, "View successfully recorded.");
  }

  // === Preferences ===

  /** A GET shows the preferences; a POST replaces the excluded ids with
      the given ones. A POST body without the list raises (`None` here). */
  datatype ManageRequest = Show | Replace(given: Option<seq<nat>>)

  datatype Preferences = Preferences(excluded: set<nat>, included: set<nat>)

  /** The excluded ids after the request: on a POST, the given ids that
      exist; unknown ids are dropped. */
  function NewExclusions(all: set<nat>, current: set<nat>, req: ManageRequest): (r: Result<set<nat>, Fault>)
    ensures req.Show? ==> r == Ok(current)
    ensures req.Replace? ==> (r.Err? <==> req.given.None?)
    ensures req.Replace? && r.Ok? ==> r.value <= all && forall id :: id in r.value <==> id in req.given.value && id in all
  {
    match req
      case Show => Ok(current)
      case Replace(given) => if given.None? then Err(ServerError) else Ok(set id | id in given.value && id in all)
  }

  /** The response: the excluded ids and every other id. */
  function PreferencesOf(all: set<nat>, excluded: set<nat>): (p: Preferences)
    ensures p.excluded == excluded && p.included !! p.excluded
    ensures forall id :: id in p.included <==> id in all && id !in excluded
    ensures excluded <= all ==> p.included + p.excluded == all
  {
    Preferences(excluded, all - excluded)
  }

  /** `manage_sources`: the user after the request and the response. */
  function ManageSources(sources: map<nat, Source>, user: User, req: ManageRequest): (r: Result<(User, Preferences), Fault>)
    ensures r.Err? <==> req == Replace(None)
    ensures r.Ok? ==> r.value.0 == user.(excludedSources := r.value.0.excludedSources)
    ensures r.Ok? ==> NewExclusions(sources.Keys, user.excludedSources, req) == Ok(r.value.0.excludedSources)
    ensures r.Ok? ==> r.value.1 == PreferencesOf(sources.Keys, r.value.0.excludedSources)
  {
    match NewExclusions(sources.Keys, user.excludedSources, req)
      case Err(e) => Err(e)
      case Ok(ex) => Ok((user.(excludedSources := ex), PreferencesOf(sources.Keys, ex)))
  }

  /** `manage_categories`: the same for categories. */
  function ManageCategories(categories: map<nat, Category>, user: User, req: ManageRequest)
    : (r: Result<(User, Preferences), Fault>)
    ensures r.Err? <==> req == Replace(None)
    ensures r.Ok? ==> r.value.0 == user.(excludedCategories := r.value.0.excludedCategories)
    ensures r.Ok? ==> NewExclusions(categories.Keys, user.excludedCategories, req) == Ok(r.value.0.excludedCategories)
    ensures r.Ok? ==> r.value.1 == PreferencesOf(categories.Keys, r.value.0.excludedCategories)
  {
    match NewExclusions(categories.Keys, user.excludedCategories, req)
      case Err(e) => Err(e)
      case Ok(ex) => Ok((user.(excludedCategories := ex), PreferencesOf(categories.Keys, ex)))
  }

  /** After a POST the two lists split the sources exactly, and showing
      the preferences again gives the same answer; posting the same list
      twice is the same as posting it once. */
  lemma ReplaceSourcesSettles(sources: map<nat, Source>, user: User, given: seq<nat>)
    ensures var r := ManageSources(sources, user, Replace(Some(given)));
            && r.Ok?
            && r.value.1.excluded + r.value.1.included == sources.Keys
            && ManageSources(sources, r.value.0, Show) == r
            && ManageSources(sources, r.value.0, Replace(Some(given))) == r
  {
  }

  lemma ReplaceCategoriesSettles(categories: map<nat, Category>, user: User, given: seq<nat>)
    ensures var r := ManageCategories(categories, user, Replace(Some(given)));
            && r.Ok?
            && r.value.1.excluded + r.value.1.included == categories.Keys
            && ManageCategories(categories, r.value.0, Show) == r
            && ManageCategories(categories, r.value.0, Replace(Some(given))) == r
  {
  }

  /** The route on the database: only the current user's row changes, and only on a POST. */
  method ManageSourcesRoute(db: Db, userId: nat, req: ManageRequest) returns (r: Result<Preferences, Fault>)
    requires userId in db.users
    modifies db`users
    ensures var m := ManageSources(db.sources, old(db.users)[userId], req);
            (m.Err? ==> r.Err? && db.users == old(db.users)) &&
            (m.Ok? ==> r == Ok(m.value.1) && db.users == old(db.users)[userId := m.value.0])
  {
    var m := ManageSources(db.sources, db.users[userId], req);
    if m.Err? {
      return Err(ServerError);
    }
    if req.Replace? {
      db.users := db.users[userId := m.value.0];
    }
    r := Ok(m.value.1);
  }

  method ManageCategoriesRoute(db: Db, userId: nat, req: ManageRequest) returns (r: Result<Preferences, Fault>)
    requires userId in db.users
    modifies db`users
    ensures var m := ManageCategories(db.categories, old(db.users)[userId], req);
            (m.Err? ==> r.Err? && db.users == old(db.users)) &&
            (m.Ok? ==> r == Ok(m.value.1) && db.users == old(db.users)[userId := m.value.0])
  {
    var m := ManageCategories(db.categories, db.users[userId], req);
    if m.Err? {
      return Err(ServerError);
    }
    if req.Replace? {
      db.users := db.users[userId := m.value.0];
    }
    r := Ok(m.value.1);
  }
}
