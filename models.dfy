/** The persistent records of the aggregator (categories, sources, feeds,
    posts, users, job locks, the two work queues and the engagement tables),
    the database that holds them, and the rules the schema enforces:
    defaults, unique columns, required columns and the derived counts. */
module Models {
  import opened Common

  /** The background jobs that can hold a lock (the `jobs` enum of the lock table). */
  datatype JobType = COLLECT | PROCESS | RELATE | ANALYZE

  /** A row of the lock table: which job holds it and since when. */
  datatype JobLock = JobLock(job: JobType, lockTime: int)

  datatype Category = Category(slug: string, title: string)

  datatype Source = Source(slug: string, title: string)

  datatype Feed = Feed(sourceId: nat, categoryId: nat, url: string)

  /** Collection bookkeeping of one feed: last visit and back-off exponent. */
  datatype Status = Status(feedId: nat, updateTime: int, updateFrequency: int)

  /** A stored article. An absent `desc` is the empty string. */
  datatype Post = Post(feedId: nat, title: string, desc: string, link: string,
                       published: int, ingested: int)

  /** Engagement figures of one post; `ctr` is clicks per impression. */
  datatype PostAction = PostAction(clicks: nat, impressions: nat, ctr: real)

  /** One extracted keyword of a post. */
  datatype Entity = Entity(entity: string, postId: nat)

  /** "`relatedId` is similar to `sourceId`". */
  datatype Similarity = Similarity(sourceId: nat, relatedId: nat)

  datatype Click = Click(userId: Option<nat>, postId: nat, actionTime: int)

  datatype Bookmark = Bookmark(userId: nat, postId: nat, actionTime: int)

  datatype User = User(email: string, password: Option<string>, active: bool, confirmed: bool,
                       lastSeen: Option<int>, excludedSources: set<nat>, excludedCategories: set<nat>)

  /** What the database raises when a constraint is violated. */
  datatype DbError = IntegrityError

  /** Width of the `title` and `link` columns of the post table. */
  const PostColumnWidth: int := 255

  /** The database: one field per table. Tables keyed by their primary key
      are maps; tables read in insertion order are sequences. The post
      actions are keyed by the id of their post (one action per post).
      `statuses` is kept in `Status.id` order. */
  class Db {
    var categories: map<nat, Category>
    var sources: map<nat, Source>
    var feeds: map<nat, Feed>
    var statuses: seq<Status>
    var posts: map<nat, Post>
    var nextPostId: nat
    var actions: map<nat, PostAction>
    var entities: seq<Entity>
    var entityQueue: seq<nat>
    var similarityQueue: seq<nat>
    var similarities: seq<Similarity>
    var locks: seq<JobLock>
    var clicks: seq<Click>
    var bookmarks: seq<Bookmark>
    var users: map<nat, User>

    /** An empty database. */
    constructor ()
      ensures categories == map[] && sources == map[] && feeds == map[] && statuses == []
      ensures posts == map[] && nextPostId == 0 && actions == map[] && entities == []
      ensures entityQueue == [] && similarityQueue == [] && similarities == []
      ensures locks == [] && clicks == [] && bookmarks == [] && users == map[]
    {
      categories, sources, feeds, statuses := map[], map[], map[], [];
      posts, nextPostId, actions, entities := map[], 0, map[], [];
      entityQueue, similarityQueue, similarities := [], [], [];
      locks, clicks, bookmarks, users := [], [], [], map[];
    }

    /** Every post-keyed row refers to an id the autoincrement has already issued. */
    ghost predicate IdsIssued()
      reads this
    {
      && (forall k :: k in posts ==> k < nextPostId)
      && (forall k :: k in actions ==> k < nextPostId)
      && (forall i :: 0 <= i < |entityQueue| ==> entityQueue[i] < nextPostId)
    }

    /** Every status row belongs to an existing feed (the foreign key of `feed_statuses`). */
    ghost predicate StatusFeedsExist()
      reads this
    {
      forall i :: 0 <= i < |statuses| ==> statuses[i].feedId in feeds
    }
  }

  // === CRUD ===

  /** `CRUDMixin.update`: a record seen as attribute -> value; the given
      attributes are set and every other attribute keeps its value. */
  function Update<K, V>(record: map<K, V>, changes: map<K, V>): (r: map<K, V>)
    ensures r.Keys == record.Keys + changes.Keys
    ensures forall k :: k in changes ==> r[k] == changes[k]
    ensures forall k :: k in record && k !in changes ==> r[k] == record[k]
  {
    record + changes
  }

  // === Unique and required columns ===

  /** Category slugs and titles are both unique. */
  ghost predicate CategoriesUnique(t: map<nat, Category>) {
    forall a, b :: a in t && b in t && a != b ==> t[a].slug != t[b].slug && t[a].title != t[b].title
  }

  /** Inserting a category row: a taken id, slug or title is an integrity error. */
  function CreateCategory(t: map<nat, Category>, id: nat, slug: string, title: string)
    : (r: Result<map<nat, Category>, DbError>)
    ensures r.Ok? <==> id !in t && forall k :: k in t ==> t[k].slug != slug && t[k].title != title
    ensures r.Ok? ==> r.value == t[id := Category(slug, title)]
    ensures CategoriesUnique(t) && r.Ok? ==> CategoriesUnique(r.value)
  {
    if id in t || exists k :: k in t && (t[k].slug == slug || t[k].title == title) then Err(IntegrityError)
    else Ok(t[id := Category(slug, title)])
  }

  /** Source slugs are unique; titles may repeat. */
  ghost predicate SourcesUnique(t: map<nat, Source>) {
    forall a, b :: a in t && b in t && a != b ==> t[a].slug != t[b].slug
  }

  /** Inserting a source row: only a taken id or slug is an integrity error. */
  function CreateSource(t: map<nat, Source>, id: nat, slug: string, title: string)
    : (r: Result<map<nat, Source>, DbError>)
    ensures r.Ok? <==> id !in t && forall k :: k in t ==> t[k].slug != slug
    ensures r.Ok? ==> r.value == t[id := Source(slug, title)]
    ensures SourcesUnique(t) && r.Ok? ==> SourcesUnique(r.value)
  {
    if id in t || exists k :: k in t && t[k].slug == slug then Err(IntegrityError)
    else Ok(t[id := Source(slug, title)])
  }

  /** A new user: no password, not confirmed, active, no exclusions. */
  function NewUser(email: string): (u: User)
    ensures u.email == email && u.password == None && !u.confirmed && u.active
    ensures u.excludedSources == {} && u.excludedCategories == {}
  {
    User(email, None, true, false, None, {}, {})
  }

  ghost predicate EmailsUnique(t: map<nat, User>) {
    forall a, b :: a in t && b in t && a != b ==> t[a].email != t[b].email
  }

  /** Inserting a user row: a taken id or e-mail address is an integrity error. */
  function CreateUser(t: map<nat, User>, id: nat, email: string): (r: Result<map<nat, User>, DbError>)
    ensures r.Ok? <==> id !in t && forall k :: k in t ==> t[k].email != email
    ensures r.Ok? ==> r.value == t[id := NewUser(email)]
    ensures EmailsUnique(t) && r.Ok? ==> EmailsUnique(r.value)
  {
    if id in t || exists k :: k in t && t[k].email == email then Err(IntegrityError)
    else Ok(t[id := NewUser(email)])
  }

  /** At most one status row per feed (`feed_id` is unique). */
  ghost predicate OneStatusPerFeed(s: seq<Status>) {
    forall i, j :: 0 <= i < j < |s| ==> s[i].feedId != s[j].feedId
  }

  /** Inserting a status row: update frequency 0, stamped now; a second
      status for the same feed is an integrity error. */
  function CreateStatus(s: seq<Status>, feedId: nat, now: int): (r: Result<seq<Status>, DbError>)
    ensures r.Ok? <==> forall i :: 0 <= i < |s| ==> s[i].feedId != feedId
    ensures r.Ok? ==> r.value == s + [Status(feedId, now, 0)]
    ensures OneStatusPerFeed(s) && r.Ok? ==> OneStatusPerFeed(r.value)
  {
    if exists i :: 0 <= i < |s| && s[i].feedId == feedId then Err(IntegrityError)
    else Ok(s + [Status(feedId, now, 0)])
  }

  /** Inserting a post row: `title` and `link` are NOT NULL columns, and
      both time stamps default to now. */
  function CreatePost(t: map<nat, Post>, id: nat, feedId: nat, title: Option<string>, desc: string,
                      link: Option<string>, now: int): (r: Result<map<nat, Post>, DbError>)
    ensures r.Ok? <==> id !in t && title.Some? && link.Some?
    ensures r.Ok? ==> r.value == t[id := Post(feedId, title.value, desc, link.value, now, now)]
  {
    if id in t || title.None? || link.None? then Err(IntegrityError)
    else Ok(t[id := Post(feedId, title.value, desc, link.value, now, now)])
  }

  /** Inserting into one of the two work queues: `post_id` is unique there. */
  function Enqueue(q: seq<nat>, postId: nat): (r: Result<seq<nat>, DbError>)
    ensures r.Ok? <==> postId !in q
    ensures r.Ok? ==> r.value == q + [postId]
    ensures Distinct(q) && r.Ok? ==> Distinct(r.value)
  {
    if postId in q then Err(IntegrityError) else Ok(q + [postId])
  }

  // === Derived counts ===
  // Each count exists twice in the source: on an instance it is the length
  // of the related list, in a query it is a SQL COUNT over the foreign key.

  /** `post.clicks`: the click rows of a post, in table order. */
  function ClicksOf(clicks: seq<Click>, postId: nat): seq<Click> {
    Filter(clicks, (c: Click) => c.postId == postId)
  }

  /** `post.bookmarks`. */
  function BookmarksOf(bookmarks: seq<Bookmark>, postId: nat): seq<Bookmark> {
    Filter(bookmarks, (b: Bookmark) => b.postId == postId)
  }

  /** `post.similar_posts`: the similarity rows whose source is the post. */
  function SimilarOf(similarities: seq<Similarity>, postId: nat): seq<Similarity> {
    Filter(similarities, (s: Similarity) => s.sourceId == postId)
  }

  /** The query form of `click_count`. */
  function ClickCount(clicks: seq<Click>, postId: nat): nat {
    CountWhere(clicks, (c: Click) => c.postId == postId)
  }

  /** The query form of `bookmark_count`. */
  function BookmarkCount(bookmarks: seq<Bookmark>, postId: nat): nat {
    CountWhere(bookmarks, (b: Bookmark) => b.postId == postId)
  }

  /** The query form of `similar_count`. */
  function SimilarCount(similarities: seq<Similarity>, postId: nat): nat {
    CountWhere(similarities, (s: Similarity) => s.sourceId == postId)
  }

  lemma {:induction false} FilterLength<T(!new)>(s: seq<T>, p: T -> bool)
    ensures |Filter(s, p)| == CountWhere(s, p)
  {
    if s != [] {
      FilterLength(s[1..], p);
    }
  }

  /** The instance and query forms of every count agree. */
  lemma CountsAgree(clicks: seq<Click>, bookmarks: seq<Bookmark>, similarities: seq<Similarity>, postId: nat)
    ensures |ClicksOf(clicks, postId)| == ClickCount(clicks, postId)
    ensures |BookmarksOf(bookmarks, postId)| == BookmarkCount(bookmarks, postId)
    ensures |SimilarOf(similarities, postId)| == SimilarCount(similarities, postId)
  {
    FilterLength(clicks, (c: Click) => c.postId == postId);
    FilterLength(bookmarks, (b: Bookmark) => b.postId == postId);
    FilterLength(similarities, (s: Similarity) => s.sourceId == postId);
  }

  /** A post that no row refers to yet (a freshly created one) has all counts 0. */
  lemma NewPostCountsZero(clicks: seq<Click>, bookmarks: seq<Bookmark>, similarities: seq<Similarity>, postId: nat)
    requires forall i :: 0 <= i < |clicks| ==> clicks[i].postId != postId
    requires forall i :: 0 <= i < |bookmarks| ==> bookmarks[i].postId != postId
    requires forall i :: 0 <= i < |similarities| ==> similarities[i].sourceId != postId
    ensures ClickCount(clicks, postId) == 0 && BookmarkCount(bookmarks, postId) == 0
    ensures SimilarCount(similarities, postId) == 0
  {
    CountWherePositive(clicks, (c: Click) => c.postId == postId);
    CountWherePositive(bookmarks, (b: Bookmark) => b.postId == postId);
    CountWherePositive(similarities, (s: Similarity) => s.sourceId == postId);
  }

  /** Recording a click raises that post's click count by one and no other. */
  lemma ClickCountAppend(clicks: seq<Click>, c: Click, postId: nat)
    ensures ClickCount(clicks + [c], postId) == ClickCount(clicks, postId) + (if c.postId == postId then 1 else 0)
  {
    CountWhereAppend(clicks, [c], (x: Click) => x.postId == postId);
  }

  // === Pagination ===

  /** What the paginator hands back for one page of a query. */
  datatype Pagination<T> = Pagination(items: seq<T>, pages: nat, total: nat)

  /** `query.paginate(page, per_page, False)` for a page and page size of at
      least one: the rows of that page, the page count and the row count. */
  function Paginate<T>(rows: seq<T>, page: int, perPage: int): (p: Pagination<T>)
    requires page >= 1 && perPage >= 1
    ensures p.total == |rows| && |p.items| <= perPage && p.pages == PageCount(|rows|, perPage)
  {
    var start := Min(PageOffset(page, perPage), |rows|);
    var end := Min(start + perPage, |rows|);
    Pagination(rows[start..end], PageCount(|rows|, perPage), |rows|)
  }

  /** The number of rows before a page. */
  function PageOffset(page: int, perPage: int): (o: nat)
    requires page >= 1 && perPage >= 1
    ensures o == (page - 1) * perPage
  {
    (page - 1) * perPage
  }

  /** The page count, the quotient rounded up: the pages cover every row, the last one not empty. */
  function PageCount(total: nat, perPage: int): (pages: nat)
    requires perPage >= 1
    ensures pages * perPage >= total && (pages == 0 || (pages - 1) * perPage < total)
  {
    var pages := (total + perPage - 1) / perPage;
    var r := (total + perPage - 1) % perPage;
    assert total + perPage - 1 == pages * perPage + r && 0 <= r < perPage;
    pages
  }

  /** A page holds the rows from its offset on, in order, and a page within the page count is not empty. */
  lemma PaginateItems<T>(rows: seq<T>, page: int, perPage: int)
    requires page >= 1 && perPage >= 1
    ensures var p := Paginate(rows, page, perPage);
            && (forall i :: 0 <= i < |p.items| ==>
                  PageOffset(page, perPage) + i < |rows| && p.items[i] == rows[PageOffset(page, perPage) + i])
            && (page <= p.pages ==> p.items != [])
  {
    var pages := PageCount(|rows|, perPage);
    if page <= pages {
      assert (page - 1) * perPage <= (pages - 1) * perPage;
    }
  }

  /** The JSON body of a paginated listing. */
  datatype CollectionDict<D> = CollectionDict(items: seq<D>, page: int, perPage: int,
                                              totalPages: nat, totalItems: nat)

  /** `to_collection_dict`: the page's items rendered with `toDict`; `page`
      and `per_page` are echoed as requested, not as the paginator clamped them. */
  function ToCollectionDict<T, D>(resources: Pagination<T>, toDict: T -> D, page: int, perPage: int)
    : (d: CollectionDict<D>)
    ensures |d.items| == |resources.items|
    ensures forall i :: 0 <= i < |d.items| ==> d.items[i] == toDict(resources.items[i])
    ensures d.page == page && d.perPage == perPage
    ensures d.totalPages == resources.pages && d.totalItems == resources.total
  {
    CollectionDict(seq(|resources.items|, i requires 0 <= i < |resources.items| => toDict(resources.items[i])),
                   page, perPage, resources.pages, resources.total)
  }

  /** A listing page holds at most one page of rows, the rendered rows of
      exactly that page in order, and page totals that cover every row. */
  lemma CollectionOfPage<T, D>(rows: seq<T>, toDict: T -> D, page: int, perPage: int)
    requires page >= 1 && perPage >= 1
    ensures var d := ToCollectionDict(Paginate(rows, page, perPage), toDict, page, perPage);
            && d.totalItems == |rows| && |d.items| <= perPage
            && d.totalPages * perPage >= d.totalItems
            && (forall i :: 0 <= i < |d.items| ==>
                  PageOffset(page, perPage) + i < |rows| && d.items[i] == toDict(rows[PageOffset(page, perPage) + i]))
            && (page <= d.totalPages ==> d.items != [])
  {
    PaginateItems(rows, page, perPage);
  }
}
