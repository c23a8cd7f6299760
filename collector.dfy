/** The second variant of the collection job. It differs from the first in
    three ways: a source's recent links are looked up once per run and kept
    in a cache shared by all of that source's due feeds, the archival window
    is twice the collection window, and the lock timeout is written inline.
    As written, the cache is filled by calling a lookup that the variant
    does not define (it defines the lookup under another name), so every run
    with a due feed stops with a name error while holding the COLLECT lock.
    `AsWrittenRun` models that; `CollectPosts` models the intended lookup. */
module Collector {
  import opened Common
  import opened Models
  import opened Locks
  import PostParser
  import Collect

  /** The inline lock timeout of the variant, in minutes. */
  const LockTimeout: int := 8

  /** Posts published before this no longer count as the source's recent links. */
  function ArchivalOffset(now: int, days: int): int {
    now - 2 * days * MinutesPerDay
  }

  /** `is_locked` of the variant: a COLLECT lock at most eight minutes old holds; an older one is deleted. */
  method IsLocked(db: Db, now: int) returns (locked: bool)
    modifies db`locks
    ensures locked == FreshLock(old(db.locks), COLLECT, now, LockTimeout)
    ensures db.locks == AfterCheck(old(db.locks), COLLECT, now, LockTimeout)
  {
    locked := CheckLock(db, COLLECT, now, LockTimeout);
  }

  // === The link cache ===

  /** Storing one more post changes one source's recent links by at most its link. */
  lemma SourceLinksInsert(posts: map<nat, Post>, feeds: map<nat, Feed>, s: nat, archival: int, id: nat, p: Post)
    requires id !in posts
    ensures Collect.SourceLinks(posts[id := p], feeds, s, archival)
         == Collect.SourceLinks(posts, feeds, s, archival)
            + (if p.published >= archival && p.feedId in feeds && feeds[p.feedId].sourceId == s then {p.link} else {})
  {
    var q := posts[id := p];
    var a := Collect.SourceLinks(q, feeds, s, archival);
    var b := Collect.SourceLinks(posts, feeds, s, archival);
    var c := b + (if p.published >= archival && p.feedId in feeds && feeds[p.feedId].sourceId == s then {p.link} else {});
    forall l | l in a
      ensures l in c
    {
      var k :| k in q && q[k].published >= archival && q[k].feedId in feeds && feeds[q[k].feedId].sourceId == s && q[k].link == l;
      if k != id {
        assert q[k] == posts[k];
      }
    }
    forall l | l in c
      ensures l in a
    {
      if l in b {
        var k :| k in posts && posts[k].published >= archival && posts[k].feedId in feeds
                 && feeds[posts[k].feedId].sourceId == s && posts[k].link == l;
        assert k != id && q[k] == posts[k];
      } else {
        assert q[id] == p;
      }
    }
  }

  /** The cache invariant for one intake: its link set is the recent links
      of `src`, every other source's recent links are as at the start, and
      all post keys are below the next id. */
  ghost predicate CacheInv(st0: Collect.Store, acc: Collect.Intake, feeds: map<nat, Feed>, src: nat, archival: int) {
    && (forall k :: k in acc.store.posts ==> k < acc.store.nextPostId)
    && acc.links == Collect.SourceLinks(acc.store.posts, feeds, src, archival)
    && (forall s :: s != src ==>
          Collect.SourceLinks(acc.store.posts, feeds, s, archival) == Collect.SourceLinks(st0.posts, feeds, s, archival))
  }

  lemma {:induction false} IngestEntryCache(st0: Collect.Store, acc: Collect.Intake, feeds: map<nat, Feed>, src: nat,
                                            feedId: nat, e: PostParser.Entry, env: Collect.Env, now: int,
                                            collection: int, archival: int)
    requires feedId in feeds && feeds[feedId].sourceId == src
    requires archival <= collection || now < collection
    requires CacheInv(st0, acc, feeds, src, archival)
    ensures CacheInv(st0, Collect.IngestEntry(acc, feedId, e, env, now, collection), feeds, src, archival)
  {
    match Collect.Candidate(e, env, now, collection)
    case None =>
    case Some(p) =>
      if p.link !in acc.links {
        var id := acc.store.nextPostId;
        var post := Post(feedId, p.title, p.description, p.link, p.published, now);
        assert id !in acc.store.posts;
        forall s
          ensures Collect.SourceLinks(acc.store.posts[id := post], feeds, s, archival)
               == Collect.SourceLinks(acc.store.posts, feeds, s, archival) + (if s == src then {p.link} else {})
        {
          SourceLinksInsert(acc.store.posts, feeds, s, archival, id, post);
        }
      }
  }

  /** A feed's entry loop keeps the cache invariant. */
  lemma {:induction false} IngestCache(st0: Collect.Store, acc: Collect.Intake, feeds: map<nat, Feed>, src: nat,
                                       feedId: nat, entries: seq<PostParser.Entry>, env: Collect.Env, now: int,
                                       collection: int, archival: int)
    requires feedId in feeds && feeds[feedId].sourceId == src
    requires archival <= collection || now < collection
    requires CacheInv(st0, acc, feeds, src, archival)
    ensures CacheInv(st0, Collect.Ingest(acc, feedId, entries, env, now, collection), feeds, src, archival)
    decreases |entries|
  {
    if entries != [] {
      IngestEntryCache(st0, acc, feeds, src, feedId, entries[0], env, now, collection, archival);
      IngestCache(st0, Collect.IngestEntry(acc, feedId, entries[0], env, now, collection), feeds, src,
                  feedId, entries[1..], env, now, collection, archival);
    }
  }

  /** Every cached link set is the current recent-link set of its source. */
  ghost predicate CacheCurrent(cache: map<nat, set<string>>, posts: map<nat, Post>, feeds: map<nat, Feed>, archival: int) {
    forall s :: s in cache ==> cache[s] == Collect.SourceLinks(posts, feeds, s, archival)
  }

  /** One visit of a due feed through the cache: the source's link set is
      looked up and stored on first use, and the cached set is the one the
      entry loop adds to. */
  method VisitCached(db: Db, idx: nat, cache: map<nat, set<string>>, env: Collect.Env, now: int,
                     collection: int, archival: int, fails: bool)
    returns (committed: bool, cache': map<nat, set<string>>)
    requires idx < |db.statuses| && Collect.StatusFeedsIn(db.statuses, db.feeds)
    requires forall k :: k in db.posts ==> k < db.nextPostId
    requires CacheCurrent(cache, db.posts, db.feeds, archival)
    requires archival <= collection || now < collection
    modifies db`posts, db`nextPostId, db`actions, db`entityQueue, db`statuses
    ensures Collect.Visit(Collect.View(db), committed)
         == Collect.FeedStep(old(Collect.View(db)), db.feeds, idx, env, now, collection, archival, fails)
    ensures forall k :: k in db.posts ==> k < db.nextPostId
    ensures CacheCurrent(cache', db.posts, db.feeds, archival)
  {
    var feedId := db.statuses[idx].feedId;
    var src := db.feeds[feedId].sourceId;
    var linkUrls: set<string>;
    var cached := cache;
    if src in cached {
      linkUrls := cached[src];
    } else {
      linkUrls := Collect.SourceLinks(db.posts, db.feeds, src, archival);
      cached := cached[src := linkUrls];
    }
    ghost var before := Collect.View(db);
    IngestCache(before, Collect.Intake(before, linkUrls, 0), db.feeds, src, feedId,
                env.fetch(db.feeds[feedId].url), env, now, collection, archival);
    committed, linkUrls := Collect.VisitFeed(db, idx, linkUrls, env, now, collection, archival, fails);
    cache' := cached[src := linkUrls];
  }

  /** The feed loop of the variant, with the cache starting empty; the
      first failed commit ends it. */
  method RunCached(db: Db, due: seq<nat>, env: Collect.Env, now: int, collection: int, archival: int, fails: nat -> bool)
    returns (committed: bool)
    requires Collect.StatusFeedsIn(db.statuses, db.feeds)
    requires forall i :: 0 <= i < |due| ==> due[i] < |db.statuses|
    requires forall k :: k in db.posts ==> k < db.nextPostId
    requires archival <= collection || now < collection
    modifies db`posts, db`nextPostId, db`actions, db`entityQueue, db`statuses
    ensures Collect.Visit(Collect.View(db), committed)
         == Collect.RunFeeds(old(Collect.View(db)), db.feeds, due, 0, env, now, collection, archival, fails)
  {
    var postCache: map<nat, set<string>> := map[];
    ghost var st0 := Collect.View(db);
    var n := 0;
    while n < |due|
      invariant 0 <= n <= |due|
      invariant Collect.StatusFeedsIn(db.statuses, db.feeds) && |db.statuses| == |st0.statuses|
      invariant forall k :: k in db.posts ==> k < db.nextPostId
      invariant CacheCurrent(postCache, db.posts, db.feeds, archival)
      invariant Collect.RunFeeds(Collect.View(db), db.feeds, due[n..], n, env, now, collection, archival, fails)
             == Collect.RunFeeds(st0, db.feeds, due, 0, env, now, collection, archival, fails)
    {
      assert due[n..][1..] == due[n + 1..];
      committed, postCache := VisitCached(db, due[n], postCache, env, now, collection, archival, fails(n));
      if !committed {
        return;
      }
      n := n + 1;
    }
    assert due[n..] == [];
    committed := true;
  }

  /** `collect_posts` of the variant with the intended lookup in place of
      the undefined one. Its run is the same run as the first variant's,
      with the wider archival window: the cache always agrees with what a
      fresh lookup would return. All post keys must be below the next id
      (the autoincrement invariant). */
  method CollectPosts(db: Db, env: Collect.Env, now: int, days: int, fails: nat -> bool) returns (outcome: JobOutcome)
    requires Collect.StatusFeedsIn(db.statuses, db.feeds)
    requires forall k :: k in db.posts ==> k < db.nextPostId
    modifies db`posts, db`nextPostId, db`actions, db`entityQueue, db`statuses, db`locks
    ensures db.locks == AfterCheck(old(db.locks), COLLECT, now, LockTimeout)
    ensures FreshLock(old(db.locks), COLLECT, now, LockTimeout) ==> outcome == Locked && Collect.View(db) == old(Collect.View(db))
    ensures !FreshLock(old(db.locks), COLLECT, now, LockTimeout) && Collect.DueIndices(old(db.statuses), now) == [] ==>
              outcome == NothingToDo && Collect.View(db) == old(Collect.View(db))
    ensures !FreshLock(old(db.locks), COLLECT, now, LockTimeout) && Collect.DueIndices(old(db.statuses), now) != [] ==>
              var v := Collect.RunFeeds(old(Collect.View(db)), db.feeds, Collect.DueIndices(old(db.statuses), now), 0, env, now,
                                        Collect.CollectionOffset(now, days), ArchivalOffset(now, days), fails);
              Collect.View(db) == v.store && outcome == (if v.committed then Completed else Failed)
  {
    var locked := IsLocked(db, now);
    if locked {
      return Locked;
    }
    var due := Collect.GetDueFeeds(db, now);
    if |due| == 0 {
      return NothingToDo;
    }
    db.locks := db.locks + [JobLock(COLLECT, now)];
    var collection := Collect.CollectionOffset(now, days);
    var archival := ArchivalOffset(now, days);
    assert archival <= collection || now < collection by {
      if days >= 0 {
        assert archival == collection - days * MinutesPerDay;
      }
    }
    var committed := RunCached(db, due, env, now, collection, archival, fails);
    // The job deletes the lock row it created, after a failed commit too.
    db.locks := db.locks[..|db.locks| - 1];
    outcome := if committed then Completed else Failed;
  }

  // === As written ===

  /** The lock table and outcome of a run as the variant is written: the
      first due feed's cache lookup names an undefined function, and the
      resulting error leaves the job without deleting its lock. No table
      other than the lock table is written. */
  function AsWrittenRun(locks: seq<JobLock>, statuses: seq<Status>, now: int): (r: (seq<JobLock>, JobOutcome))
    ensures FreshLock(locks, COLLECT, now, LockTimeout) ==> r == (locks, Locked)
    ensures !FreshLock(locks, COLLECT, now, LockTimeout) && Collect.DueIndices(statuses, now) != [] ==>
              r == (AfterCheck(locks, COLLECT, now, LockTimeout) + [JobLock(COLLECT, now)], Failed)
  {
    if FreshLock(locks, COLLECT, now, LockTimeout) then (locks, Locked)
    else if Collect.DueIndices(statuses, now) == [] then (AfterCheck(locks, COLLECT, now, LockTimeout), NothingToDo)
    else (AfterCheck(locks, COLLECT, now, LockTimeout) + [JobLock(COLLECT, now)], Failed)
  }

  /** As written, a run that finds a due feed fails and leaves a COLLECT
      lock behind that makes every run of the next eight minutes skip. */
  lemma AsWrittenLeavesLock(locks: seq<JobLock>, statuses: seq<Status>, now: int, later: int)
    requires LockCount(locks, COLLECT) <= 1
    requires !FreshLock(locks, COLLECT, now, LockTimeout) && Collect.DueIndices(statuses, now) != []
    requires now <= later <= now + LockTimeout
    ensures AsWrittenRun(locks, statuses, now).1 == Failed
    ensures AsWrittenRun(AsWrittenRun(locks, statuses, now).0, statuses, later).1 == Locked
  {
    var rest := AfterCheck(locks, COLLECT, now, LockTimeout);
    AfterCheckReleases(locks, COLLECT, now, LockTimeout);
    var after := rest + [JobLock(COLLECT, now)];
    assert forall k :: 0 <= k < |rest| ==> after[k] == rest[k];
    assert after[|rest|].job == COLLECT;
    assert FirstLock(after, COLLECT) == |rest|;
  }

  /** A concrete witness: one feed, last visited at minute 0, is due at
      minute 10; the run fails, and the run at minute 12 is skipped. */
  lemma AsWrittenExample()
    ensures AsWrittenRun([], [Status(0, 0, 0)], 10) == ([JobLock(COLLECT, 10)], Failed)
    ensures AsWrittenRun([JobLock(COLLECT, 10)], [Status(0, 0, 0)], 12).1 == Locked
  {
    var statuses := [Status(0, 0, 0)];
    assert Collect.Pow2(0) == 1;
    assert Collect.IsDue(statuses[0], 10);
    assert Collect.DuePrefix(statuses, 10, 0) == [];
    assert Collect.DueIndices(statuses, 10) == [0];
    assert [JobLock(COLLECT, 10)][0].job == COLLECT;
    assert !HasLock([], COLLECT) && AfterCheck([], COLLECT, 10, LockTimeout) == [];
    assert [] + [JobLock(COLLECT, 10)] == [JobLock(COLLECT, 10)];
    assert FirstLock([JobLock(COLLECT, 10)], COLLECT) == 0;
  }
}
