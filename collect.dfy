/** The feed-collection job: pick the feeds whose back-off has elapsed,
    read each feed, store every admissible entry whose link the source has
    not published recently, and adjust each feed's back-off. The job runs
    under the COLLECT lock. Fetching a feed, stripping markup, converting a
    time tuple and localising a time stamp are library calls given by `Env`;
    a failing commit is given by `fails`, indexed by the feed's position in
    the run. */
module Collect {
  import opened Common
  import opened Models
  import opened Locks
  import opened PostParser

  /** Bounds of the back-off exponent: feeds are visited every 2^1 to 2^8 minutes. */
  const MinUpdateFreq: int := 1
  const MaxUpdateFreq: int := 8

  /** A COLLECT lock younger than this many minutes means a run is in progress. */
  const LockTimeout: int := 8

  /** The library calls the job makes: the feed reader, the markup stripper,
      the time-tuple converter and the time-zone conversion, which may fail
      for a time stamp. */
  datatype Env = Env(fetch: string -> seq<Entry>, getText: string -> string,
                     mktime: seq<int> -> int, localizes: int -> bool)

  /** The tables the job writes (the lock table aside). */
  datatype Store = Store(posts: map<nat, Post>, nextPostId: nat, actions: map<nat, PostAction>,
                         queue: seq<nat>, statuses: seq<Status>)

  function View(db: Db): Store
    reads db
  {
    Store(db.posts, db.nextPostId, db.actions, db.entityQueue, db.statuses)
  }

  // === Scheduling ===

  function Pow2(n: nat): (r: nat)
    ensures r >= 1
  {
    if n == 0 then 1 else 2 * Pow2(n - 1)
  }

  /** The back-off of a feed, 2^f minutes; a negative exponent gives a fraction of a minute. */
  function Backoff(f: int): (r: real)
    ensures r > 0.0
    ensures f >= 0 ==> r == Pow2(f) as real && r >= 1.0
    ensures f < 0 ==> r * (Pow2(-f) as real) == 1.0
  {
    if f >= 0 then Pow2(f) as real else 1.0 / (Pow2(-f) as real)
  }

  /** A feed is due once its back-off has elapsed since its last visit. */
  predicate IsDue(s: Status, now: int) {
    s.updateTime as real <= now as real - Backoff(s.updateFrequency)
  }

  /** The positions among the first `n` statuses whose feeds are due, in table order. */
  function DuePrefix(statuses: seq<Status>, now: int, n: nat): (r: seq<nat>)
    requires n <= |statuses|
    ensures forall k :: 0 <= k < |r| ==> r[k] < n
    ensures forall i: nat :: i in r <==> i < n && IsDue(statuses[i], now)
    ensures forall a, b :: 0 <= a < b < |r| ==> r[a] < r[b]
  {
    if n == 0 then []
    else
      var prev := DuePrefix(statuses, now, n - 1);
      if IsDue(statuses[n - 1], now) then prev + [n - 1] else prev
  }

  /** The positions of all due statuses, in `Status.id` order. */
  function DueIndices(statuses: seq<Status>, now: int): seq<nat> {
    DuePrefix(statuses, now, |statuses|)
  }

  /** `get_due_feeds`: scans the status table in id order and keeps the due ones. */
  method GetDueFeeds(db: Db, now: int) returns (due: seq<nat>)
    ensures due == DueIndices(db.statuses, now)
    ensures forall i :: i in due <==> 0 <= i < |db.statuses| && IsDue(db.statuses[i], now)
    ensures forall a, b :: 0 <= a < b < |due| ==> due[a] < due[b]
  {
    due := [];
    var i := 0;
    while i < |db.statuses|
      invariant 0 <= i <= |db.statuses|
      invariant due == DuePrefix(db.statuses, now, i)
    {
      var status := db.statuses[i];
      if status.updateTime as real <= now as real - Backoff(status.updateFrequency) {
        due := due + [i];
      }
      i := i + 1;
    }
  }

  /** The back-off step after a visit: shorter if the feed had new posts,
      longer otherwise, kept within the bounds. */
  function NextFrequency(f: int, newPosts: nat): (r: int)
    ensures MinUpdateFreq <= r <= MaxUpdateFreq
    ensures newPosts > 0 && MinUpdateFreq <= f - 1 <= MaxUpdateFreq ==> r == f - 1
    ensures newPosts == 0 && MinUpdateFreq <= f + 1 <= MaxUpdateFreq ==> r == f + 1
    ensures (if newPosts > 0 then f - 1 else f + 1) < MinUpdateFreq ==> r == MinUpdateFreq
    ensures (if newPosts > 0 then f - 1 else f + 1) > MaxUpdateFreq ==> r == MaxUpdateFreq
  {
    var stepped := if newPosts > 0 then f - 1 else f + 1;
    if stepped < MinUpdateFreq then MinUpdateFreq
    else if stepped > MaxUpdateFreq then MaxUpdateFreq
    else stepped
  }

  // === Entries ===

  /** The links the source of a feed published at or after `archival`. */
  function SourceLinks(posts: map<nat, Post>, feeds: map<nat, Feed>, sourceId: nat, archival: int): set<string> {
    set id | id in posts && posts[id].published >= archival && posts[id].feedId in feeds
                         && feeds[posts[id].feedId].sourceId == sourceId :: posts[id].link
  }

  /** A stored post passes the entry filters: inside the collection window
      and within the column widths. */
  predicate Admissible(p: Post, now: int, collection: int) {
    collection <= p.published <= now && |p.title| <= PostColumnWidth && |p.link| <= PostColumnWidth
  }

  /** The normalised entry the job would store, if the entry survives
      parsing, time-zone conversion, the date window and the width check. */
  function Candidate(e: Entry, env: Env, now: int, collection: int): (r: Option<Parsed>)
    ensures r.Some? <==> (Parse(e, env.getText, env.mktime).Ok?
                          && env.localizes(Parse(e, env.getText, env.mktime).value.published)
                          && collection <= Parse(e, env.getText, env.mktime).value.published <= now
                          && |Parse(e, env.getText, env.mktime).value.title| <= PostColumnWidth
                          && |Parse(e, env.getText, env.mktime).value.link| <= PostColumnWidth)
    ensures r.Some? ==> r.value == Parse(e, env.getText, env.mktime).value
  {
    match Parse(e, env.getText, env.mktime)
    case Err(_) => None
    case Ok(p) =>
      if !env.localizes(p.published) then None
      else if p.published > now || p.published < collection then None
      else if |p.title| > PostColumnWidth || |p.link| > PostColumnWidth then None
      else Some(p)
  }

  /** The running state of one feed's entry loop: the tables, the link set
      and the number of posts created so far. */
  datatype Intake = Intake(store: Store, links: set<string>, added: nat)

  /** Stores one post under the next id, with a zero action row and an entity-queue entry. */
  function AddPost(st: Store, feedId: nat, p: Parsed, now: int): (r: Store)
    ensures r.nextPostId == st.nextPostId + 1
    ensures r.posts == st.posts[st.nextPostId := Post(feedId, p.title, p.description, p.link, p.published, now)]
    ensures r.actions == st.actions[st.nextPostId := PostAction(0, 0, 0.0)]
    ensures r.queue == st.queue + [st.nextPostId] && r.statuses == st.statuses
  {
    var id := st.nextPostId;
    st.(posts := st.posts[id := Post(feedId, p.title, p.description, p.link, p.published, now)],
        actions := st.actions[id := PostAction(0, 0, 0.0)],
        queue := st.queue + [id],
        nextPostId := id + 1)
  }

  /** One pass of the entry loop. */
  function IngestEntry(acc: Intake, feedId: nat, e: Entry, env: Env, now: int, collection: int): Intake {
    match Candidate(e, env, now, collection)
    case None => acc
    case Some(p) =>
      if p.link in acc.links then acc
      else Intake(AddPost(acc.store, feedId, p, now), acc.links + {p.link}, acc.added + 1)
  }

  /** The whole entry loop of one feed. */
  function Ingest(acc: Intake, feedId: nat, entries: seq<Entry>, env: Env, now: int, collection: int): Intake
    decreases |entries|
  {
    if entries == [] then acc
    else Ingest(IngestEntry(acc, feedId, entries[0], env, now, collection), feedId, entries[1..], env, now, collection)
  }

  /** The ids `lo`, `lo + 1`, ..., `hi - 1`. */
  function Range(lo: nat, hi: nat): (r: seq<nat>)
    requires lo <= hi
    ensures |r| == hi - lo && forall k :: 0 <= k < |r| ==> r[k] == lo + k
    decreases hi - lo
  {
    if lo == hi then [] else [lo] + Range(lo + 1, hi)
  }

  /** Rows the entry loop never touches: everything below the first new id. */
  ghost predicate KeepsOld(acc0: Intake, acc: Intake) {
    var lo := acc0.store.nextPostId;
    && lo <= acc.store.nextPostId && acc.added == acc0.added + (acc.store.nextPostId - lo)
    && acc.store.queue == acc0.store.queue + Range(lo, acc.store.nextPostId)
    && acc.store.statuses == acc0.store.statuses
    && (forall id :: id in acc0.store.posts && id < lo ==> id in acc.store.posts && acc.store.posts[id] == acc0.store.posts[id])
    && (forall id :: id in acc0.store.actions && id < lo ==> id in acc.store.actions && acc.store.actions[id] == acc0.store.actions[id])
  }

  /** Every new row is complete: a post of this feed, admissible, ingested
      now, with a zero action row. */
  ghost predicate NewRows(acc0: Intake, acc: Intake, feedId: nat, now: int, collection: int) {
    forall id :: acc0.store.nextPostId <= id < acc.store.nextPostId ==>
      && id in acc.store.posts && id in acc.store.actions
      && acc.store.actions[id] == PostAction(0, 0, 0.0)
      && acc.store.posts[id].feedId == feedId && acc.store.posts[id].ingested == now
      && Admissible(acc.store.posts[id], now, collection)
  }

  /** The link set only grows; every new post's link has joined it, was
      not in it at the start, and differs from every other new post's link. */
  ghost predicate FreshLinks(acc0: Intake, acc: Intake) {
    var lo := acc0.store.nextPostId;
    var hi := acc.store.nextPostId;
    && acc0.links <= acc.links
    && (forall id :: lo <= id < hi ==> id in acc.store.posts)
    && (forall id :: lo <= id < hi ==> acc.store.posts[id].link in acc.links && acc.store.posts[id].link !in acc0.links)
    && (forall a, b :: lo <= a < b < hi ==> acc.store.posts[a].link != acc.store.posts[b].link)
  }

  /** What the entry loop guarantees about the intake `acc`, started from `acc0`. */
  ghost predicate IntakeInv(acc0: Intake, acc: Intake, feedId: nat, now: int, collection: int) {
    KeepsOld(acc0, acc) && NewRows(acc0, acc, feedId, now, collection) && FreshLinks(acc0, acc)
  }

  lemma {:induction false} StepKeepsOld(acc0: Intake, acc: Intake, feedId: nat, p: Parsed, now: int)
    requires KeepsOld(acc0, acc)
    ensures KeepsOld(acc0, Intake(AddPost(acc.store, feedId, p, now), acc.links + {p.link}, acc.added + 1))
  {
    assert Range(acc0.store.nextPostId, acc.store.nextPostId + 1)
        == Range(acc0.store.nextPostId, acc.store.nextPostId) + [acc.store.nextPostId];
  }

  lemma {:induction false} StepNewRows(acc0: Intake, acc: Intake, feedId: nat, p: Parsed, now: int, collection: int)
    requires acc0.store.nextPostId <= acc.store.nextPostId
    requires NewRows(acc0, acc, feedId, now, collection)
    requires collection <= p.published <= now && |p.title| <= PostColumnWidth && |p.link| <= PostColumnWidth
    ensures NewRows(acc0, Intake(AddPost(acc.store, feedId, p, now), acc.links + {p.link}, acc.added + 1), feedId, now, collection)
  {
  }

  lemma {:induction false} StepFreshLinks(acc0: Intake, acc: Intake, feedId: nat, p: Parsed, now: int)
    requires acc0.store.nextPostId <= acc.store.nextPostId
    requires FreshLinks(acc0, acc)
    requires p.link !in acc.links
    ensures FreshLinks(acc0, Intake(AddPost(acc.store, feedId, p, now), acc.links + {p.link}, acc.added + 1))
  {
    var r := AddPost(acc.store, feedId, p, now);
    var hi := acc.store.nextPostId;
    assert forall id :: acc0.store.nextPostId <= id < hi ==> r.posts[id] == acc.store.posts[id];
    assert r.posts[hi].link == p.link;
  }

  lemma {:induction false} IngestEntryInv(acc0: Intake, acc: Intake, feedId: nat, e: Entry, env: Env, now: int, collection: int)
    requires IntakeInv(acc0, acc, feedId, now, collection)
    ensures IntakeInv(acc0, IngestEntry(acc, feedId, e, env, now, collection), feedId, now, collection)
  {
    match Candidate(e, env, now, collection)
    case None =>
    case Some(p) =>
      if p.link !in acc.links {
        StepKeepsOld(acc0, acc, feedId, p, now);
        StepNewRows(acc0, acc, feedId, p, now, collection);
        StepFreshLinks(acc0, acc, feedId, p, now);
      }
  }

  /** The entry loop keeps `IntakeInv`. */
  lemma {:induction false} IngestInv(acc0: Intake, acc: Intake, feedId: nat, entries: seq<Entry>, env: Env, now: int, collection: int)
    requires IntakeInv(acc0, acc, feedId, now, collection)
    ensures IntakeInv(acc0, Ingest(acc, feedId, entries, env, now, collection), feedId, now, collection)
    decreases |entries|
  {
    if entries != [] {
      IngestEntryInv(acc0, acc, feedId, entries[0], env, now, collection);
      IngestInv(acc0, IngestEntry(acc, feedId, entries[0], env, now, collection), feedId, entries[1..], env, now, collection);
    }
  }

  /** The properties of one feed's entry loop: exactly `added` posts are
      created under fresh consecutive ids, each admissible, from this feed,
      with a zero action row and an entity-queue entry, no two with the same
      link and none with a link the source already had; earlier rows are
      untouched. */
  lemma IngestFacts(st: Store, links: set<string>, feedId: nat, entries: seq<Entry>, env: Env, now: int, collection: int)
    ensures IntakeInv(Intake(st, links, 0), Ingest(Intake(st, links, 0), feedId, entries, env, now, collection), feedId, now, collection)
  {
    var acc0 := Intake(st, links, 0);
    assert Range(st.nextPostId, st.nextPostId) == [];
    assert st.queue + [] == st.queue;
    IngestInv(acc0, acc0, feedId, entries, env, now, collection);
  }

  // === One feed, one run ===

  /** The feed rows every status refers to exist. */
  predicate StatusFeedsIn(statuses: seq<Status>, feeds: map<nat, Feed>) {
    forall i :: 0 <= i < |statuses| ==> statuses[i].feedId in feeds
  }

  /** The rows of one feed's visit that a failed commit loses: only the
      entity-queue row of the last post, since every post and action row was
      already committed when it was created. */
  function RollBack(before: Store, after: Store, added: nat): (r: Store)
    requires |before.queue| <= |after.queue|
    ensures r.posts == after.posts && r.actions == after.actions && r.statuses == after.statuses
    ensures added > 0 && |after.queue| > 0 ==> r.queue == after.queue[..|after.queue| - 1]
    ensures added == 0 ==> r.queue == after.queue
  {
    if added > 0 && |after.queue| > 0 then after.(queue := after.queue[..|after.queue| - 1]) else after
  }

  /** How a visit ended. */
  datatype Visit = Visit(store: Store, committed: bool)

  /** One visit of the due feed at status position `idx`: ingest its entries
      against its source's recent links, commit, and on success record the
      visit and the new back-off in its status row. */
  function FeedStep(st: Store, feeds: map<nat, Feed>, idx: nat, env: Env, now: int,
                    collection: int, archival: int, fails: bool): (v: Visit)
    requires idx < |st.statuses| && StatusFeedsIn(st.statuses, feeds)
    ensures |v.store.statuses| == |st.statuses|
    ensures forall i :: 0 <= i < |st.statuses| ==> v.store.statuses[i].feedId == st.statuses[i].feedId
    ensures forall i :: 0 <= i < |st.statuses| && i != idx ==> v.store.statuses[i] == st.statuses[i]
    ensures v.committed <==> !fails
    ensures v.committed ==> v.store.statuses[idx].updateTime == now
    ensures v.committed ==> MinUpdateFreq <= v.store.statuses[idx].updateFrequency <= MaxUpdateFreq
    ensures !v.committed ==> v.store.statuses == st.statuses
  {
    var status := st.statuses[idx];
    var feed := feeds[status.feedId];
    var intake := Ingest(Intake(st, SourceLinks(st.posts, feeds, feed.sourceId, archival), 0),
                         status.feedId, env.fetch(feed.url), env, now, collection);
    IngestFacts(st, SourceLinks(st.posts, feeds, feed.sourceId, archival), status.feedId, env.fetch(feed.url), env, now, collection);
    if fails then Visit(RollBack(st, intake.store, intake.added), false)
    else
      var next := Status(status.feedId, now, NextFrequency(status.updateFrequency, intake.added));
      Visit(intake.store.(statuses := intake.store.statuses[idx := next]), true)
  }

  /** The feed loop over the due positions `due`; `k` is the position of
      `due[0]` in the run. The first failed commit ends the run. */
  function RunFeeds(st: Store, feeds: map<nat, Feed>, due: seq<nat>, k: nat, env: Env, now: int,
                    collection: int, archival: int, fails: nat -> bool): (v: Visit)
    requires StatusFeedsIn(st.statuses, feeds)
    requires forall i :: 0 <= i < |due| ==> due[i] < |st.statuses|
    ensures |v.store.statuses| == |st.statuses|
    ensures forall i :: 0 <= i < |st.statuses| ==> v.store.statuses[i].feedId == st.statuses[i].feedId
    decreases |due|
  {
    if due == [] then Visit(st, true)
    else
      var v := FeedStep(st, feeds, due[0], env, now, collection, archival, fails(k));
      if !v.committed then v
      else RunFeeds(v.store, feeds, due[1..], k + 1, env, now, collection, archival, fails)
  }

  /** After a run every status is either untouched or records a visit at
      `now` with a back-off exponent within the bounds; after a run that
      committed every feed, every due status records a visit. */
  lemma {:induction false} RunStatuses(st: Store, feeds: map<nat, Feed>, due: seq<nat>, k: nat, env: Env, now: int,
                                       collection: int, archival: int, fails: nat -> bool)
    requires StatusFeedsIn(st.statuses, feeds)
    requires forall i :: 0 <= i < |due| ==> due[i] < |st.statuses|
    ensures var v := RunFeeds(st, feeds, due, k, env, now, collection, archival, fails);
      forall i :: 0 <= i < |st.statuses| ==>
        v.store.statuses[i] == st.statuses[i]
        || (v.store.statuses[i].updateTime == now
            && MinUpdateFreq <= v.store.statuses[i].updateFrequency <= MaxUpdateFreq)
    ensures var v := RunFeeds(st, feeds, due, k, env, now, collection, archival, fails);
      forall i :: 0 <= i < |st.statuses| && i !in due ==> v.store.statuses[i] == st.statuses[i]
    ensures var v := RunFeeds(st, feeds, due, k, env, now, collection, archival, fails);
      v.committed ==> forall i :: i in due ==> v.store.statuses[i].updateTime == now
    decreases |due|
  {
    if due != [] {
      var v := FeedStep(st, feeds, due[0], env, now, collection, archival, fails(k));
      if v.committed {
        assert StatusFeedsIn(v.store.statuses, feeds);
        RunStatuses(v.store, feeds, due[1..], k + 1, env, now, collection, archival, fails);
        var w := RunFeeds(v.store, feeds, due[1..], k + 1, env, now, collection, archival, fails);
        assert RunFeeds(st, feeds, due, k, env, now, collection, archival, fails) == w;
        forall i | i in due
          ensures w.committed ==> w.store.statuses[i].updateTime == now
        {
          if i != due[0] {
            assert i in due[1..];
          }
        }
      }
    }
  }

  /** What a run guarantees about the posts it created since `st0`: each
      is admissible and belongs to a known feed, and no two posts of the same
      source carry the same link. */
  ghost predicate RunInv(st0: Store, st: Store, feeds: map<nat, Feed>, now: int, collection: int) {
    var lo := st0.nextPostId;
    var hi := st.nextPostId;
    && lo <= hi
    && (forall id :: lo <= id < hi ==> id in st.posts)
    && (forall id :: lo <= id < hi ==> Admissible(st.posts[id], now, collection) && st.posts[id].feedId in feeds)
    && (forall a, b :: lo <= a < b < hi && feeds[st.posts[a].feedId].sourceId == feeds[st.posts[b].feedId].sourceId
          ==> st.posts[a].link != st.posts[b].link)
  }

  /** One visit keeps `RunInv`: a post created earlier in the run is among
      the source's recent links when a later feed of that source is read. */
  lemma {:induction false} FeedStepRunInv(st0: Store, st: Store, feeds: map<nat, Feed>, idx: nat, env: Env, now: int,
                                          collection: int, archival: int, fails: bool)
    requires idx < |st.statuses| && StatusFeedsIn(st.statuses, feeds)
    requires archival <= collection
    requires RunInv(st0, st, feeds, now, collection)
    requires forall id :: st0.nextPostId <= id < st.nextPostId ==> id in st.posts
    ensures RunInv(st0, FeedStep(st, feeds, idx, env, now, collection, archival, fails).store, feeds, now, collection)
  {
    var status := st.statuses[idx];
    var src := feeds[status.feedId].sourceId;
    var links := SourceLinks(st.posts, feeds, src, archival);
    var acc := Intake(st, links, 0);
    var intake := Ingest(acc, status.feedId, env.fetch(feeds[status.feedId].url), env, now, collection);
    IngestFacts(st, links, status.feedId, env.fetch(feeds[status.feedId].url), env, now, collection);
    var r := FeedStep(st, feeds, idx, env, now, collection, archival, fails).store;
    assert r.posts == intake.store.posts && r.nextPostId == intake.store.nextPostId;
    var lo, mid, hi := st0.nextPostId, st.nextPostId, r.nextPostId;
    forall id | lo <= id < mid
      ensures id in r.posts && r.posts[id] == st.posts[id]
    {
    }
    forall a, b | lo <= a < b < hi && feeds[r.posts[a].feedId].sourceId == feeds[r.posts[b].feedId].sourceId
      ensures r.posts[a].link != r.posts[b].link
    {
      if a < mid && mid <= b {
        assert r.posts[b].feedId == status.feedId;
        assert st.posts[a].published >= archival;
        assert st.posts[a].link in links;
      }
    }
  }

  /** A whole run keeps `RunInv`, whether it completes or stops at a failed commit. */
  lemma {:induction false} RunFeedsInv(st0: Store, st: Store, feeds: map<nat, Feed>, due: seq<nat>, k: nat, env: Env,
                                       now: int, collection: int, archival: int, fails: nat -> bool)
    requires StatusFeedsIn(st.statuses, feeds)
    requires forall i :: 0 <= i < |due| ==> due[i] < |st.statuses|
    requires archival <= collection
    requires RunInv(st0, st, feeds, now, collection)
    ensures RunInv(st0, RunFeeds(st, feeds, due, k, env, now, collection, archival, fails).store, feeds, now, collection)
    decreases |due|
  {
    if due != [] {
      FeedStepRunInv(st0, st, feeds, due[0], env, now, collection, archival, fails(k));
      var v := FeedStep(st, feeds, due[0], env, now, collection, archival, fails(k));
      if v.committed {
        RunFeedsInv(st0, v.store, feeds, due[1..], k + 1, env, now, collection, archival, fails);
      }
    }
  }

  /** No link is stored twice for one source in a run, and every post a run
      stores passes the date-window and width filters. */
  lemma RunCreatesDistinctAdmissiblePosts(st: Store, feeds: map<nat, Feed>, due: seq<nat>, env: Env, now: int,
                                          days: int, fails: nat -> bool)
    requires StatusFeedsIn(st.statuses, feeds)
    requires forall i :: 0 <= i < |due| ==> due[i] < |st.statuses|
    ensures var r := RunFeeds(st, feeds, due, 0, env, now, CollectionOffset(now, days), ArchivalOffset(now, days), fails).store;
      && st.nextPostId <= r.nextPostId
      && (forall id :: st.nextPostId <= id < r.nextPostId ==>
            id in r.posts && r.posts[id].feedId in feeds && Admissible(r.posts[id], now, CollectionOffset(now, days)))
      && (forall a, b :: st.nextPostId <= a < b < r.nextPostId
            && feeds[r.posts[a].feedId].sourceId == feeds[r.posts[b].feedId].sourceId
            ==> r.posts[a].link != r.posts[b].link)
  {
    RunFeedsInv(st, st, feeds, due, 0, env, now, CollectionOffset(now, days), ArchivalOffset(now, days), fails);
  }

  /** A larger exponent never gives a shorter back-off. */
  lemma {:induction false} Pow2Monotone(m: nat, n: nat)
    requires m <= n
    ensures Pow2(m) <= Pow2(n)
    decreases n
  {
    if m < n {
      Pow2Monotone(m, n - 1);
    }
  }

  /** A feed just visited rests: it is not due again within two minutes, and
      it is due again at the latest after 2^8 minutes. */
  lemma VisitedFeedRests(feedId: nat, now: int, f: int, newPosts: nat, later: int)
    requires now <= later
    ensures var s := Status(feedId, now, NextFrequency(f, newPosts));
      (later < now + 2 ==> !IsDue(s, later)) && (later >= now + 256 ==> IsDue(s, later))
  {
    var g := NextFrequency(f, newPosts);
    Pow2Monotone(1, g);
    Pow2Monotone(g, 8);
    assert Pow2(1) == 2 && Pow2(8) == 256;
  }

  // === The job ===

  /** `is_locked`: a COLLECT lock at most eight minutes old holds; an older one is deleted. */
  method IsLocked(db: Db, now: int) returns (locked: bool)
    modifies db`locks
    ensures locked == FreshLock(old(db.locks), COLLECT, now, LockTimeout)
    ensures db.locks == AfterCheck(old(db.locks), COLLECT, now, LockTimeout)
  {
    locked := CheckLock(db, COLLECT, now, LockTimeout);
  }

  /** Entries published before this are out of the collection window. */
  function CollectionOffset(now: int, days: int): int {
    now - days * MinutesPerDay
  }

  /** Posts published before this no longer count as the source's recent links. */
  function ArchivalOffset(now: int, days: int): int {
    now - (days + 1) * MinutesPerDay
  }

  /** The entry loop of one feed (the inner loop of `collect_posts`). */
  method IngestFeed(db: Db, feedId: nat, entries: seq<Entry>, links: set<string>, env: Env, now: int, collection: int)
    returns (linkUrls: set<string>, newPostCount: nat)
    modifies db`posts, db`nextPostId, db`actions, db`entityQueue
    ensures Intake(View(db), linkUrls, newPostCount) == Ingest(Intake(old(View(db)), links, 0), feedId, entries, env, now, collection)
    ensures |db.entityQueue| >= |old(db.entityQueue)| + newPostCount
  {
    linkUrls := links;
    newPostCount := 0;
    ghost var intake := Ingest(Intake(View(db), links, 0), feedId, entries, env, now, collection);
    var j := 0;
    while j < |entries|
      invariant 0 <= j <= |entries|
      invariant |db.entityQueue| >= |old(db.entityQueue)| + newPostCount
      invariant Ingest(Intake(View(db), linkUrls, newPostCount), feedId, entries[j..], env, now, collection) == intake
    {
      var entry := entries[j];
      assert entries[j..][1..] == entries[j + 1..];
      ghost var acc := Intake(View(db), linkUrls, newPostCount);
      ghost var next := IngestEntry(acc, feedId, entry, env, now, collection);
      assert Ingest(acc, feedId, entries[j..], env, now, collection) == Ingest(next, feedId, entries[j + 1..], env, now, collection);
      j := j + 1;
      var parsed := Parse(entry, env.getText, env.mktime);
      if parsed.Err? {
        assert next == acc;
        continue;
      }
      var post := parsed.value;
      if !env.localizes(post.published) || post.published > now || post.published < collection ||
         |post.title| > PostColumnWidth || |post.link| > PostColumnWidth {
        assert next == acc;
        continue;
      }
      assert Candidate(entry, env, now, collection) == Some(post);
      if post.link !in linkUrls {
        linkUrls := linkUrls + {post.link};
        var id := db.nextPostId;
        db.posts := db.posts[id := Post(feedId, post.title, post.description, post.link, post.published, now)];
        db.nextPostId := id + 1;
        db.actions := db.actions[id := PostAction(0, 0, 0.0)];
        db.entityQueue := db.entityQueue + [id];
        newPostCount := newPostCount + 1;
      }
      assert Intake(View(db), linkUrls, newPostCount) == next;
    }
    assert entries[j..] == [];
  }

  /** One visit of a due feed, given its source's recent links: the entry
      loop, the commit (which may fail) and the status update. Also returns
      the link set as the entry loop left it. */
  method VisitFeed(db: Db, idx: nat, links: set<string>, env: Env, now: int, collection: int, archival: int, fails: bool)
    returns (committed: bool, linkUrls: set<string>)
    requires idx < |db.statuses| && StatusFeedsIn(db.statuses, db.feeds)
    requires links == SourceLinks(db.posts, db.feeds, db.feeds[db.statuses[idx].feedId].sourceId, archival)
    modifies db`posts, db`nextPostId, db`actions, db`entityQueue, db`statuses
    ensures Visit(View(db), committed) == FeedStep(old(View(db)), db.feeds, idx, env, now, collection, archival, fails)
    ensures linkUrls == Ingest(Intake(old(View(db)), links, 0), old(db.statuses[idx].feedId),
                               env.fetch(db.feeds[old(db.statuses[idx].feedId)].url), env, now, collection).links
  {
    var status := db.statuses[idx];
    var feed := db.feeds[status.feedId];
    var newPostCount;
    linkUrls, newPostCount := IngestFeed(db, status.feedId, env.fetch(feed.url), links, env, now, collection);
    if fails {
      // Only the queue row of the last post was still uncommitted.
      if newPostCount > 0 {
        db.entityQueue := db.entityQueue[..|db.entityQueue| - 1];
      }
      return false, linkUrls;
    }
    var frequency := NextFrequency(status.updateFrequency, newPostCount);
    db.statuses := db.statuses[idx := Status(status.feedId, now, frequency)];
    return true, linkUrls;
  }

  /** The feed loop of `collect_posts`: each due feed's recent links are
      read afresh; the first failed commit ends the loop. */
  method RunDue(db: Db, due: seq<nat>, env: Env, now: int, collection: int, archival: int, fails: nat -> bool)
    returns (committed: bool)
    requires StatusFeedsIn(db.statuses, db.feeds)
    requires forall i :: 0 <= i < |due| ==> due[i] < |db.statuses|
    modifies db`posts, db`nextPostId, db`actions, db`entityQueue, db`statuses
    ensures Visit(View(db), committed) == RunFeeds(old(View(db)), db.feeds, due, 0, env, now, collection, archival, fails)
  {
    ghost var st0 := View(db);
    var n := 0;
    while n < |due|
      invariant 0 <= n <= |due|
      invariant StatusFeedsIn(db.statuses, db.feeds) && |db.statuses| == |st0.statuses|
      invariant RunFeeds(View(db), db.feeds, due[n..], n, env, now, collection, archival, fails)
             == RunFeeds(st0, db.feeds, due, 0, env, now, collection, archival, fails)
    {
      assert due[n..][1..] == due[n + 1..];
      var feed := db.feeds[db.statuses[due[n]].feedId];
      var linkUrls := SourceLinks(db.posts, db.feeds, feed.sourceId, archival);
      var linksAfter;
      committed, linksAfter := VisitFeed(db, due[n], linkUrls, env, now, collection, archival, fails(n));
      if !committed {
        return;
      }
      n := n + 1;
    }
    assert due[n..] == [];
    committed := true;
  }

  /** `collect_posts`: one run of the job over the feeds due at `now`. */
  method CollectPosts(db: Db, env: Env, now: int, days: int, fails: nat -> bool) returns (outcome: JobOutcome)
    requires StatusFeedsIn(db.statuses, db.feeds)
    modifies db`posts, db`nextPostId, db`actions, db`entityQueue, db`statuses, db`locks
    ensures db.locks == AfterCheck(old(db.locks), COLLECT, now, LockTimeout)
    ensures FreshLock(old(db.locks), COLLECT, now, LockTimeout) ==> outcome == Locked && View(db) == old(View(db))
    ensures !FreshLock(old(db.locks), COLLECT, now, LockTimeout) && DueIndices(old(db.statuses), now) == [] ==>
              outcome == NothingToDo && View(db) == old(View(db))
    ensures !FreshLock(old(db.locks), COLLECT, now, LockTimeout) && DueIndices(old(db.statuses), now) != [] ==>
              var v := RunFeeds(old(View(db)), db.feeds, DueIndices(old(db.statuses), now), 0, env, now,
                                CollectionOffset(now, days), ArchivalOffset(now, days), fails);
              View(db) == v.store && outcome == (if v.committed then Completed else Failed)
  {
    var locked := IsLocked(db, now);
    if locked {
      return Locked;
    }
    var due := GetDueFeeds(db, now);
    if |due| == 0 {
      return NothingToDo;
    }
    db.locks := db.locks + [JobLock(COLLECT, now)];
    var committed := RunDue(db, due, env, now, CollectionOffset(now, days), ArchivalOffset(now, days), fails);
    // The job deletes the lock row it created, after a failed commit too.
    db.locks := db.locks[..|db.locks| - 1];
    outcome := if committed then Completed else Failed;
  }
}
