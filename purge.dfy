/** The purge job: delete every post published more than seven days ago,
    500 posts per commit. The rows that hang off a post (its action,
    keywords, similarities, queue rows, clicks and bookmarks) go with it by
    the database's cascading delete, which this model leaves to the
    database: only the post table is modelled. */
module Purge {
  import opened Common
  import opened Models

  /** How many posts one commit deletes. */
  const BatchSize: nat := 500

  /** Posts older than this many days are deleted. */
  const MaxAgeDays: int := 7

  /** The stored posts published before `delta`. */
  function ExpiredIds(posts: map<nat, Post>, delta: int): (r: set<nat>)
    ensures forall id :: id in r <==> id in posts && posts[id].published < delta
  {
    set id | id in posts && posts[id].published < delta
  }

  /** The query for the expired posts; the database returns them in no
      particular order, so the loop takes them in any. */
  method ExpiredPosts(posts: map<nat, Post>, delta: int) returns (expired: seq<nat>)
    ensures Distinct(expired)
    ensures forall id :: id in expired <==> id in ExpiredIds(posts, delta)
  {
    expired := [];
    var remaining := posts.Keys;
    while remaining != {}
      invariant remaining <= posts.Keys
      invariant Distinct(expired)
      invariant forall id :: id in expired ==> id in posts && id !in remaining
      invariant forall id :: id in posts.Keys ==>
        (id in expired <==> id !in remaining && posts[id].published < delta)
      decreases |remaining|
    {
      var id :| id in remaining;
      remaining := remaining - {id};
      if posts[id].published < delta {
        expired := expired + [id];
      }
    }
  }

  /** One batch: its posts are deleted in one commit; a failed commit leaves the table as it was. */
  datatype Visit = Visit(posts: map<nat, Post>, committed: bool)

  function BatchStep(posts: map<nat, Post>, batch: seq<nat>, failed: bool): (v: Visit)
    ensures v.committed ==> v.posts.Keys == posts.Keys - set id | id in batch
    ensures forall id :: id in v.posts ==> id in posts && v.posts[id] == posts[id]
  {
    if failed then Visit(posts, false) else Visit(posts - set id | id in batch, true)
  }

  /** The batches in order; the run stops at the first failed commit. */
  function RunPurge(posts: map<nat, Post>, bs: seq<seq<nat>>, k: nat, fails: nat -> bool): (v: Visit)
    ensures forall id :: id in v.posts ==> id in posts && v.posts[id] == posts[id]
    decreases |bs|
  {
    if bs == [] then Visit(posts, true)
    else
      var v := BatchStep(posts, bs[0], fails(k));
      if !v.committed then v else RunPurge(v.posts, bs[1..], k + 1, fails)
  }

  /** A post not in any batch survives the run unchanged. */
  lemma {:induction false} RunPurgeKeeps(posts: map<nat, Post>, q: seq<nat>, k: nat, fails: nat -> bool, id: nat)
    requires id in posts && id !in q
    ensures id in RunPurge(posts, Batches(q, BatchSize), k, fails).posts
    decreases |q|
  {
    if q != [] {
      var end := Min(BatchSize, |q|);
      var bs := Batches(q, BatchSize);
      assert bs[0] == q[..end] && bs[1..] == Batches(q[end..], BatchSize);
      assert q == q[..end] + q[end..];
      var v := BatchStep(posts, bs[0], fails(k));
      if v.committed {
        RunPurgeKeeps(v.posts, q[end..], k + 1, fails, id);
      }
    }
  }

  /** A run whose commits all go through deletes every post of the list. */
  lemma {:induction false} RunPurgeDeletes(posts: map<nat, Post>, q: seq<nat>, k: nat, fails: nat -> bool, id: nat)
    requires id in q
    ensures RunPurge(posts, Batches(q, BatchSize), k, fails).committed ==>
              id !in RunPurge(posts, Batches(q, BatchSize), k, fails).posts
    decreases |q|
  {
    var end := Min(BatchSize, |q|);
    var bs := Batches(q, BatchSize);
    assert bs[0] == q[..end] && bs[1..] == Batches(q[end..], BatchSize);
    assert q == q[..end] + q[end..];
    var v := BatchStep(posts, bs[0], fails(k));
    if v.committed && id in q[end..] {
      RunPurgeDeletes(v.posts, q[end..], k + 1, fails, id);
    }
  }

  /** Purging the expired posts deletes exactly them when every commit goes
      through, and never touches a post published at or after the cutoff. */
  lemma PurgeExact(posts: map<nat, Post>, expired: seq<nat>, delta: int, fails: nat -> bool)
    requires forall id :: id in expired <==> id in ExpiredIds(posts, delta)
    ensures var r := RunPurge(posts, Batches(expired, BatchSize), 0, fails);
            (forall id :: id in posts && posts[id].published >= delta ==> id in r.posts && r.posts[id] == posts[id]) &&
            (r.committed ==> r.posts == map id | id in posts && posts[id].published >= delta :: posts[id])
  {
    var r := RunPurge(posts, Batches(expired, BatchSize), 0, fails);
    forall id | id in posts && posts[id].published >= delta
      ensures id in r.posts
    {
      RunPurgeKeeps(posts, expired, 0, fails, id);
    }
    if r.committed {
      forall id | id in expired
        ensures id !in r.posts
      {
        RunPurgeDeletes(posts, expired, 0, fails, id);
      }
    }
  }

  /** The ids of one batch, counted one by one. */
  method BatchIds(batch: seq<nat>) returns (postIds: set<nat>, counted: nat)
    ensures postIds == set id | id in batch
    ensures counted == |batch|
  {
    postIds, counted := {}, 0;
    var i := 0;
    while i < |batch|
      invariant 0 <= i <= |batch|
      invariant postIds == set j | 0 <= j < i :: batch[j]
      invariant counted == i
    {
      counted := counted + 1;
      postIds := postIds + {batch[i]};
      i := i + 1;
    }
    assert postIds == set id | id in batch by {
      forall id | id in batch
        ensures id in postIds
      {
        var j :| 0 <= j < |batch| && batch[j] == id;
      }
    }
  }

  /** The run from the batch at `start` on: the batch's commit, then the run from the next batch on. */
  lemma PurgeAdvance(posts: map<nat, Post>, q: seq<nat>, start: nat, k: nat, fails: nat -> bool, target: Visit)
    requires start < |q| && RunPurge(posts, Batches(q[start..], BatchSize), k, fails) == target
    ensures var end := Min(start + BatchSize, |q|);
            var v := BatchStep(posts, q[start..end], fails(k));
            (!v.committed ==> target == v) &&
            (v.committed ==> RunPurge(v.posts, Batches(q[end..], BatchSize), k + 1, fails) == target)
  {
    BatchesFrom(q, start, BatchSize);
  }

  /** The deletion loop over the batches; it returns how many posts it went
      through when every commit went through. */
  method DeleteBatches(db: Db, expired: seq<nat>, fails: nat -> bool) returns (committed: bool, expiredCount: nat)
    modifies db`posts
    ensures db.posts == RunPurge(old(db.posts), Batches(expired, BatchSize), 0, fails).posts
    ensures committed == RunPurge(old(db.posts), Batches(expired, BatchSize), 0, fails).committed
    ensures committed ==> expiredCount == |expired|
  {
    ghost var target := RunPurge(db.posts, Batches(expired, BatchSize), 0, fails);
    expiredCount := 0;
    var start := 0;
    var k := 0;
    while start < |expired|
      invariant 0 <= start <= |expired|
      invariant RunPurge(db.posts, Batches(expired[start..], BatchSize), k, fails) == target
      invariant expiredCount == start
      decreases |expired| - start
    {
      var end := Min(start + BatchSize, |expired|);
      var batch := expired[start..end];
      PurgeAdvance(db.posts, expired, start, k, fails, target);
      ghost var v := BatchStep(db.posts, batch, fails(k));
      var postIds, counted := BatchIds(batch);
      expiredCount := expiredCount + counted;
      if fails(k) {
        // Rolled back and re-raised.
        return false, expiredCount;
      }
      db.posts := db.posts - postIds;
      assert db.posts == v.posts;
      start := end;
      k := k + 1;
    }
    committed := true;
  }

  /** `purge_posts`: one run of the job. */
  method PurgePosts(db: Db, now: int, fails: nat -> bool) returns (outcome: JobOutcome, expiredCount: nat)
    modifies db`posts
    ensures forall id :: id in old(db.posts) && old(db.posts)[id].published >= now - MaxAgeDays * MinutesPerDay ==>
              id in db.posts && db.posts[id] == old(db.posts)[id]
    ensures forall id :: id in db.posts ==> id in old(db.posts) && db.posts[id] == old(db.posts)[id]
    ensures outcome == Completed ==>
              db.posts == (map id | id in old(db.posts) && old(db.posts)[id].published >= now - MaxAgeDays * MinutesPerDay :: old(db.posts)[id]) &&
              expiredCount == |ExpiredIds(old(db.posts), now - MaxAgeDays * MinutesPerDay)|
    ensures outcome == Completed || outcome == Failed
  {
    var delta := now - MaxAgeDays * MinutesPerDay;
    var expired := ExpiredPosts(db.posts, delta);
    PurgeExact(db.posts, expired, delta, fails);
    DistinctCardinality(expired, ExpiredIds(db.posts, delta));
    var committed;
    committed, expiredCount := DeleteBatches(db, expired, fails);
    outcome := if committed then Completed else Failed;
  }

  /** A list without repeats has as many elements as the set it enumerates. */
  lemma {:induction false} DistinctCardinality(s: seq<nat>, e: set<nat>)
    requires Distinct(s) && forall x :: x in s <==> x in e
    ensures |s| == |e|
    decreases |s|
  {
    if s != [] {
      var t := s[1..];
      assert forall x :: x in t <==> x in e - {s[0]};
      DistinctCardinality(t, e - {s[0]});
    } else {
      assert e == {};
    }
  }
}
