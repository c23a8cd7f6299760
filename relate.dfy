/** The similarity job: under the RELATE lock, take the posts queued for
    similarity scoring in batches of 100, find the recent posts that share a
    keyword with each of them through an inverted keyword index, score each
    candidate with the overlap of the two keyword sets, and record every
    pair whose score reaches the threshold in both directions. The overlap
    score is a parameter. */
module Relate {
  import opened Common
  import opened Models
  import opened Locks

  /** How many queued posts one commit covers. */
  const BatchSize: nat := 100

  /** The score a pair needs to be recorded. */
  const Threshold: real := 0.8

  /** A RELATE lock younger than this many minutes means a run is in progress. */
  const LockTimeout: int := 8

  /** Only posts published within this many days are candidates. */
  const RecentDays: int := 2

  /** `is_locked`: a RELATE lock at most eight minutes old holds; an older one is deleted. */
  method IsLocked(db: Db, now: int) returns (locked: bool)
    modifies db`locks
    ensures locked == FreshLock(old(db.locks), RELATE, now, LockTimeout)
    ensures db.locks == AfterCheck(old(db.locks), RELATE, now, LockTimeout)
  {
    locked := CheckLock(db, RELATE, now, LockTimeout);
  }

  // === The keyword index ===

  /** A stored post published at or after `delta`. */
  predicate Recent(posts: map<nat, Post>, id: nat, delta: int) {
    id in posts && posts[id].published >= delta
  }

  /** The ids a keyword is looked up to; an absent keyword has none. */
  function Lookup(cache: map<string, set<nat>>, w: string): set<nat> {
    if w in cache then cache[w] else {}
  }

  /** The inverted index of the recent posts' keywords: each keyword of a
      recent post maps to exactly the recent posts that have it. */
  function EntityIndex(posts: map<nat, Post>, entities: seq<Entity>, delta: int): (cache: map<string, set<nat>>)
    ensures forall w :: w in cache <==> exists id :: Entity(w, id) in entities && Recent(posts, id, delta)
    ensures forall w, id :: w in cache ==> (id in cache[w] <==> Entity(w, id) in entities && Recent(posts, id, delta))
    decreases |entities|
  {
    if entities == [] then map[]
    else
      var init := entities[..|entities| - 1];
      var e := entities[|entities| - 1];
      assert entities == init + [e];
      var c := EntityIndex(posts, init, delta);
      if Recent(posts, e.postId, delta) then c[e.entity := Lookup(c, e.entity) + {e.postId}] else c
  }

  /** The index of a list grown by one entity row. */
  lemma EntityIndexSnoc(posts: map<nat, Post>, entities: seq<Entity>, i: nat, delta: int)
    requires i < |entities|
    ensures var c, e := EntityIndex(posts, entities[..i], delta), entities[i];
            EntityIndex(posts, entities[..i + 1], delta) ==
              if Recent(posts, e.postId, delta) then c[e.entity := Lookup(c, e.entity) + {e.postId}] else c
  {
    var grown := entities[..i + 1];
    assert grown[..|grown| - 1] == entities[..i];
  }

  /** `get_entity_cache`: the index of the posts of the last two days. */
  method GetEntityCache(db: Db, now: int) returns (cache: map<string, set<nat>>)
    ensures cache == EntityIndex(db.posts, db.entities, now - RecentDays * MinutesPerDay)
  {
    var delta := now - RecentDays * MinutesPerDay;
    cache := map[];
    var i := 0;
    while i < |db.entities|
      invariant 0 <= i <= |db.entities|
      invariant cache == EntityIndex(db.posts, db.entities[..i], delta)
    {
      var e := db.entities[i];
      EntityIndexSnoc(db.posts, db.entities, i, delta);
      if e.postId in db.posts && db.posts[e.postId].published >= delta {
        var ids := if e.entity in cache then cache[e.entity] else {};
        cache := cache[e.entity := ids + {e.postId}];
      }
      i := i + 1;
    }
    assert db.entities[..i] == db.entities;
  }

  // === Candidates and scores ===

  /** The keywords of a post, one per entity row. */
  function PostWords(entities: seq<Entity>, id: nat): (ws: seq<string>)
    ensures forall w :: w in ws <==> Entity(w, id) in entities
  {
    var rows := Filter(entities, (e: Entity) => e.postId == id);
    var ws := seq(|rows|, i requires 0 <= i < |rows| => rows[i].entity);
    forall i | 0 <= i < |rows|
      ensures rows[i] in entities && rows[i] == Entity(ws[i], id)
    {
      assert rows[i] in rows;
    }
    assert forall w :: Entity(w, id) in entities ==> w in ws by {
      forall w | Entity(w, id) in entities
        ensures w in ws
      {
        var i :| 0 <= i < |rows| && rows[i] == Entity(w, id);
        assert ws[i] == w;
      }
    }
    ws
  }

  /** The keyword set of a post. */
  function WordSet(entities: seq<Entity>, id: nat): (s: set<string>)
    ensures forall w :: w in s <==> Entity(w, id) in entities
  {
    set e | e in entities && e.postId == id :: e.entity
  }

  /** The union of the index entries of the keywords `ws`. */
  function Candidates(cache: map<string, set<nat>>, ws: seq<string>): (r: set<nat>)
    ensures forall c :: c in r <==> exists w :: w in ws && w in cache && c in cache[w]
    decreases |ws|
  {
    if ws == [] then {}
    else
      var init := ws[..|ws| - 1];
      assert ws == init + [ws[|ws| - 1]];
      Candidates(cache, init) + Lookup(cache, ws[|ws| - 1])
  }

  /** Through the index, the candidates of a post are exactly the recent
      posts that share a keyword with it. */
  lemma CandidatesShareKeyword(posts: map<nat, Post>, entities: seq<Entity>, delta: int, id: nat)
    ensures forall c :: c in Candidates(EntityIndex(posts, entities, delta), PostWords(entities, id)) <==>
      Recent(posts, c, delta) && exists w :: Entity(w, id) in entities && Entity(w, c) in entities
  {
    var cache := EntityIndex(posts, entities, delta);
    var ws := PostWords(entities, id);
    forall c
      ensures c in Candidates(cache, ws) <==>
        Recent(posts, c, delta) && exists w :: Entity(w, id) in entities && Entity(w, c) in entities
    {
      if c in Candidates(cache, ws) {
        var w :| w in ws && w in cache && c in cache[w];
        assert Entity(w, id) in entities && Entity(w, c) in entities;
      }
      if Recent(posts, c, delta) && exists w :: Entity(w, id) in entities && Entity(w, c) in entities {
        var w :| Entity(w, id) in entities && Entity(w, c) in entities;
        assert w in cache && w in ws;
      }
    }
  }

  /** What the scoring of one post reads. */
  datatype Scoring = Scoring(posts: map<nat, Post>, entities: seq<Entity>, cache: map<string, set<nat>>,
                             overlap: (set<string>, set<string>) -> real, threshold: real)

  /** The candidates of `id` that are stored posts other than itself and score at least the threshold. */
  function Related(sc: Scoring, id: nat): (r: set<nat>)
    ensures id !in r
    ensures forall c :: c in r <==>
      c in Candidates(sc.cache, PostWords(sc.entities, id)) && c in sc.posts && c != id &&
      sc.overlap(WordSet(sc.entities, id), WordSet(sc.entities, c)) >= sc.threshold
  {
    set c | c in Candidates(sc.cache, PostWords(sc.entities, id)) && c in sc.posts && c != id &&
            sc.overlap(WordSet(sc.entities, id), WordSet(sc.entities, c)) >= sc.threshold
  }

  /** The rows recorded for `id` and its related posts: one each way per pair. */
  function PairRows(id: nat, related: set<nat>): multiset<Similarity> {
    multiset(set c | c in related :: Similarity(id, c)) + multiset(set c | c in related :: Similarity(c, id))
  }

  lemma PairRowsAdd(id: nat, related: set<nat>, c: nat)
    requires c !in related && c != id
    ensures PairRows(id, related + {c}) == PairRows(id, related) + multiset{Similarity(id, c), Similarity(c, id)}
  {
    var out := set x | x in related :: Similarity(id, x);
    var inc := set x | x in related :: Similarity(x, id);
    assert (set x | x in related + {c} :: Similarity(id, x)) == out + {Similarity(id, c)};
    assert (set x | x in related + {c} :: Similarity(x, id)) == inc + {Similarity(c, id)};
    assert Similarity(id, c) !in out && Similarity(c, id) !in inc;
  }

  /** Two rows per related post, so the count of new rows is even. */
  lemma {:induction false} PairRowsSize(id: nat, related: set<nat>)
    requires id !in related
    ensures |PairRows(id, related)| == 2 * |related|
    decreases |related|
  {
    if related != {} {
      var c :| c in related;
      PairRowsSize(id, related - {c});
      PairRowsAdd(id, related - {c}, c);
      assert related - {c} + {c} == related;
    }
  }

  /** Every row has its mirror as often as itself (a multiset that is
      symmetric in the pair), and no row pairs a post with itself. */
  ghost predicate Symmetric(m: multiset<Similarity>) {
    forall a, b :: m[Similarity(a, b)] == m[Similarity(b, a)]
  }

  ghost predicate NoSelfPairs(m: multiset<Similarity>) {
    forall a :: m[Similarity(a, a)] == 0
  }

  lemma SymmetricSum(m: multiset<Similarity>, n: multiset<Similarity>)
    requires Symmetric(m) && NoSelfPairs(m) && Symmetric(n) && NoSelfPairs(n)
    ensures Symmetric(m + n) && NoSelfPairs(m + n)
  {
    forall a, b
      ensures (m + n)[Similarity(a, b)] == (m + n)[Similarity(b, a)]
    {
      assert m[Similarity(a, b)] == m[Similarity(b, a)];
      assert n[Similarity(a, b)] == n[Similarity(b, a)];
    }
    forall a
      ensures (m + n)[Similarity(a, a)] == 0
    {
      assert m[Similarity(a, a)] == 0 && n[Similarity(a, a)] == 0;
    }
  }

  lemma PairRowsSymmetric(id: nat, related: set<nat>)
    requires id !in related
    ensures Symmetric(PairRows(id, related)) && NoSelfPairs(PairRows(id, related))
  {
    var out := set x | x in related :: Similarity(id, x);
    var inc := set x | x in related :: Similarity(x, id);
    assert forall a, b :: Similarity(a, b) in out <==> a == id && b in related;
    assert forall a, b :: Similarity(a, b) in inc <==> b == id && a in related;
  }

  // === Batches ===

  /** The tables the job writes; the similarity table is taken up to row order. */
  datatype Store = Store(similarities: multiset<Similarity>, queue: seq<nat>)

  function View(db: Db): Store
    reads db
  {
    Store(multiset(db.similarities), db.similarityQueue)
  }

  /** The rows a batch adds, post by post. */
  function BatchRows(sc: Scoring, batch: seq<nat>): multiset<Similarity>
    decreases |batch|
  {
    if batch == [] then multiset{}
    else BatchRows(sc, batch[..|batch| - 1]) + PairRows(batch[|batch| - 1], Related(sc, batch[|batch| - 1]))
  }

  /** The store after an attempt to commit, and whether the commit went through. */
  datatype Visit = Visit(store: Store, committed: bool)

  /** One batch: its pairs are recorded and its posts leave the queue in one
      commit; a failed commit leaves the store as it was. */
  function BatchStep(st: Store, sc: Scoring, batch: seq<nat>, failed: bool): (v: Visit)
    ensures !v.committed ==> v.store == st
  {
    if failed then Visit(st, false)
    else Visit(Store(st.similarities + BatchRows(sc, batch), Filter(st.queue, (id: nat) => id !in batch)), true)
  }

  /** The batches in order, `k` counting the commits; the run stops at the first failed commit. */
  function RunBatches(st: Store, sc: Scoring, bs: seq<seq<nat>>, k: nat, fails: nat -> bool): Visit
    decreases |bs|
  {
    if bs == [] then Visit(st, true)
    else
      var v := BatchStep(st, sc, bs[0], fails(k));
      if !v.committed then v else RunBatches(v.store, sc, bs[1..], k + 1, fails)
  }

  // === Properties of a batch and of a run ===

  /** The number of related pairs of a batch. */
  function BatchPairCount(sc: Scoring, batch: seq<nat>): nat
    decreases |batch|
  {
    if batch == [] then 0 else BatchPairCount(sc, batch[..|batch| - 1]) + |Related(sc, batch[|batch| - 1])|
  }

  lemma {:induction false} BatchRowsSymmetric(sc: Scoring, batch: seq<nat>)
    ensures Symmetric(BatchRows(sc, batch)) && NoSelfPairs(BatchRows(sc, batch))
    ensures |BatchRows(sc, batch)| == 2 * BatchPairCount(sc, batch)
    decreases |batch|
  {
    if batch != [] {
      var id := batch[|batch| - 1];
      BatchRowsSymmetric(sc, batch[..|batch| - 1]);
      PairRowsSymmetric(id, Related(sc, id));
      PairRowsSize(id, Related(sc, id));
      SymmetricSum(BatchRows(sc, batch[..|batch| - 1]), PairRows(id, Related(sc, id)));
    }
  }

  /** A run keeps the similarity table symmetric and free of self-pairs, and deletes no row. */
  lemma {:induction false} RunKeepsSymmetric(st: Store, sc: Scoring, bs: seq<seq<nat>>, k: nat, fails: nat -> bool)
    requires Symmetric(st.similarities) && NoSelfPairs(st.similarities)
    ensures var r := RunBatches(st, sc, bs, k, fails).store;
            Symmetric(r.similarities) && NoSelfPairs(r.similarities) && st.similarities <= r.similarities
    decreases |bs|
  {
    if bs != [] {
      var v := BatchStep(st, sc, bs[0], fails(k));
      if v.committed {
        BatchRowsSymmetric(sc, bs[0]);
        SymmetricSum(st.similarities, BatchRows(sc, bs[0]));
        assert v.store.similarities == st.similarities + BatchRows(sc, bs[0]);
        RunKeepsSymmetric(v.store, sc, bs[1..], k + 1, fails);
      }
    }
  }

  /** The queue never gains a row during a run. */
  lemma {:induction false} RunQueueShrinks(st: Store, sc: Scoring, bs: seq<seq<nat>>, k: nat, fails: nat -> bool)
    ensures forall id :: id in RunBatches(st, sc, bs, k, fails).store.queue ==> id in st.queue
    decreases |bs|
  {
    if bs != [] {
      var v := BatchStep(st, sc, bs[0], fails(k));
      if v.committed {
        RunQueueShrinks(v.store, sc, bs[1..], k + 1, fails);
      }
    }
  }

  /** A run whose commits all go through empties the queue of every post it read. */
  lemma {:induction false} RunDrainsQueue(st: Store, sc: Scoring, q: seq<nat>, k: nat, fails: nat -> bool)
    ensures RunBatches(st, sc, Batches(q, BatchSize), k, fails).committed ==>
      forall id :: id in q ==> id !in RunBatches(st, sc, Batches(q, BatchSize), k, fails).store.queue
    decreases |q|
  {
    if q != [] {
      var end := Min(BatchSize, |q|);
      var bs := Batches(q, BatchSize);
      assert bs[0] == q[..end] && bs[1..] == Batches(q[end..], BatchSize);
      var v := BatchStep(st, sc, bs[0], fails(k));
      if v.committed {
        RunDrainsQueue(v.store, sc, q[end..], k + 1, fails);
        RunQueueShrinks(v.store, sc, bs[1..], k + 1, fails);
        assert q == q[..end] + q[end..];
      }
    }
  }

  // === The job ===

  /** The candidates of one post, gathered keyword by keyword. */
  method GatherCandidates(cache: map<string, set<nat>>, entities: seq<string>) returns (intersecting: set<nat>)
    ensures intersecting == Candidates(cache, entities)
  {
    intersecting := {};
    var i := 0;
    while i < |entities|
      invariant 0 <= i <= |entities|
      invariant intersecting == Candidates(cache, entities[..i])
    {
      var e := entities[i];
      assert entities[..i + 1][..i] == entities[..i];
      i := i + 1;
      if e !in cache {
        continue;
      }
      intersecting := intersecting + cache[e];
    }
    assert entities[..i] == entities;
  }

  /** The candidates among `cands` that score at least the threshold against `id`. */
  function Matches(sc: Scoring, id: nat, cands: set<nat>): (r: set<nat>)
    ensures r <= cands && id !in r
  {
    set c | c in cands && c != id && sc.overlap(WordSet(sc.entities, id), WordSet(sc.entities, c)) >= sc.threshold
  }

  lemma MatchesAdd(sc: Scoring, id: nat, cands: set<nat>, c: nat)
    ensures Matches(sc, id, cands + {c}) ==
      Matches(sc, id, cands) + (if c != id && sc.overlap(WordSet(sc.entities, id), WordSet(sc.entities, c)) >= sc.threshold
                                then {c} else {})
  {
  }

  /** One more candidate: its two rows are added exactly when it matches. */
  lemma ScoreStep(sc: Scoring, id: nat, before: set<nat>, rp: nat, rows: seq<Similarity>)
    requires rp !in before
    requires multiset(rows) == PairRows(id, Matches(sc, id, before))
    ensures var matched := rp != id && sc.overlap(WordSet(sc.entities, id), WordSet(sc.entities, rp)) >= sc.threshold;
            multiset(if matched then rows + [Similarity(id, rp), Similarity(rp, id)] else rows) ==
              PairRows(id, Matches(sc, id, before + {rp}))
  {
    MatchesAdd(sc, id, before, rp);
    if rp != id && sc.overlap(WordSet(sc.entities, id), WordSet(sc.entities, rp)) >= sc.threshold {
      PairRowsAdd(id, Matches(sc, id, before), rp);
    }
  }

  /** The scoring loop over the candidate posts, which come back from the
      database in no particular order; the loop takes them in any. */
  method ScoreCandidates(sc: Scoring, id: nat, keyworded: set<nat>) returns (rows: seq<Similarity>)
    ensures multiset(rows) == PairRows(id, Matches(sc, id, keyworded))
    ensures |rows| == 2 * |Matches(sc, id, keyworded)|
  {
    var entitySet := WordSet(sc.entities, id);
    var seen: set<nat> := {};
    var remaining := keyworded;
    ghost var done: set<nat> := {};
    rows := [];
    while remaining != {}
      invariant remaining <= keyworded && done <= keyworded
      invariant forall x :: x in keyworded ==> (x in remaining <==> x !in done)
      invariant seen <= done
      invariant multiset(rows) == PairRows(id, Matches(sc, id, done))
      decreases |remaining|
    {
      var rp :| rp in remaining;
      remaining := remaining - {rp};
      ScoreStep(sc, id, done, rp, rows);
      done := done + {rp};
      if rp == id {
        continue;
      }
      if rp in seen {
        continue;
      }
      var relatedEntitySet := WordSet(sc.entities, rp);
      var score := sc.overlap(entitySet, relatedEntitySet);
      if score >= sc.threshold {
        rows := rows + [Similarity(id, rp), Similarity(rp, id)];
      }
      seen := seen + {rp};
    }
    assert done == keyworded;
    PairRowsSize(id, Matches(sc, id, keyworded));
  }

  /** The rows recorded for one queued post. */
  method RelatePost(sc: Scoring, id: nat) returns (rows: seq<Similarity>)
    ensures multiset(rows) == PairRows(id, Related(sc, id))
    ensures |rows| == 2 * |Related(sc, id)|
  {
    var entities := PostWords(sc.entities, id);
    var intersecting := GatherCandidates(sc.cache, entities);
    var keyworded := set c | c in intersecting && c in sc.posts;
    rows := ScoreCandidates(sc, id, keyworded);
    assert Matches(sc, id, keyworded) == Related(sc, id);
  }

  /** The rows of one batch, before its commit. */
  method GatherBatch(sc: Scoring, batch: seq<nat>) returns (postIds: seq<nat>, rows: seq<Similarity>, count: nat)
    ensures postIds == batch
    ensures multiset(rows) == BatchRows(sc, batch) && count == |rows|
  {
    postIds, rows, count := [], [], 0;
    var i := 0;
    while i < |batch|
      invariant 0 <= i <= |batch|
      invariant postIds == batch[..i]
      invariant multiset(rows) == BatchRows(sc, batch[..i]) && count == |rows|
    {
      assert batch[..i + 1][..i] == batch[..i];
      PrefixSnoc(batch, i);
      var added := RelatePost(sc, batch[i]);
      postIds := postIds + [batch[i]];
      rows := rows + added;
      count := count + |added|;
      i := i + 1;
    }
    assert batch[..i] == batch;
  }

  /** One batch and its commit; on failure the session is rolled back. */
  method CommitBatch(db: Db, sc: Scoring, batch: seq<nat>, failed: bool) returns (committed: bool, added: nat)
    modifies db`similarities, db`similarityQueue
    ensures View(db) == BatchStep(old(View(db)), sc, batch, failed).store
    ensures committed == BatchStep(old(View(db)), sc, batch, failed).committed
    ensures committed ==> |db.similarities| == |old(db.similarities)| + added
  {
    var postIds, rows, count := GatherBatch(sc, batch);
    if failed {
      return false, count;
    }
    db.similarities := db.similarities + rows;
    db.similarityQueue := Filter(db.similarityQueue, (id: nat) => id !in postIds);
    return true, count;
  }

  /** The run after one batch commit, in terms of the state that commit left:
      the batch is `q[start..end]`, the rest of the run the batches of `q[end..]`. */
  lemma RunAdvance(st: Store, next: Store, sc: Scoring, q: seq<nat>, start: nat, batch: seq<nat>, rest: seq<seq<nat>>,
                   k: nat, fails: nat -> bool, committed: bool, target: Visit)
    requires start < |q| && rest == Batches(q[start..], BatchSize) && batch == q[start..Min(start + BatchSize, |q|)]
    requires next == BatchStep(st, sc, batch, fails(k)).store
    requires committed == BatchStep(st, sc, batch, fails(k)).committed
    requires RunBatches(st, sc, rest, k, fails) == target
    ensures rest != [] && rest[1..] == Batches(q[Min(start + BatchSize, |q|)..], BatchSize)
    ensures committed ==> RunBatches(next, sc, rest[1..], k + 1, fails) == target
    ensures !committed ==> target == Visit(next, false)
  {
    BatchesFrom(q, start, BatchSize);
  }

  /** The batch loop over the queued posts, up to the first failed commit. */
  method RunQueue(db: Db, sc: Scoring, enqueued: seq<nat>, fails: nat -> bool)
    returns (committed: bool, newSimilarities: nat)
    modifies db`similarities, db`similarityQueue
    ensures View(db) == RunBatches(old(View(db)), sc, Batches(enqueued, BatchSize), 0, fails).store
    ensures committed == RunBatches(old(View(db)), sc, Batches(enqueued, BatchSize), 0, fails).committed
    ensures committed ==> |db.similarities| == |old(db.similarities)| + newSimilarities
  {
    ghost var rest := Batches(enqueued, BatchSize);
    ghost var target := RunBatches(View(db), sc, rest, 0, fails);
    assert enqueued[0..] == enqueued;
    newSimilarities := 0;
    var start := 0;
    var k := 0;
    while start < |enqueued|
      invariant 0 <= start <= |enqueued|
      invariant rest == Batches(enqueued[start..], BatchSize)
      invariant RunBatches(View(db), sc, rest, k, fails) == target
      invariant |db.similarities| == |old(db.similarities)| + newSimilarities
      decreases |enqueued| - start
    {
      var end := Min(start + BatchSize, |enqueued|);
      var batch := enqueued[start..end];
      ghost var before := View(db);
      var added;
      committed, added := CommitBatch(db, sc, batch, fails(k));
      RunAdvance(before, View(db), sc, enqueued, start, batch, rest, k, fails, committed, target);
      if !committed {
        return;
      }
      newSimilarities := newSimilarities + added;
      rest := rest[1..];
      start := end;
      k := k + 1;
    }
    assert rest == [];
    committed := true;
  }

  /** `process_similarities` with a given threshold: one run of the job.
      `overlap` is the score of two keyword sets and `fails(k)` says whether
      the database refuses the k-th commit. */
  method RunJob(db: Db, now: int, overlap: (set<string>, set<string>) -> real, threshold: real, fails: nat -> bool)
    returns (outcome: JobOutcome, newSimilarities: nat)
    modifies db`similarities, db`similarityQueue, db`locks
    ensures db.locks == AfterCheck(old(db.locks), RELATE, now, LockTimeout)
    ensures FreshLock(old(db.locks), RELATE, now, LockTimeout) ==> outcome == Locked && View(db) == old(View(db))
    ensures !FreshLock(old(db.locks), RELATE, now, LockTimeout) && old(db.similarityQueue) == [] ==>
              outcome == NothingToDo && View(db) == old(View(db))
    ensures !FreshLock(old(db.locks), RELATE, now, LockTimeout) && old(db.similarityQueue) != [] ==>
              var sc := Scoring(db.posts, db.entities, EntityIndex(db.posts, db.entities, now - RecentDays * MinutesPerDay),
                                overlap, threshold);
              var r := RunBatches(old(View(db)), sc, Batches(old(db.similarityQueue), BatchSize), 0, fails);
              View(db) == r.store && outcome == (if r.committed then Completed else Failed)
    ensures outcome == Completed ==> |db.similarities| == |old(db.similarities)| + newSimilarities
  {
    var locked := CheckLock(db, RELATE, now, LockTimeout);
    if locked {
      return Locked, 0;
    }
    var enqueued := db.similarityQueue;
    if |enqueued| == 0 {
      return NothingToDo, 0;
    }
    db.locks := db.locks + [JobLock(RELATE, now)];
    var entityCache := GetEntityCache(db, now);
    var sc := Scoring(db.posts, db.entities, entityCache, overlap, threshold);
    var committed;
    committed, newSimilarities := RunQueue(db, sc, enqueued, fails);
    // The lock row is deleted on both paths; a failed commit re-raises.
    db.locks := db.locks[..|db.locks| - 1];
    outcome := if committed then Completed else Failed;
  }

  /** `process_similarities`: the job with its threshold of 0.8. */
  method ProcessSimilarities(db: Db, now: int, overlap: (set<string>, set<string>) -> real, fails: nat -> bool)
    returns (outcome: JobOutcome, newSimilarities: nat)
    modifies db`similarities, db`similarityQueue, db`locks
    ensures db.locks == AfterCheck(old(db.locks), RELATE, now, LockTimeout)
    ensures FreshLock(old(db.locks), RELATE, now, LockTimeout) ==> outcome == Locked && View(db) == old(View(db))
    ensures !FreshLock(old(db.locks), RELATE, now, LockTimeout) && old(db.similarityQueue) == [] ==>
              outcome == NothingToDo && View(db) == old(View(db))
    ensures !FreshLock(old(db.locks), RELATE, now, LockTimeout) && old(db.similarityQueue) != [] ==>
              var sc := Scoring(db.posts, db.entities, EntityIndex(db.posts, db.entities, now - RecentDays * MinutesPerDay),
                                overlap, Threshold);
              var r := RunBatches(old(View(db)), sc, Batches(old(db.similarityQueue), BatchSize), 0, fails);
              View(db) == r.store && outcome == (if r.committed then Completed else Failed)
    ensures outcome == Completed ==> |db.similarities| == |old(db.similarities)| + newSimilarities
  {
    outcome, newSimilarities := RunJob(db, now, overlap, Threshold, fails);
  }
}
