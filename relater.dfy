/** The second copy of the similarity job. It checks the RELATE lock
    inline, builds the keyword index inline, and records a pair from a
    score of 0.75 on; the batches, the candidate search and the two-way
    rows are those of the first copy. */
module Relater {
  import opened Common
  import opened Models
  import opened Locks
  import Relate

  /** The score a pair needs to be recorded. */
  const Threshold: real := 0.75

  /** A RELATE lock younger than this many minutes means a run is in progress. */
  const LockTimeout: int := 8

  /** A lower threshold keeps every pair a higher one keeps. */
  lemma RelatedMonotone(sc: Relate.Scoring, id: nat, higher: real)
    requires Threshold <= higher
    ensures Relate.Related(sc.(threshold := higher), id) <= Relate.Related(sc.(threshold := Threshold), id)
  {
  }

  /** Every pair the first copy records, this one records too. */
  lemma {:induction false} BatchRowsIncluded(sc: Relate.Scoring, batch: seq<nat>)
    ensures Relate.BatchRows(sc.(threshold := Relate.Threshold), batch) <= Relate.BatchRows(sc.(threshold := Threshold), batch)
    decreases |batch|
  {
    if batch != [] {
      var id := batch[|batch| - 1];
      BatchRowsIncluded(sc, batch[..|batch| - 1]);
      var high := Relate.Related(sc.(threshold := Relate.Threshold), id);
      var low := Relate.Related(sc.(threshold := Threshold), id);
      RelatedMonotone(sc, id, Relate.Threshold);
      PairRowsIncluded(id, high, low);
    }
  }

  lemma PairRowsIncluded(id: nat, small: set<nat>, large: set<nat>)
    requires small <= large
    ensures Relate.PairRows(id, small) <= Relate.PairRows(id, large)
  {
    assert (set c | c in small :: Similarity(id, c)) <= (set c | c in large :: Similarity(id, c));
    assert (set c | c in small :: Similarity(c, id)) <= (set c | c in large :: Similarity(c, id));
  }

  /** `process_similarities`: one run of this copy of the job. Its inline
      lock check and index are those of the first copy, so it runs the
      shared job with its own threshold. */
  method ProcessSimilarities(db: Db, now: int, overlap: (set<string>, set<string>) -> real, fails: nat -> bool)
    returns (outcome: JobOutcome, newSimilarities: nat)
    modifies db`similarities, db`similarityQueue, db`locks
    ensures db.locks == AfterCheck(old(db.locks), RELATE, now, LockTimeout)
    ensures FreshLock(old(db.locks), RELATE, now, LockTimeout) ==> outcome == Locked && Relate.View(db) == old(Relate.View(db))
    ensures !FreshLock(old(db.locks), RELATE, now, LockTimeout) && old(db.similarityQueue) == [] ==>
              outcome == NothingToDo && Relate.View(db) == old(Relate.View(db))
    ensures !FreshLock(old(db.locks), RELATE, now, LockTimeout) && old(db.similarityQueue) != [] ==>
              var cache := Relate.EntityIndex(db.posts, db.entities, now - Relate.RecentDays * MinutesPerDay);
              var sc := Relate.Scoring(db.posts, db.entities, cache, overlap, Threshold);
              var r := Relate.RunBatches(old(Relate.View(db)), sc, Batches(old(db.similarityQueue), Relate.BatchSize), 0, fails);
              Relate.View(db) == r.store && outcome == (if r.committed then Completed else Failed)
    ensures outcome == Completed ==> |db.similarities| == |old(db.similarities)| + newSimilarities
  {
    outcome, newSimilarities := Relate.RunJob(db, now, overlap, Threshold, fails);
  }
}
