/** The click-through-rate job: under the ANALYZE lock, set the rate of
    every post action that has both clicks and impressions to clicks per
    impression. The column's decimal rounding is not modelled: the rate is
    the exact ratio. */
module Ctr {
  import opened Common
  import opened Models
  import opened Locks

  /** An ANALYZE lock younger than this many minutes means a run is in progress. */
  const LockTimeout: int := 8

  /** `is_locked`: an ANALYZE lock at most eight minutes old holds; an older one is deleted. */
  method IsLocked(db: Db, now: int) returns (locked: bool)
    modifies db`locks
    ensures locked == FreshLock(old(db.locks), ANALYZE, now, LockTimeout)
    ensures db.locks == AfterCheck(old(db.locks), ANALYZE, now, LockTimeout)
  {
    locked := CheckLock(db, ANALYZE, now, LockTimeout);
  }

  /** An action the job recomputes: it has impressions and clicks. */
  predicate Due(a: PostAction) {
    a.impressions > 0 && a.clicks > 0
  }

  /** `get_due_posts`: the post ids whose actions have impressions and clicks. */
  function GetDuePosts(actions: map<nat, PostAction>): (due: set<nat>)
    ensures due <= actions.Keys
    ensures forall id :: id in actions ==> (id in due <==> actions[id].impressions > 0 && actions[id].clicks > 0)
  {
    set id | id in actions && Due(actions[id])
  }

  /** The rate of an action; defined because a due action has impressions. */
  function Rate(a: PostAction): (r: real)
    requires Due(a)
    ensures 0.0 < r && r * (a.impressions as real) == a.clicks as real
  {
    a.clicks as real / a.impressions as real
  }

  /** The actions with the rate recomputed for the ids in `done`. */
  function ApplyCtr(actions: map<nat, PostAction>, done: set<nat>): map<nat, PostAction>
    requires forall id :: id in done && id in actions ==> Due(actions[id])
  {
    map id | id in actions :: if id in done then actions[id].(ctr := Rate(actions[id])) else actions[id]
  }

  /** The action table after a run: every due action carries its rate, and
      every other action is unchanged. */
  function UpdatedActions(actions: map<nat, PostAction>): (r: map<nat, PostAction>)
    ensures r.Keys == actions.Keys
    ensures forall id :: id in actions && Due(actions[id]) ==>
              r[id] == actions[id].(ctr := actions[id].clicks as real / actions[id].impressions as real)
    ensures forall id :: id in actions && !Due(actions[id]) ==> r[id] == actions[id]
  {
    ApplyCtr(actions, GetDuePosts(actions))
  }

  /** Running the update twice changes nothing the first run did not:
      clicks and impressions are untouched, so the same actions are due and
      get the same rate. */
  lemma UpdateIdempotent(actions: map<nat, PostAction>)
    ensures UpdatedActions(UpdatedActions(actions)) == UpdatedActions(actions)
  {
    var once := UpdatedActions(actions);
    var twice := UpdatedActions(once);
    forall id | id in actions
      ensures twice[id] == once[id]
    {
      assert Due(once[id]) == Due(actions[id]);
    }
    assert twice.Keys == once.Keys;
  }

  /** An action without impressions keeps its rate (zero for a post that was never shown). */
  lemma NoImpressionsKeepRate(actions: map<nat, PostAction>, id: nat)
    requires id in actions && actions[id].impressions == 0
    ensures UpdatedActions(actions)[id].ctr == actions[id].ctr
  {
  }

  /** `update_ctr`: one run of the job. */
  method UpdateCtr(db: Db, now: int) returns (outcome: JobOutcome)
    modifies db`actions, db`locks
    ensures db.locks == AfterCheck(old(db.locks), ANALYZE, now, LockTimeout)
    ensures FreshLock(old(db.locks), ANALYZE, now, LockTimeout) ==> outcome == Locked && db.actions == old(db.actions)
    ensures !FreshLock(old(db.locks), ANALYZE, now, LockTimeout) && GetDuePosts(old(db.actions)) == {} ==>
              outcome == NothingToDo && db.actions == old(db.actions)
    ensures !FreshLock(old(db.locks), ANALYZE, now, LockTimeout) && GetDuePosts(old(db.actions)) != {} ==>
              outcome == Completed && db.actions == UpdatedActions(old(db.actions))
  {
    var locked := IsLocked(db, now);
    if locked {
      return Locked;
    }
    var duePosts := GetDuePosts(db.actions);
    if |duePosts| == 0 {
      return NothingToDo;
    }
    ghost var unlocked := db.locks;
    db.locks := db.locks + [JobLock(ANALYZE, now)];
    ghost var actions0 := db.actions;
    var remaining := duePosts;
    while remaining != {}
      invariant remaining <= duePosts
      invariant db.locks == unlocked + [JobLock(ANALYZE, now)]
      invariant db.actions == ApplyCtr(actions0, duePosts - remaining)
      decreases |remaining|
    {
      var id :| id in remaining;
      var p := db.actions[id];
      db.actions := db.actions[id := p.(ctr := p.clicks as real / p.impressions as real)];
      remaining := remaining - {id};
    }
    assert duePosts - remaining == duePosts;
    // The job deletes the lock row it created.
    db.locks := db.locks[..|db.locks| - 1];
    return Completed;
  }
}
