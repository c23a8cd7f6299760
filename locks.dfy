/** Job locks. Every background job keeps at most one row of the lock table
    while it runs. Two views of that table exist: the reusable `Lock` object,
    which keeps "is there a lock" apart from "is that lock expired", and the
    check each job performs before starting, which treats a lock younger than
    the job's timeout as held and deletes an older one. "The first lock" is
    the first row of the table in insertion order. */
module Locks {
  import opened Common
  import opened Models

  /** The number of lock rows held for `job`. */
  function LockCount(locks: seq<JobLock>, job: JobType): nat {
    CountWhere(locks, (l: JobLock) => l.job == job)
  }

  /** Some lock row is held for `job`. */
  predicate HasLock(locks: seq<JobLock>, job: JobType) {
    exists i :: 0 <= i < |locks| && locks[i].job == job
  }

  /** The position of the first lock row of `job`. */
  function FirstLock(locks: seq<JobLock>, job: JobType): (i: nat)
    requires HasLock(locks, job)
    ensures i < |locks| && locks[i].job == job
    ensures forall k :: 0 <= k < i ==> locks[k].job != job
  {
    if locks[0].job == job then 0
    else
      assert HasLock(locks[1..], job) by {
        var j :| 0 <= j < |locks| && locks[j].job == job;
        assert locks[1..][j - 1] == locks[j];
      }
      1 + FirstLock(locks[1..], job)
  }

  /** The first lock of `job` is older than `timeout` minutes. */
  predicate Expired(locks: seq<JobLock>, job: JobType, now: int, timeout: int) {
    HasLock(locks, job) && locks[FirstLock(locks, job)].lockTime < now - timeout
  }

  /** The condition under which a job's start-up check reports "locked":
      its first lock is at most `timeout` minutes old. */
  predicate FreshLock(locks: seq<JobLock>, job: JobType, now: int, timeout: int) {
    HasLock(locks, job) && locks[FirstLock(locks, job)].lockTime >= now - timeout
  }

  /** The lock table after a job's start-up check: a lock that is not fresh is deleted. */
  function AfterCheck(locks: seq<JobLock>, job: JobType, now: int, timeout: int): seq<JobLock> {
    if HasLock(locks, job) && !FreshLock(locks, job, now, timeout) then RemoveAt(locks, FirstLock(locks, job))
    else locks
  }

  lemma {:induction false} HasLockCount(locks: seq<JobLock>, job: JobType)
    ensures HasLock(locks, job) <==> LockCount(locks, job) > 0
  {
    CountWherePositive(locks, (l: JobLock) => l.job == job);
  }

  /** Deleting the first lock of `job` removes exactly one of its rows and none of any other job. */
  lemma {:induction false} RemoveFirstCount(locks: seq<JobLock>, job: JobType, other: JobType)
    requires HasLock(locks, job)
    ensures LockCount(RemoveAt(locks, FirstLock(locks, job)), other)
         == LockCount(locks, other) - (if other == job then 1 else 0)
  {
    var i := FirstLock(locks, job);
    var p := (l: JobLock) => l.job == other;
    assert locks == locks[..i] + [locks[i]] + locks[i + 1..];
    CountWhereAppend(locks[..i] + [locks[i]], locks[i + 1..], p);
    CountWhereAppend(locks[..i], [locks[i]], p);
    CountWhereAppend(locks[..i], locks[i + 1..], p);
    assert RemoveAt(locks, i) == locks[..i] + locks[i + 1..];
  }

  /** The start-up check touches only the checked job's rows, and removes at most one. */
  lemma AfterCheckCounts(locks: seq<JobLock>, job: JobType, other: JobType, now: int, timeout: int)
    ensures other != job ==> LockCount(AfterCheck(locks, job, now, timeout), other) == LockCount(locks, other)
    ensures LockCount(AfterCheck(locks, job, now, timeout), job)
         == LockCount(locks, job) - (if HasLock(locks, job) && !FreshLock(locks, job, now, timeout) then 1 else 0)
  {
    if HasLock(locks, job) && !FreshLock(locks, job, now, timeout) {
      RemoveFirstCount(locks, job, other);
      RemoveFirstCount(locks, job, job);
    }
  }

  /** While a job holds at most one lock, a check that does not report
      "locked" leaves no lock behind: the next run can start. */
  lemma AfterCheckReleases(locks: seq<JobLock>, job: JobType, now: int, timeout: int)
    requires LockCount(locks, job) <= 1
    requires !FreshLock(locks, job, now, timeout)
    ensures !HasLock(AfterCheck(locks, job, now, timeout), job)
  {
    AfterCheckCounts(locks, job, job, now, timeout);
    HasLockCount(locks, job);
    HasLockCount(AfterCheck(locks, job, now, timeout), job);
  }

  /** A fresh lock survives the check: the table is unchanged. */
  lemma FreshLockKept(locks: seq<JobLock>, job: JobType, now: int, timeout: int)
    requires FreshLock(locks, job, now, timeout)
    ensures AfterCheck(locks, job, now, timeout) == locks
    ensures HasLock(locks, job) && !Expired(locks, job, now, timeout)
  {
  }

  /** The start-up check shared by the jobs (the `is_locked` of each job module). */
  method CheckLock(db: Db, job: JobType, now: int, timeout: int) returns (locked: bool)
    modifies db`locks
    ensures locked == FreshLock(old(db.locks), job, now, timeout)
    ensures db.locks == AfterCheck(old(db.locks), job, now, timeout)
  {
    if HasLock(db.locks, job) {
      var i := FirstLock(db.locks, job);
      if db.locks[i].lockTime >= now - timeout {
        return true;
      }
      db.locks := RemoveAt(db.locks, i);
    }
    return false;
  }

  /** The reusable lock helper: a job type and its timeout in minutes. */
  class Lock {
    const job: JobType
    const timeout: int

    constructor (job: JobType, timeout: int)
      ensures this.job == job && this.timeout == timeout
    {
      this.job := job;
      this.timeout := timeout;
    }

    /** Locked when at least one row exists for the job, however old. */
    function IsLocked(db: Db): (b: bool)
      reads db
      ensures b <==> exists i :: 0 <= i < |db.locks| && db.locks[i].job == job
    {
      HasLockCount(db.locks, job);
      LockCount(db.locks, job) > 0
    }

    /** Expired when locked and the first lock is older than the timeout. */
    function IsExpired(db: Db, now: int): (b: bool)
      reads db
      ensures b ==> IsLocked(db)
      ensures b <==> Expired(db.locks, job, now, timeout)
    {
      if IsLocked(db) then
        var prior := db.locks[FirstLock(db.locks, job)];
        prior.lockTime < now - timeout
      else false
    }

    /** Inserts a lock stamped now. */
    method Create(db: Db, now: int)
      modifies db`locks
      ensures db.locks == old(db.locks) + [JobLock(job, now)]
      ensures IsLocked(db)
      ensures !HasLock(old(db.locks), job) && timeout >= 0 ==> !IsExpired(db, now)
    {
      db.locks := db.locks + [JobLock(job, now)];
      CreatedLockNotExpired(old(db.locks), job, now, timeout);
    }

    /** Deletes the first lock of the job; there must be one. */
    method Remove(db: Db)
      requires HasLock(db.locks, job)
      modifies db`locks
      ensures db.locks == RemoveAt(old(db.locks), FirstLock(old(db.locks), job))
      ensures LockCount(db.locks, job) == LockCount(old(db.locks), job) - 1
      ensures !IsLocked(db) <==> LockCount(old(db.locks), job) == 1
    {
      db.locks := RemoveAt(db.locks, FirstLock(db.locks, job));
      RemoveFirstCount(old(db.locks), job, job);
      HasLockCount(db.locks, job);
    }
  }

  /** A lock created while the job held none is its first lock, and it is
      not expired at the time it was made. */
  lemma {:induction false} CreatedLockNotExpired(locks: seq<JobLock>, job: JobType, now: int, timeout: int)
    ensures HasLock(locks + [JobLock(job, now)], job)
    ensures !HasLock(locks, job) && timeout >= 0 ==> !Expired(locks + [JobLock(job, now)], job, now, timeout)
  {
    var s := locks + [JobLock(job, now)];
    assert s[|locks|].job == job;
    if !HasLock(locks, job) {
      assert forall k :: 0 <= k < |locks| ==> s[k] == locks[k];
    }
  }

  /** The expired/fresh distinction of the two lock views agree. */
  lemma FreshIffNotExpired(locks: seq<JobLock>, job: JobType, now: int, timeout: int)
    ensures FreshLock(locks, job, now, timeout) <==> HasLock(locks, job) && !Expired(locks, job, now, timeout)
  {
  }
}
