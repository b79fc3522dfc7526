/** The `dm_jobs` table as a value: row i holds the job with id i + 1, rows are never
    deleted. Each function is one statement or transaction of app/services/jobs.py,
    app/workers/dm_worker.py or app/services/reconciliation.py. */
module JobTable {
  import opened Models
  import opened JobLifecycle

  /** The row is in the partial unique index `uq_dm_jobs_rule_user`. */
  predicate Live(job: Job) {
    job.status != Cancelled
  }

  predicate Holds(job: Job, rule: string, user: string) {
    Live(job) && job.ruleId == rule && job.userId == user
  }

  predicate SlotTaken(jobs: seq<Job>, rule: string, user: string) {
    exists i :: 0 <= i < |jobs| && Holds(jobs[i], rule, user)
  }

  /** What the index enforces: at most one live row per (rule, user). */
  ghost predicate UniqueSlots(jobs: seq<Job>) {
    forall i, j :: 0 <= i < j < |jobs| && Live(jobs[i]) && Live(jobs[j]) ==> !SameSlot(jobs[i], jobs[j])
  }

  /** Writing `row` at i would break the index. */
  predicate Violates(jobs: seq<Job>, i: nat, row: Job) {
    Live(row) && exists k :: 0 <= k < |jobs| && k != i && Holds(jobs[k], row.ruleId, row.userId)
  }

  /** The status changes an actor other than the job's own send or reconciliation can make. */
  predicate QuietChange(a: Job, b: Job) {
    || b == a
    || (&& b == a.(status := b.status, updatedAt := b.updatedAt)
        && (|| (a.status in {Queued, RetryWait} && b.status in {Sending, Cancelled})
            || (a.status == Sending && b.status == Queued)))
  }

  ghost predicate Quiet(jobs: seq<Job>, jobs': seq<Job>) {
    |jobs'| == |jobs| && forall i :: 0 <= i < |jobs| ==> QuietChange(jobs[i], jobs'[i])
  }

  function NewJob(rule: string, user: string, comment: Option<string>, now: real): Job {
    Job(rule, user, comment, Queued, 0, 0, 0, None, None, now, [])
  }

  // ----- Cancelling, claiming, requeueing -------------------------------

  predicate Cancellable(job: Job, comment: string) {
    comment != "" && job.commentId == Some(comment) && job.status in {Queued, RetryWait}
  }

  /** The UPDATE of `cancel_jobs_for_comment`. */
  function CancelFor(jobs: seq<Job>, comment: string, now: real): (jobs': seq<Job>)
    ensures Quiet(jobs, jobs')
    ensures forall i :: 0 <= i < |jobs| ==>
              jobs'[i] == if Cancellable(jobs[i], comment)
                          then jobs[i].(status := Cancelled, updatedAt := now) else jobs[i]
  {
    seq(|jobs|, i requires 0 <= i < |jobs| =>
          if Cancellable(jobs[i], comment) then jobs[i].(status := Cancelled, updatedAt := now) else jobs[i])
  }

  predicate Runnable(job: Job, now: real) {
    || job.status == Queued
    || (job.status == RetryWait && job.nextRetryAt.Some? && job.nextRetryAt.value <= now)
  }

  /** The claim order: never scheduled first, then by schedule, then by id. */
  predicate Before(jobs: seq<Job>, i: nat, j: nat)
    requires i < |jobs| && j < |jobs|
  {
    var a, b := jobs[i].nextRetryAt, jobs[j].nextRetryAt;
    match (a, b)
    case (None, Some(_)) => true
    case (Some(_), None) => false
    case (None, None) => i < j
    case (Some(x), Some(y)) => x < y || (x == y && i < j)
  }

  /** Row i is the one `claim_next_job` takes. */
  ghost predicate IsNext(jobs: seq<Job>, now: real, i: nat) {
    && i < |jobs| && Runnable(jobs[i], now)
    && forall k :: 0 <= k < |jobs| && k != i && Runnable(jobs[k], now) ==> Before(jobs, i, k)
  }

  /** What the claim query says of the columns: the row is queued or its retry is due, and no
      other such row is due earlier; rows never scheduled come first, equal ones by id. */
  lemma NextInColumns(jobs: seq<Job>, now: real, i: nat)
    requires IsNext(jobs, now, i)
    ensures i < |jobs|
    ensures jobs[i].status == Queued
            || (jobs[i].status == RetryWait && jobs[i].nextRetryAt.Some? && jobs[i].nextRetryAt.value <= now)
    ensures forall k :: 0 <= k < |jobs| && k != i ==>
              var mine, other := jobs[i].nextRetryAt, jobs[k].nextRetryAt;
              jobs[k].status == Queued || (jobs[k].status == RetryWait && other.Some? && other.value <= now) ==>
                && (other.None? ==> mine.None? && i < k)
                && (mine.Some? && other.Some? ==>
                      mine.value < other.value || (mine.value == other.value && i < k))
  {
    forall k | 0 <= k < |jobs| && k != i && Runnable(jobs[k], now) ensures Before(jobs, i, k) {
    }
  }

  /** Nothing to claim: no row is queued and no retry is due. */
  lemma NothingInColumns(jobs: seq<Job>, now: real)
    requires forall k :: 0 <= k < |jobs| ==> !Runnable(jobs[k], now)
    ensures forall k :: 0 <= k < |jobs| ==>
              && jobs[k].status != Queued
              && (jobs[k].status == RetryWait && jobs[k].nextRetryAt.Some? ==> jobs[k].nextRetryAt.value > now)
  {
    forall k | 0 <= k < |jobs|
      ensures jobs[k].status != Queued
              && (jobs[k].status == RetryWait && jobs[k].nextRetryAt.Some? ==> jobs[k].nextRetryAt.value > now)
    {
      assert !Runnable(jobs[k], now);
    }
  }

  /** The first of the runnable rows below n in claim order. */
  function NextBelow(jobs: seq<Job>, now: real, n: nat): (next: Option<nat>)
    requires n <= |jobs|
    ensures next.Some? ==> next.value < n && Runnable(jobs[next.value], now)
  {
    if n == 0 then None
    else
      var best := NextBelow(jobs, now, n - 1);
      if Runnable(jobs[n - 1], now) && (best.None? || Before(jobs, n - 1, best.value)) then Some(n - 1) else best
  }

  lemma {:induction false} NextBelowIsFirst(jobs: seq<Job>, now: real, n: nat)
    requires n <= |jobs|
    ensures var next := NextBelow(jobs, now, n);
            forall k :: 0 <= k < n && Runnable(jobs[k], now) ==>
              next.Some? && (k == next.value || Before(jobs, next.value, k))
  {
    if n > 0 {
      NextBelowIsFirst(jobs, now, n - 1);
    }
  }

  /** The scan finds the row to claim, and finds none only if no row is runnable. */
  lemma NextIsNext(jobs: seq<Job>, now: real)
    ensures var next := NextBelow(jobs, now, |jobs|);
            if next.Some? then IsNext(jobs, now, next.value)
            else forall k :: 0 <= k < |jobs| ==> !Runnable(jobs[k], now)
  {
    NextBelowIsFirst(jobs, now, |jobs|);
  }

  function Claim(jobs: seq<Job>, i: nat, now: real): seq<Job>
    requires i < |jobs|
  {
    jobs[i := jobs[i].(status := Sending, updatedAt := now)]
  }

  /** The UPDATE of `requeue_stale_sending`; the comparison is strict. */
  function RequeueStale(jobs: seq<Job>, staleSeconds: real, now: real): (jobs': seq<Job>)
    ensures Quiet(jobs, jobs')
    ensures forall i :: 0 <= i < |jobs| ==>
              jobs'[i] == if jobs[i].status == Sending && jobs[i].updatedAt < now - staleSeconds
                          then jobs[i].(status := Queued, updatedAt := now) else jobs[i]
  {
    seq(|jobs|, i requires 0 <= i < |jobs| =>
          if jobs[i].status == Sending && jobs[i].updatedAt < now - staleSeconds
          then jobs[i].(status := Queued, updatedAt := now) else jobs[i])
  }

  /** `_release_claim`: only a job still `sending` goes back. */
  function Release(jobs: seq<Job>, i: nat, now: real): seq<Job>
    requires i < |jobs|
  {
    if jobs[i].status == Sending then jobs[i := jobs[i].(status := Queued, updatedAt := now)] else jobs
  }

  /** Load a row, change it, flush: the index rejects the write and the transaction rolls
      back, or the row is stored. */
  function WriteBack(jobs: seq<Job>, i: nat, row: Job): seq<Job>
    requires i < |jobs|
  {
    if Violates(jobs, i, row) then jobs else jobs[i := row]
  }

  // ----- Reconciliation query -------------------------------------------

  predicate Pollable(job: Job) {
    job.status == Accepted && job.dmId.Some?
  }

  /** `ids` is a result of `_load_pending`: the oldest pollable rows, at most `limit`. */
  ghost predicate IsBatch(jobs: seq<Job>, limit: int, ids: seq<nat>) {
    && |ids| <= limit
    && (forall k :: 0 <= k < |ids| ==> ids[k] < |jobs| && Pollable(jobs[ids[k]]))
    && (forall k, l :: 0 <= k < l < |ids| ==> ids[k] != ids[l] && jobs[ids[k]].updatedAt <= jobs[ids[l]].updatedAt)
    && (forall i :: 0 <= i < |jobs| && Pollable(jobs[i]) && i !in ids ==>
          |ids| == limit && forall k :: 0 <= k < |ids| ==> jobs[ids[k]].updatedAt <= jobs[i].updatedAt)
  }

  /** The oldest pollable row below n that is not taken yet. */
  function OldestBelow(jobs: seq<Job>, n: nat, taken: seq<nat>): (oldest: Option<nat>)
    requires n <= |jobs|
    ensures oldest.Some? ==> oldest.value < n && Pollable(jobs[oldest.value]) && oldest.value !in taken
  {
    if n == 0 then None
    else
      var best := OldestBelow(jobs, n - 1, taken);
      if && Pollable(jobs[n - 1]) && n - 1 !in taken
         && (best.None? || jobs[n - 1].updatedAt < jobs[best.value].updatedAt)
      then Some(n - 1) else best
  }

  lemma {:induction false} OldestIsOldest(jobs: seq<Job>, n: nat, taken: seq<nat>)
    requires n <= |jobs|
    ensures var oldest := OldestBelow(jobs, n, taken);
            forall k :: 0 <= k < n && Pollable(jobs[k]) && k !in taken ==>
              oldest.Some? && jobs[oldest.value].updatedAt <= jobs[k].updatedAt
  {
    if n > 0 {
      OldestIsOldest(jobs, n - 1, taken);
    }
  }

  /** The rows taken so far are the oldest, in order. */
  ghost predicate OldestFirst(jobs: seq<Job>, taken: seq<nat>) {
    && (forall k :: 0 <= k < |taken| ==> taken[k] < |jobs| && Pollable(jobs[taken[k]]))
    && (forall k, l :: 0 <= k < l < |taken| ==>
          taken[k] != taken[l] && jobs[taken[k]].updatedAt <= jobs[taken[l]].updatedAt)
    && (forall i, k :: 0 <= i < |jobs| && Pollable(jobs[i]) && i !in taken && 0 <= k < |taken| ==>
          jobs[taken[k]].updatedAt <= jobs[i].updatedAt)
  }

  lemma TakeNextOldest(jobs: seq<Job>, taken: seq<nat>)
    requires OldestFirst(jobs, taken)
    ensures var oldest := OldestBelow(jobs, |jobs|, taken);
            if oldest.Some? then OldestFirst(jobs, taken + [oldest.value])
            else forall i :: 0 <= i < |jobs| && Pollable(jobs[i]) ==> i in taken
  {
    OldestIsOldest(jobs, |jobs|, taken);
  }

  lemma {:induction false} BatchExists(jobs: seq<Job>, limit: nat, taken: seq<nat>) returns (ids: seq<nat>)
    requires OldestFirst(jobs, taken) && |taken| <= limit
    ensures IsBatch(jobs, limit, ids)
    decreases limit - |taken|
  {
    TakeNextOldest(jobs, taken);
    var oldest := OldestBelow(jobs, |jobs|, taken);
    if |taken| == limit || oldest.None? {
      ids := taken;
    } else {
      ids := BatchExists(jobs, limit, taken + [oldest.value]);
    }
  }

  // ----- Statistics ------------------------------------------------------

  function CountStatus(jobs: seq<Job>, s: JobStatus): nat {
    if jobs == [] then 0
    else CountStatus(jobs[..|jobs| - 1], s) + if jobs[|jobs| - 1].status == s then 1 else 0
  }

  function Pending(jobs: seq<Job>): nat {
    CountStatus(jobs, Queued) + CountStatus(jobs, Sending) + CountStatus(jobs, Accepted) + CountStatus(jobs, RetryWait)
  }

  function WithStatus(jobs: seq<Job>, s: JobStatus): set<nat> {
    set i: nat | i < |jobs| && jobs[i].status == s
  }

  lemma OneMoreRow(jobs: seq<Job>, job: Job, s: JobStatus)
    ensures WithStatus(jobs + [job], s) == WithStatus(jobs, s) + (if job.status == s then {|jobs|} else {})
  {
    var more := jobs + [job];
    forall i: nat ensures i in WithStatus(more, s)
                          <==> i in WithStatus(jobs, s) + (if job.status == s then {|jobs|} else {}) {
      if i < |jobs| {
        assert more[i] == jobs[i];
      }
    }
  }

  /** A count is the number of rows with that status. */
  lemma {:induction false} CountIsSize(jobs: seq<Job>, s: JobStatus)
    ensures CountStatus(jobs, s) == |WithStatus(jobs, s)|
  {
    if jobs == [] {
      assert WithStatus(jobs, s) == {};
    } else {
      var n := |jobs| - 1;
      CountIsSize(jobs[..n], s);
      OneMoreRow(jobs[..n], jobs[n], s);
      assert jobs == jobs[..n] + [jobs[n]] && n !in WithStatus(jobs[..n], s);
    }
  }

  lemma {:induction false} CountUpdate(jobs: seq<Job>, i: nat, row: Job, s: JobStatus)
    requires i < |jobs|
    ensures CountStatus(jobs[i := row], s)
            == CountStatus(jobs, s) - (if jobs[i].status == s then 1 else 0) + if row.status == s then 1 else 0
  {
    var n := |jobs| - 1;
    if i == n {
      assert jobs[i := row][..n] == jobs[..n];
    } else {
      assert jobs[i := row][..n] == jobs[..n][i := row];
      CountUpdate(jobs[..n], i, row, s);
    }
  }

  /** sent, failed, queued and cancelled split the table: every job is in exactly one. */
  lemma {:induction false} StatsPartition(jobs: seq<Job>)
    ensures CountStatus(jobs, Delivered) + CountStatus(jobs, Failed) + Pending(jobs)
            + CountStatus(jobs, Cancelled) == |jobs|
  {
    if jobs != [] {
      StatsPartition(jobs[..|jobs| - 1]);
    }
  }

  /** A status no row leaves is never counted less. */
  lemma {:induction false} CountGrows(jobs: seq<Job>, jobs': seq<Job>, s: JobStatus)
    requires |jobs| <= |jobs'|
    requires forall i :: 0 <= i < |jobs| && jobs[i].status == s ==> jobs'[i].status == s
    ensures CountStatus(jobs, s) <= CountStatus(jobs', s)
    decreases |jobs'|
  {
    if |jobs'| > |jobs| {
      CountGrows(jobs, jobs'[..|jobs'| - 1], s);
    } else if jobs != [] {
      CountGrows(jobs[..|jobs| - 1], jobs'[..|jobs'| - 1], s);
    }
  }

  // ----- The index is kept ----------------------------------------------

  lemma AppendKeepsUnique(jobs: seq<Job>, job: Job)
    requires UniqueSlots(jobs) && !SlotTaken(jobs, job.ruleId, job.userId)
    ensures UniqueSlots(jobs + [job])
  {
    forall i | 0 <= i < |jobs| ensures !Holds(jobs[i], job.ruleId, job.userId) {
    }
  }

  lemma QuietKeepsUnique(jobs: seq<Job>, jobs': seq<Job>)
    requires UniqueSlots(jobs) && Quiet(jobs, jobs')
    ensures UniqueSlots(jobs')
  {
    forall i, j | 0 <= i < j < |jobs'| && Live(jobs'[i]) && Live(jobs'[j]) ensures !SameSlot(jobs'[i], jobs'[j]) {
      assert QuietChange(jobs[i], jobs'[i]) && QuietChange(jobs[j], jobs'[j]);
      assert !SameSlot(jobs[i], jobs[j]);
    }
  }

  /** The write of a late send response never breaks the index, whatever the row's status
      has become meanwhile. */
  lemma WriteBackKeepsUnique(jobs: seq<Job>, i: nat, row: Job)
    requires i < |jobs| && UniqueSlots(jobs) && SameSlot(jobs[i], row)
    ensures UniqueSlots(WriteBack(jobs, i, row))
  {
    if !Violates(jobs, i, row) && Live(row) {
      forall k | 0 <= k < |jobs| && k != i && Live(jobs[k]) ensures !SameSlot(jobs[k], row) {
        assert !Holds(jobs[k], row.ruleId, row.userId);
      }
    }
  }

  /** Applying a response brings a cancelled job back to life exactly when its slot is free. */
  lemma RevivedIffSlotFree(jobs: seq<Job>, i: nat, row: Job)
    requires i < |jobs| && jobs[i].status == Cancelled && SameSlot(jobs[i], row) && Live(row)
    ensures Live(WriteBack(jobs, i, row)[i]) <==> !SlotTaken(jobs, jobs[i].ruleId, jobs[i].userId)
  {
    if Violates(jobs, i, row) {
      var k :| 0 <= k < |jobs| && k != i && Holds(jobs[k], row.ruleId, row.userId);
      assert Holds(jobs[k], jobs[i].ruleId, jobs[i].userId);
    }
  }

  /** A live row never violates the index by keeping its slot. */
  lemma LiveRowWrites(jobs: seq<Job>, i: nat, row: Job)
    requires i < |jobs| && UniqueSlots(jobs) && SameSlot(jobs[i], row) && Live(jobs[i])
    ensures !Violates(jobs, i, row)
  {
    if Violates(jobs, i, row) {
      var k :| 0 <= k < |jobs| && k != i && Holds(jobs[k], row.ruleId, row.userId);
      assert SameSlot(jobs[k], jobs[i]) && SameSlot(jobs[i], jobs[k]);
    }
  }
}
