/** The database object and the statements of app/services/counters.py, app/services/jobs.py
    and app/services/events.py that change it in place, each against its function. */
module Database {
  import opened Models
  import opened JobLifecycle
  import opened JobTable
  import opened EventProcessing

  // ----- Batches of events ----------------------------------------------

  /** `process_pending_events` after the claim: each event is committed on its own, or rolled
      back and made retryable. `fails` says which of them raise, `at` when each is handled. */
  function HandleBatch(cfg: Settings, db: Db, ks: seq<nat>, fails: nat -> bool, at: nat -> real): (db': Db)
    requires forall a :: 0 <= a < |ks| ==> ks[a] < |db.events|
    ensures |db'.events| == |db.events|
  {
    if ks == [] then db
    else
      var k, rest := ks[|ks| - 1], HandleBatch(cfg, db, ks[..|ks| - 1], fails, at);
      ProcessKeepsEvents(cfg, rest, k, at(k));
      if fails(k) then RetryEvent(rest, k) else ProcessEvent(cfg, rest, k, at(k))
  }

  /** Whatever raises, the counting law survives the batch. */
  lemma {:induction false} BatchConserves(cfg: Settings, db: Db, ks: seq<nat>, fails: nat -> bool, at: nat -> real)
    requires Conserved(db)
    requires forall a :: 0 <= a < |ks| ==> ks[a] < |db.events| && db.events[ks[a]].status == Processing
    requires forall a, b :: 0 <= a < b < |ks| ==> ks[a] != ks[b]
    ensures Conserved(HandleBatch(cfg, db, ks, fails, at))
    ensures forall k :: 0 <= k < |db.events| && k !in ks ==>
              HandleBatch(cfg, db, ks, fails, at).events[k] == db.events[k]
  {
    hide ProcessEvent, SumMatched;
    if ks != [] {
      var n := |ks| - 1;
      BatchConserves(cfg, db, ks[..n], fails, at);
      var rest := HandleBatch(cfg, db, ks[..n], fails, at);
      assert ks[n] !in ks[..n];
      assert ks == ks[..n] + [ks[n]];
      if fails(ks[n]) {
        SumMatchedUpdate(rest.events, ks[n], rest.events[ks[n]].(status := Received));
      } else {
        ProcessConserves(cfg, rest, ks[n], at(ks[n]));
        ProcessKeepsEvents(cfg, rest, ks[n], at(ks[n]));
      }
    }
  }

  /** Every event of the batch that raised is received again, every other one is settled. */
  lemma {:induction false} BatchOutcomes(cfg: Settings, db: Db, ks: seq<nat>, fails: nat -> bool, at: nat -> real)
    requires forall a :: 0 <= a < |ks| ==> ks[a] < |db.events|
    requires forall a, b :: 0 <= a < b < |ks| ==> ks[a] != ks[b]
    ensures var db' := HandleBatch(cfg, db, ks, fails, at);
            && (forall a :: 0 <= a < |ks| ==>
                  if fails(ks[a]) then db'.events[ks[a]] == db.events[ks[a]].(status := Received)
                  else db'.events[ks[a]].status in {Processed, Ignored})
            && forall k :: 0 <= k < |db.events| && k !in ks ==> db'.events[k] == db.events[k]
  {
    hide ProcessEvent;
    if ks != [] {
      var n := |ks| - 1;
      var k, rest := ks[n], HandleBatch(cfg, db, ks[..n], fails, at);
      BatchOutcomes(cfg, db, ks[..n], fails, at);
      ProcessKeepsEvents(cfg, rest, k, at(k));
      OutcomeOf(cfg, rest, k, at(k));
      assert k !in ks[..n];
      assert ks == ks[..n] + [k];
    }
  }

  /** The same from the claim on: what raised is as it was before, nothing else is touched. */
  lemma ClaimedOutcomes(cfg: Settings, db: Db, start: Db, ks: seq<nat>, fails: nat -> bool, at: nat -> real)
    requires forall a :: 0 <= a < |ks| ==> ks[a] < |db.events| && db.events[ks[a]].status == Received
    requires forall a, b :: 0 <= a < b < |ks| ==> ks[a] < ks[b]
    requires start == db.(events := ClaimEvents(db.events, ks))
    ensures var db' := HandleBatch(cfg, start, ks, fails, at);
            && (forall a :: 0 <= a < |ks| ==>
                  if fails(ks[a]) then db'.events[ks[a]] == db.events[ks[a]]
                  else db'.events[ks[a]].status in {Processed, Ignored})
            && forall k :: 0 <= k < |db.events| && k !in ks ==> db'.events[k] == db.events[k]
  {
    hide HandleBatch;
    BatchOutcomes(cfg, start, ks, fails, at);
  }

  lemma BatchNext(cfg: Settings, db: Db, ks: seq<nat>, i: nat, fails: nat -> bool, at: nat -> real)
    requires i < |ks| && forall a :: 0 <= a < |ks| ==> ks[a] < |db.events|
    ensures var rest := HandleBatch(cfg, db, ks[..i], fails, at);
            && |rest.events| == |db.events|
            && HandleBatch(cfg, db, ks[..i + 1], fails, at)
               == if fails(ks[i]) then RetryEvent(rest, ks[i]) else ProcessEvent(cfg, rest, ks[i], at(ks[i]))
  {
    assert ks[..i + 1][..i] == ks[..i];
  }

  lemma BatchEmpty(cfg: Settings, db: Db, ks: seq<nat>, fails: nat -> bool, at: nat -> real)
    ensures HandleBatch(cfg, db, ks[..0], fails, at) == db
  {
  }

  lemma ClaimedConserves(cfg: Settings, db: Db, start: Db, ks: seq<nat>, fails: nat -> bool, at: nat -> real)
    requires forall a :: 0 <= a < |ks| ==> ks[a] < |db.events| && db.events[ks[a]].status == Received
    requires forall a, b :: 0 <= a < b < |ks| ==> ks[a] < ks[b]
    requires start == db.(events := ClaimEvents(db.events, ks))
    ensures Conserved(db) ==> Conserved(HandleBatch(cfg, start, ks, fails, at))
  {
    if Conserved(db) {
      SumMatchedSame(db.events, start.events);
      BatchConserves(cfg, start, ks, fails, at);
    }
  }

  class Database {
    var rules: seq<string>
    var events: seq<Event>
    var jobs: seq<Job>
    var deleted: set<string>
    var counters: map<CounterKey, nat>
    ghost var redelivered: nat

    ghost function Value(): Db
      reads this
    {
      Db(rules, events, jobs, deleted, counters, redelivered)
    }

    constructor ()
      ensures Value() == EMPTY_DB
    {
      rules, events, jobs, deleted, counters, redelivered := [], [], [], {}, map[], 0;
    }

    // ----- counters.py -----

    method SeedCounters()
      modifies this`counters
      ensures counters == Seeded(old(counters))
    {
      var keys := [DuplicatesBlocked, DuplicateEvents, EventsReceived];
      for i := 0 to |keys|
        invariant forall k :: k in counters <==> k in old(counters) || k in keys[..i]
        invariant forall k :: k in counters ==> counters[k] == Get(old(counters), k)
      {
        if keys[i] !in counters {
          counters := counters[keys[i] := 0];
        }
      }
      assert keys[..|keys|] == keys;
      ghost var seeded := Seeded(old(counters));
      forall k: CounterKey ensures k in counters && k in seeded && counters[k] == seeded[k] {
        match k
        case DuplicatesBlocked => assert k == keys[0];
        case DuplicateEvents => assert k == keys[1];
        case EventsReceived => assert k == keys[2];
      }
      assert counters == seeded;
    }

    /** One atomic UPDATE, or the row's first INSERT. */
    method IncrementCounter(key: CounterKey, amount: nat)
      modifies this`counters
      ensures counters == Increment(old(counters), key, amount)
      ensures Get(counters, key) == Get(old(counters), key) + amount
      ensures forall k :: k != key ==> Get(counters, k) == Get(old(counters), k)
    {
      if amount == 0 {
        return;
      }
      if key in counters {
        counters := counters[key := counters[key] + amount];
      } else {
        counters := counters[key := amount];
      }
    }

    // ----- jobs.py -----

    /** The insert is attempted first: the unique index decides. */
    method CreateJob(rule: string, user: string, comment: Option<string>, now: real) returns (created: Option<nat>)
      modifies this`jobs, this`counters
      ensures Value() == EventProcessing.CreateJob(old(Value()), rule, user, comment, now)
      ensures created.Some? <==> !SlotTaken(old(jobs), rule, user)
      ensures created.Some? ==> created.value < |jobs| && jobs[created.value] == NewJob(rule, user, comment, now)
    {
      var row := NewJob(rule, user, comment, now);
      if Violates(jobs, |jobs|, row) {
        IncrementCounter(DuplicatesBlocked, 1);
        return None;
      }
      jobs := jobs + [row];
      return Some(|jobs| - 1);
    }

    method CancelJobsForComment(comment: string, now: real) returns (cancelled: nat)
      modifies this`jobs
      ensures jobs == CancelFor(old(jobs), comment, now)
      ensures CountStatus(jobs, Cancelled) == CountStatus(old(jobs), Cancelled) + cancelled
    {
      cancelled := 0;
      if comment == "" {
        assert jobs == CancelFor(jobs, comment, now);
        return;
      }
      ghost var target := CancelFor(jobs, comment, now);
      for i := 0 to |jobs|
        invariant |jobs| == |target|
        invariant forall k :: 0 <= k < i ==> jobs[k] == target[k]
        invariant forall k :: i <= k < |jobs| ==> jobs[k] == old(jobs)[k]
        invariant CountStatus(jobs, Cancelled) == CountStatus(old(jobs), Cancelled) + cancelled
      {
        if Cancellable(jobs[i], comment) {
          CountUpdate(jobs, i, jobs[i].(status := Cancelled, updatedAt := now), Cancelled);
          jobs := jobs[i := jobs[i].(status := Cancelled, updatedAt := now)];
          cancelled := cancelled + 1;
        }
      }
    }

    /** With one DM worker the first candidate's conditional UPDATE always succeeds. */
    method ClaimNextJob(now: real) returns (claimed: Option<nat>)
      modifies this`jobs
      ensures claimed.Some? ==> IsNext(old(jobs), now, claimed.value) && jobs == Claim(old(jobs), claimed.value, now)
      ensures claimed.None? ==> jobs == old(jobs) && forall k :: 0 <= k < |jobs| ==> !Runnable(jobs[k], now)
      ensures claimed.None? ==>
                forall k :: 0 <= k < |jobs| ==>
                  && jobs[k].status != Queued
                  && (jobs[k].status == RetryWait && jobs[k].nextRetryAt.Some? ==> jobs[k].nextRetryAt.value > now)
      ensures claimed.Some? ==>
                var i := claimed.value;
                && i < |old(jobs)| && |jobs| == |old(jobs)|
                && jobs[i] == old(jobs)[i].(status := Sending, updatedAt := now)
                && (forall k :: 0 <= k < |jobs| && k != i ==> jobs[k] == old(jobs)[k])
                && var mine := old(jobs)[i].nextRetryAt;
                   (|| old(jobs)[i].status == Queued
                    || (old(jobs)[i].status == RetryWait && mine.Some? && mine.value <= now))
    {
      claimed := None;
      for i := 0 to |jobs|
        invariant claimed == NextBelow(jobs, now, i)
      {
        if Runnable(jobs[i], now) && (claimed.None? || Before(jobs, i, claimed.value)) {
          claimed := Some(i);
        }
      }
      NextIsNext(jobs, now);
      if claimed.None? {
        NothingInColumns(jobs, now);
      } else {
        NextInColumns(jobs, now, claimed.value);
        jobs := jobs[claimed.value := jobs[claimed.value].(status := Sending, updatedAt := now)];
      }
    }

    method RequeueStaleSending(staleSeconds: real, now: real)
      modifies this`jobs
      ensures jobs == RequeueStale(old(jobs), staleSeconds, now)
    {
      ghost var target := RequeueStale(jobs, staleSeconds, now);
      var cutoff := now - staleSeconds;
      for i := 0 to |jobs|
        invariant |jobs| == |target|
        invariant forall k :: 0 <= k < i ==> jobs[k] == target[k]
        invariant forall k :: i <= k < |jobs| ==> jobs[k] == old(jobs)[k]
      {
        if jobs[i].status == Sending && jobs[i].updatedAt < cutoff {
          jobs := jobs[i := jobs[i].(status := Queued, updatedAt := now)];
        }
      }
    }

    /** Flush a loaded row: the unique index accepts it, or the transaction rolls back. */
    method Flush(i: nat, row: Job) returns (stored: bool)
      requires i < |jobs|
      modifies this`jobs
      ensures jobs == WriteBack(old(jobs), i, row) && (stored <==> !Violates(old(jobs), i, row))
    {
      stored := !Violates(jobs, i, row);
      if stored {
        jobs := jobs[i := row];
      }
    }

    /** `compute_stats`; with the cancelled jobs, its three job counts are the whole table. */
    method ComputeStats() returns (sent: nat, failed: nat, queued: nat, duplicatesBlocked: nat)
      ensures sent == CountStatus(jobs, Delivered) && failed == CountStatus(jobs, Failed)
      ensures queued == Pending(jobs) && duplicatesBlocked == Get(counters, DuplicatesBlocked)
      ensures sent + failed + queued + CountStatus(jobs, Cancelled) == |jobs|
    {
      sent, failed, queued := 0, 0, 0;
      for i := 0 to |jobs|
        invariant sent == CountStatus(jobs[..i], Delivered)
        invariant failed == CountStatus(jobs[..i], Failed)
        invariant queued == Pending(jobs[..i])
      {
        assert jobs[..i + 1][..i] == jobs[..i];
        match jobs[i].status {
          case Delivered => sent := sent + 1;
          case Failed => failed := failed + 1;
          case Cancelled =>
          case _ => queued := queued + 1;
        }
      }
      assert jobs[..|jobs|] == jobs;
      StatsPartition(jobs);
      duplicatesBlocked := Get(counters, DuplicatesBlocked);
    }

    // ----- events.py -----

    method IngestEvent(cfg: Settings, p: Payload) returns (duplicate: bool)
      modifies this
      ensures Value() == Ingest(cfg, old(Value()), p) && duplicate == Known(old(Value()), p.eventId)
    {
      duplicate := exists k :: 0 <= k < |events| && events[k].eventId == p.eventId;
      if duplicate {
        HandleDuplicateEvent(cfg, p);
      } else {
        events := events + [Event(p.eventId, p.eventType, p.commentId, p.userId, p.text, Received, 0)];
        IncrementCounter(EventsReceived, 1);
      }
    }

    method HandleDuplicateEvent(cfg: Settings, p: Payload)
      requires Known(Value(), p.eventId)
      modifies this`counters, this`redelivered
      ensures Value() == Ingest(cfg, old(Value()), p)
    {
      IncrementCounter(DuplicateEvents, 1);
      if !cfg.countRedeliveries || p.eventType != COMMENT_CREATED || !Present(p.userId) {
        return;
      }
      if Present(p.commentId) && p.commentId.value in deleted {
        return;
      }
      var blocked := |FindMatching(cfg, rules, p.text)|;
      redelivered := redelivered + blocked;
      if blocked > 0 {
        IncrementCounter(DuplicatesBlocked, blocked);
      }
    }

    /** The oldest `received` events, at most `limit`, are now `processing`. */
    method ClaimPendingEvents(limit: nat) returns (claimed: seq<nat>)
      modifies this`events
      ensures IsEventBatch(old(Value()), limit, claimed) && events == ClaimEvents(old(events), claimed)
      ensures forall k :: 0 <= k < |old(events)| && old(events)[k].status == Received && k !in claimed ==>
                |claimed| == limit && forall a :: 0 <= a < |claimed| ==> claimed[a] < k
    {
      claimed := [];
      for i := 0 to |events|
        invariant |events| == |old(events)| && |claimed| <= limit
        invariant forall a :: 0 <= a < |claimed| ==> claimed[a] < i && old(events)[claimed[a]].status == Received
        invariant forall a, b :: 0 <= a < b < |claimed| ==> claimed[a] < claimed[b]
        invariant forall k :: 0 <= k < i && old(events)[k].status == Received && k !in claimed ==>
                    |claimed| == limit && forall a :: 0 <= a < |claimed| ==> claimed[a] < k
        invariant forall k :: 0 <= k < |events| ==>
                    events[k] == if k in claimed then old(events)[k].(status := Processing) else old(events)[k]
      {
        if events[i].status == Received && |claimed| < limit {
          events := events[i := events[i].(status := Processing)];
          claimed := claimed + [i];
        }
      }
    }

    method ProcessCommentCreated(cfg: Settings, k: nat, now: real)
      requires k < |events| && events[k].eventType == COMMENT_CREATED
      modifies this`events, this`jobs, this`counters
      ensures Value() == EventProcessing.ProcessEvent(cfg, old(Value()), k, now)
    {
      var e := events[k];
      if !Present(e.userId) || (Present(e.commentId) && e.commentId.value in deleted) {
        events := events[k := e.(status := Ignored, matched := 0)];
        return;
      }
      var matching := FindMatching(cfg, rules, e.text);
      events := events[k := e.(status := Processed, matched := |matching|)];
      ghost var start := Value();
      for i := 0 to |matching|
        invariant CreateAll(Value(), matching[i..], e.userId.value, e.commentId, now)
                  == CreateAll(start, matching, e.userId.value, e.commentId, now)
      {
        var created := CreateJob(matching[i], e.userId.value, e.commentId, now);
        assert matching[i..][1..] == matching[i + 1..];
      }
    }

    method ProcessCommentDeleted(cfg: Settings, k: nat, now: real)
      requires k < |events| && events[k].eventType == COMMENT_DELETED
      modifies this`events, this`jobs, this`deleted
      ensures Value() == EventProcessing.ProcessEvent(cfg, old(Value()), k, now)
    {
      var e := events[k];
      if !Present(e.commentId) {
        events := events[k := e.(status := Ignored, matched := 0)];
        return;
      }
      if e.commentId.value !in deleted {
        deleted := deleted + {e.commentId.value};
      }
      var cancelled := CancelJobsForComment(e.commentId.value, now);
      events := events[k := e.(status := Processed, matched := 0)];
    }

    method ProcessEvent(cfg: Settings, k: nat, now: real)
      requires k < |events|
      modifies this`events, this`jobs, this`deleted, this`counters
      ensures Value() == EventProcessing.ProcessEvent(cfg, old(Value()), k, now)
    {
      if events[k].eventType == COMMENT_CREATED {
        ProcessCommentCreated(cfg, k, now);
      } else if events[k].eventType == COMMENT_DELETED {
        ProcessCommentDeleted(cfg, k, now);
      } else {
        events := events[k := events[k].(status := Ignored, matched := 0)];
      }
    }

    /** Process and commit, or on an exception roll back and make the event retryable. */
    method CommitOrRetry(cfg: Settings, k: nat, now: real, raises: bool)
      requires k < |events|
      modifies this`events, this`jobs, this`deleted, this`counters
      ensures Value() == if raises then RetryEvent(old(Value()), k)
                         else EventProcessing.ProcessEvent(cfg, old(Value()), k, now)
      ensures raises ==>
                && events == old(events)[k := old(events)[k].(status := Received)]
                && jobs == old(jobs) && deleted == old(deleted) && counters == old(counters)
      ensures !raises ==> |events| == |old(events)| && events[k].status in {Processed, Ignored}
    {
      var savedEvents, savedJobs, savedDeleted, savedCounters := events, jobs, deleted, counters;
      OutcomeOf(cfg, Value(), k, now);
      ProcessEvent(cfg, k, now);
      if raises {
        events, jobs, deleted, counters := savedEvents, savedJobs, savedDeleted, savedCounters;
        events := events[k := events[k].(status := Received)];
      }
    }

    /** One batch: each event commits alone; one that raises is rolled back and left
        `received`. Nothing is counted twice or lost whichever of them raise. */
    method ProcessPendingEvents(cfg: Settings, limit: nat, fails: nat -> bool, at: nat -> real)
      returns (handled: nat, claimed: seq<nat>)
      modifies this`events, this`jobs, this`deleted, this`counters
      ensures IsEventBatch(old(Value()), limit, claimed)
      ensures var start := old(Value()).(events := ClaimEvents(old(events), claimed));
              Value() == HandleBatch(cfg, start, claimed, fails, at)
      ensures Conserved(old(Value())) ==> Conserved(Value())
      ensures |events| == |old(events)|
      ensures forall a :: 0 <= a < |claimed| ==>
                && claimed[a] < |events| && old(events)[claimed[a]].status == Received
                && (if fails(claimed[a]) then events[claimed[a]] == old(events)[claimed[a]]
                    else events[claimed[a]].status in {Processed, Ignored})
      ensures forall k :: 0 <= k < |events| && k !in claimed ==> events[k] == old(events)[k]
      ensures handled == |claimed| <==> forall a :: 0 <= a < |claimed| ==> !fails(claimed[a])
    {
      hide HandleBatch, RetryEvent, ClaimEvents, EventProcessing.ProcessEvent, Conserved;
      claimed := ClaimPendingEvents(limit);
      handled := 0;
      ghost var start := Value();
      BatchEmpty(cfg, start, claimed, fails, at);
      for i := 0 to |claimed|
        invariant |events| == |start.events| && handled <= i
        invariant Value() == HandleBatch(cfg, start, claimed[..i], fails, at)
        invariant handled == i <==> forall a :: 0 <= a < i ==> !fails(claimed[a])
      {
        BatchNext(cfg, start, claimed, i, fails, at);
        CommitOrRetry(cfg, claimed[i], at(claimed[i]), fails(claimed[i]));
        if !fails(claimed[i]) {
          handled := handled + 1;
        }
      }
      assert claimed[..|claimed|] == claimed;
      ClaimedConserves(cfg, old(Value()), start, claimed, fails, at);
      ClaimedOutcomes(cfg, old(Value()), start, claimed, fails, at);
    }

    method RequeueStuckEvents()
      modifies this`events
      ensures events == RequeueStuck(old(events))
    {
      ghost var target := RequeueStuck(events);
      for i := 0 to |events|
        invariant |events| == |target|
        invariant forall k :: 0 <= k < i ==> events[k] == target[k]
        invariant forall k :: i <= k < |events| ==> events[k] == old(events)[k]
      {
        if events[i].status == Processing {
          events := events[i := events[i].(status := Received)];
        }
      }
    }
  }
}
