/** When a cancelled job comes back, whoever acts: the exact state from which some run of the
    whole pipeline still sends for it or writes it alive again. */
module Comeback {
  import opened Models
  import opened Backoff
  import opened JobLifecycle
  import opened JobTable
  import opened EventProcessing
  import Limiter = RateLimiter
  import opened PseudoGram
  import opened Pipeline
  import opened Invariants
  import opened Theorems
  import opened Deletion
  import opened Witnesses
  import opened Revival
  import opened Rotation
  import opened Ordering
  import opened Progress
  import opened Origins

  /** Some run, whoever acts in it, sends for job j or takes it out of `cancelled`. */
  ghost predicate MayComeBack(cfg: Settings, s: State, j: nat) {
    exists more :: Stirred(s, Exec(cfg, s, more), j)
  }

  ghost predicate HasDeliveredDm(p: Provider, job: Job) {
    job.dmId.Some? && job.dmId.value in p.dms && p.dms[job.dmId.value].status == DmDelivered
  }

  /** The row can still be cancelled by a deletion of its comment: it waits or is stale, or is
      accepted, its DM may still fail, and a cycle is left after that. */
  ghost predicate Freeable(cfg: Settings, p: Provider, job: Job) {
    && Present(job.commentId)
    && (|| job.status in {Queued, RetryWait, Sending}
        || (job.status == Accepted && job.sendCycle + 1 < cfg.maxDeliveryAttempts && !HasDeliveredDm(p, job)))
  }

  ghost predicate Rival(s: State, j: nat, k: nat)
    requires j < |s.db.jobs|
  {
    k < |s.db.jobs| && Holds(s.db.jobs[k], s.db.jobs[j].ruleId, s.db.jobs[j].userId)
  }

  /** The worker handles job j and has not sent for it, or whoever holds its slot can be freed
      of it. */
  ghost predicate Threatens(cfg: Settings, s: State, j: nat)
    requires j < |s.db.jobs|
  {
    && Handling(s, j)
    && (|| s.worker.phase == Claimed || s.worker.phase.Granted?
        || forall k: nat :: Rival(s, j, k) ==> Freeable(cfg, s.provider, s.db.jobs[k]))
  }

  // ----- A slot that is never freed -------------------------------------

  /** A live row that cannot be freed stays live and never can be. */
  lemma StuckStays(cfg: Settings, s: State, a: Action, k: nat)
    requires cfg.Sensible() && Inv(cfg, s) && Enabled(cfg, s, a)
    requires k < |s.db.jobs| && Live(s.db.jobs[k]) && !Freeable(cfg, s.provider, s.db.jobs[k])
    ensures var s' := Step(cfg, s, a);
            && k < |s'.db.jobs| && Live(s'.db.jobs[k]) && SameOrigin(s.db.jobs[k], s'.db.jobs[k])
            && !Freeable(cfg, s'.provider, s'.db.jobs[k])
  {
    hide KeysOk, CyclesOk, RowsOk, AccountsOk, GrantsOk, CountersOk, UniqueSlots, Step, Enabled, RowStep;
    var s' := Step(cfg, s, a);
    StepRows(cfg, s, a);
    assert RowStep(cfg, s, a, k, s'.db.jobs[k]);
    RowCycle(cfg, s, a, k, s'.db.jobs[k]);
    if !Live(s'.db.jobs[k]) {
      CancelledByDeletion(cfg, s, a, k);
    }
    if Present(s.db.jobs[k].commentId) {
      if s.db.jobs[k].status == Accepted {
        AcceptedStuck(cfg, s, a, k);
      } else {
        TerminalStays(cfg, s, a, k);
      }
    }
  }

  /** An accepted job whose DM was delivered, or that has no cycle left, stays accepted or ends. */
  lemma AcceptedStuck(cfg: Settings, s: State, a: Action, k: nat)
    requires Enabled(cfg, s, a) && WorkerOk(s) && ReconOk(s) && OwnersOk(s)
    requires k < |s.db.jobs| && s.db.jobs[k].status == Accepted
    requires s.db.jobs[k].sendCycle + 1 >= cfg.maxDeliveryAttempts || HasDeliveredDm(s.provider, s.db.jobs[k])
    ensures var s' := Step(cfg, s, a);
            && k < |s'.db.jobs|
            && (|| s'.db.jobs[k].status in {Delivered, Failed}
                || (&& s'.db.jobs[k].status == Accepted
                    && (|| s'.db.jobs[k].sendCycle + 1 >= cfg.maxDeliveryAttempts
                        || HasDeliveredDm(s'.provider, s'.db.jobs[k]))))
  {
    hide Step, Enabled, RowStep;
    StepGrows(cfg, s, a);
    if a.ApplyStatus? {
      StatusStuck(cfg, s, a.draw, k);
    } else {
      AcceptedStays(cfg, s, a, k);
    }
  }

  lemma StatusStuck(cfg: Settings, s: State, draw: real, k: nat)
    requires Enabled(cfg, s, ApplyStatus(draw)) && WorkerOk(s) && ReconOk(s) && OwnersOk(s)
    requires k < |s.db.jobs| && s.db.jobs[k].status == Accepted
    requires s.db.jobs[k].sendCycle + 1 >= cfg.maxDeliveryAttempts || HasDeliveredDm(s.provider, s.db.jobs[k])
    ensures var s' := Step(cfg, s, ApplyStatus(draw));
            && k < |s'.db.jobs| && s'.provider == s.provider
            && (|| s'.db.jobs[k].status in {Delivered, Failed}
                || (&& s'.db.jobs[k].status == Accepted && s'.db.jobs[k].sendCycle == s.db.jobs[k].sendCycle
                    && s'.db.jobs[k].dmId == s.db.jobs[k].dmId))
  {
    hide AfterStatus, Violates, MadeFor;
    var h := s.recon.queue[0].0;
    assert Awaits(s.db.jobs, s.recon.queue[0]);
    StatusShape(cfg, s.db.jobs[h], s.recon.reply.value, s.now, draw);
  }

  /** Job j is cancelled, its request has left if the worker has it, and its slot is stuck. */
  ghost predicate Cornered(cfg: Settings, s: State, j: nat, k: nat) {
    && j < |s.db.jobs| && s.db.jobs[j].status == Cancelled
    && Rival(s, j, k) && !Freeable(cfg, s.provider, s.db.jobs[k])
    && (Handling(s, j) ==> s.worker.phase == Awaiting || s.worker.phase.Responded?)
  }

  lemma CorneredStep(cfg: Settings, s: State, a: Action, j: nat, k: nat)
    requires cfg.Sensible() && Inv(cfg, s) && Enabled(cfg, s, a) && Cornered(cfg, s, j, k)
    ensures Cornered(cfg, Step(cfg, s, a), j, k) && NoRequestSince(s, Step(cfg, s, a), j)
  {
    hide Inv, Freeable;
    StuckStays(cfg, s, a, k);
    SendsStep(cfg, s, a);
    StaysOutside(cfg, s, a, j);
  }

  /** While its slot is taken a cancelled job is not written, and not claimed either. */
  lemma StaysOutside(cfg: Settings, s: State, a: Action, j: nat)
    requires Enabled(cfg, s, a) && j < |s.db.jobs| && s.db.jobs[j].status == Cancelled
    requires SlotTaken(s.db.jobs, s.db.jobs[j].ruleId, s.db.jobs[j].userId)
    requires Handling(s, j) ==> s.worker.phase == Awaiting || s.worker.phase.Responded?
    ensures var s' := Step(cfg, s, a);
            && j < |s'.db.jobs| && s'.db.jobs[j].status == Cancelled && SameOrigin(s.db.jobs[j], s'.db.jobs[j])
            && (Handling(s', j) ==> s'.worker.phase == Awaiting || s'.worker.phase.Responded?)
  {
    hide Step, Enabled, AfterSend, AfterStatus, SlotTaken;
    StepRows(cfg, s, a);
    assert RowStep(cfg, s, a, j, Step(cfg, s, a).db.jobs[j]);
    NotTakenUp(cfg, s, a, j);
    if a.ApplyResult? {
      ResultRefused(cfg, s, a.draw, j);
    }
  }

  /** The result of a cancelled job whose slot is taken is rolled back. */
  lemma ResultRefused(cfg: Settings, s: State, draw: real, j: nat)
    requires Enabled(cfg, s, ApplyResult(draw)) && j < |s.db.jobs| && s.db.jobs[j].status == Cancelled
    requires SlotTaken(s.db.jobs, s.db.jobs[j].ruleId, s.db.jobs[j].userId)
    ensures s.worker.job == j ==> Step(cfg, s, ApplyResult(draw)).db == s.db
    ensures s.worker.job != j ==> Step(cfg, s, ApplyResult(draw)).db.jobs[j] == s.db.jobs[j]
  {
    hide AfterSend, SlotTaken, Violates;
    if s.worker.job == j {
      var row := AfterSend(cfg, s.db.jobs[j], s.worker.phase.result, s.now, draw);
      SendShape(cfg, s.db.jobs[j], s.worker.phase.result, s.now, draw);
      RevivedIffSlotFree(s.db.jobs, j, row);
    }
  }

  lemma {:induction false} CorneredForever(cfg: Settings, s: State, run: seq<Action>, j: nat, k: nat)
    requires cfg.Sensible() && Inv(cfg, s) && Cornered(cfg, s, j, k)
    ensures Cornered(cfg, Exec(cfg, s, run), j, k) && NoRequestSince(s, Exec(cfg, s, run), j)
    decreases |run|
  {
    hide Inv, Cornered, Step, Enabled;
    if run != [] {
      var mid := Do(cfg, s, run[0]);
      DoKeepsInv(cfg, s, run[0]);
      if Enabled(cfg, s, run[0]) {
        CorneredStep(cfg, s, run[0], j, k);
      }
      CorneredForever(cfg, mid, run[1..], j, k);
      RequestsSince(s, mid, Exec(cfg, mid, run[1..]), j);
    }
  }

  // ----- Freeing a slot while the worker waits --------------------------

  /** The worker, its requests and job j are as they were, and the rival is the same job. */
  ghost predicate Beside(s: State, s': State, j: nat, k: nat) {
    && s'.worker == s.worker && s'.sends == s.sends && |s'.db.jobs| == |s.db.jobs|
    && j < |s.db.jobs| && s'.db.jobs[j] == s.db.jobs[j]
    && k < |s.db.jobs| && SameOrigin(s.db.jobs[k], s'.db.jobs[k])
  }

  lemma BesideTrans(s: State, mid: State, s': State, j: nat, k: nat)
    requires Beside(s, mid, j, k) && Beside(mid, s', j, k)
    ensures Beside(s, s', j, k)
  {
  }

  // A deletion.

  function ReceivedBelow(events: seq<Event>, n: nat): seq<nat>
    requires n <= |events|
  {
    if n == 0 then []
    else ReceivedBelow(events, n - 1) + (if events[n - 1].status == Received then [n - 1] else [])
  }

  lemma {:induction false} ReceivedIsBatch(events: seq<Event>, n: nat)
    requires n <= |events|
    ensures var ks := ReceivedBelow(events, n);
            && |ks| <= n
            && (forall a :: 0 <= a < |ks| ==> ks[a] < n && events[ks[a]].status == Received)
            && (forall a, b :: 0 <= a < b < |ks| ==> ks[a] < ks[b])
            && (forall k :: 0 <= k < n && events[k].status == Received ==> k in ks)
  {
    if n > 0 {
      ReceivedIsBatch(events, n - 1);
    }
  }

  /** Every event of the batch but the last raises and goes back. */
  lemma {:induction false} AllButLast(cfg: Settings, s: State) returns (run: seq<Action>)
    requires s.batch != [] && forall a :: 0 <= a < |s.batch| ==> s.batch[a] < |s.db.events|
    requires forall a, b :: 0 <= a < b < |s.batch| ==> s.batch[a] < s.batch[b]
    ensures var s', last := Exec(cfg, s, run), s.batch[|s.batch| - 1];
            && s' == s.(db := s.db.(events := s'.db.events), batch := [last])
            && |s'.db.events| == |s.db.events| && s'.db.events[last] == s.db.events[last]
    decreases |s.batch|
  {
    if |s.batch| == 1 {
      run := [];
    } else {
      var s1 := Do(cfg, s, EventFails);
      assert s1.batch == s.batch[1..] && s1.db == RetryEvent(s.db, s.batch[0]);
      var rest := AllButLast(cfg, s1);
      run := [EventFails] + rest;
      assert run[0] == EventFails && run[1..] == rest;
    }
  }

  /** A new deletion of the comment is posted and handled; events before it in line go back. */
  lemma CommentDeletedNow(cfg: Settings, s: State, comment: string) returns (run: seq<Action>, s': State)
    requires comment != ""
    ensures s' == Exec(cfg, s, run)
    ensures s'.db.jobs == CancelFor(s.db.jobs, comment, s.now)
    ensures s'.worker == s.worker && s'.sends == s.sends && s'.provider == s.provider
  {
    hide CancelFor, Exec;
    var drop, s1 := BatchDropped(cfg, s);
    var taken;
    var take;
    take, taken := DeletionTaken(cfg, s1, comment);
    var skip := AllButLast(cfg, taken);
    var s2 := Exec(cfg, taken, skip);
    s' := Do(cfg, s2, HandleEvent);
    ExecOne(cfg, s2, HandleEvent);
    ExecConcat(cfg, taken, skip, [HandleEvent]);
    ExecConcat(cfg, s1, take, skip + [HandleEvent]);
    ExecConcat(cfg, s, drop, take + (skip + [HandleEvent]));
    run := drop + (take + (skip + [HandleEvent]));
  }

  lemma BatchDropped(cfg: Settings, s: State) returns (run: seq<Action>, s': State)
    ensures s' == Exec(cfg, s, run) && s' == s.(batch := [])
  {
    if s.batch == [] {
      run, s' := [], s;
    } else {
      run, s' := [AbandonEvents], Do(cfg, s, AbandonEvents);
      ExecOne(cfg, s, AbandonEvents);
    }
  }

  lemma DeletionTaken(cfg: Settings, s: State, comment: string) returns (run: seq<Action>, s': State)
    requires s.batch == [] && comment != ""
    ensures s' == Exec(cfg, s, run)
    ensures s' == s.(db := s.db.(events := s'.db.events, counters := s'.db.counters), batch := s'.batch)
    ensures s'.batch != [] && forall a :: 0 <= a < |s'.batch| ==> s'.batch[a] < |s'.db.events|
    ensures forall a, b :: 0 <= a < b < |s'.batch| ==> s'.batch[a] < s'.batch[b]
    ensures var last := s'.db.events[s'.batch[|s'.batch| - 1]];
            last.eventType == COMMENT_DELETED && last.commentId == Some(comment)
  {
    hide Exec;
    var post, posted := DeletionPosted(cfg, s, comment);
    var take;
    take, s' := AllTaken(cfg, posted);
    run := post + take;
    ExecConcat(cfg, s, post, take);
  }

  lemma DeletionPosted(cfg: Settings, s: State, comment: string) returns (run: seq<Action>, s': State)
    ensures s' == Exec(cfg, s, run)
    ensures s' == s.(db := s.db.(events := s'.db.events, counters := s'.db.counters))
    ensures s'.db.events != []
    ensures var last := s'.db.events[|s'.db.events| - 1];
            last.status == Received && last.eventType == COMMENT_DELETED && last.commentId == Some(comment)
  {
    var eventId := FreshId(set k | 0 <= k < |s.db.events| :: s.db.events[k].eventId);
    var p := Payload(eventId, COMMENT_DELETED, Some(comment), None, None);
    assert !Known(s.db, eventId);
    s' := s.(db := Ingest(cfg, s.db, p));
    run := [Webhook(p)];
    ExecOne(cfg, s, Webhook(p));
  }

  /** Every received event is taken; the newest is the last. */
  lemma AllTaken(cfg: Settings, s: State) returns (run: seq<Action>, s': State)
    requires s.batch == [] && s.db.events != [] && s.db.events[|s.db.events| - 1].status == Received
    ensures s' == Exec(cfg, s, run)
    ensures s' == s.(db := s.db.(events := s'.db.events), batch := s'.batch)
    ensures |s'.db.events| == |s.db.events|
    ensures s'.batch != [] && forall a :: 0 <= a < |s'.batch| ==> s'.batch[a] < |s'.db.events|
    ensures forall a, b :: 0 <= a < b < |s'.batch| ==> s'.batch[a] < s'.batch[b]
    ensures var last := |s.db.events| - 1;
            && s'.batch[|s'.batch| - 1] == last
            && s'.db.events[last] == s.db.events[last].(status := Processing)
  {
    var n := |s.db.events|;
    var ks := ReceivedBelow(s.db.events, n);
    ReceivedIsBatch(s.db.events, n);
    LastReceived(s.db.events);
    var take := TakeEvents(ks, n);
    s' := s.(db := s.db.(events := ClaimEvents(s.db.events, ks)), batch := ks);
    run := [take];
    ExecOne(cfg, s, take);
  }

  lemma LastReceived(events: seq<Event>)
    requires events != [] && events[|events| - 1].status == Received
    ensures var ks := ReceivedBelow(events, |events|); ks != [] && ks[|ks| - 1] == |events| - 1
  {
  }

  /** A waiting rival is cancelled with its comment, and the slot is free. */
  lemma WaitingFreed(cfg: Settings, s: State, j: nat, k: nat) returns (run: seq<Action>)
    requires UniqueSlots(s.db.jobs) && j < |s.db.jobs| && s.db.jobs[j].status == Cancelled && Rival(s, j, k)
    requires s.db.jobs[k].status in {Queued, RetryWait} && Present(s.db.jobs[k].commentId)
    ensures var s' := Exec(cfg, s, run);
            Beside(s, s', j, k) && !SlotTaken(s'.db.jobs, s.db.jobs[j].ruleId, s.db.jobs[j].userId)
  {
    hide Exec;
    var s';
    run, s' := CommentDeletedNow(cfg, s, s.db.jobs[k].commentId.value);
    forall i | 0 <= i < |s'.db.jobs| ensures !Holds(s'.db.jobs[i], s.db.jobs[j].ruleId, s.db.jobs[j].userId) {
      if Holds(s.db.jobs[i], s.db.jobs[j].ruleId, s.db.jobs[j].userId) {
        SameJob(s.db.jobs, i, k);
      }
    }
  }

  // A stale claim.

  /** A rival that is `sending` while the worker has job j is stale: it is put back in time. */
  lemma StaleReturns(cfg: Settings, s: State, j: nat, k: nat) returns (run: seq<Action>)
    requires cfg.Sensible() && j < |s.db.jobs| && s.db.jobs[j].status == Cancelled
    requires k < |s.db.jobs| && s.db.jobs[k].status == Sending && s.db.jobs[k].updatedAt <= s.now
    ensures var s' := Exec(cfg, s, run); Beside(s, s', j, k) && s'.db.jobs[k].status == Queued
  {
    var tick := Tick(s.now + cfg.staleSeconds + 1.0);
    run := [tick, Requeue];
    ExecTwo(cfg, s, tick, Requeue);
  }

  // An accepted rival.

  /** The rival is accepted and may still bounce. */
  ghost predicate MayBounce(cfg: Settings, s: State, k: nat) {
    && k < |s.db.jobs| && s.db.jobs[k].status == Accepted
    && s.db.jobs[k].sendCycle + 1 < cfg.maxDeliveryAttempts && !HasDeliveredDm(s.provider, s.db.jobs[k])
  }

  /** One status is applied; the rival bounced, or is as it was. */
  lemma HeadApplied(cfg: Settings, s: State, j: nat, k: nat) returns (s': State)
    requires cfg.Sensible() && UniqueSlots(s.db.jobs) && ReconOk(s) && OwnersOk(s)
    requires s.recon.Polling? && s.recon.queue != [] && s.recon.reply.Some?
    requires j < |s.db.jobs| && s.db.jobs[j].status == Cancelled && MayBounce(cfg, s, k)
    ensures s' == Exec(cfg, s, [ApplyStatus(0.0)]) && Beside(s, s', j, k)
    ensures s'.db.jobs[k].status == RetryWait
            || (MayBounce(cfg, s', k) && s'.recon.Polling? && s'.recon.reply.None?)
    ensures s.recon.queue[0].0 == k && s.recon.reply == Some(Some("failed")) ==> s'.db.jobs[k].status == RetryWait
    ensures s'.now == s.now && s'.recon == Polling(s.recon.queue[1..], None)
    ensures s.recon.queue[0].0 < |s.db.jobs|
            && s'.db.jobs == s.db.jobs[s.recon.queue[0].0 := s'.db.jobs[s.recon.queue[0].0]]
            && s'.db.jobs[s.recon.queue[0].0].updatedAt == s.now
  {
    hide AfterStatus, IsDraw, MadeFor, UniqueSlots;
    var h := s.recon.queue[0].0;
    assert Awaits(s.db.jobs, s.recon.queue[0]);
    NoJitter(cfg, s.db.jobs[h].sendCycle + 1);
    StatusShape(cfg, s.db.jobs[h], s.recon.reply.value, s.now, 0.0);
    LiveRowWrites(s.db.jobs, h, AfterStatus(cfg, s.db.jobs[h], s.recon.reply.value, s.now, 0.0));
    s' := Do(cfg, s, ApplyStatus(0.0));
    ExecOne(cfg, s, ApplyStatus(0.0));
  }

  /** The cycle under way comes to its end; meanwhile the rival bounced, or is as it was. */
  lemma CycleEnds(cfg: Settings, s: State, j: nat, k: nat) returns (run: seq<Action>)
    requires cfg.Sensible() && UniqueSlots(s.db.jobs) && ReconOk(s) && OwnersOk(s)
    requires j < |s.db.jobs| && s.db.jobs[j].status == Cancelled && MayBounce(cfg, s, k)
    ensures var s' := Exec(cfg, s, run);
            && Beside(s, s', j, k)
            && (s'.db.jobs[k].status == RetryWait || (MayBounce(cfg, s', k) && s'.recon == Resting))
  {
    hide UniqueSlots, OwnersOk, HasDeliveredDm;
    if s.recon.Resting? {
      run := [];
    } else if s.recon.reply.None? {
      run := SkipRest(cfg, s);
    } else {
      var s1 := HeadApplied(cfg, s, j, k);
      var skip := SkipRest(cfg, s1);
      run := [ApplyStatus(0.0)] + skip;
      ExecConcat(cfg, s, [ApplyStatus(0.0)], skip);
    }
  }

  /** Drop the first m entries of the batch. */
  lemma {:induction false} SkipTo(cfg: Settings, s: State, m: nat) returns (run: seq<Action>)
    requires s.recon.Polling? && s.recon.reply.None? && m <= |s.recon.queue|
    ensures Exec(cfg, s, run) == s.(recon := s.recon.(queue := s.recon.queue[m..]))
    decreases m
  {
    if m == 0 {
      run := [];
      assert s.recon.queue[0..] == s.recon.queue;
    } else {
      var s1 := Do(cfg, s, PollFails);
      assert s1 == s.(recon := s.recon.(queue := s.recon.queue[1..]));
      var rest := SkipTo(cfg, s1, m - 1);
      run := [PollFails] + rest;
      assert run[0] == PollFails && run[1..] == rest;
      assert s.recon.queue[1..][m - 1..] == s.recon.queue[m..];
    }
  }

  /** The provider fails the DM of the head, if it has not failed already, and the failure is read. */
  lemma FailRead(cfg: Settings, s: State) returns (run: seq<Action>, s': State)
    requires s.recon.Polling? && s.recon.reply.None? && s.recon.queue != []
    requires var d := s.recon.queue[0].1; d in s.provider.dms && s.provider.dms[d].status != DmDelivered
    ensures s' == Exec(cfg, s, run)
    ensures s' == s.(provider := s'.provider, recon := s.recon.(reply := Some(Some("failed"))))
    ensures var d := s.recon.queue[0].1; d in s'.provider.dms && s'.provider.dms[d].status == DmFailed
  {
    var d, poll := s.recon.queue[0].1, Poll(Some("failed"));
    if s.provider.dms[d].status == DmQueued {
      var settle := Settle(d, DmFailed);
      var settled := Do(cfg, s, settle);
      assert settled == s.(provider := settled.provider) && settled.provider.dms[d].status == DmFailed;
      s' := Do(cfg, settled, poll);
      run := [settle, poll];
      ExecTwo(cfg, s, settle, poll);
    } else {
      s' := Do(cfg, s, poll);
      run := [poll];
      ExecOne(cfg, s, poll);
    }
  }

  /** The rival is in the loaded batch: skip to it and let it bounce. */
  lemma BounceLoaded(cfg: Settings, s: State, j: nat, k: nat, m: nat) returns (run: seq<Action>)
    requires cfg.Sensible() && Inv(cfg, s)
    requires j < |s.db.jobs| && s.db.jobs[j].status == Cancelled && MayBounce(cfg, s, k)
    requires s.recon.Polling? && s.recon.reply.None? && m < |s.recon.queue| && s.recon.queue[m].0 == k
    ensures var s' := Exec(cfg, s, run); Beside(s, s', j, k) && s'.db.jobs[k].status == RetryWait
  {
    hide Exec, UniqueSlots, KeysOk, CyclesOk, OwnersOk, RowsOk, AccountsOk, GrantsOk, CountersOk, WorkerOk, BatchOk;
    assert Awaits(s.db.jobs, s.recon.queue[m]);
    OwnedDm(s, k, s.recon.queue[m].1);
    var skip := SkipTo(cfg, s, m);
    var s1 := Exec(cfg, s, skip);
    assert s1.recon.queue[0] == s.recon.queue[m];
    RunKeepsInv(cfg, s, skip);
    var fail, s2 := FailRead(cfg, s1);
    RunKeepsInv(cfg, s1, fail);
    var s3 := HeadApplied(cfg, s2, j, k);
    ExecConcat(cfg, s1, fail, [ApplyStatus(0.0)]);
    ExecConcat(cfg, s, skip, fail + [ApplyStatus(0.0)]);
    run := skip + (fail + [ApplyStatus(0.0)]);
  }

  lemma BatchLoaded(cfg: Settings, s: State, ids: seq<nat>) returns (s': State)
    requires s.recon == Resting && IsBatch(s.db.jobs, cfg.batchSize, ids)
    ensures s' == Exec(cfg, s, [LoadPending(ids)]) && s' == s.(recon := s'.recon)
    ensures s'.recon.Polling? && s'.recon.reply.None? && |s'.recon.queue| == |ids|
    ensures forall m :: 0 <= m < |ids| ==> s'.recon.queue[m].0 == ids[m]
  {
    s' := Do(cfg, s, LoadPending(ids));
    ExecOne(cfg, s, LoadPending(ids));
    forall m | 0 <= m < |ids| ensures s'.recon.queue[m].0 == ids[m] {
      assert Pollable(s.db.jobs[ids[m]]) && s'.recon.queue[m] == Entry(s.db.jobs, ids[m]);
    }
  }

  lemma ReadQueued(cfg: Settings, s: State) returns (s': State)
    requires s.recon.Polling? && s.recon.reply.None? && s.recon.queue != []
    ensures s' == Exec(cfg, s, [Poll(Some("queued"))])
    ensures s' == s.(recon := s.recon.(reply := Some(Some("queued"))))
  {
    s' := Do(cfg, s, Poll(Some("queued")));
    ExecOne(cfg, s, Poll(Some("queued")));
  }

  /** The rival is not in the batch: a job ahead of it is served and falls behind. */
  lemma ServeFirst(cfg: Settings, s: State, j: nat, k: nat, ids: seq<nat>) returns (run: seq<Action>)
    requires cfg.Sensible() && Inv(cfg, s) && s.recon == Resting && Waits(s, k)
    requires j < |s.db.jobs| && s.db.jobs[j].status == Cancelled && MayBounce(cfg, s, k)
    requires IsBatch(s.db.jobs, cfg.batchSize, ids) && ids != [] && ids[0] in Ahead(s.db.jobs, k)
    ensures var s' := Exec(cfg, s, run);
            && Beside(s, s', j, k) && MayBounce(cfg, s', k) && Waits(s', k) && s'.recon == Resting
            && Ahead(s'.db.jobs, k) <= Ahead(s.db.jobs, k) - {ids[0]}
  {
    hide Exec, UniqueSlots, KeysOk, CyclesOk, OwnersOk, RowsOk, AccountsOk, GrantsOk, CountersOk, WorkerOk, BatchOk;
    hide IsBatch, HasDeliveredDm;
    var h := ids[0];
    var load, read, apply := [LoadPending(ids)], [Poll(Some("queued"))], [ApplyStatus(0.0)];
    var s1 := BatchLoaded(cfg, s, ids);
    var s2 := ReadQueued(cfg, s1);
    RunKeepsInv(cfg, s, load);
    RunKeepsInv(cfg, s1, read);
    var s3 := HeadApplied(cfg, s2, j, k);
    var skip := SkipRest(cfg, s3);
    ExecConcat(cfg, s2, apply, skip);
    ExecConcat(cfg, s1, read, apply + skip);
    ExecConcat(cfg, s, load, read + (apply + skip));
    run := load + (read + (apply + skip));
  }

  lemma {:induction false} BounceAtRest(cfg: Settings, s: State, j: nat, k: nat) returns (run: seq<Action>)
    requires cfg.Sensible() && Inv(cfg, s) && s.recon == Resting && Waits(s, k)
    requires j < |s.db.jobs| && s.db.jobs[j].status == Cancelled && MayBounce(cfg, s, k)
    ensures var s' := Exec(cfg, s, run); Beside(s, s', j, k) && s'.db.jobs[k].status == RetryWait
    decreases |Ahead(s.db.jobs, k)|
  {
    hide Exec, Inv, IsBatch, Ahead, HasDeliveredDm;
    var ids := BatchExists(s.db.jobs, cfg.batchSize, []);
    if k in ids {
      var m :| 0 <= m < |ids| && ids[m] == k;
      var s1 := BatchLoaded(cfg, s, ids);
      RunKeepsInv(cfg, s, [LoadPending(ids)]);
      var rest := BounceLoaded(cfg, s1, j, k, m);
      ExecConcat(cfg, s, [LoadPending(ids)], rest);
      run := [LoadPending(ids)] + rest;
    } else {
      FirstIsAhead(cfg, s, ids, k);
      var first := ServeFirst(cfg, s, j, k, ids);
      var s1 := Exec(cfg, s, first);
      RunKeepsInv(cfg, s, first);
      Limiter.SubsetSize(Ahead(s1.db.jobs, k), Ahead(s.db.jobs, k) - {ids[0]});
      var rest := BounceAtRest(cfg, s1, j, k);
      ExecConcat(cfg, s, first, rest);
      run := first + rest;
      BesideTrans(s, s1, Exec(cfg, s, run), j, k);
    }
  }

  /** A batch that leaves the rival out begins with a job ahead of it. */
  lemma FirstIsAhead(cfg: Settings, s: State, ids: seq<nat>, k: nat)
    requires cfg.Sensible() && Inv(cfg, s) && Waits(s, k) && IsBatch(s.db.jobs, cfg.batchSize, ids) && k !in ids
    ensures ids != [] && ids[0] in Ahead(s.db.jobs, k)
  {
    hide KeysOk, CyclesOk, OwnersOk, AccountsOk, GrantsOk, CountersOk, WorkerOk, BatchOk, RowsOk, UniqueSlots;
    Stamps(cfg, s);
    assert Pollable(s.db.jobs[k]);
  }

  /** An accepted rival that may still bounce does. */
  lemma AcceptedBounces(cfg: Settings, s: State, j: nat, k: nat) returns (run: seq<Action>)
    requires cfg.Sensible() && Inv(cfg, s)
    requires j < |s.db.jobs| && s.db.jobs[j].status == Cancelled && MayBounce(cfg, s, k)
    ensures var s' := Exec(cfg, s, run); Beside(s, s', j, k) && s'.db.jobs[k].status == RetryWait
  {
    hide Exec, UniqueSlots, KeysOk, CyclesOk, OwnersOk, RowsOk, AccountsOk, GrantsOk, CountersOk, WorkerOk, BatchOk;
    hide ReconOk, HasDeliveredDm;
    var finish := CycleEnds(cfg, s, j, k);
    var s1 := Exec(cfg, s, finish);
    run := finish;
    if s1.db.jobs[k].status != RetryWait {
      RunKeepsInv(cfg, s, finish);
      Stamps(cfg, s1);
      var tick := Tick(s1.now + 1.0);
      ExecOne(cfg, s1, tick);
      RunKeepsInv(cfg, s1, [tick]);
      var s2 := s1.(now := s1.now + 1.0);
      var rest := BounceAtRest(cfg, s2, j, k);
      ExecConcat(cfg, s1, [tick], rest);
      ExecConcat(cfg, s, finish, [tick] + rest);
      run := finish + ([tick] + rest);
      BesideTrans(s, s1, Exec(cfg, s, run), j, k);
    }
  }

  /** A freeable rival is brought to wait. */
  lemma RivalWaits(cfg: Settings, s: State, j: nat, k: nat) returns (run: seq<Action>)
    requires cfg.Sensible() && Inv(cfg, s) && j < |s.db.jobs| && s.db.jobs[j].status == Cancelled
    requires k < |s.db.jobs| && Freeable(cfg, s.provider, s.db.jobs[k])
    ensures var s' := Exec(cfg, s, run); Beside(s, s', j, k) && s'.db.jobs[k].status in {Queued, RetryWait}
  {
    hide Inv, Exec, HasDeliveredDm;
    if s.db.jobs[k].status == Accepted {
      run := AcceptedBounces(cfg, s, j, k);
    } else if s.db.jobs[k].status == Sending {
      WrittenBefore(cfg, s, k);
      run := StaleReturns(cfg, s, j, k);
    } else {
      run := [];
      NothingHappens(cfg, s);
    }
  }

  lemma WrittenBefore(cfg: Settings, s: State, k: nat)
    requires Inv(cfg, s) && k < |s.db.jobs|
    ensures s.db.jobs[k].updatedAt <= s.now && UniqueSlots(s.db.jobs)
  {
    hide KeysOk, CyclesOk, OwnersOk, AccountsOk, GrantsOk, CountersOk, WorkerOk, BatchOk, RowsOk, UniqueSlots;
    Stamps(cfg, s);
  }

  lemma NothingHappens(cfg: Settings, s: State)
    ensures Exec(cfg, s, []) == s
  {
  }

  /** The slot of job j is freed while the worker waits for its answer. */
  lemma SlotFreed(cfg: Settings, s: State, j: nat, k: nat) returns (run: seq<Action>)
    requires cfg.Sensible() && Inv(cfg, s) && j < |s.db.jobs| && s.db.jobs[j].status == Cancelled
    requires Rival(s, j, k) && Freeable(cfg, s.provider, s.db.jobs[k])
    ensures var s' := Exec(cfg, s, run);
            && s'.worker == s.worker && s'.sends == s.sends && j < |s'.db.jobs| && s'.db.jobs[j] == s.db.jobs[j]
            && !SlotTaken(s'.db.jobs, s.db.jobs[j].ruleId, s.db.jobs[j].userId)
  {
    hide Inv, Exec, HasDeliveredDm, SlotTaken, UniqueSlots;
    var wait := RivalWaits(cfg, s, j, k);
    var s1 := Exec(cfg, s, wait);
    RunKeepsInv(cfg, s, wait);
    WrittenBefore(cfg, s1, k);
    var free := WaitingFreed(cfg, s1, j, k);
    ExecConcat(cfg, s, wait, free);
    run := wait + free;
  }

  // ----- The theorem -----------------------------------------------------

  lemma SomeRival(cfg: Settings, s: State, j: nat) returns (k: nat)
    requires j < |s.db.jobs| && Handling(s, j) && Threatens(cfg, s, j) && !Dangling(s, j)
    ensures Rival(s, j, k) && Freeable(cfg, s.provider, s.db.jobs[k])
  {
    hide Freeable;
    k :| 0 <= k < |s.db.jobs| && Holds(s.db.jobs[k], s.db.jobs[j].ruleId, s.db.jobs[j].userId);
    assert Rival(s, j, k);
  }

  lemma StuckRival(cfg: Settings, s: State, j: nat) returns (k: nat)
    requires j < |s.db.jobs| && Handling(s, j) && !Threatens(cfg, s, j)
    ensures Rival(s, j, k) && !Freeable(cfg, s.provider, s.db.jobs[k])
    ensures s.worker.phase != Claimed && !s.worker.phase.Granted?
  {
    hide Freeable;
    if forall i: nat | Rival(s, j, i) :: Freeable(cfg, s.provider, s.db.jobs[i]) {
      assert false;
    }
    k :| Rival(s, j, k) && !Freeable(cfg, s.provider, s.db.jobs[k]);
  }

  lemma ThreatComesTrue(cfg: Settings, s: State, j: nat) returns (more: seq<Action>)
    requires cfg.Sensible() && Inv(cfg, s) && j < |s.db.jobs| && s.db.jobs[j].status == Cancelled
    requires Threatens(cfg, s, j)
    ensures Stirred(s, Exec(cfg, s, more), j)
  {
    hide Inv, Exec, Freeable, Stirred;
    if Dangling(s, j) {
      more := DanglingStirs(cfg, s, j);
    } else {
      var k := SomeRival(cfg, s, j);
      var free := SlotFreed(cfg, s, j, k);
      var s1 := Exec(cfg, s, free);
      var rest := DanglingStirs(cfg, s1, j);
      StirredSame(s, s1, Exec(cfg, s1, rest), j);
      ExecConcat(cfg, s, free, rest);
      more := free + rest;
    }
  }

  lemma NoThreat(cfg: Settings, s: State, more: seq<Action>, j: nat)
    requires cfg.Sensible() && Inv(cfg, s) && j < |s.db.jobs| && s.db.jobs[j].status == Cancelled
    requires !Threatens(cfg, s, j)
    ensures !Stirred(s, Exec(cfg, s, more), j)
  {
    hide Inv, Exec, Freeable;
    if !Handling(s, j) {
      CancelledStays(cfg, s, more, j);
      NotSentAgain(cfg, s, more, j);
    } else {
      var k := StuckRival(cfg, s, j);
      CorneredForever(cfg, s, more, j, k);
    }
  }

  /** Exactly when a cancelled job is not final, whoever acts: some run sends for it or takes it
      out of `cancelled` if and only if the worker handles it and has not sent for it, or has,
      and whoever holds its slot can still be cancelled by a deletion. */
  lemma ComesBackIff(cfg: Settings, run: seq<Action>, j: nat)
    requires cfg.Sensible()
    requires j < |Exec(cfg, INIT, run).db.jobs| && Exec(cfg, INIT, run).db.jobs[j].status == Cancelled
    ensures var s := Exec(cfg, INIT, run); MayComeBack(cfg, s, j) <==> Threatens(cfg, s, j)
  {
    hide Inv, Exec, Stirred, Threatens;
    var s := Exec(cfg, INIT, run);
    ReachableInv(cfg, run);
    if Threatens(cfg, s, j) {
      var more := ThreatComesTrue(cfg, s, j);
    } else {
      forall more ensures !Stirred(s, Exec(cfg, s, more), j) {
        NoThreat(cfg, s, more, j);
      }
    }
  }
}
