/** What every action of the pipeline keeps. */
module Invariants {
  import opened Models
  import opened Backoff
  import opened JobLifecycle
  import opened JobTable
  import opened EventProcessing
  import Limiter = RateLimiter
  import opened PseudoGram
  import opened Pipeline

  // ----- What one action does to the job table --------------------------

  /** Row i after the action: a quiet status change, the worker's own result, or the status
      the reconciler read for it. */
  ghost predicate RowStep(cfg: Settings, s: State, a: Action, i: nat, row: Job)
    requires i < |s.db.jobs|
  {
    var job := s.db.jobs[i];
    || (QuietChange(job, row) && (row.updatedAt == job.updatedAt || row.updatedAt == s.now))
    || (&& a.ApplyResult? && InFlight(s, i) && s.worker.phase.Responded?
        && IsDraw(cfg, job.transientFailures + 1, a.draw)
        && row == AfterSend(cfg, job, s.worker.phase.result, s.now, a.draw))
    || (&& a.ApplyStatus? && s.recon.Polling? && s.recon.queue != [] && s.recon.queue[0].0 == i && s.recon.reply.Some?
        && job.status == Accepted && IsDraw(cfg, job.sendCycle + 1, a.draw)
        && row == AfterStatus(cfg, job, s.recon.reply.value, s.now, a.draw))
  }

  /** A row the action inserted. */
  ghost predicate NewRow(s: State, a: Action, row: Job) {
    && a.HandleEvent? && s.batch != [] && s.batch[0] < |s.db.events|
    && var e := s.db.events[s.batch[0]];
       && Present(e.userId) && !CommentDeleted(s.db, e.commentId)
       && row == NewJob(row.ruleId, e.userId.value, e.commentId, s.now)
  }

  ghost predicate RowsStep(cfg: Settings, s: State, a: Action, s': State) {
    && |s.db.jobs| <= |s'.db.jobs|
    && (forall i :: 0 <= i < |s.db.jobs| ==> RowStep(cfg, s, a, i, s'.db.jobs[i]))
    && (forall i :: |s.db.jobs| <= i < |s'.db.jobs| ==> NewRow(s, a, s'.db.jobs[i]))
  }

  lemma HandledRows(cfg: Settings, s: State)
    requires s.batch != [] && s.batch[0] < |s.db.events|
    ensures RowsStep(cfg, s, HandleEvent, Handled(cfg, s))
    ensures UniqueSlots(s.db.jobs) ==> UniqueSlots(Handled(cfg, s).db.jobs)
    ensures s.db.deleted <= Handled(cfg, s).db.deleted && Handled(cfg, s).db.redelivered == s.db.redelivered
  {
    var k := s.batch[0];
    var e := s.db.events[k];
    var rules := FindMatching(cfg, s.db.rules, e.text);
    var s' := Handled(cfg, s);
    if e.eventType == COMMENT_CREATED && Present(e.userId) && !CommentDeleted(s.db, e.commentId) {
      CreateAllCreates(SetEvent(s.db, k, Processed, |rules|), rules, e.userId.value, e.commentId, s.now);
      forall i | 0 <= i < |s.db.jobs| ensures RowStep(cfg, s, HandleEvent, i, s'.db.jobs[i]) {
        assert s'.db.jobs[i] == s'.db.jobs[..|s.db.jobs|][i];
      }
    } else if e.eventType == COMMENT_DELETED && Present(e.commentId) {
      if UniqueSlots(s.db.jobs) {
        QuietKeepsUnique(s.db.jobs, s'.db.jobs);
      }
    }
  }

  /** The actions of the DM worker. */
  predicate OfWorker(a: Action) {
    || a.ClaimJob? || a.Acquire? || a.Send? || a.Respond? || a.ApplyResult?
    || a.Raise? || a.ReleaseJob? || a.ReleaseFails?
  }

  lemma StepRows(cfg: Settings, s: State, a: Action)
    requires Enabled(cfg, s, a)
    ensures RowsStep(cfg, s, a, Step(cfg, s, a))
  {
    hide RowsStep, AfterSend, AfterStatus, SendDm, ProcessEvent, Violates, Ingest;
    if a.HandleEvent? {
      HandledRows(cfg, s);
    } else if OfWorker(a) {
      WorkerRows(cfg, s, a);
    } else {
      OtherRows(cfg, s, a);
    }
  }

  lemma WorkerRows(cfg: Settings, s: State, a: Action)
    requires Enabled(cfg, s, a) && OfWorker(a)
    ensures RowsStep(cfg, s, a, Step(cfg, s, a))
  {
    hide AfterSend, AfterStatus, IsDraw, Violates, Before, UniqueSlots, Limiter.Grant, Limiter.HasSlot;
  }

  lemma OtherRows(cfg: Settings, s: State, a: Action)
    requires Enabled(cfg, s, a) && !OfWorker(a) && !a.HandleEvent?
    ensures RowsStep(cfg, s, a, Step(cfg, s, a))
  {
    hide AfterSend, AfterStatus, IsDraw, SendDm, ProcessEvent, Violates, Before, IsEventBatch, IsBatch, Truthful;
    hide Limiter.WarmStart, Limiter.Grant, UniqueSlots;
  }

  // ----- Slots -----------------------------------------------------------

  lemma StepKeepsUnique(cfg: Settings, s: State, a: Action)
    requires Enabled(cfg, s, a) && UniqueSlots(s.db.jobs)
    ensures UniqueSlots(Step(cfg, s, a).db.jobs)
  {
    var jobs := s.db.jobs;
    match a
    case HandleEvent => HandledRows(cfg, s);
    case ApplyResult(draw) =>
      WriteBackKeepsUnique(jobs, s.worker.job, AfterSend(cfg, jobs[s.worker.job], s.worker.phase.result, s.now, draw));
    case ApplyStatus(draw) =>
      var j := s.recon.queue[0].0;
      WriteBackKeepsUnique(jobs, j, AfterStatus(cfg, jobs[j], s.recon.reply.value, s.now, draw));
    case ClaimJob(j) => QuietKeepsUnique(jobs, Claim(jobs, j, s.now));
    case ReleaseJob => QuietKeepsUnique(jobs, Release(jobs, s.worker.job, s.now));
    case Requeue => QuietKeepsUnique(jobs, RequeueStale(jobs, cfg.staleSeconds, s.now));
    case Restart => QuietKeepsUnique(jobs, RequeueStale(jobs, 0.0, s.now));
    case _ =>
  }

  // ----- Rows ------------------------------------------------------------

  /** A row on its own: budgets, dm_id, schedule, recipient, time stamp. */
  ghost predicate RowOk(cfg: Settings, job: Job, now: real) {
    && Sound(cfg, job)
    && (job.dmId.Some? <==> job.status in {Accepted, Delivered})
    && (job.dmId.Some? ==> job.dmId.value != "")
    && OnSchedule(cfg, job)
    && job.userId != ""
    && job.updatedAt <= now
  }

  ghost predicate RowsOk(cfg: Settings, s: State) {
    forall i :: 0 <= i < |s.db.jobs| ==> RowOk(cfg, s.db.jobs[i], s.now)
  }

  // ----- Actors ----------------------------------------------------------

  /** The job in flight has not been handed over by anyone else, and its cycle stands. */
  ghost predicate WorkerOk(s: State) {
    s.worker.Busy? ==>
      && s.worker.job < |s.db.jobs|
      && s.db.jobs[s.worker.job].status in {Sending, Queued, Cancelled}
      && s.db.jobs[s.worker.job].sendCycle == s.worker.cycle
      && s.worker.claimedAt <= s.now
  }

  predicate Awaits(jobs: seq<Job>, entry: (nat, string)) {
    entry.0 < |jobs| && jobs[entry.0].status == Accepted && jobs[entry.0].dmId == Some(entry.1)
  }

  /** Every entry the reconciler still holds is an accepted job with that very dm_id. */
  ghost predicate ReconOk(s: State) {
    s.recon.Polling? ==>
      && (forall k :: 0 <= k < |s.recon.queue| ==> Awaits(s.db.jobs, s.recon.queue[k]))
      && (forall k, l :: 0 <= k < l < |s.recon.queue| ==> s.recon.queue[k].0 != s.recon.queue[l].0)
      && (s.recon.reply.Some? ==> s.recon.queue != [])
  }

  /** The events in the worker's memory are claimed, each once. */
  ghost predicate BatchOk(s: State) {
    && (forall k :: 0 <= k < |s.batch| ==> s.batch[k] < |s.db.events| && s.db.events[s.batch[k]].status == Processing)
    && (forall k, l :: 0 <= k < l < |s.batch| ==> s.batch[k] != s.batch[l])
  }

  lemma StepKeepsRows(cfg: Settings, s: State, a: Action)
    requires cfg.Sensible() && Enabled(cfg, s, a) && RowsOk(cfg, s) && WorkerOk(s)
    ensures RowsOk(cfg, Step(cfg, s, a))
  {
    var s' := Step(cfg, s, a);
    StepRows(cfg, s, a);
    forall i | 0 <= i < |s'.db.jobs| ensures RowOk(cfg, s'.db.jobs[i], s'.now) {
      if i < |s.db.jobs| {
        assert RowOk(cfg, s.db.jobs[i], s.now);
        assert RowStep(cfg, s, a, i, s'.db.jobs[i]);
        RowStepKeepsOk(cfg, s, a, i, s'.db.jobs[i], s'.now);
      } else {
        assert NewRow(s, a, s'.db.jobs[i]);
        FreshJobSound(cfg, s'.db.jobs[i]);
      }
    }
  }

  lemma RowStepKeepsOk(cfg: Settings, s: State, a: Action, i: nat, row: Job, later: real)
    requires cfg.Sensible() && i < |s.db.jobs| && RowOk(cfg, s.db.jobs[i], s.now) && s.now <= later
    requires RowStep(cfg, s, a, i, row)
    requires InFlight(s, i) ==> s.db.jobs[i].status in {Sending, Queued, Cancelled}
    ensures RowOk(cfg, row, later)
  {
    hide RowOk, AfterSend, AfterStatus;
    var job := s.db.jobs[i];
    if QuietChange(job, row) && (row.updatedAt == job.updatedAt || row.updatedAt == s.now) {
      QuietKeepsOk(cfg, job, row, s.now, later);
    } else if a.ApplyResult? {
      SendKeepsOk(cfg, job, s.worker.phase.result, s.now, a.draw, later);
    } else {
      StatusKeepsOk(cfg, job, s.recon.reply.value, s.now, a.draw, later);
    }
  }

  lemma QuietKeepsOk(cfg: Settings, job: Job, row: Job, now: real, later: real)
    requires RowOk(cfg, job, now) && now <= later
    requires QuietChange(job, row) && (row.updatedAt == job.updatedAt || row.updatedAt == now)
    ensures RowOk(cfg, row, later)
  {
    hide Sound, OnSchedule;
    QuietKeepsSound(cfg, job, row);
    QuietKeepsSchedule(cfg, job, row);
  }

  /** The budgets depend on columns and statuses a quiet change leaves alone. */
  lemma QuietKeepsSound(cfg: Settings, job: Job, row: Job)
    requires Sound(cfg, job) && QuietChange(job, row)
    ensures Sound(cfg, row)
  {
    hide TallyOf, Exhausted;
  }

  lemma QuietKeepsSchedule(cfg: Settings, job: Job, row: Job)
    requires OnSchedule(cfg, job) && QuietChange(job, row)
    ensures OnSchedule(cfg, row)
  {
    hide WaitsFor;
  }

  lemma SendKeepsOk(cfg: Settings, job: Job, result: SendResult, now: real, draw: real, later: real)
    requires cfg.Sensible() && RowOk(cfg, job, now) && now <= later && Unsettled(job.status)
    requires IsDraw(cfg, job.transientFailures + 1, draw)
    ensures RowOk(cfg, AfterSend(cfg, job, result, now, draw), later)
  {
    SendKeepsSound(cfg, job, result, now, draw);
    SendSchedules(cfg, job, result, now, draw);
    SendShape(cfg, job, result, now, draw);
  }

  lemma StatusKeepsOk(cfg: Settings, job: Job, status: Option<string>, now: real, draw: real, later: real)
    requires cfg.Sensible() && RowOk(cfg, job, now) && now <= later && job.status == Accepted
    requires IsDraw(cfg, job.sendCycle + 1, draw)
    ensures RowOk(cfg, AfterStatus(cfg, job, status, now, draw), later)
  {
    StatusKeepsSound(cfg, job, status, now, draw);
    StatusSchedules(cfg, job, status, now, draw);
    StatusShape(cfg, job, status, now, draw);
  }

  /** Everything but the budgets that a send response decides. */
  lemma SendShape(cfg: Settings, job: Job, result: SendResult, now: real, draw: real)
    ensures var row := AfterSend(cfg, job, result, now, draw);
            && SameOrigin(job, row) && row.sendCycle == job.sendCycle && row.updatedAt == now
            && row.status in {Accepted, RetryWait, Failed}
            && (row.status == Accepted <==> IsAccept(Response(result)))
            && row.dmId == (if row.status == Accepted then result.dmId else job.dmId)
            && (row.status == RetryWait ==> row.nextRetryAt.Some?)
  {
  }

  /** Everything but the budgets that a delivery status decides. */
  lemma StatusShape(cfg: Settings, job: Job, status: Option<string>, now: real, draw: real)
    requires job.status == Accepted
    ensures var row := AfterStatus(cfg, job, status, now, draw);
            && SameOrigin(job, row) && row.updatedAt == now
            && row.status == (if status == Some("delivered") then Delivered
                              else if status != Some("failed") then Accepted
                              else if job.sendCycle + 1 >= cfg.maxDeliveryAttempts then Failed else RetryWait)
            && row.sendCycle == job.sendCycle + (if status == Some("failed") then 1 else 0)
            && row.dmId == (if status == Some("failed") then None else job.dmId)
            && (row.status == RetryWait ==> row.nextRetryAt.Some?)
  {
  }

  // ----- Actors are kept ------------------------------------------------

  /** Nobody but the reconciler, for its own head, takes a job out of `accepted`. */
  lemma AcceptedStays(cfg: Settings, s: State, a: Action, i: nat)
    requires Enabled(cfg, s, a) && WorkerOk(s)
    requires i < |s.db.jobs| && s.db.jobs[i].status == Accepted
    requires a.ApplyStatus? ==> s.recon.queue[0].0 != i
    ensures var s' := Step(cfg, s, a);
            && i < |s'.db.jobs| && s'.db.jobs[i].status == Accepted && s'.db.jobs[i].dmId == s.db.jobs[i].dmId
            && s'.db.jobs[i].sendCycle == s.db.jobs[i].sendCycle && s'.db.jobs[i].updatedAt == s.db.jobs[i].updatedAt
  {
    StepRows(cfg, s, a);
    assert RowStep(cfg, s, a, i, Step(cfg, s, a).db.jobs[i]);
  }

  lemma StepKeepsRecon(cfg: Settings, s: State, a: Action)
    requires Enabled(cfg, s, a) && WorkerOk(s) && ReconOk(s)
    ensures ReconOk(Step(cfg, s, a))
  {
    if a.LoadPending? {
      LoadedAwaits(cfg, s, a.ids);
    } else if s.recon.Polling? && !a.Restart? && !a.EndPolling? {
      QueueStays(cfg, s, a);
    }
  }

  lemma LoadedAwaits(cfg: Settings, s: State, ids: seq<nat>)
    requires Enabled(cfg, s, LoadPending(ids))
    ensures ReconOk(Step(cfg, s, LoadPending(ids)))
  {
    var queue := Entries(s.db.jobs, ids);
    forall k | 0 <= k < |queue| ensures Awaits(s.db.jobs, queue[k]) {
      assert queue[k] == Entry(s.db.jobs, ids[k]) && Pollable(s.db.jobs[ids[k]]);
    }
  }

  /** The queue only loses its head, and what is left still awaits its verdict. */
  lemma QueueStays(cfg: Settings, s: State, a: Action)
    requires Enabled(cfg, s, a) && WorkerOk(s) && ReconOk(s) && s.recon.Polling? && !a.Restart? && !a.EndPolling?
    ensures var s' := Step(cfg, s, a);
            && s'.recon.Polling?
            && s'.recon.queue == (if a.ApplyStatus? || a.PollFails? then s.recon.queue[1..] else s.recon.queue)
            && forall k :: 0 <= k < |s'.recon.queue| ==> Awaits(s'.db.jobs, s'.recon.queue[k])
  {
    var s' := Step(cfg, s, a);
    var dropped := if a.ApplyStatus? || a.PollFails? then 1 else 0;
    assert s'.recon.queue == s.recon.queue[dropped..];
    forall k | 0 <= k < |s'.recon.queue| ensures Awaits(s'.db.jobs, s'.recon.queue[k]) {
      assert s'.recon.queue[k] == s.recon.queue[k + dropped];
      assert Awaits(s.db.jobs, s.recon.queue[k + dropped]);
      AcceptedStays(cfg, s, a, s.recon.queue[k + dropped].0);
    }
  }

  lemma StepKeepsWorker(cfg: Settings, s: State, a: Action)
    requires Enabled(cfg, s, a) && WorkerOk(s)
    ensures WorkerOk(Step(cfg, s, a))
  {
    var s' := Step(cfg, s, a);
    StepRows(cfg, s, a);
    if s'.worker.Busy? && s.worker.Busy? {
      assert s'.worker.job == s.worker.job;
      assert RowStep(cfg, s, a, s.worker.job, s'.db.jobs[s.worker.job]);
      if a.ApplyResult? {
        assert s'.db.jobs == s.db.jobs;
      }
    }
  }

  lemma StepKeepsBatch(cfg: Settings, s: State, a: Action)
    requires Enabled(cfg, s, a) && BatchOk(s)
    ensures BatchOk(Step(cfg, s, a))
  {
    hide AfterSend, AfterStatus, IsDraw, SendDm, Ingest, Violates, Before, ProcessEvent;
    if a.HandleEvent? {
      ProcessKeepsEvents(cfg, s.db, s.batch[0], s.now);
      BatchPopped(s, Handled(cfg, s));
    } else if a.EventFails? {
      BatchPopped(s, Step(cfg, s, a));
    } else if !a.TakeEvents? && !a.AbandonEvents? && !a.Restart? {
      hide Step;
      BatchUntouched(cfg, s, a);
    }
  }

  lemma BatchUntouched(cfg: Settings, s: State, a: Action)
    requires Enabled(cfg, s, a) && !a.HandleEvent? && !a.EventFails? && !a.AbandonEvents? && !a.TakeEvents?
    requires !a.Restart?
    ensures Step(cfg, s, a).batch == s.batch && |s.db.events| <= |Step(cfg, s, a).db.events|
    ensures forall k :: 0 <= k < |s.db.events| ==> Step(cfg, s, a).db.events[k] == s.db.events[k]
  {
    hide AfterSend, AfterStatus, IsDraw, SendDm;
  }

  lemma BatchPopped(s: State, s': State)
    requires BatchOk(s) && s.batch != [] && s'.batch == s.batch[1..]
    requires |s'.db.events| == |s.db.events|
    requires forall k :: 0 <= k < |s.db.events| && k != s.batch[0] ==> s'.db.events[k] == s.db.events[k]
    ensures BatchOk(s')
  {
  }

  // ----- Keys, DMs and cycles -------------------------------------------

  /** Keys and DMs are in bijection, and every DM answers a request that was sent. */
  ghost predicate KeysOk(s: State) {
    var p := s.provider;
    && (forall k :: k in p.byKey ==> p.byKey[k] in p.dms && p.dms[p.byKey[k]].key == Some(k))
    && (forall d :: d in p.dms ==>
          d in s.origin && p.dms[d].key.Some? && p.dms[d].key.value in p.byKey && p.byKey[p.dms[d].key.value] == d)
    && (forall d :: d in s.origin ==>
          && d != "" && d in p.dms && s.origin[d] in s.sent
          && p.dms[d].key == Some(Key(s.origin[d].0, s.origin[d].1)))
  }

  /** The DM made for a cycle of job j is there and has failed. */
  ghost predicate Refused(s: State, j: nat, cycle: nat) {
    var p := s.provider;
    Key(j, cycle) in p.byKey && p.byKey[Key(j, cycle)] in p.dms && p.dms[p.byKey[Key(j, cycle)]].status == DmFailed
  }

  /** No key of a later cycle was sent, and every earlier cycle ended in a failed DM. */
  ghost predicate CyclesOk(s: State) {
    && (forall j, c :: (j, c) in s.sent ==> j < |s.db.jobs| && c <= s.db.jobs[j].sendCycle)
    && (forall j: nat, c: nat :: j < |s.db.jobs| && c < s.db.jobs[j].sendCycle ==> Refused(s, j, c))
  }

  /** d is the DM made for job j in this cycle. */
  ghost predicate MadeFor(s: State, d: string, j: nat, cycle: nat) {
    d in s.origin && s.origin[d] == (j, cycle)
  }

  /** Every dm_id the system stores or is about to store belongs to that job and cycle, and
      a job counted as sent was delivered. */
  ghost predicate OwnersOk(s: State) {
    && (forall j: nat :: j < |s.db.jobs| && s.db.jobs[j].dmId.Some? ==>
          MadeFor(s, s.db.jobs[j].dmId.value, j, s.db.jobs[j].sendCycle))
    && (forall j: nat :: j < |s.db.jobs| && s.db.jobs[j].status == Delivered && s.db.jobs[j].dmId.Some? ==>
          var d := s.db.jobs[j].dmId.value; d in s.provider.dms && s.provider.dms[d].status == DmDelivered)
    && (s.worker.Busy? && s.worker.phase.Responded? && IsAccept(Response(s.worker.phase.result)) ==>
          MadeFor(s, s.worker.phase.result.dmId.value, s.worker.job, s.worker.cycle))
    && (s.recon.Polling? && s.recon.reply.Some? && s.recon.queue != [] ==>
          Truthful(s.provider, s.recon.queue[0].1, s.recon.reply.value))
  }

  /** The provider forgets nothing and a verdict is final. */
  ghost predicate Grows(s: State, s': State) {
    && s.sent <= s'.sent
    && (forall k :: k in s.provider.byKey ==> k in s'.provider.byKey && s'.provider.byKey[k] == s.provider.byKey[k])
    && (forall d :: d in s.provider.dms ==>
          && d in s'.provider.dms && s'.provider.dms[d].key == s.provider.dms[d].key
          && (s.provider.dms[d].status != DmQueued ==> s'.provider.dms[d].status == s.provider.dms[d].status))
    && (forall d :: d in s.origin && d in s.provider.dms ==> d in s'.origin && s'.origin[d] == s.origin[d])
  }

  lemma StepGrows(cfg: Settings, s: State, a: Action)
    requires Enabled(cfg, s, a)
    ensures Grows(s, Step(cfg, s, a))
  {
    match a
    case Land(j, cycle, draws) => LandGrows(s, j, cycle, draws);
    case Settle(dmId, verdict) => SettleGrows(s, dmId, Step(cfg, s, a));
    case _ =>
  }

  lemma LandGrows(s: State, j: nat, cycle: nat, draws: Draws)
    requires j < |s.db.jobs| && draws.dmId !in s.provider.dms
    ensures Grows(s, Landed(s, j, cycle, draws))
  {
  }

  lemma SettleGrows(s: State, dmId: string, s': State)
    requires dmId in s.provider.dms && s.provider.dms[dmId].status == DmQueued
    requires s'.sent == s.sent && s'.origin == s.origin && s'.provider.byKey == s.provider.byKey
    requires exists verdict :: s'.provider.dms == s.provider.dms[dmId := s.provider.dms[dmId].(status := verdict)]
    ensures Grows(s, s')
  {
  }

  lemma StepKeepsKeys(cfg: Settings, s: State, a: Action)
    requires Enabled(cfg, s, a) && KeysOk(s)
    ensures KeysOk(Step(cfg, s, a))
  {
    if a.Land? {
      LandKeepsKeys(cfg, s, a.job, a.cycle, a.draws);
    } else {
      SentOnly(cfg, s, a);
      SameKeys(s, Step(cfg, s, a));
    }
  }

  /** Only a landing request makes a key, a DM or an origin. */
  lemma SentOnly(cfg: Settings, s: State, a: Action)
    requires Enabled(cfg, s, a) && !a.Land?
    ensures var s' := Step(cfg, s, a);
            && s'.origin == s.origin && s.sent <= s'.sent && s'.provider.byKey == s.provider.byKey
            && s'.provider.dms.Keys == s.provider.dms.Keys
            && forall d :: d in s.provider.dms ==> s'.provider.dms[d].key == s.provider.dms[d].key
  {
    hide AfterSend, AfterStatus, IsDraw, ProcessEvent, Ingest, Violates, WriteBack, RequeueStale, IsNext;
    if !a.Settle? {
      assert Step(cfg, s, a).provider == s.provider;
    }
  }

  lemma SameKeys(s: State, s': State)
    requires KeysOk(s) && s'.origin == s.origin && s.sent <= s'.sent && s'.provider.byKey == s.provider.byKey
    requires s'.provider.dms.Keys == s.provider.dms.Keys
    requires forall d :: d in s.provider.dms ==> s'.provider.dms[d].key == s.provider.dms[d].key
    ensures KeysOk(s')
  {
  }

  lemma LandKeepsKeys(cfg: Settings, s: State, j: nat, cycle: nat, draws: Draws)
    requires Enabled(cfg, s, Land(j, cycle, draws)) && KeysOk(s)
    ensures KeysOk(Step(cfg, s, Land(j, cycle, draws)))
  {
    hide Key, KeysOk;
    KeyPresent(j, cycle);
    var s' := Landed(s, j, cycle, draws);
    LandedKeys(s, j, cycle, draws);
    if s'.provider.dms != s.provider.dms {
      DmAdded(s, s', draws.dmId, s'.provider.dms[draws.dmId], Key(j, cycle), (j, cycle));
    } else {
      SameKeys(s, s');
    }
  }

  /** A landing request changes no key, DM or origin, or adds one of each. */
  lemma LandedKeys(s: State, j: nat, cycle: nat, draws: Draws)
    requires j < |s.db.jobs| && draws.dmId !in s.provider.dms && Key(j, cycle) != ""
    ensures var s', key, d := Landed(s, j, cycle, draws), Key(j, cycle), draws.dmId;
            if s'.provider.dms == s.provider.dms then
              s'.provider.byKey == s.provider.byKey && s'.origin == s.origin && s'.sent == s.sent
            else
              && key !in s.provider.byKey && d in s'.provider.dms && s'.provider.dms[d].key == Some(key)
              && s'.provider.dms == s.provider.dms[d := s'.provider.dms[d]]
              && s'.provider.byKey == s.provider.byKey[key := d]
              && s'.origin == s.origin[d := (j, cycle)] && s'.sent == s.sent
  {
    hide Key;
  }

  lemma KeyPresent(j: nat, cycle: nat)
    ensures Key(j, cycle) != ""
  {
  }

  lemma DmAdded(s: State, s': State, d: string, dm: Dm, key: string, from: (nat, nat))
    requires KeysOk(s) && d !in s.provider.dms && d != "" && key !in s.provider.byKey
    requires dm.key == Some(key) && key == Key(from.0, from.1) && from in s.sent && s'.sent == s.sent
    requires s'.provider.dms == s.provider.dms[d := dm] && s'.provider.byKey == s.provider.byKey[key := d]
    requires s'.origin == s.origin[d := from]
    ensures KeysOk(s')
  {
    forall e | e in s'.provider.dms
      ensures e in s'.origin && s'.provider.dms[e].key.Some?
              && s'.provider.dms[e].key.value in s'.provider.byKey
              && s'.provider.byKey[s'.provider.dms[e].key.value] == e
    {
      if e != d {
        assert s.provider.dms[e].key.value in s.provider.byKey;
      }
    }
  }

  lemma RefusedStays(s: State, s': State, j: nat, cycle: nat)
    requires Grows(s, s') && Refused(s, j, cycle)
    ensures Refused(s', j, cycle)
  {
  }

  lemma StepKeepsCycles(cfg: Settings, s: State, a: Action)
    requires Enabled(cfg, s, a) && KeysOk(s) && CyclesOk(s) && OwnersOk(s) && WorkerOk(s) && ReconOk(s)
    ensures CyclesOk(Step(cfg, s, a))
  {
    hide Step, Enabled, Key, QuietChange;
    var s' := Step(cfg, s, a);
    StepRows(cfg, s, a);
    StepGrows(cfg, s, a);
    OnlySendLeaves(cfg, s, a);
    forall j | |s.db.jobs| <= j < |s'.db.jobs| ensures s'.db.jobs[j].sendCycle == 0 {
      assert NewRow(s, a, s'.db.jobs[j]);
    }
    forall j: nat, c: nat | j < |s'.db.jobs| && c < s'.db.jobs[j].sendCycle ensures Refused(s', j, c) {
      assert RowStep(cfg, s, a, j, s'.db.jobs[j]);
      CycleRefused(cfg, s, a, j, c);
    }
    forall j, c | (j, c) in s'.sent ensures j < |s'.db.jobs| && c <= s'.db.jobs[j].sendCycle {
      assert j < |s.db.jobs| && c <= s.db.jobs[j].sendCycle;
      assert RowStep(cfg, s, a, j, s'.db.jobs[j]);
      RowCycle(cfg, s, a, j, s'.db.jobs[j]);
    }
  }

  /** A row's cycle only moves when a read `failed` is applied to it. */
  lemma RowCycle(cfg: Settings, s: State, a: Action, j: nat, row: Job)
    requires j < |s.db.jobs| && RowStep(cfg, s, a, j, row)
    ensures SameOrigin(s.db.jobs[j], row)
    ensures row.sendCycle == s.db.jobs[j].sendCycle
            || (&& a.ApplyStatus? && s.recon.Polling? && s.recon.queue != [] && s.recon.queue[0].0 == j
                && s.recon.reply == Some(Some("failed")) && row.sendCycle == s.db.jobs[j].sendCycle + 1)
  {
    if a.ApplyResult? && s.worker.Busy? && s.worker.phase.Responded? {
      SendShape(cfg, s.db.jobs[j], s.worker.phase.result, s.now, a.draw);
    }
  }

  lemma CycleRefused(cfg: Settings, s: State, a: Action, j: nat, c: nat)
    requires Enabled(cfg, s, a) && KeysOk(s) && CyclesOk(s) && OwnersOk(s) && ReconOk(s)
    requires j < |s.db.jobs| && j < |Step(cfg, s, a).db.jobs| && c < Step(cfg, s, a).db.jobs[j].sendCycle
    requires RowStep(cfg, s, a, j, Step(cfg, s, a).db.jobs[j]) && Grows(s, Step(cfg, s, a))
    ensures Refused(Step(cfg, s, a), j, c)
  {
    RowCycle(cfg, s, a, j, Step(cfg, s, a).db.jobs[j]);
    if c == s.db.jobs[j].sendCycle {
      assert Awaits(s.db.jobs, s.recon.queue[0]);
      assert MadeFor(s, s.recon.queue[0].1, j, c);
    } else {
      assert Refused(s, j, c);
    }
    RefusedStays(s, Step(cfg, s, a), j, c);
  }

  lemma MadeForStays(s: State, s': State, d: string, j: nat, cycle: nat)
    requires Grows(s, s') && KeysOk(s) && MadeFor(s, d, j, cycle)
    ensures MadeFor(s', d, j, cycle)
  {
  }

  /** The stored dm_id after one action is still the DM of the row's job and cycle. */
  lemma OwnerStays(cfg: Settings, s: State, a: Action, j: nat)
    requires Enabled(cfg, s, a) && KeysOk(s) && OwnersOk(s) && WorkerOk(s) && ReconOk(s) && RowsOk(cfg, s)
    requires j < |s.db.jobs| && j < |Step(cfg, s, a).db.jobs| && Step(cfg, s, a).db.jobs[j].dmId.Some?
    ensures var s' := Step(cfg, s, a);
            MadeFor(s', s'.db.jobs[j].dmId.value, j, s'.db.jobs[j].sendCycle)
  {
    hide Step;
    var s' := Step(cfg, s, a);
    var job, row := s.db.jobs[j], s'.db.jobs[j];
    StepRows(cfg, s, a);
    StepGrows(cfg, s, a);
    assert RowStep(cfg, s, a, j, row) && RowOk(cfg, job, s.now);
    if QuietChange(job, row) {
      MadeForStays(s, s', job.dmId.value, j, job.sendCycle);
    } else if a.ApplyResult? {
      SendShape(cfg, job, s.worker.phase.result, s.now, a.draw);
      MadeForStays(s, s', s.worker.phase.result.dmId.value, j, s.worker.cycle);
    } else {
      StatusShape(cfg, job, s.recon.reply.value, s.now, a.draw);
      MadeForStays(s, s', job.dmId.value, j, job.sendCycle);
    }
  }

  lemma DeliveredStays(cfg: Settings, s: State, a: Action, j: nat)
    requires Enabled(cfg, s, a) && KeysOk(s) && OwnersOk(s) && WorkerOk(s) && ReconOk(s)
    requires j < |s.db.jobs| && j < |Step(cfg, s, a).db.jobs|
    requires Step(cfg, s, a).db.jobs[j].status == Delivered && Step(cfg, s, a).db.jobs[j].dmId.Some?
    ensures var s' := Step(cfg, s, a);
            var d := s'.db.jobs[j].dmId.value; d in s'.provider.dms && s'.provider.dms[d].status == DmDelivered
  {
    hide Step, Enabled, AfterSend, AfterStatus, Key, IsDraw, KeysOk;
    var s' := Step(cfg, s, a);
    var job, row := s.db.jobs[j], s'.db.jobs[j];
    StepRows(cfg, s, a);
    StepGrows(cfg, s, a);
    assert RowStep(cfg, s, a, j, row);
    if a.ApplyResult? && !QuietChange(job, row) {
      SendShape(cfg, job, s.worker.phase.result, s.now, a.draw);
    } else if a.ApplyStatus? && !QuietChange(job, row) {
      StatusShape(cfg, job, s.recon.reply.value, s.now, a.draw);
      assert Awaits(s.db.jobs, s.recon.queue[0]);
    }
  }

  lemma TruthStays(s: State, s': State, d: string, status: Option<string>)
    requires Grows(s, s') && Truthful(s.provider, d, status)
    ensures Truthful(s'.provider, d, status)
  {
  }

  lemma StepKeepsOwners(cfg: Settings, s: State, a: Action)
    requires Enabled(cfg, s, a) && KeysOk(s) && OwnersOk(s) && WorkerOk(s) && ReconOk(s) && RowsOk(cfg, s)
    ensures OwnersOk(Step(cfg, s, a))
  {
    var s' := Step(cfg, s, a);
    StepRows(cfg, s, a);
    StepGrows(cfg, s, a);
    forall j | |s.db.jobs| <= j < |s'.db.jobs| ensures s'.db.jobs[j].dmId == None {
      assert NewRow(s, a, s'.db.jobs[j]);
    }
    forall j: nat | j < |s'.db.jobs| && s'.db.jobs[j].dmId.Some?
      ensures MadeFor(s', s'.db.jobs[j].dmId.value, j, s'.db.jobs[j].sendCycle)
    {
      OwnerStays(cfg, s, a, j);
    }
    forall j: nat | j < |s'.db.jobs| && s'.db.jobs[j].status == Delivered && s'.db.jobs[j].dmId.Some?
      ensures var d := s'.db.jobs[j].dmId.value; d in s'.provider.dms && s'.provider.dms[d].status == DmDelivered
    {
      DeliveredStays(cfg, s, a, j);
    }
    ResponseOwned(cfg, s, a);
    ReplyTrue(cfg, s, a);
  }

  /** The DM a key stands for was made for that job and cycle: keys do not collide. */
  lemma KeyOwner(s: State, d: string, j: nat, c: nat)
    requires KeysOk(s) && Key(j, c) in s.provider.byKey && s.provider.byKey[Key(j, c)] == d
    ensures MadeFor(s, d, j, c)
  {
    hide IdempotencyKey;
    var (j', c') := s.origin[d];
    KeyInjective(j' + 1, c', j + 1, c);
  }

  lemma ResponseOwned(cfg: Settings, s: State, a: Action)
    requires Enabled(cfg, s, a) && KeysOk(s) && OwnersOk(s) && Grows(s, Step(cfg, s, a))
    ensures var s' := Step(cfg, s, a);
            s'.worker.Busy? && s'.worker.phase.Responded? && IsAccept(Response(s'.worker.phase.result)) ==>
              MadeFor(s', s'.worker.phase.result.dmId.value, s'.worker.job, s'.worker.cycle)
  {
    var s' := Step(cfg, s, a);
    if s'.worker.Busy? && s'.worker.phase.Responded? && IsAccept(Response(s'.worker.phase.result)) {
      var d := s'.worker.phase.result.dmId.value;
      if a.Respond? {
        assert s'.origin == s.origin;
        KeyOwner(s, d, s.worker.job, s.worker.cycle);
      } else {
        assert s'.worker == s.worker;
        MadeForStays(s, s', d, s.worker.job, s.worker.cycle);
      }
    }
  }

  lemma ReplyTrue(cfg: Settings, s: State, a: Action)
    requires Enabled(cfg, s, a) && OwnersOk(s) && Grows(s, Step(cfg, s, a))
    ensures var s' := Step(cfg, s, a);
            s'.recon.Polling? && s'.recon.reply.Some? && s'.recon.queue != [] ==>
              Truthful(s'.provider, s'.recon.queue[0].1, s'.recon.reply.value)
  {
    var s' := Step(cfg, s, a);
    if s'.recon.Polling? && s'.recon.reply.Some? && s'.recon.queue != [] && !a.Poll? {
      assert s'.recon == s.recon;
      TruthStays(s, s', s.recon.queue[0].1, s.recon.reply.value);
    }
  }

  // ----- Grants and sends -----------------------------------------------

  lemma OthersLeaveWorker(cfg: Settings, s: State, a: Action)
    requires Enabled(cfg, s, a) && !OfWorker(a) && !a.Restart?
    ensures var s' := Step(cfg, s, a);
            && s'.worker == s.worker && s'.unheard == s.unheard
            && s'.limiter == s.limiter && s'.now >= s.now
  {
    hide AfterSend, AfterStatus, IsDraw, SendDm, ProcessEvent, Ingest, Violates, WriteBack;
  }

  lemma OnlySendLeaves(cfg: Settings, s: State, a: Action)
    requires Enabled(cfg, s, a)
    ensures var s' := Step(cfg, s, a);
            if a.Send? then
              && s.worker.Busy? && s.worker.phase.Granted?
              && s'.sends == s.sends + [Request(s.worker.job, s.worker.cycle, s.worker.phase.grant, s.now)]
              && s'.sent == s.sent + {(s.worker.job, s.worker.cycle)}
            else s'.sends == s.sends && s'.sent == s.sent
  {
    hide AfterSend, AfterStatus, IsDraw, SendDm, ProcessEvent, Ingest, Violates, WriteBack;
  }

  /** Every request used a grant of its own, made before it left, and a granted worker holds
      an unused one. */
  ghost predicate GrantsOk(s: State) {
    var g := s.limiter.grants;
    && (forall i :: 0 <= i < |s.sends| ==> s.sends[i].grant < |g| && g[s.sends[i].grant] <= s.sends[i].at)
    && (forall i, k :: 0 <= i < k < |s.sends| ==> s.sends[i].grant < s.sends[k].grant)
    && (s.worker.Busy? && s.worker.phase.Granted? ==>
          && s.worker.phase.grant < |g| && g[s.worker.phase.grant] <= s.now
          && forall i :: 0 <= i < |s.sends| ==> s.sends[i].grant < s.worker.phase.grant)
  }

  lemma StepKeepsGrants(cfg: Settings, s: State, a: Action)
    requires Enabled(cfg, s, a) && GrantsOk(s)
    ensures GrantsOk(Step(cfg, s, a))
  {
    hide Step, Enabled;
    var s' := Step(cfg, s, a);
    OnlySendLeaves(cfg, s, a);
    if a.Send? {
      GrantUsed(cfg, s);
    } else if OfWorker(a) || a.Restart? {
      WorkerGrants(cfg, s, a);
    } else {
      OthersLeaveWorker(cfg, s, a);
    }
  }

  /** After an action of its own the worker holds a grant only if it just acquired it. */
  lemma WorkerGrants(cfg: Settings, s: State, a: Action)
    requires Enabled(cfg, s, a) && (OfWorker(a) || a.Restart?) && !a.Send?
    ensures var s' := Step(cfg, s, a);
            && s'.now == s.now && s'.limiter.grants == s.limiter.grants + (if a.Acquire? then [s.now] else [])
            && (s'.worker.Busy? && s'.worker.phase.Granted? ==>
                  a.Acquire? && s'.worker.phase.grant == |s.limiter.grants|)
  {
    hide AfterSend, AfterStatus, IsDraw, Violates, WriteBack, IsNext, Claim, Release;
    hide RequeueStuck, RequeueStale, Seeded;
  }

  lemma GrantUsed(cfg: Settings, s: State)
    requires Enabled(cfg, s, Send) && GrantsOk(s)
    ensures GrantsOk(Step(cfg, s, Send))
  {
  }

  // ----- Requests and answers -------------------------------------------

  /** Requests that left for row j. */
  function RequestsFor(sends: seq<Request>, j: nat): nat {
    if sends == [] then 0 else RequestsFor(sends[..|sends| - 1], j) + One(sends[|sends| - 1].job == j)
  }

  function SentBy(sends: seq<Request>): set<(nat, nat)> {
    if sends == [] then {}
    else SentBy(sends[..|sends| - 1]) + {(sends[|sends| - 1].job, sends[|sends| - 1].cycle)}
  }

  /** Responses that were applied to row j. */
  function Answers(jobs: seq<Job>, j: nat): nat {
    if j < |jobs| then Counted(jobs[j].trace) + Uncounted(jobs[j].trace) else 0
  }

  /** Every request was answered and applied, or went unheard, or is the one in flight. */
  ghost predicate AccountsOk(s: State) {
    && s.sent == SentBy(s.sends)
    && forall j: nat {:trigger RequestsFor(s.sends, j)} ::
         RequestsFor(s.sends, j) == Answers(s.db.jobs, j) + s.unheard[j] + Unanswered(s.worker)[j]
  }

  lemma SendCounted(sends: seq<Request>, r: Request, j: nat)
    ensures RequestsFor(sends + [r], j) == RequestsFor(sends, j) + One(r.job == j)
    ensures SentBy(sends + [r]) == SentBy(sends) + {(r.job, r.cycle)}
  {
    assert (sends + [r])[..|sends|] == sends;
  }

  /** Only the response that is applied adds an answer, to the worker's job. */
  lemma AnswersStep(cfg: Settings, s: State, a: Action, j: nat)
    requires Enabled(cfg, s, a)
    ensures var s' := Step(cfg, s, a);
            Answers(s'.db.jobs, j)
            == Answers(s.db.jobs, j) + One(a.ApplyResult? && s'.worker.Idle? && j == s.worker.job)
  {
    hide AfterSend, AfterStatus, IsDraw, Counted, Uncounted;
    var s' := Step(cfg, s, a);
    StepRows(cfg, s, a);
    if a.ApplyResult? {
      ResponseAnswers(cfg, s, a.draw, j);
    } else if j < |s.db.jobs| {
      assert RowStep(cfg, s, a, j, s'.db.jobs[j]);
      if a.ApplyStatus? && !QuietChange(s.db.jobs[j], s'.db.jobs[j]) {
        StatusNoted(cfg, s.db.jobs[j], s.recon.reply.value, s.now, a.draw);
        AnswersAppend(s.db.jobs[j].trace, Verdict(s.recon.reply.value));
      }
    } else if j < |s'.db.jobs| {
      assert NewRow(s, a, s'.db.jobs[j]);
      NothingAnswered();
    }
  }

  lemma NothingAnswered()
    ensures Counted([]) + Uncounted([]) == 0
  {
  }

  lemma ResponseAnswers(cfg: Settings, s: State, draw: real, j: nat)
    requires Enabled(cfg, s, ApplyResult(draw))
    ensures var s' := Applied(cfg, s, draw);
            Answers(s'.db.jobs, j) == Answers(s.db.jobs, j) + One(s'.worker.Idle? && j == s.worker.job)
  {
    hide AfterSend, Counted, Uncounted;
    var job := s.db.jobs[s.worker.job];
    ResponseNoted(cfg, job, s.worker.phase.result, s.now, draw);
    AnswersAppend(job.trace, Response(s.worker.phase.result));
  }

  lemma ResponseNoted(cfg: Settings, job: Job, result: SendResult, now: real, draw: real)
    ensures AfterSend(cfg, job, result, now, draw).trace == job.trace + [Response(result)]
  {
  }

  lemma StatusNoted(cfg: Settings, job: Job, status: Option<string>, now: real, draw: real)
    ensures AfterStatus(cfg, job, status, now, draw).trace == job.trace + [Verdict(status)]
  {
  }

  lemma StepKeepsAccounts(cfg: Settings, s: State, a: Action)
    requires Enabled(cfg, s, a) && AccountsOk(s) && WorkerOk(s)
    ensures AccountsOk(Step(cfg, s, a))
  {
    hide Answers, AfterSend, AfterStatus, IsDraw, SendDm;
    var s' := Step(cfg, s, a);
    forall j: nat
      ensures RequestsFor(s'.sends, j) == Answers(s'.db.jobs, j) + s'.unheard[j] + Unanswered(s'.worker)[j]
    {
      AnswersStep(cfg, s, a, j);
      SendAdds(cfg, s, a, j);
    }
    SendAdds(cfg, s, a, 0);
  }

  /** What an action makes of the requests, the unheard ones and the one in flight. */
  lemma SendAdds(cfg: Settings, s: State, a: Action, j: nat)
    requires Enabled(cfg, s, a)
    ensures var s' := Step(cfg, s, a);
            && RequestsFor(s'.sends, j) == RequestsFor(s.sends, j) + One(a.Send? && s.worker.job == j)
            && (s.sent == SentBy(s.sends) ==> s'.sent == SentBy(s'.sends))
            && s'.unheard[j] + Unanswered(s'.worker)[j] + One(a.ApplyResult? && s'.worker.Idle? && j == s.worker.job)
               == s.unheard[j] + Unanswered(s.worker)[j] + One(a.Send? && s.worker.job == j)
  {
    hide Step, Enabled, RequestsFor, SentBy, Unanswered;
    OnlySendLeaves(cfg, s, a);
    HeardOrNot(cfg, s, a, j);
    if a.Send? {
      SendCounted(s.sends, Request(s.worker.job, s.worker.cycle, s.worker.phase.grant, s.now), j);
    }
  }

  /** Only the worker's own actions and a restart touch the request in flight. */
  lemma HeardOrNot(cfg: Settings, s: State, a: Action, j: nat)
    requires Enabled(cfg, s, a)
    ensures var s' := Step(cfg, s, a);
            s'.unheard[j] + Unanswered(s'.worker)[j] + One(a.ApplyResult? && s'.worker.Idle? && j == s.worker.job)
            == s.unheard[j] + Unanswered(s.worker)[j] + One(a.Send? && s.worker.job == j)
  {
    if OfWorker(a) || a.Restart? {
      WorkerHears(cfg, s, a, j);
    } else {
      hide Step;
      OthersLeaveWorker(cfg, s, a);
    }
  }

  lemma WorkerHears(cfg: Settings, s: State, a: Action, j: nat)
    requires Enabled(cfg, s, a) && (OfWorker(a) || a.Restart?)
    ensures var s' := Step(cfg, s, a);
            s'.unheard[j] + Unanswered(s'.worker)[j] + One(a.ApplyResult? && s'.worker.Idle? && j == s.worker.job)
            == s.unheard[j] + Unanswered(s.worker)[j] + One(a.Send? && s.worker.job == j)
  {
    hide AfterSend, AfterStatus, IsDraw, Violates, WriteBack, IsNext, Claim, Release;
    hide Limiter.Grant, Limiter.HasSlot, Limiter.WarmStart, RequeueStuck, RequeueStale, Seeded;
    hide Unanswered;
    UnansweredAt(s.worker, j);
    UnansweredAt(Step(cfg, s, a).worker, j);
  }

  lemma UnansweredAt(w: Worker, j: nat)
    ensures Unanswered(w)[j] == One(w.Busy? && (w.phase == Awaiting || w.phase.Responded?) && w.job == j)
  {
  }

  lemma StepKeepsLimiter(cfg: Settings, s: State, a: Action)
    requires cfg.Sensible() && Enabled(cfg, s, a) && Limiter.LimiterOk(cfg.maxCalls, cfg.window, s.limiter, s.now)
    ensures Limiter.LimiterOk(cfg.maxCalls, cfg.window, Step(cfg, s, a).limiter, Step(cfg, s, a).now)
  {
    match a
    case Tick(later) => Limiter.WaitKeepsOk(cfg.maxCalls, cfg.window, s.limiter, s.now, later);
    case Acquire => Limiter.GrantKeepsOk(cfg.maxCalls, cfg.window, s.limiter, s.now);
    case Restart => Limiter.WarmStartKeepsOk(cfg.maxCalls, cfg.window, s.limiter, s.now);
    case _ =>
  }

  // ----- Conservation ----------------------------------------------------

  ghost predicate CountersOk(cfg: Settings, s: State) {
    Conserved(s.db) && (!cfg.countRedeliveries ==> s.db.redelivered == 0)
  }

  lemma StepKeepsCounters(cfg: Settings, s: State, a: Action)
    requires Enabled(cfg, s, a) && CountersOk(cfg, s) && BatchOk(s)
    ensures CountersOk(cfg, Step(cfg, s, a))
  {
    if a.HandleEvent? {
      ProcessConserves(cfg, s.db, s.batch[0], s.now);
      HandledRows(cfg, s);
    } else if a.Webhook? {
      IngestConserves(cfg, s.db, a.payload);
    } else if a.TakeEvents? {
      ClaimConserves(s.db, a.ks);
    } else if a.EventFails? {
      RetryConserves(s.db, s.batch[0]);
    } else if a.Restart? {
      RecoveryConserves(s.db, RequeueStale(s.db.jobs, 0.0, s.now));
    } else {
      hide Step;
      CountsUntouched(cfg, s, a);
    }
  }

  lemma CountsUntouched(cfg: Settings, s: State, a: Action)
    requires Enabled(cfg, s, a)
    requires !a.HandleEvent? && !a.Webhook? && !a.TakeEvents? && !a.EventFails? && !a.Restart?
    ensures var db, db' := s.db, Step(cfg, s, a).db;
            db'.events == db.events && db'.counters == db.counters && db'.redelivered == db.redelivered
            && |db'.jobs| == |db.jobs|
  {
    hide AfterSend, AfterStatus, IsDraw, SendDm, Violates, Before;
  }

  lemma ClaimConserves(db: Db, ks: seq<nat>)
    requires Conserved(db) && forall a :: 0 <= a < |ks| ==> ks[a] < |db.events| && db.events[ks[a]].status == Received
    ensures Conserved(db.(events := ClaimEvents(db.events, ks)))
  {
    SumMatchedSame(db.events, ClaimEvents(db.events, ks));
  }

  lemma RecoveryConserves(db: Db, jobs: seq<Job>)
    requires Conserved(db) && |jobs| == |db.jobs|
    ensures Conserved(db.(events := RequeueStuck(db.events), jobs := jobs, counters := Seeded(db.counters)))
  {
    SumMatchedSame(db.events, RequeueStuck(db.events));
  }

  lemma RetryConserves(db: Db, k: nat)
    requires Conserved(db) && k < |db.events| && db.events[k].status == Processing
    ensures Conserved(RetryEvent(db, k))
  {
    SumMatchedUpdate(db.events, k, db.events[k].(status := Received));
  }

  // ----- Rules -----------------------------------------------------------

  /** No rule is stored twice. */
  lemma StepKeepsRules(cfg: Settings, s: State, a: Action)
    requires Enabled(cfg, s, a) && NoRepeats(s.db.rules)
    ensures NoRepeats(Step(cfg, s, a).db.rules)
  {
    if a.HandleEvent? {
      ProcessKeepsEvents(cfg, s.db, s.batch[0], s.now);
    }
  }

  // ----- All of it -------------------------------------------------------

  ghost predicate Inv(cfg: Settings, s: State) {
    && UniqueSlots(s.db.jobs)
    && RowsOk(cfg, s)
    && WorkerOk(s) && ReconOk(s) && BatchOk(s)
    && KeysOk(s) && CyclesOk(s) && OwnersOk(s)
    && GrantsOk(s) && AccountsOk(s)
    && NoRepeats(s.db.rules)
    && Limiter.LimiterOk(cfg.maxCalls, cfg.window, s.limiter, s.now)
    && CountersOk(cfg, s)
  }

  lemma InitInv(cfg: Settings)
    requires cfg.Sensible()
    ensures Inv(cfg, INIT)
  {
    hide AccountsOk, KeysOk, CyclesOk, OwnersOk, GrantsOk;
    InitHistory();
  }

  lemma InitHistory()
    ensures AccountsOk(INIT) && KeysOk(INIT) && CyclesOk(INIT) && OwnersOk(INIT) && GrantsOk(INIT)
  {
  }

  lemma DoKeepsInv(cfg: Settings, s: State, a: Action)
    requires cfg.Sensible() && Inv(cfg, s)
    ensures Inv(cfg, Do(cfg, s, a))
  {
    if Enabled(cfg, s, a) {
      StepKeepsUnique(cfg, s, a);
      StepKeepsRows(cfg, s, a);
      StepKeepsWorker(cfg, s, a);
      StepKeepsRecon(cfg, s, a);
      StepKeepsBatch(cfg, s, a);
      StepKeepsKeys(cfg, s, a);
      StepKeepsCycles(cfg, s, a);
      StepKeepsOwners(cfg, s, a);
      StepKeepsGrants(cfg, s, a);
      StepKeepsAccounts(cfg, s, a);
      StepKeepsRules(cfg, s, a);
      StepKeepsLimiter(cfg, s, a);
      StepKeepsCounters(cfg, s, a);
    }
  }

  lemma {:induction false} RunKeepsInv(cfg: Settings, s: State, run: seq<Action>)
    requires cfg.Sensible() && Inv(cfg, s)
    ensures Inv(cfg, Exec(cfg, s, run))
    decreases |run|
  {
    if run != [] {
      DoKeepsInv(cfg, s, run[0]);
      RunKeepsInv(cfg, Do(cfg, s, run[0]), run[1..]);
    }
  }

  /** The invariant holds after every run from the empty system. */
  lemma ReachableInv(cfg: Settings, run: seq<Action>)
    requires cfg.Sensible()
    ensures Inv(cfg, Exec(cfg, INIT, run))
  {
    InitInv(cfg);
    RunKeepsInv(cfg, INIT, run);
  }
}
