/** Runs that show where a safety statement needs its proviso, for arbitrary rules, users,
    comments and provider ids. */
module Witnesses {
  import opened Models
  import opened Backoff
  import opened JobLifecycle
  import opened JobTable
  import opened EventProcessing
  import Limiter = RateLimiter
  import opened PseudoGram
  import opened Pipeline
  import opened Invariants
  import opened Theorems
  import opened Deletion

  // ----- A webhook, taken and handled at once ---------------------------

  /** Nothing waits for the event worker, and there is one rule. */
  ghost predicate Settled(s: State, rule: string) {
    && s.batch == [] && s.db.rules == [rule]
    && forall k :: 0 <= k < |s.db.events| ==> s.db.events[k].status in {Processed, Ignored}
  }

  function Row(p: Payload, status: EventStatus, matched: nat): Event {
    Event(p.eventId, p.eventType, p.commentId, p.userId, p.text, status, matched)
  }

  function Delivery(s: State, p: Payload): seq<Action> {
    [Webhook(p), TakeEvents([|s.db.events|], 1), HandleEvent]
  }

  lemma Delivered(cfg: Settings, s: State, rule: string, p: Payload) returns (taken: State)
    requires Settled(s, rule) && !Known(s.db, p.eventId)
    ensures taken == s.(batch := [|s.db.events|],
                        db := s.db.(events := s.db.events + [Row(p, Processing, 0)],
                                    counters := Increment(s.db.counters, EventsReceived, 1)))
    ensures Exec(cfg, s, Delivery(s, p)) == Handled(cfg, taken)
  {
    hide UniqueSlots, Violates, AfterSend, AfterStatus, IsDraw, SendDm, IsNext, IsBatch, ProcessEvent;
    var n := |s.db.events|;
    var posted := Do(cfg, s, Webhook(p));
    var batch := [n];
    assert posted.db.events[n].status == Received;
    assert IsEventBatch(posted.db, 1, batch);
    taken := Do(cfg, posted, TakeEvents(batch, 1));
    assert taken.db.events == s.db.events + [Row(p, Processing, 0)];
    ExecThree(cfg, s, Webhook(p), TakeEvents(batch, 1), HandleEvent);
  }

  lemma CommentCreatesJob(cfg: Settings, s: State, rule: string, p: Payload)
    requires Settled(s, rule) && !Known(s.db, p.eventId) && p.eventType == COMMENT_CREATED
    requires Present(p.userId) && Present(p.commentId) && Present(p.text) && cfg.matches(rule, p.text.value)
    requires p.commentId.value !in s.db.deleted && !SlotTaken(s.db.jobs, rule, p.userId.value)
    ensures var s' := Exec(cfg, s, Delivery(s, p));
            && Settled(s', rule) && s' == s.(db := s'.db)
            && s'.db.jobs == s.db.jobs + [NewJob(rule, p.userId.value, p.commentId, s.now)]
            && s'.db.deleted == s.db.deleted
            && s'.db.events == s.db.events + [Row(p, Processed, 1)]
  {
    var taken := Delivered(cfg, s, rule, p);
    var n := |s.db.events|;
    assert Matching(cfg, [rule], p.text.value) == [rule];
    var marked := SetEvent(taken.db, n, Processed, 1);
    assert marked.events == s.db.events + [Row(p, Processed, 1)];
    assert CreateAll(marked, [rule], p.userId.value, p.commentId, s.now)
        == CreateJob(marked, rule, p.userId.value, p.commentId, s.now);
    assert taken.db.events[n] == Row(p, Processing, 0);
  }

  lemma DeletionCancels(cfg: Settings, s: State, rule: string, p: Payload)
    requires Settled(s, rule) && !Known(s.db, p.eventId) && p.eventType == COMMENT_DELETED && Present(p.commentId)
    ensures var s' := Exec(cfg, s, Delivery(s, p));
            && Settled(s', rule) && s' == s.(db := s'.db)
            && s'.db.jobs == CancelFor(s.db.jobs, p.commentId.value, s.now)
            && s'.db.deleted == s.db.deleted + {p.commentId.value}
            && s'.db.events == s.db.events + [Row(p, Processed, 0)]
  {
    var taken := Delivered(cfg, s, rule, p);
    var n := |s.db.events|;
    assert taken.db.events[n] == Row(p, Processing, 0);
    assert SetEvent(taken.db, n, Processed, 0).events == s.db.events + [Row(p, Processed, 0)];
  }

  // ----- A send whose request lands and whose response is lost ----------

  const LOST := SendResult(OutTransportError, None, None)

  lemma ClaimedAndGranted(cfg: Settings, s: State, j: nat) returns (run: seq<Action>, granted: State, later: real)
    requires cfg.Sensible() && s.worker == Idle && IsNext(s.db.jobs, s.now, j)
    ensures Exec(cfg, s, run) == granted && later >= s.now
    ensures Limiter.After(s.provider.sendTimes, later - WINDOW_SECONDS) == []
    ensures granted == WithJobs(s, Claim(s.db.jobs, j, s.now)).(
                         now := later, limiter := granted.limiter,
                         worker := Busy(j, s.db.jobs[j].sendCycle, s.now, Granted(|s.limiter.grants|)))
  {
    var h := LateEnough(s.limiter.stamps, s.now);
    var h' := LateEnough(s.provider.sendTimes, h);
    later := h' + cfg.window + WINDOW_SECONDS;
    run := [ClaimJob(j), Tick(later), Acquire];
    var claimed := Do(cfg, s, ClaimJob(j));
    var ticked := Do(cfg, claimed, Tick(later));
    assert Limiter.HasSlot(cfg.maxCalls, cfg.window, ticked.limiter, later);
    granted := Do(cfg, ticked, Acquire);
    ExecThree(cfg, s, ClaimJob(j), Tick(later), Acquire);
  }

  lemma SentAndLanded(cfg: Settings, s: State, d: string, result: SendResult) returns (run: seq<Action>, s': State)
    requires IsAccept(Response(result)) ==> result.dmId == Some(d)
    requires s.worker.Busy? && s.worker.phase.Granted? && s.worker.job < |s.db.jobs|
    requires s.db.jobs[s.worker.job].userId != "" && d !in s.provider.dms && d != ""
    requires Key(s.worker.job, s.worker.cycle) !in s.provider.byKey
    requires Limiter.After(s.provider.sendTimes, s.now - WINDOW_SECONDS) == []
    ensures Exec(cfg, s, run) == s'
    ensures s' == s.(worker := s.worker.(phase := Responded(result)), provider := s'.provider,
                     origin := s.origin[d := (s.worker.job, s.worker.cycle)],
                     sent := s'.sent, sends := s'.sends)
    ensures (s.worker.job, s.worker.cycle) in s'.sent
    ensures d in s'.provider.dms && s'.provider.dms[d].status == DmQueued
    ensures s'.provider.dms == s.provider.dms[d := s'.provider.dms[d]]
    ensures s'.provider.byKey == s.provider.byKey[Key(s.worker.job, s.worker.cycle) := d]
  {
    var j, c := s.worker.job, s.worker.cycle;
    var land := Land(j, c, Draws(false, d, false));
    run := [Send, land, Respond(result)];
    var sent := Do(cfg, s, Send);
    assert (j, c) in sent.sent;
    var landed := Do(cfg, sent, land);
    assert d in landed.provider.dms && d !in sent.provider.dms;
    s' := Do(cfg, landed, Respond(result));
    ExecThree(cfg, s, Send, land, Respond(result));
  }

  /** An exception after the request landed: its result is never applied, the job queues again. */
  lemma ResultDropped(cfg: Settings, s: State) returns (s': State)
    requires s.worker.Busy? && s.worker.phase.Responded? && s.worker.job < |s.db.jobs|
    requires s.db.jobs[s.worker.job].status == Sending
    ensures s' == Exec(cfg, s, [Raise, ReleaseJob])
    ensures s' == s.(worker := Idle, unheard := s'.unheard,
                     db := s.db.(jobs := s.db.jobs[s.worker.job := s'.db.jobs[s.worker.job]]))
    ensures |s'.db.jobs| == |s.db.jobs| && s'.db.jobs[s.worker.job].status == Queued
    ensures SameOrigin(s.db.jobs[s.worker.job], s'.db.jobs[s.worker.job])
  {
    s' := Do(cfg, Do(cfg, s, Raise), ReleaseJob);
    assert [Raise, ReleaseJob][1..] == [ReleaseJob];
    ExecOne(cfg, Do(cfg, s, Raise), ReleaseJob);
  }

  /** What a dropped result leaves behind: the job in `queued` and a DM under its key. */
  ghost predicate LostSend(s: State, s': State, j: nat, d: string)
    requires j < |s.db.jobs|
  {
    && s'.worker == Idle && s'.batch == s.batch && s'.db == s.db.(jobs := s'.db.jobs)
    && |s'.db.jobs| == |s.db.jobs|
    && (forall i :: 0 <= i < |s.db.jobs| && i != j ==> s'.db.jobs[i] == s.db.jobs[i])
    && s'.db.jobs[j].status == Queued && SameOrigin(s.db.jobs[j], s'.db.jobs[j])
    && d in s'.provider.dms && s'.provider.dms[d].status == DmQueued
    && s'.provider.dms == s.provider.dms[d := s'.provider.dms[d]]
    && s'.provider.byKey == s.provider.byKey[Key(j, 0) := d]
    && s'.origin == s.origin[d := (j, 0)]
  }

  lemma LostSendLands(cfg: Settings, s: State, j: nat, d: string) returns (run: seq<Action>)
    requires cfg.Sensible() && s.worker == Idle && IsNext(s.db.jobs, s.now, j)
    requires s.db.jobs[j].status == Queued && s.db.jobs[j].userId != ""
    requires s.db.jobs[j].sendCycle == 0
    requires Key(j, 0) !in s.provider.byKey && d !in s.provider.dms && d != ""
    ensures LostSend(s, Exec(cfg, s, run), j, d)
  {
    var claim, granted, later := ClaimedAndGranted(cfg, s, j);
    var send, landed := SentAndLanded(cfg, granted, d, LOST);
    var end := ResultDropped(cfg, landed);
    ExecConcat(cfg, s, claim, send);
    ExecConcat(cfg, s, claim + send, [Raise, ReleaseJob]);
    run := claim + send + [Raise, ReleaseJob];
  }

  // ----- Two live DMs for one pair --------------------------------------

  /** The only job is queued, so it is next. */
  lemma OnlyRunnable(jobs: seq<Job>, now: real, j: nat)
    requires j < |jobs| && jobs[j].status == Queued
    requires forall i :: 0 <= i < |jobs| && i != j ==> jobs[i].status == Cancelled
    ensures IsNext(jobs, now, j)
  {
  }

  /** From the empty system to one queued job. */
  lemma FirstJob(cfg: Settings, rule: string, p: Payload) returns (run: seq<Action>, s: State)
    requires p.eventType == COMMENT_CREATED
    requires Present(p.userId) && Present(p.commentId) && Present(p.text) && cfg.matches(rule, p.text.value)
    ensures s == Exec(cfg, INIT, run) && s == INIT.(db := s.db) && Settled(s, rule)
    ensures s.db.events == [Row(p, Processed, 1)] && s.db.jobs == [NewJob(rule, p.userId.value, p.commentId, s.now)]
    ensures s.db.deleted == {}
  {
    var s0 := Do(cfg, INIT, AddRule(rule));
    ExecOne(cfg, INIT, AddRule(rule));
    CommentCreatesJob(cfg, s0, rule, p);
    s := Exec(cfg, s0, Delivery(s0, p));
    assert s.db.jobs == [NewJob(rule, p.userId.value, p.commentId, s0.now)];
    ExecConcat(cfg, INIT, [AddRule(rule)], Delivery(s0, p));
    run := [AddRule(rule)] + Delivery(s0, p);
  }

  /** Up to the lost send of the first comment's job, from the empty system. */
  lemma FirstSendLost(cfg: Settings, rule: string, p: Payload, d: string) returns (run: seq<Action>)
    requires cfg.Sensible() && d != "" && p.eventType == COMMENT_CREATED
    requires Present(p.userId) && Present(p.commentId) && Present(p.text) && cfg.matches(rule, p.text.value)
    ensures var s := Exec(cfg, INIT, run);
            && Settled(s, rule) && s.worker == Idle && s.db.deleted == {} && s.db.events == [Row(p, Processed, 1)]
            && |s.db.jobs| == 1 && s.db.jobs[0].status == Queued && IsFor(s.db.jobs[0], rule, p.userId.value)
            && s.db.jobs[0].commentId == p.commentId
            && s.provider.dms.Keys == {d} && s.provider.dms[d].status == DmQueued
            && s.provider.byKey == map[Key(0, 0) := d] && s.origin == map[d := (0, 0)]
  {
    var start, s := FirstJob(cfg, rule, p);
    OnlyRunnable(s.db.jobs, s.now, 0);
    var lost := LostSendLands(cfg, s, 0, d);
    ExecConcat(cfg, INIT, start, lost);
    run := start + lost;
    assert Exec(cfg, s, lost).provider.dms.Keys == {d};
  }

  lemma StillUnknown(db: Db, db': Db, e: Event, eventId: string)
    requires db'.events == db.events + [e] && !Known(db, eventId) && e.eventId != eventId
    ensures !Known(db', eventId)
  {
  }

  lemma OnlyJobCancelled(jobs: seq<Job>, comment: string, now: real, rule: string, user: string)
    requires |jobs| == 1 && Cancellable(jobs[0], comment)
    ensures var jobs' := CancelFor(jobs, comment, now);
            jobs'[0].status == Cancelled && SameOrigin(jobs[0], jobs'[0]) && !SlotTaken(jobs', rule, user)
  {
  }

  /** The deletion of the first comment and the arrival of a second one. */
  lemma SlotFreedAndRetaken(cfg: Settings, s: State, rule: string, deletion: Payload, second: Payload)
    returns (run: seq<Action>, s': State)
    requires Settled(s, rule) && |s.db.jobs| == 1 && s.db.jobs[0].status == Queued && s.db.deleted == {}
    requires deletion.eventType == COMMENT_DELETED && second.eventType == COMMENT_CREATED
    requires Present(deletion.commentId) && s.db.jobs[0].commentId == deletion.commentId
    requires Present(second.userId) && IsFor(s.db.jobs[0], rule, second.userId.value)
    requires Present(second.commentId) && second.commentId != deletion.commentId
    requires Present(second.text) && cfg.matches(rule, second.text.value)
    requires !Known(s.db, deletion.eventId) && !Known(s.db, second.eventId) && deletion.eventId != second.eventId
    ensures s' == Exec(cfg, s, run) && s' == s.(db := s'.db)
    ensures |s'.db.jobs| == 2 && s'.db.jobs[1] == NewJob(rule, second.userId.value, second.commentId, s.now)
    ensures s'.db.jobs[0].status == Cancelled && SameOrigin(s.db.jobs[0], s'.db.jobs[0])
  {
    DeletionCancels(cfg, s, rule, deletion);
    var mid := Exec(cfg, s, Delivery(s, deletion));
    OnlyJobCancelled(s.db.jobs, deletion.commentId.value, s.now, rule, second.userId.value);
    StillUnknown(s.db, mid.db, Row(deletion, Processed, 0), second.eventId);
    CommentCreatesJob(cfg, mid, rule, second);
    s' := Exec(cfg, mid, Delivery(mid, second));
    assert s'.db.jobs[0] == mid.db.jobs[0];
    ExecConcat(cfg, s, Delivery(s, deletion), Delivery(mid, second));
    run := Delivery(s, deletion) + Delivery(mid, second);
  }

  /** The proviso of `NeverTwoLiveDmsPerPair` is needed: a job is cancelled after its request
      landed and the result was dropped, the slot is free again, and the next comment of the
      same user makes a second DM for the same rule. */
  lemma TwoLiveDmsForOnePair(cfg: Settings, rule: string, first: Payload, deletion: Payload, second: Payload,
                             d: string, e: string)
    returns (run: seq<Action>)
    requires cfg.Sensible() && d != "" && e != "" && d != e
    requires first.eventType == second.eventType == COMMENT_CREATED && deletion.eventType == COMMENT_DELETED
    requires Present(first.userId) && first.userId == second.userId
    requires Present(first.commentId) && Present(second.commentId) && first.commentId != second.commentId
    requires deletion.commentId == first.commentId
    requires Present(first.text) && cfg.matches(rule, first.text.value)
    requires Present(second.text) && cfg.matches(rule, second.text.value)
    requires first.eventId != second.eventId && first.eventId != deletion.eventId && second.eventId != deletion.eventId
    ensures var s := Exec(cfg, INIT, run);
            PairDm(s, d, rule, first.userId.value) && PairDm(s, e, rule, first.userId.value)
  {
    var lost := FirstSendLost(cfg, rule, first, d);
    var s1 := Exec(cfg, INIT, lost);
    var retake, s2 := SlotFreedAndRetaken(cfg, s1, rule, deletion, second);
    OnlyRunnable(s2.db.jobs, s2.now, 1);
    OtherKey();
    var again := LostSendLands(cfg, s2, 1, e);
    var s3 := Exec(cfg, s2, again);
    BothLive(s1, s2, s3, rule, first.userId.value, d, e);
    ExecConcat(cfg, INIT, lost, retake);
    ExecConcat(cfg, INIT, lost + retake, again);
    run := lost + retake + again;
  }

  lemma BothLive(s1: State, s2: State, s3: State, rule: string, user: string, d: string, e: string)
    requires |s2.db.jobs| == 2 && LostSend(s2, s3, 1, e) && d != e
    requires s2.provider == s1.provider && s2.origin == s1.origin
    requires d in s1.provider.dms && s1.provider.dms[d].status == DmQueued && s1.origin == map[d := (0, 0)]
    requires IsFor(s2.db.jobs[0], rule, user) && IsFor(s2.db.jobs[1], rule, user)
    ensures PairDm(s3, d, rule, user) && PairDm(s3, e, rule, user)
  {
    assert s3.db.jobs[0] == s2.db.jobs[0] && SameOrigin(s2.db.jobs[1], s3.db.jobs[1]);
    assert LiveDm(s3, d, 0) && LiveDm(s3, e, 1);
    assert IsFor(s3.db.jobs[0], rule, user) && IsFor(s3.db.jobs[1], rule, user);
  }

  lemma OtherKey()
    ensures Key(1, 0) != Key(0, 0)
  {
    if Key(1, 0) == Key(0, 0) {
      KeyInjective(2, 0, 1, 0);
    }
  }

  // ----- A cancelled job that comes back --------------------------------

  /** Longer than the stale limit after its claim, the job in flight is put back to queued. */
  lemma TakenBack(cfg: Settings, s: State) returns (run: seq<Action>, s': State)
    requires cfg.Sensible() && |s.db.jobs| == 1 && s.db.jobs[0].status == Sending && s.db.jobs[0].updatedAt <= s.now
    ensures s' == Exec(cfg, s, run) && s' == s.(now := s'.now, db := s.db.(jobs := s'.db.jobs))
    ensures |s'.db.jobs| == 1 && s'.db.jobs[0] == s.db.jobs[0].(status := Queued, updatedAt := s'.now)
  {
    var tick := Tick(s.now + cfg.staleSeconds + 1.0);
    var ticked := Do(cfg, s, tick);
    s' := Do(cfg, ticked, Requeue);
    ExecOne(cfg, s, tick);
    ExecOne(cfg, ticked, Requeue);
    ExecConcat(cfg, s, [tick], [Requeue]);
    run := [tick] + [Requeue];
  }

  /** Accepted is applied to the only job, whatever its status. */
  lemma AcceptanceApplied(cfg: Settings, s: State, d: string) returns (run: seq<Action>, s': State)
    requires s.worker.Busy? && s.worker.phase.Granted? && s.worker.job == 0 && |s.db.jobs| == 1 && d != ""
    requires Key(0, s.worker.cycle) !in s.provider.byKey && s.provider.dms == map[] && s.provider.sendTimes == []
    requires s.db.jobs[0].userId != "" && cfg.Sensible()
    ensures s' == Exec(cfg, s, run) && |s'.db.jobs| == 1 && s'.db.jobs[0].status == Accepted
    ensures (0, s.worker.cycle) in s'.sent
  {
    hide SendDm, IsNext, IsBatch, IsEventBatch, ProcessEvent, Ingest, Truthful, Key, IsDraw;
    var answer, answered := SentAndLanded(cfg, s, d, SendResult(OutAccepted, Some(d), None));
    NoJitter(cfg, s.db.jobs[0].transientFailures + 1);
    s' := Do(cfg, answered, ApplyResult(0.0));
    ExecOne(cfg, answered, ApplyResult(0.0));
    ExecConcat(cfg, s, answer, [ApplyResult(0.0)]);
    run := answer + [ApplyResult(0.0)];
  }

  /** Without the timing assumption of `CancelledIsFinal`: a job requeued while its worker
      still waits for a slot and then cancelled is sent all the same, and ends up accepted. */
  lemma CancelledJobRevived(cfg: Settings, rule: string, first: Payload, deletion: Payload, d: string)
    returns (run: seq<Action>, more: seq<Action>)
    requires cfg.Sensible() && d != ""
    requires first.eventType == COMMENT_CREATED && deletion.eventType == COMMENT_DELETED
    requires first.eventId != deletion.eventId
    requires Present(first.userId) && Present(first.commentId) && deletion.commentId == first.commentId
    requires Present(first.text) && cfg.matches(rule, first.text.value)
    ensures var s, s' := Exec(cfg, INIT, run), Exec(cfg, INIT, run + more);
            && |s.db.jobs| == |s'.db.jobs| == 1
            && s.db.jobs[0].status == Cancelled && (0, 0) !in s.sent
            && s'.db.jobs[0].status == Accepted && (0, 0) in s'.sent
  {
    var start, s0 := FirstJob(cfg, rule, first);
    OnlyRunnable(s0.db.jobs, s0.now, 0);
    var claim, s1, later := ClaimedAndGranted(cfg, s0, 0);
    var requeue, s2 := TakenBack(cfg, s1);
    DeletionCancels(cfg, s2, rule, deletion);
    var s3 := Exec(cfg, s2, Delivery(s2, deletion));
    var s4;
    more, s4 := AcceptanceApplied(cfg, s3, d);
    ExecConcat(cfg, INIT, start, claim);
    ExecConcat(cfg, INIT, start + claim, requeue);
    ExecConcat(cfg, INIT, start + claim + requeue, Delivery(s2, deletion));
    run := start + claim + requeue + Delivery(s2, deletion);
    ExecConcat(cfg, INIT, run, more);
  }

  // ----- Sends that no budget counts ------------------------------------

  const LOCKED_OUT := SendResult(OutAuthError, None, None)

  /** One job, waiting to be sent, and an idle worker. */
  ghost predicate Alone(s: State) {
    && s.worker == Idle && |s.db.jobs| == 1 && s.db.jobs[0].status in {Queued, RetryWait}
    && (s.db.jobs[0].status == RetryWait ==> s.db.jobs[0].nextRetryAt.Some?)
  }

  /** The granted request leaves and is answered 401. */
  lemma LockedOut(cfg: Settings, s: State) returns (run: seq<Action>, s': State)
    requires s.worker.Busy? && s.worker.phase.Granted? && s.worker.job == 0 && |s.db.jobs| == 1 && cfg.Sensible()
    ensures s' == Exec(cfg, s, run) && Alone(s')
    ensures RequestsFor(s'.sends, 0) == RequestsFor(s.sends, 0) + 1
    ensures s'.db.jobs[0].attempts == s.db.jobs[0].attempts
  {
    hide SendDm, IsNext, IsBatch, IsEventBatch, ProcessEvent, Ingest, Truthful, Key, RequestsFor;
    NoJitter(cfg, s.db.jobs[0].transientFailures + 1);
    SendCounted(s.sends, Request(0, s.worker.cycle, s.worker.phase.grant, s.now), 0);
    s' := Do(cfg, Do(cfg, Do(cfg, s, Send), Respond(LOCKED_OUT)), ApplyResult(0.0));
    ExecThree(cfg, s, Send, Respond(LOCKED_OUT), ApplyResult(0.0));
    run := [Send, Respond(LOCKED_OUT), ApplyResult(0.0)];
  }

  lemma LockedOutRound(cfg: Settings, s: State) returns (run: seq<Action>)
    requires cfg.Sensible() && Alone(s)
    ensures var s' := Exec(cfg, s, run);
            && Alone(s') && RequestsFor(s'.sends, 0) == RequestsFor(s.sends, 0) + 1
            && s'.db.jobs[0].attempts == s.db.jobs[0].attempts
  {
    var job := s.db.jobs[0];
    var due := if job.nextRetryAt.Some? && job.nextRetryAt.value > s.now then job.nextRetryAt.value else s.now;
    var ticked := Do(cfg, s, Tick(due));
    assert IsNext(ticked.db.jobs, due, 0);
    var claim, granted, later := ClaimedAndGranted(cfg, ticked, 0);
    var send, sent := LockedOut(cfg, granted);
    ExecOne(cfg, s, Tick(due));
    ExecConcat(cfg, s, [Tick(due)], claim);
    ExecConcat(cfg, s, [Tick(due)] + claim, send);
    run := [Tick(due)] + claim + send;
  }

  /** The documented bound holds for counted results, not for requests: with a rejected API
      key one job is sent any number of times while `attempts` stays 0. */
  lemma {:induction false} SendsUnbounded(cfg: Settings, rule: string, p: Payload, n: nat) returns (run: seq<Action>)
    requires cfg.Sensible() && p.eventType == COMMENT_CREATED
    requires Present(p.userId) && Present(p.commentId) && Present(p.text) && cfg.matches(rule, p.text.value)
    ensures var s := Exec(cfg, INIT, run);
            Alone(s) && RequestsFor(s.sends, 0) == n && s.db.jobs[0].attempts == 0
  {
    if n == 0 {
      var s;
      run, s := FirstJob(cfg, rule, p);
    } else {
      var before := SendsUnbounded(cfg, rule, p, n - 1);
      var round := LockedOutRound(cfg, Exec(cfg, INIT, before));
      ExecConcat(cfg, INIT, before, round);
      run := before + round;
    }
  }
}
