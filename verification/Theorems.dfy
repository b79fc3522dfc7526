/** Safety of the pipeline over whole runs: every statement is about the state after an
    arbitrary sequence of actions from the empty system. */
module Theorems {
  import opened Models
  import opened JobLifecycle
  import opened JobTable
  import opened EventProcessing
  import Limiter = RateLimiter
  import opened PseudoGram
  import opened Pipeline
  import opened Invariants

  // ----- One DM per job --------------------------------------------------

  lemma OneLiveDm(s: State, j: nat, d: string, e: string)
    requires KeysOk(s) && CyclesOk(s) && LiveDm(s, d, j) && LiveDm(s, e, j)
    ensures d == e && s.origin[d] == (j, s.db.jobs[j].sendCycle)
  {
    LiveIsCurrent(s, j, d);
    LiveIsCurrent(s, j, e);
  }

  lemma DmOfKey(s: State, d: string, j: nat, c: nat)
    requires KeysOk(s) && MadeFor(s, d, j, c)
    ensures (j, c) in s.sent && d in s.provider.dms
    ensures Key(j, c) in s.provider.byKey && s.provider.byKey[Key(j, c)] == d
  {
  }

  lemma LiveIsCurrent(s: State, j: nat, d: string)
    requires KeysOk(s) && CyclesOk(s) && LiveDm(s, d, j)
    ensures j < |s.db.jobs| && (j, s.db.jobs[j].sendCycle) in s.sent
    ensures MadeFor(s, d, j, s.db.jobs[j].sendCycle)
    ensures Key(j, s.db.jobs[j].sendCycle) in s.provider.byKey && s.provider.byKey[Key(j, s.db.jobs[j].sendCycle)] == d
  {
    var c := s.origin[d].1;
    DmOfKey(s, d, j, c);
    assert !Refused(s, j, c);
  }

  /** Over lost responses, crashes, requeues and late landings, each job has at most one
      provider DM that has not failed; a later cycle's key leaves only after the DM of every
      earlier cycle existed, failed, and was read as failed. */
  lemma NeverTwoLiveDmsPerJob(cfg: Settings, run: seq<Action>, j: nat)
    requires cfg.Sensible()
    ensures var s := Exec(cfg, INIT, run);
            && (forall d, e :: LiveDm(s, d, j) && LiveDm(s, e, j) ==> d == e)
            && (forall c: nat, k: nat :: (j, c) in s.sent && k < c ==>
                  Refused(s, j, k) && j < |s.db.jobs| && Bounces(s.db.jobs[j].trace) > k)
  {
    var s := Exec(cfg, INIT, run);
    ReachableInv(cfg, run);
    forall d, e | LiveDm(s, d, j) && LiveDm(s, e, j) ensures d == e {
      OneLiveDm(s, j, d, e);
    }
    forall c: nat, k: nat | (j, c) in s.sent && k < c
      ensures Refused(s, j, k) && j < |s.db.jobs| && Bounces(s.db.jobs[j].trace) > k
    {
      assert RowOk(cfg, s.db.jobs[j], s.now);
    }
  }

  // ----- One DM per (rule, user) ----------------------------------------

  predicate IsFor(job: Job, rule: string, user: string) {
    job.ruleId == rule && job.userId == user
  }

  /** A provider DM, not reported failed, made for some job of the pair. */
  ghost predicate PairDm(s: State, d: string, rule: string, user: string) {
    exists j: nat :: j < |s.db.jobs| && IsFor(s.db.jobs[j], rule, user) && LiveDm(s, d, j)
  }

  /** Job j was cancelled although a request of its current cycle had left. */
  ghost predicate Orphaned(s: State, j: nat)
    requires j < |s.db.jobs|
  {
    s.db.jobs[j].status == Cancelled && (j, s.db.jobs[j].sendCycle) in s.sent
  }

  /** Over any run a (rule, user) pair has at most one DM that has not failed, unless a job of
      the pair was cancelled although its request had left (`Witnesses` has a run). */
  lemma NeverTwoLiveDmsPerPair(cfg: Settings, run: seq<Action>, rule: string, user: string, d: string, e: string)
    requires cfg.Sensible()
    ensures var s := Exec(cfg, INIT, run);
            (forall j: nat :: j < |s.db.jobs| && IsFor(s.db.jobs[j], rule, user) ==> !Orphaned(s, j)) ==>
              (PairDm(s, d, rule, user) && PairDm(s, e, rule, user) ==> d == e)
  {
    var s := Exec(cfg, INIT, run);
    ReachableInv(cfg, run);
    if && (forall j: nat :: j < |s.db.jobs| && IsFor(s.db.jobs[j], rule, user) ==> !Orphaned(s, j))
       && PairDm(s, d, rule, user) && PairDm(s, e, rule, user)
    {
      OneLiveDmPerPair(s, rule, user, d, e);
    }
  }

  lemma OneLiveDmPerPair(s: State, rule: string, user: string, d: string, e: string)
    requires UniqueSlots(s.db.jobs) && KeysOk(s) && CyclesOk(s)
    requires PairDm(s, d, rule, user) && PairDm(s, e, rule, user)
    requires forall j: nat :: j < |s.db.jobs| && IsFor(s.db.jobs[j], rule, user) ==> !Orphaned(s, j)
    ensures d == e
  {
    var i: nat :| i < |s.db.jobs| && IsFor(s.db.jobs[i], rule, user) && LiveDm(s, d, i);
    var j: nat :| j < |s.db.jobs| && IsFor(s.db.jobs[j], rule, user) && LiveDm(s, e, j);
    LiveIsCurrent(s, i, d);
    LiveIsCurrent(s, j, e);
    SameJob(s.db.jobs, i, j);
  }

  lemma SameJob(jobs: seq<Job>, i: nat, j: nat)
    requires UniqueSlots(jobs) && i < |jobs| && j < |jobs|
    requires Live(jobs[i]) && Live(jobs[j]) && SameSlot(jobs[i], jobs[j])
    ensures i == j
  {
    assert SameSlot(jobs[j], jobs[i]);
  }

  /** At most one non-cancelled job per (rule, user), however a stale requeue, a deletion, a
      new comment and a late response interleave. */
  lemma OneLiveJobPerPair(cfg: Settings, run: seq<Action>, i: nat, j: nat)
    requires cfg.Sensible()
    ensures var jobs := Exec(cfg, INIT, run).db.jobs;
            i < |jobs| && j < |jobs| && jobs[i].status != Cancelled && jobs[j].status != Cancelled ==>
              (jobs[i].ruleId == jobs[j].ruleId && jobs[i].userId == jobs[j].userId ==> i == j)
  {
    ReachableInv(cfg, run);
    var jobs := Exec(cfg, INIT, run).db.jobs;
    if i < |jobs| && j < |jobs| && Live(jobs[i]) && Live(jobs[j]) && SameSlot(jobs[i], jobs[j]) {
      SameJob(jobs, i, j);
    }
  }

  // ----- Reconciliation --------------------------------------------------

  /** Whenever the reconciler applies a status, the job is still accepted with the very dm_id
      the status was read for, so the status check never discards a verdict, the write is
      never rolled back, and a job becomes delivered only if the provider delivered its DM. */
  lemma VerdictMeetsItsDm(cfg: Settings, run: seq<Action>, draw: real)
    requires cfg.Sensible()
    ensures var s := Exec(cfg, INIT, run);
            Enabled(cfg, s, ApplyStatus(draw)) ==>
              var (j, d) := s.recon.queue[0];
              && Awaits(s.db.jobs, (j, d)) && MadeFor(s, d, j, s.db.jobs[j].sendCycle)
              && Truthful(s.provider, d, s.recon.reply.value)
              && Step(cfg, s, ApplyStatus(draw)).db.jobs[j]
                 == AfterStatus(cfg, s.db.jobs[j], s.recon.reply.value, s.now, draw)
  {
    hide AccountsOk, GrantsOk, KeysOk, CyclesOk, RowsOk, CountersOk;
    var s := Exec(cfg, INIT, run);
    ReachableInv(cfg, run);
    if Enabled(cfg, s, ApplyStatus(draw)) {
      var (j, d) := s.recon.queue[0];
      assert Awaits(s.db.jobs, s.recon.queue[0]);
      StatusShape(cfg, s.db.jobs[j], s.recon.reply.value, s.now, draw);
      LiveRowWrites(s.db.jobs, j, AfterStatus(cfg, s.db.jobs[j], s.recon.reply.value, s.now, draw));
    }
  }

  /** The send response in flight is only ever applied to a job that is sending, requeued or
      cancelled; the write succeeds unless the job was cancelled and its slot taken again. */
  lemma ResponseMeetsOpenJob(cfg: Settings, run: seq<Action>, draw: real)
    requires cfg.Sensible()
    ensures var s := Exec(cfg, INIT, run);
            Enabled(cfg, s, ApplyResult(draw)) ==>
              var j := s.worker.job;
              var row := AfterSend(cfg, s.db.jobs[j], s.worker.phase.result, s.now, draw);
              && s.db.jobs[j].status in {Sending, Queued, Cancelled}
              && (Step(cfg, s, ApplyResult(draw)).db.jobs[j] == row
                  <==> (s.db.jobs[j].status == Cancelled ==>
                          !SlotTaken(s.db.jobs, s.db.jobs[j].ruleId, s.db.jobs[j].userId)))
  {
    hide AccountsOk, GrantsOk, KeysOk, CyclesOk, RowsOk, OwnersOk, CountersOk;
    var s := Exec(cfg, INIT, run);
    ReachableInv(cfg, run);
    if Enabled(cfg, s, ApplyResult(draw)) {
      var j := s.worker.job;
      var row := AfterSend(cfg, s.db.jobs[j], s.worker.phase.result, s.now, draw);
      SendShape(cfg, s.db.jobs[j], s.worker.phase.result, s.now, draw);
      if s.db.jobs[j].status == Cancelled {
        RevivedIffSlotFree(s.db.jobs, j, row);
      } else {
        LiveRowWrites(s.db.jobs, j, row);
      }
    }
  }

  // ----- Budgets ---------------------------------------------------------

  /** In every reachable state the stored budgets are what the job's trace says, a job has
      failed exactly when its trace used a budget up, and no trace is longer than both
      budgets allow. */
  lemma BudgetsFollowTrace(cfg: Settings, run: seq<Action>, j: nat)
    requires cfg.Sensible()
    ensures var jobs := Exec(cfg, INIT, run).db.jobs;
            j < |jobs| ==>
              && jobs[j].sendCycle == Bounces(jobs[j].trace)
              && jobs[j].transientFailures == TransientRun(jobs[j].trace)
              && jobs[j].attempts == Counted(jobs[j].trace) + Bounces(jobs[j].trace)
              && (jobs[j].status == Failed
                  <==> exists k :: 0 <= k <= |jobs[j].trace| && Exhausted(cfg, jobs[j].trace[..k]))
              && Counted(jobs[j].trace) <= cfg.maxDmAttempts * cfg.maxDeliveryAttempts
  {
    ReachableInv(cfg, run);
    var s := Exec(cfg, INIT, run);
    if j < |s.db.jobs| {
      assert RowOk(cfg, s.db.jobs[j], s.now);
      FailedIffBudgetHit(cfg, s.db.jobs[j]);
      SendsBounded(cfg, s.db.jobs[j]);
    }
  }

  /** In every reachable state every request for a job is accounted for: its response was
      applied and counted, was applied as 429, 401 or 403, never reached the row (an exception,
      a restart, a write the index refused), or is still awaited. So the documented bound on
      requests holds exactly up to the last three, and requests are counted results exactly
      when there is none of those. */
  lemma RequestsAccounted(cfg: Settings, run: seq<Action>, j: nat)
    requires cfg.Sensible()
    ensures var s := Exec(cfg, INIT, run);
            j < |s.db.jobs| ==>
              var t, free := s.db.jobs[j].trace, s.unheard[j] + Unanswered(s.worker)[j];
              && RequestsFor(s.sends, j) == Counted(t) + Uncounted(t) + free
              && RequestsFor(s.sends, j) <= cfg.maxDmAttempts * cfg.maxDeliveryAttempts + Uncounted(t) + free
              && (RequestsFor(s.sends, j) == Counted(t)
                  <==> Uncounted(t) == 0 && s.unheard[j] == 0 && Unanswered(s.worker)[j] == 0)
  {
    hide KeysOk, CyclesOk, GrantsOk, OwnersOk, CountersOk, Sound;
    var s := Exec(cfg, INIT, run);
    ReachableInv(cfg, run);
    if j < |s.db.jobs| {
      assert RowOk(cfg, s.db.jobs[j], s.now);
      SendsBounded(cfg, s.db.jobs[j]);
      assert RequestsFor(s.sends, j) == Answers(s.db.jobs, j) + s.unheard[j] + Unanswered(s.worker)[j];
    }
  }

  /** In every reachable state a job waits for a retry exactly as long after its last write
      as its trace says, and a job that was handed over or ended is not due at any time. */
  lemma RetriesOnSchedule(cfg: Settings, run: seq<Action>, j: nat)
    requires cfg.Sensible()
    ensures var jobs := Exec(cfg, INIT, run).db.jobs; j < |jobs| ==> OnSchedule(cfg, jobs[j])
  {
    ReachableInv(cfg, run);
    var s := Exec(cfg, INIT, run);
    if j < |s.db.jobs| {
      assert RowOk(cfg, s.db.jobs[j], s.now);
    }
  }

  // ----- Events ----------------------------------------------------------

  predicate HasOutcome(e: Event) {
    e.status in {Processed, Ignored}
  }

  ghost predicate IdsUnique(events: seq<Event>) {
    forall i, k :: 0 <= i < k < |events| ==> events[i].eventId != events[k].eventId
  }

  /** An action keeps every event's id and settled outcome, and adds at most a new id. */
  ghost predicate EventsStep(db: Db, db': Db) {
    && |db.events| <= |db'.events| <= |db.events| + 1
    && (forall k :: 0 <= k < |db.events| ==>
          && db'.events[k].eventId == db.events[k].eventId
          && (HasOutcome(db.events[k]) ==> db'.events[k] == db.events[k]))
    && (|db'.events| > |db.events| ==> !Known(db, db'.events[|db.events|].eventId))
  }

  lemma StepEvents(cfg: Settings, s: State, a: Action)
    requires Enabled(cfg, s, a) && BatchOk(s)
    ensures EventsStep(s.db, Step(cfg, s, a).db)
  {
    match a
    case HandleEvent => ProcessKeepsEvents(cfg, s.db, s.batch[0], s.now);
    case _ =>
  }

  lemma {:induction false} EventsKept(cfg: Settings, s: State, run: seq<Action>)
    requires cfg.Sensible() && Inv(cfg, s) && IdsUnique(s.db.events)
    ensures var s' := Exec(cfg, s, run);
            && IdsUnique(s'.db.events) && |s.db.events| <= |s'.db.events|
            && forall k :: 0 <= k < |s.db.events| && HasOutcome(s.db.events[k]) ==> s'.db.events[k] == s.db.events[k]
    decreases |run|
  {
    if run != [] {
      DoKeepsInv(cfg, s, run[0]);
      if Enabled(cfg, s, run[0]) {
        StepEvents(cfg, s, run[0]);
        StillUnique(s.db, Step(cfg, s, run[0]).db);
      }
      EventsKept(cfg, Do(cfg, s, run[0]), run[1..]);
    }
  }

  lemma StillUnique(db: Db, db': Db)
    requires IdsUnique(db.events) && EventsStep(db, db')
    ensures IdsUnique(db'.events)
  {
  }

  /** Exactly once over at-least-once delivery: an event id is stored in one row only, and
      an event once processed or ignored is never touched again, redelivered or not. */
  lemma EventsExactlyOnce(cfg: Settings, run: seq<Action>, more: seq<Action>)
    requires cfg.Sensible()
    ensures var events, events' := Exec(cfg, INIT, run).db.events, Exec(cfg, INIT, run + more).db.events;
            && IdsUnique(events) && |events| <= |events'|
            && forall k :: 0 <= k < |events| && HasOutcome(events[k]) ==> events'[k] == events[k]
  {
    hide Inv;
    ReachableInv(cfg, run);
    InitInv(cfg);
    EventsKept(cfg, INIT, run);
    EventsKept(cfg, Exec(cfg, INIT, run), more);
    ExecConcat(cfg, INIT, run, more);
  }

  /** Whenever a comment.created event is processed, `matched` is the number of stored rules
      whose keyword its text contains, each rule once: the terms `StatsAddUp` adds. */
  lemma MatchedIsExact(cfg: Settings, run: seq<Action>)
    requires cfg.Sensible()
    ensures var s := Exec(cfg, INIT, run);
            Enabled(cfg, s, HandleEvent) ==>
              var k, events' := s.batch[0], Step(cfg, s, HandleEvent).db.events;
              var e := s.db.events[k];
              k < |events'| && events'[k].status == Processed && e.eventType == COMMENT_CREATED ==>
                events'[k].matched
                == if Present(e.text) then |set r | r in s.db.rules && cfg.matches(r, e.text.value)| else 0
  {
    hide KeysOk, CyclesOk, GrantsOk, AccountsOk, OwnersOk, CountersOk, RowsOk;
    var s := Exec(cfg, INIT, run);
    ReachableInv(cfg, run);
    if Enabled(cfg, s, HandleEvent) {
      MatchedBy(cfg, s.db, s.batch[0], s.now);
      var text := s.db.events[s.batch[0]].text;
      if Present(text) {
        MatchesCounted(cfg, s.db.rules, text);
      }
    }
  }

  lemma MatchedBy(cfg: Settings, db: Db, k: nat, now: real)
    requires k < |db.events|
    ensures var db' := ProcessEvent(cfg, db, k, now);
            && |db'.events| == |db.events|
            && (db'.events[k].status == Processed && db.events[k].eventType == COMMENT_CREATED ==>
                  db'.events[k].matched == |FindMatching(cfg, db.rules, db.events[k].text)|)
  {
    var e := db.events[k];
    if Present(e.userId) {
      var rules := FindMatching(cfg, db.rules, e.text);
      CreateAllCreates(SetEvent(db, k, Processed, |rules|), rules, e.userId.value, e.commentId, now);
    }
  }

  lemma MatchesCounted(cfg: Settings, rules: seq<string>, text: Option<string>)
    requires NoRepeats(rules) && Present(text)
    ensures |FindMatching(cfg, rules, text)| == |set r | r in rules && cfg.matches(r, text.value)|
  {
    MatchesExactly(cfg, rules, text);
    var found := FindMatching(cfg, rules, text);
    Limiter.DistinctSize(found);
    assert Limiter.Elements(found) == set r | r in rules && cfg.matches(r, text.value);
  }

  // ----- Terminal states and statistics ---------------------------------

  lemma TerminalStays(cfg: Settings, s: State, a: Action, j: nat)
    requires Enabled(cfg, s, a) && WorkerOk(s) && j < |s.db.jobs| && s.db.jobs[j].status in {Delivered, Failed}
    ensures var s' := Step(cfg, s, a); j < |s'.db.jobs| && s'.db.jobs[j] == s.db.jobs[j]
  {
    StepRows(cfg, s, a);
    assert RowStep(cfg, s, a, j, Step(cfg, s, a).db.jobs[j]);
  }

  lemma {:induction false} TerminalForever(cfg: Settings, s: State, run: seq<Action>, j: nat)
    requires cfg.Sensible() && Inv(cfg, s) && j < |s.db.jobs| && s.db.jobs[j].status in {Delivered, Failed}
    ensures var s' := Exec(cfg, s, run); j < |s'.db.jobs| && s'.db.jobs[j] == s.db.jobs[j]
    decreases |run|
  {
    if run != [] {
      DoKeepsInv(cfg, s, run[0]);
      if Enabled(cfg, s, run[0]) {
        TerminalStays(cfg, s, run[0], j);
      }
      TerminalForever(cfg, Do(cfg, s, run[0]), run[1..], j);
    }
  }

  lemma {:induction false} JobsOnlyGrow(cfg: Settings, s: State, run: seq<Action>)
    ensures |s.db.jobs| <= |Exec(cfg, s, run).db.jobs|
    decreases |run|
  {
    if run != [] {
      if Enabled(cfg, s, run[0]) {
        StepRows(cfg, s, run[0]);
      }
      JobsOnlyGrow(cfg, Do(cfg, s, run[0]), run[1..]);
    }
  }

  /** Delivered and failed jobs never change again, so `sent` and `failed` never decrease,
      however a run goes on. */
  lemma StatsNeverDecrease(cfg: Settings, run: seq<Action>, more: seq<Action>)
    requires cfg.Sensible()
    ensures var jobs, jobs' := Exec(cfg, INIT, run).db.jobs, Exec(cfg, INIT, run + more).db.jobs;
            && CountStatus(jobs, Delivered) <= CountStatus(jobs', Delivered)
            && CountStatus(jobs, Failed) <= CountStatus(jobs', Failed)
            && forall j :: 0 <= j < |jobs| && jobs[j].status in {Delivered, Failed} ==>
                 j < |jobs'| && jobs'[j] == jobs[j]
  {
    var s := Exec(cfg, INIT, run);
    ReachableInv(cfg, run);
    ExecConcat(cfg, INIT, run, more);
    JobsOnlyGrow(cfg, s, more);
    var jobs' := Exec(cfg, s, more).db.jobs;
    forall j | 0 <= j < |s.db.jobs| && s.db.jobs[j].status in {Delivered, Failed} ensures jobs'[j] == s.db.jobs[j] {
      TerminalForever(cfg, s, more, j);
    }
    CountGrows(s.db.jobs, jobs', Delivered);
    CountGrows(s.db.jobs, jobs', Failed);
  }

  /** Exactly-once accounting across crashes, rollbacks and requeues: the reported numbers and
      the cancelled jobs add up to the rules matched by the processed comment.created events;
      with redeliveries counted, their matches come on top. */
  lemma StatsAddUp(cfg: Settings, run: seq<Action>)
    requires cfg.Sensible()
    ensures var db := Exec(cfg, INIT, run).db;
            && CountStatus(db.jobs, Delivered) + CountStatus(db.jobs, Failed) + JobTable.Pending(db.jobs)
               + CountStatus(db.jobs, Cancelled) + Get(db.counters, DuplicatesBlocked)
               == SumMatched(db.events) + (if cfg.countRedeliveries then Redeliveries(cfg, INIT, run) else 0)
  {
    hide Exec, Rematched, UniqueSlots, RowsOk, KeysOk, CyclesOk, OwnersOk, AccountsOk, GrantsOk;
    ReachableInv(cfg, run);
    InitInv(cfg);
    if cfg.countRedeliveries {
      RedeliveriesCounted(cfg, INIT, run);
    }
    StatsPartition(Exec(cfg, INIT, run).db.jobs);
  }

  /** The stored rules a webhook for a known comment.created event matches again. */
  ghost function Rematched(cfg: Settings, db: Db, p: Payload): nat {
    if && Known(db, p.eventId) && p.eventType == COMMENT_CREATED && Present(p.userId) && Present(p.text)
       && !CommentDeleted(db, p.commentId)
    then |set r | r in db.rules && cfg.matches(r, p.text.value)| else 0
  }

  /** What the redelivered webhooks of a run match, each at its time. */
  ghost function Redeliveries(cfg: Settings, s: State, run: seq<Action>): nat
    decreases |run|
  {
    if run == [] then 0
    else (if run[0].Webhook? then Rematched(cfg, s.db, run[0].payload) else 0)
         + Redeliveries(cfg, Do(cfg, s, run[0]), run[1..])
  }

  lemma {:induction false} RedeliveriesCounted(cfg: Settings, s: State, run: seq<Action>)
    requires cfg.Sensible() && Inv(cfg, s) && cfg.countRedeliveries
    ensures Exec(cfg, s, run).db.redelivered == s.db.redelivered + Redeliveries(cfg, s, run)
    decreases |run|
  {
    hide Inv, Rematched, Step, Enabled;
    if run != [] {
      DoKeepsInv(cfg, s, run[0]);
      RedeliveryStep(cfg, s, run[0]);
      RedeliveriesCounted(cfg, Do(cfg, s, run[0]), run[1..]);
    }
  }

  lemma RedeliveryStep(cfg: Settings, s: State, a: Action)
    requires Inv(cfg, s) && cfg.countRedeliveries
    ensures Do(cfg, s, a).db.redelivered
            == s.db.redelivered + (if a.Webhook? then Rematched(cfg, s.db, a.payload) else 0)
  {
    hide UniqueSlots, RowsOk, KeysOk, CyclesOk, OwnersOk, AccountsOk, GrantsOk, AfterSend, AfterStatus, Violates;
    hide CountersOk;
    if a.Webhook? {
      if Present(a.payload.text) {
        MatchesCounted(cfg, s.db.rules, a.payload.text);
      }
    } else if Enabled(cfg, s, a) {
      if a.HandleEvent? {
        HandledRows(cfg, s);
      } else if !a.TakeEvents? && !a.EventFails? && !a.Restart? {
        CountsUntouched(cfg, s, a);
      }
    }
  }

  // ----- Rate limit ------------------------------------------------------

  /** Over any run, restarts included, every half-open interval one window long holds at most
      maxCalls grants, and every send used a grant of its own. */
  lemma SendsStayWithinWindow(cfg: Settings, run: seq<Action>, lo: real)
    requires cfg.Sensible()
    ensures var s := Exec(cfg, INIT, run);
            && |Limiter.OpenLeft(s.limiter.grants, lo, cfg.window)| <= cfg.maxCalls
            && |Limiter.OpenRight(s.limiter.grants, lo, cfg.window)| <= cfg.maxCalls
            && (forall i :: 0 <= i < |s.sends| ==> s.sends[i].grant < |s.limiter.grants|)
            && (forall i, k :: 0 <= i < k < |s.sends| ==> s.sends[i].grant < s.sends[k].grant)
  {
    var s := Exec(cfg, INIT, run);
    ReachableInv(cfg, run);
    Limiter.SlidingWindow(cfg.maxCalls, cfg.window, s.limiter.grants, lo);
  }

  /** The requests that left in the half-open interval [lo, lo + length). */
  ghost function LeftWithin(sends: seq<Request>, lo: real, length: real): set<nat> {
    set i: nat | i < |sends| && lo <= sends[i].at < lo + length
  }

  /** Every request left within `lag` of its grant. */
  ghost predicate Lagging(s: State, lag: real) {
    forall i :: 0 <= i < |s.sends| ==>
      s.sends[i].grant < |s.limiter.grants| && s.sends[i].at - s.limiter.grants[s.sends[i].grant] <= lag
  }

  /** Over any run in which every request leaves within `lag` of its grant, every half-open
      interval of length window - lag holds at most maxCalls requests. */
  lemma RequestsStayWithinWindow(cfg: Settings, run: seq<Action>, lag: real, lo: real)
    requires cfg.Sensible()
    ensures var s := Exec(cfg, INIT, run);
            Lagging(s, lag) ==> |LeftWithin(s.sends, lo, cfg.window - lag)| <= cfg.maxCalls
  {
    hide Exec, Lagging, Prompt, LeftWithin;
    var s := Exec(cfg, INIT, run);
    GrantsSpaced(cfg, run);
    if Lagging(s, lag) {
      LaggingIsPrompt(s, lag);
      PromptRequests(cfg.maxCalls, cfg.window, s.limiter.grants, s.sends, lag, lo);
    }
  }

  /** What the theorems on requests and arrivals need of a reachable state. */
  lemma GrantsSpaced(cfg: Settings, run: seq<Action>)
    requires cfg.Sensible()
    ensures var s := Exec(cfg, INIT, run);
            && GrantsOk(s) && Limiter.Sorted(s.limiter.grants)
            && Limiter.Spaced(cfg.maxCalls, cfg.window, s.limiter.grants)
  {
    hide Exec, UniqueSlots, RowsOk, WorkerOk, ReconOk, BatchOk, KeysOk, CyclesOk, OwnersOk, AccountsOk, CountersOk;
    hide NoRepeats, GrantsOk, Limiter.Sorted, Limiter.Spaced, Limiter.Tail;
    ReachableInv(cfg, run);
  }

  lemma LaggingIsPrompt(s: State, lag: real)
    requires GrantsOk(s) && Lagging(s, lag)
    ensures Prompt(s.limiter.grants, s.sends, lag)
  {
  }

  ghost predicate Prompt(grants: seq<real>, sends: seq<Request>, lag: real) {
    && (forall i :: 0 <= i < |sends| ==>
          sends[i].grant < |grants| && grants[sends[i].grant] <= sends[i].at <= grants[sends[i].grant] + lag)
    && (forall i, k :: 0 <= i < k < |sends| ==> sends[i].grant < sends[k].grant)
  }

  lemma {:induction false} RequestGap(grants: seq<real>, sends: seq<Request>, lag: real, i: nat, k: nat)
    requires Prompt(grants, sends, lag) && i + k < |sends|
    ensures sends[i].grant + k <= sends[i + k].grant
  {
    if k > 0 {
      RequestGap(grants, sends, lag, i, k - 1);
    }
  }

  /** Prompt requests maxCalls apart in order are window - lag apart in time. */
  lemma RequestsApart(maxCalls: nat, window: real, grants: seq<real>, sends: seq<Request>, lag: real, i: nat, j: nat)
    requires Limiter.Sorted(grants) && Limiter.Spaced(maxCalls, window, grants) && Prompt(grants, sends, lag)
    requires i + maxCalls <= j < |sends|
    ensures sends[j].at - sends[i].at >= window - lag
  {
    hide Limiter.Sorted, Limiter.Spaced;
    RequestGap(grants, sends, lag, i, j - i);
    if sends[j].at - sends[i].at < window - lag {
      Limiter.CloseBy(maxCalls, window, grants, sends[i].grant, sends[j].grant);
    }
  }

  lemma PromptRequests(maxCalls: nat, window: real, grants: seq<real>, sends: seq<Request>, lag: real, lo: real)
    requires Limiter.Sorted(grants) && Limiter.Spaced(maxCalls, window, grants) && Prompt(grants, sends, lag)
    ensures |LeftWithin(sends, lo, window - lag)| <= maxCalls
  {
    hide Prompt, Limiter.Sorted, Limiter.Spaced;
    var left := LeftWithin(sends, lo, window - lag);
    forall i, j | i in left && j in left ensures j < i + maxCalls {
      if i + maxCalls <= j {
        RequestsApart(maxCalls, window, grants, sends, lag, i, j);
      }
    }
    Limiter.SpanBoundsSize(left, maxCalls);
  }

  /** The k-th arrival is of request from[k], within `lag` of its grant; no request arrives twice. */
  ghost predicate ArriveWithin(s: State, from: seq<nat>, times: seq<real>, lag: real) {
    && |from| == |times|
    && (forall k :: 0 <= k < |times| ==>
          && from[k] < |s.sends| && s.sends[from[k]].grant < |s.limiter.grants|
          && s.limiter.grants[s.sends[from[k]].grant] <= times[k]
             <= s.limiter.grants[s.sends[from[k]].grant] + lag)
    && (forall k, l :: 0 <= k < l < |from| ==> from[k] != from[l])
  }

  /** If every request of a run that arrives, in whatever order, does so within `lag` of its
      grant, a provider whose window starts empty never answers 429, whatever keys are replayed,
      when the limiter's window is at least the provider's and the lag together. */
  lemma ProviderNeverThrottles(cfg: Settings, run: seq<Action>, arrivals: seq<Arrival>, from: seq<nat>, lag: real,
                               p: Provider, i: nat)
    requires cfg.Sensible() && cfg.maxCalls <= MAX_SENDS && cfg.window >= WINDOW_SECONDS + lag && p.sendTimes == []
    requires i < |arrivals| && Limiter.Sorted(Times(arrivals))
    ensures ArriveWithin(Exec(cfg, INIT, run), from, Times(arrivals), lag) ==> !ReplyTo(p, arrivals, i).Limited429?
  {
    hide Exec, ArriveWithin, Limiter.Sorted, Limiter.Spaced, ReplyTo;
    var s := Exec(cfg, INIT, run);
    GrantsSpaced(cfg, run);
    if ArriveWithin(s, from, Times(arrivals), lag) {
      var chosen := ArrivalsFollow(s, from, Times(arrivals), lag);
      Limiter.FollowersSpaced(cfg.maxCalls, cfg.window, s.limiter.grants, chosen, Times(arrivals), lag);
      NeverLimited(cfg.maxCalls, cfg.window - lag, arrivals, p, i);
    }
  }

  lemma ArrivalsFollow(s: State, from: seq<nat>, times: seq<real>, lag: real) returns (chosen: seq<nat>)
    requires GrantsOk(s) && ArriveWithin(s, from, times, lag)
    ensures Limiter.Follows(s.limiter.grants, chosen, times, lag)
  {
    chosen := seq(|from|, k requires 0 <= k < |from| => s.sends[from[k]].grant);
    forall k, l | 0 <= k < l < |from| ensures chosen[k] != chosen[l] {
      assert from[k] != from[l];
    }
  }
}
