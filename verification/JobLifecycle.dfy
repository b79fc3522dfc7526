/** What one send response or one delivery status does to a job: the `apply_*` functions
    of app/services/jobs.py, and what the stored budgets mean in terms of the job's trace. */
module JobLifecycle {
  import opened Models
  import opened Backoff

  // ----- Transitions -----------------------------------------------------

  function ScheduleRetry(job: Job, delay: real, now: real): Job {
    job.(status := RetryWait, nextRetryAt := Some(now + delay), updatedAt := now)
  }

  function GiveUp(job: Job, now: real): Job {
    job.(status := Failed, nextRetryAt := None, updatedAt := now)
  }

  function TransientFailure(cfg: Settings, job: Job, now: real, draw: real): Job {
    var counted := job.(attempts := job.attempts + 1, transientFailures := job.transientFailures + 1);
    if counted.transientFailures >= cfg.maxDmAttempts then GiveUp(counted, now)
    else ScheduleRetry(counted, Delay(cfg, counted.transientFailures, draw), now)
  }

  /** `apply_send_result`; `draw` is the jitter drawn if a backoff is needed. */
  function AfterSend(cfg: Settings, job: Job, result: SendResult, now: real, draw: real): Job {
    var noted := job.(trace := job.trace + [Response(result)]);
    match result.outcome
    case OutAccepted =>
      if !Present(result.dmId) then TransientFailure(cfg, noted, now, draw)
      else noted.(attempts := job.attempts + 1, transientFailures := 0, status := Accepted,
                  dmId := result.dmId, nextRetryAt := None, updatedAt := now)
    case OutRateLimited =>
      ScheduleRetry(noted, if result.retryAfter.Some? then result.retryAfter.value else cfg.window, now)
    case OutAuthError => ScheduleRetry(noted, cfg.authPause, now)
    case OutInvalid => GiveUp(noted.(attempts := job.attempts + 1), now)
    case _ => TransientFailure(cfg, noted, now, draw)
  }

  /** `apply_delivery_status`. */
  function AfterStatus(cfg: Settings, job: Job, status: Option<string>, now: real, draw: real): Job {
    var noted := job.(trace := job.trace + [Verdict(status)]);
    if status == Some("delivered") then
      noted.(status := Delivered, nextRetryAt := None, updatedAt := now)
    else if status == Some("failed") then
      var bounced := noted.(attempts := job.attempts + 1, sendCycle := job.sendCycle + 1, dmId := None);
      if bounced.sendCycle >= cfg.maxDeliveryAttempts then GiveUp(bounced, now)
      else ScheduleRetry(bounced.(transientFailures := 0), Delay(cfg, bounced.sendCycle, draw), now)
    else
      noted.(updatedAt := now)
  }

  /** Neither handed over to the provider nor finished: the job may still be sent, or was
      cancelled before anything came of it. */
  predicate Unsettled(status: JobStatus) {
    status in {Queued, Sending, RetryWait, Cancelled}
  }

  predicate SameSlot(a: Job, b: Job) {
    a.ruleId == b.ruleId && a.userId == b.userId
  }

  predicate SameOrigin(a: Job, b: Job) {
    SameSlot(a, b) && a.commentId == b.commentId
  }

  // ----- What the trace says --------------------------------------------

  predicate IsAccept(e: JobEvent) {
    e.Response? && e.result.outcome == OutAccepted && Present(e.result.dmId)
  }

  predicate IsInvalid(e: JobEvent) {
    e.Response? && e.result.outcome == OutInvalid
  }

  /** A failure that spends the transient budget; 429 and 401/403 do not. */
  predicate IsTransient(e: JobEvent) {
    e.Response?
    && (|| e.result.outcome in {OutServerError, OutTransportError, OutUnexpected}
        || (e.result.outcome == OutAccepted && !Present(e.result.dmId)))
  }

  predicate IsBounce(e: JobEvent) {
    e == Verdict(Some("failed"))
  }

  predicate IsCounted(e: JobEvent) {
    IsAccept(e) || IsInvalid(e) || IsTransient(e)
  }

  /** A response that spends nothing: 429, 401 or 403. */
  predicate IsUncounted(e: JobEvent) {
    e.Response? && e.result.outcome in {OutRateLimited, OutAuthError}
  }

  datatype Kind = Accept | Invalid | Transient | Bounce | Attempt | Deferral

  predicate Is(k: Kind, e: JobEvent) {
    match k
    case Accept => IsAccept(e)
    case Invalid => IsInvalid(e)
    case Transient => IsTransient(e)
    case Bounce => IsBounce(e)
    case Attempt => IsCounted(e)
    case Deferral => IsUncounted(e)
  }

  function Count(k: Kind, t: seq<JobEvent>): nat {
    if t == [] then 0 else Count(k, t[..|t| - 1]) + (if Is(k, t[|t| - 1]) then 1 else 0)
  }

  /** The events after the last one of this kind. */
  function Since(k: Kind, t: seq<JobEvent>): seq<JobEvent> {
    if t == [] || Is(k, t[|t| - 1]) then []
    else Since(k, t[..|t| - 1]) + [t[|t| - 1]]
  }

  /** Confirmed delivery failures. */
  function Bounces(t: seq<JobEvent>): nat { Count(Bounce, t) }

  /** Send results that count as attempts. */
  function Counted(t: seq<JobEvent>): nat { Count(Attempt, t) }

  /** Responses that count as nothing. */
  function Uncounted(t: seq<JobEvent>): nat { Count(Deferral, t) }

  /** Transient failures since the provider last accepted something. */
  function TransientRun(t: seq<JobEvent>): nat { Count(Transient, Since(Accept, t)) }

  /** Counted send results in the current send cycle. */
  function InCycle(t: seq<JobEvent>): nat { Count(Attempt, Since(Bounce, t)) }

  /** The numbers a trace determines. */
  datatype Tally = Tally(bounces: nat, counted: nat, invalid: nat, run: nat, inCycle: nat)

  function TallyOf(t: seq<JobEvent>): Tally {
    Tally(Bounces(t), Counted(t), Count(Invalid, t), TransientRun(t), InCycle(t))
  }

  function One(b: bool): nat { if b then 1 else 0 }

  function Next(y: Tally, e: JobEvent): Tally {
    Tally(y.bounces + One(IsBounce(e)),
          y.counted + One(IsCounted(e)),
          y.invalid + One(IsInvalid(e)),
          if IsAccept(e) then 0 else y.run + One(IsTransient(e)),
          if IsBounce(e) then 0 else y.inCycle + One(IsCounted(e)))
  }

  /** One of the three ways to give up has been reached. */
  predicate Spent(cfg: Settings, y: Tally) {
    y.invalid > 0 || y.run >= cfg.maxDmAttempts || y.bounces >= cfg.maxDeliveryAttempts
  }

  predicate Exhausted(cfg: Settings, t: seq<JobEvent>) {
    Spent(cfg, TallyOf(t))
  }

  lemma CountAppend(k: Kind, t: seq<JobEvent>, e: JobEvent)
    ensures Count(k, t + [e]) == Count(k, t) + if Is(k, e) then 1 else 0
  {
    assert (t + [e])[..|t|] == t;
  }

  lemma NoneCounted(k: Kind)
    ensures Count(k, []) == 0
  {
  }

  lemma SinceAppend(k: Kind, t: seq<JobEvent>, e: JobEvent)
    ensures Since(k, t + [e]) == if Is(k, e) then [] else Since(k, t) + [e]
  {
    assert (t + [e])[..|t|] == t;
  }

  lemma RunAppend(t: seq<JobEvent>, e: JobEvent)
    ensures TransientRun(t + [e]) == if IsAccept(e) then 0 else TransientRun(t) + One(IsTransient(e))
  {
    hide Count, Since, IsAccept, IsTransient;
    SinceAppend(Accept, t, e);
    NoneCounted(Transient);
    CountAppend(Transient, Since(Accept, t), e);
  }

  lemma InCycleAppend(t: seq<JobEvent>, e: JobEvent)
    ensures InCycle(t + [e]) == if IsBounce(e) then 0 else InCycle(t) + One(IsCounted(e))
  {
    hide Count, Since, IsBounce, IsCounted;
    SinceAppend(Bounce, t, e);
    NoneCounted(Attempt);
    CountAppend(Attempt, Since(Bounce, t), e);
  }

  lemma TallyAppend(t: seq<JobEvent>, e: JobEvent)
    ensures TallyOf(t + [e]) == Next(TallyOf(t), e)
  {
    hide Count, Since, IsAccept, IsInvalid, IsTransient, IsBounce, IsCounted, TransientRun, InCycle;
    assert Bounces(t + [e]) == Bounces(t) + One(IsBounce(e)) by { CountAppend(Bounce, t, e); }
    assert Counted(t + [e]) == Counted(t) + One(IsCounted(e)) by { CountAppend(Attempt, t, e); }
    assert Count(Invalid, t + [e]) == Count(Invalid, t) + One(IsInvalid(e)) by { CountAppend(Invalid, t, e); }
    RunAppend(t, e);
    InCycleAppend(t, e);
  }

  /** Every response is counted or not, and a status read is neither. */
  lemma AnswersAppend(t: seq<JobEvent>, e: JobEvent)
    ensures Counted(t + [e]) + Uncounted(t + [e]) == Counted(t) + Uncounted(t) + One(e.Response?)
  {
    hide Count;
    CountAppend(Attempt, t, e);
    CountAppend(Deferral, t, e);
  }

  // ----- The stored fields are functions of the trace --------------------

  /** The columns of a job are what its trace says. */
  ghost predicate Fits(cfg: Settings, job: Job, y: Tally) {
    && job.sendCycle == y.bounces
    && job.transientFailures == y.run
    && job.attempts == y.counted + y.bounces
    && (job.status == Failed <==> Spent(cfg, y))
  }

  /** n * c, by repeated addition (`ScaledIsProduct`). */
  function Scaled(n: int, c: nat): int {
    if c == 0 then 0 else Scaled(n, c - 1) + n
  }

  lemma {:induction false} ScaledIsProduct(n: int, c: nat)
    ensures Scaled(n, c) == n * c
  {
    if c > 0 {
      ScaledIsProduct(n, c - 1);
    }
  }

  lemma {:induction false} ScaledMonotone(n: int, a: nat, b: nat)
    requires n >= 0 && a <= b
    ensures Scaled(n, a) <= Scaled(n, b)
  {
    if a < b {
      ScaledMonotone(n, a, b - 1);
    }
  }

  /** How much of the budgets the current cycle has used, by status. */
  ghost predicate WithinCycle(cfg: Settings, status: JobStatus, y: Tally) {
    && y.counted <= Scaled(cfg.maxDmAttempts, y.bounces) + y.inCycle
    && y.inCycle <= cfg.maxDmAttempts
    && (Unsettled(status) ==> y.inCycle == y.run < cfg.maxDmAttempts)
    && (status in {Accepted, Delivered} ==> y.run == 0)
    && y.bounces <= cfg.maxDeliveryAttempts
    && (y.bounces == cfg.maxDeliveryAttempts ==> y.inCycle == 0)
  }

  ghost predicate Sound(cfg: Settings, job: Job) {
    && Fits(cfg, job, TallyOf(job.trace))
    && WithinCycle(cfg, job.status, TallyOf(job.trace))
    && forall k :: 0 <= k < |job.trace| ==> !Exhausted(cfg, job.trace[..k])
  }

  lemma PrefixesAppend(cfg: Settings, t: seq<JobEvent>, e: JobEvent)
    requires forall k :: 0 <= k < |t| ==> !Exhausted(cfg, t[..k])
    requires !Exhausted(cfg, t)
    ensures forall k :: 0 <= k < |t + [e]| ==> !Exhausted(cfg, (t + [e])[..k])
  {
    forall k | 0 <= k < |t + [e]| ensures !Exhausted(cfg, (t + [e])[..k]) {
      assert (t + [e])[..k] == if k == |t| then t else t[..k];
      assert t[..|t|] == t;
    }
  }

  lemma FreshJobSound(cfg: Settings, job: Job)
    requires cfg.Sensible()
    requires job.trace == [] && job.attempts == job.transientFailures == job.sendCycle == 0 && job.status == Queued
    ensures Sound(cfg, job)
  {
  }

  lemma SendKeepsSound(cfg: Settings, job: Job, result: SendResult, now: real, draw: real)
    requires cfg.Sensible() && Sound(cfg, job) && Unsettled(job.status)
    ensures Sound(cfg, AfterSend(cfg, job, result, now, draw))
  {
    TallyAppend(job.trace, Response(result));
    PrefixesAppend(cfg, job.trace, Response(result));
    SendKeepsTally(cfg, job, result, now, draw, TallyOf(job.trace));
  }

  lemma SendKeepsTally(cfg: Settings, job: Job, result: SendResult, now: real, draw: real, y: Tally)
    requires cfg.Sensible() && Fits(cfg, job, y) && WithinCycle(cfg, job.status, y) && Unsettled(job.status)
    ensures var next := AfterSend(cfg, job, result, now, draw);
            && Fits(cfg, next, Next(y, Response(result)))
            && WithinCycle(cfg, next.status, Next(y, Response(result)))
            && next.trace == job.trace + [Response(result)]
  {
  }

  lemma StatusKeepsSound(cfg: Settings, job: Job, status: Option<string>, now: real, draw: real)
    requires cfg.Sensible() && Sound(cfg, job) && job.status == Accepted
    ensures Sound(cfg, AfterStatus(cfg, job, status, now, draw))
  {
    TallyAppend(job.trace, Verdict(status));
    PrefixesAppend(cfg, job.trace, Verdict(status));
    StatusKeepsTally(cfg, job, status, now, draw, TallyOf(job.trace));
  }

  lemma StatusKeepsTally(cfg: Settings, job: Job, status: Option<string>, now: real, draw: real, y: Tally)
    requires cfg.Sensible() && Fits(cfg, job, y) && WithinCycle(cfg, job.status, y) && job.status == Accepted
    ensures var next := AfterStatus(cfg, job, status, now, draw);
            && Fits(cfg, next, Next(y, Verdict(status)))
            && WithinCycle(cfg, next.status, Next(y, Verdict(status)))
            && next.trace == job.trace + [Verdict(status)]
  {
  }

  /** How long the last event of a trace makes the job wait: as asked by the provider, the
      pause for a rejected key, or a backoff by the length of the run of failures. */
  ghost predicate WaitsFor(cfg: Settings, t: seq<JobEvent>, delay: real) {
    && t != []
    && match t[|t| - 1] {
         case Response(result) =>
           if result.outcome == OutRateLimited then
             delay == if result.retryAfter.Some? then result.retryAfter.value else cfg.window
           else if result.outcome == OutAuthError then delay == cfg.authPause
           else InBand(cfg, TransientRun(t), delay)
         case Verdict(_) => InBand(cfg, Bounces(t), delay)
       }
  }

  /** Only a job that waits for a retry is due at some time, as its trace says. */
  ghost predicate OnSchedule(cfg: Settings, job: Job) {
    && (job.status in {Accepted, Delivered, Failed} ==> job.nextRetryAt.None?)
    && (job.status == RetryWait ==>
          job.nextRetryAt.Some? && WaitsFor(cfg, job.trace, job.nextRetryAt.value - job.updatedAt))
  }

  lemma SendSchedules(cfg: Settings, job: Job, result: SendResult, now: real, draw: real)
    requires cfg.Sensible() && Sound(cfg, job) && IsDraw(cfg, job.transientFailures + 1, draw)
    ensures OnSchedule(cfg, AfterSend(cfg, job, result, now, draw))
  {
    RunAppend(job.trace, Response(result));
    SendWaits(cfg, job, result, now, draw);
  }

  lemma SendWaits(cfg: Settings, job: Job, result: SendResult, now: real, draw: real)
    requires cfg.Sensible() && IsDraw(cfg, job.transientFailures + 1, draw)
    requires IsTransient(Response(result)) ==> TransientRun(job.trace + [Response(result)]) == job.transientFailures + 1
    ensures OnSchedule(cfg, AfterSend(cfg, job, result, now, draw))
  {
    hide TransientRun, Delay, InBand;
    assert IsDelay(cfg, job.transientFailures + 1, Delay(cfg, job.transientFailures + 1, draw));
    IsDelayIff(cfg, job.transientFailures + 1, Delay(cfg, job.transientFailures + 1, draw));
  }

  lemma StatusSchedules(cfg: Settings, job: Job, status: Option<string>, now: real, draw: real)
    requires cfg.Sensible() && Sound(cfg, job) && IsDraw(cfg, job.sendCycle + 1, draw)
    requires job.status == Accepted && job.nextRetryAt.None?
    ensures OnSchedule(cfg, AfterStatus(cfg, job, status, now, draw))
  {
    hide OnSchedule, AfterStatus, Exhausted;
    CountAppend(Bounce, job.trace, Verdict(status));
    StatusWaits(cfg, job, status, now, draw);
  }

  lemma StatusWaits(cfg: Settings, job: Job, status: Option<string>, now: real, draw: real)
    requires cfg.Sensible() && IsDraw(cfg, job.sendCycle + 1, draw)
    requires job.status == Accepted && job.nextRetryAt.None?
    requires status == Some("failed") ==> Bounces(job.trace + [Verdict(status)]) == job.sendCycle + 1
    ensures OnSchedule(cfg, AfterStatus(cfg, job, status, now, draw))
  {
    hide Bounces, Delay, TransientRun, InBand;
    assert IsDelay(cfg, job.sendCycle + 1, Delay(cfg, job.sendCycle + 1, draw));
    IsDelayIff(cfg, job.sendCycle + 1, Delay(cfg, job.sendCycle + 1, draw));
  }

  /** A job has failed exactly when some prefix of its trace used up a budget, and
      `attempts` is the counted send results plus the delivery failures. */
  lemma FailedIffBudgetHit(cfg: Settings, job: Job)
    requires Sound(cfg, job)
    ensures job.status == Failed <==> exists k :: 0 <= k <= |job.trace| && Exhausted(cfg, job.trace[..k])
    ensures job.attempts == Counted(job.trace) + job.sendCycle
  {
    assert job.trace[..|job.trace|] == job.trace;
  }

  /** No job ever sees more counted send results than both budgets together allow. */
  lemma SendsBounded(cfg: Settings, job: Job)
    requires cfg.Sensible() && Sound(cfg, job)
    ensures Counted(job.trace) <= cfg.maxDmAttempts * cfg.maxDeliveryAttempts
  {
    var n, b, m := cfg.maxDmAttempts, Bounces(job.trace), cfg.maxDeliveryAttempts;
    if b < m {
      ScaledMonotone(n, b + 1, m);
    }
    ScaledIsProduct(n, m);
  }

  // ----- Termination measure --------------------------------------------

  /** Remaining delivery attempts, whether a send is still owed, remaining transient budget. */
  function Measure(cfg: Settings, job: Job): (int, int, int) {
    (cfg.maxDeliveryAttempts - job.sendCycle,
     if Unsettled(job.status) then 1 else 0,
     cfg.maxDmAttempts - job.transientFailures)
  }

  predicate Below(m: (int, int, int), n: (int, int, int)) {
    || 0 <= m.0 < n.0
    || (m.0 == n.0 && (0 <= m.1 < n.1 || (m.1 == n.1 && 0 <= m.2 < n.2)))
  }

  /** Every counted send result lowers the measure; 429 and 401/403 leave it alone. */
  lemma SendLowersMeasure(cfg: Settings, job: Job, result: SendResult, now: real, draw: real)
    requires cfg.Sensible() && Sound(cfg, job) && Unsettled(job.status)
    ensures var next := AfterSend(cfg, job, result, now, draw);
            if IsCounted(Response(result)) then Below(Measure(cfg, next), Measure(cfg, job))
            else Measure(cfg, next) == Measure(cfg, job)
  {
    BudgetLeft(cfg, job, TallyOf(job.trace));
    SendLowers(cfg, job, result, now, draw);
  }

  lemma BudgetLeft(cfg: Settings, job: Job, y: Tally)
    requires cfg.Sensible() && Fits(cfg, job, y) && WithinCycle(cfg, job.status, y)
    ensures Unsettled(job.status) ==> job.transientFailures < cfg.maxDmAttempts
    ensures job.status != Failed ==> job.sendCycle < cfg.maxDeliveryAttempts
  {
  }

  lemma SendLowers(cfg: Settings, job: Job, result: SendResult, now: real, draw: real)
    requires cfg.Sensible() && Unsettled(job.status) && job.transientFailures < cfg.maxDmAttempts
    ensures var next := AfterSend(cfg, job, result, now, draw);
            if IsCounted(Response(result)) then Below(Measure(cfg, next), Measure(cfg, job))
            else Measure(cfg, next) == Measure(cfg, job)
  {
  }

  /** Every delivery failure lowers the measure; every other report leaves it alone. */
  lemma StatusLowersMeasure(cfg: Settings, job: Job, status: Option<string>, now: real, draw: real)
    requires cfg.Sensible() && Sound(cfg, job) && job.status == Accepted
    ensures var next := AfterStatus(cfg, job, status, now, draw);
            if IsBounce(Verdict(status)) then Below(Measure(cfg, next), Measure(cfg, job))
            else Measure(cfg, next) == Measure(cfg, job)
  {
    BudgetLeft(cfg, job, TallyOf(job.trace));
  }

  // ----- The row object --------------------------------------------------

  /** A loaded `DMJob` row, updated field by field as the ORM object is. */
  class DMJob {
    const ruleId: string
    const userId: string
    const commentId: Option<string>
    var status: JobStatus
    var attempts: nat
    var transientFailures: nat
    var sendCycle: nat
    var dmId: Option<string>
    var nextRetryAt: Option<real>
    var updatedAt: real
    var trace: seq<JobEvent>

    function Row(): Job
      reads this
    {
      Job(ruleId, userId, commentId, status, attempts, transientFailures, sendCycle, dmId, nextRetryAt,
          updatedAt, trace)
    }

    constructor Load(row: Job)
      ensures Row() == row
    {
      ruleId, userId, commentId := row.ruleId, row.userId, row.commentId;
      status, attempts, transientFailures := row.status, row.attempts, row.transientFailures;
      sendCycle, dmId, nextRetryAt := row.sendCycle, row.dmId, row.nextRetryAt;
      updatedAt, trace := row.updatedAt, row.trace;
    }

    method Reschedule(delay: real, now: real)
      modifies this
      ensures Row() == ScheduleRetry(old(Row()), delay, now)
    {
      status := RetryWait;
      nextRetryAt := Some(now + delay);
      updatedAt := now;
    }

    method Abandon(now: real)
      modifies this
      ensures Row() == GiveUp(old(Row()), now)
    {
      status := Failed;
      nextRetryAt := None;
      updatedAt := now;
    }

    method HandleTransientFailure(cfg: Settings, now: real, draw: real)
      modifies this
      ensures Row() == TransientFailure(cfg, old(Row()), now, draw)
    {
      attempts := attempts + 1;
      transientFailures := transientFailures + 1;
      if transientFailures >= cfg.maxDmAttempts {
        Abandon(now);
        return;
      }
      Reschedule(Delay(cfg, transientFailures, draw), now);
    }

    method ApplySendResult(cfg: Settings, result: SendResult, now: real, draw: real)
      modifies this
      ensures Row() == AfterSend(cfg, old(Row()), result, now, draw)
    {
      trace := trace + [Response(result)];
      if result.outcome == OutAccepted && !Present(result.dmId) {
        HandleTransientFailure(cfg, now, draw);
      } else if result.outcome == OutAccepted {
        attempts := attempts + 1;
        transientFailures := 0;
        status := Accepted;
        dmId := result.dmId;
        nextRetryAt := None;
        updatedAt := now;
      } else if result.outcome == OutRateLimited {
        var delay := cfg.window;
        if result.retryAfter.Some? {
          delay := result.retryAfter.value;
        }
        Reschedule(delay, now);
      } else if result.outcome == OutAuthError {
        Reschedule(cfg.authPause, now);
      } else if result.outcome == OutInvalid {
        attempts := attempts + 1;
        Abandon(now);
      } else {
        HandleTransientFailure(cfg, now, draw);
      }
    }

    method ApplyDeliveryStatus(cfg: Settings, verdict: Option<string>, now: real, draw: real)
      modifies this
      ensures Row() == AfterStatus(cfg, old(Row()), verdict, now, draw)
    {
      trace := trace + [Verdict(verdict)];
      if verdict == Some("delivered") {
        status := Delivered;
        nextRetryAt := None;
        updatedAt := now;
      } else if verdict == Some("failed") {
        attempts := attempts + 1;
        sendCycle := sendCycle + 1;
        dmId := None;
        if sendCycle >= cfg.maxDeliveryAttempts {
          Abandon(now);
        } else {
          transientFailures := 0;
          Reschedule(Delay(cfg, sendCycle, draw), now);
        }
      } else {
        updatedAt := now;
      }
    }
  }
}
