/** The whole pipeline as one transition system: webhook ingestion, the event worker, the
    DM worker (app/workers/dm_worker.py), the reconciler (app/services/reconciliation.py),
    the maintenance timer and restart (app/workers/manager.py) and the provider. Every
    action is one committed transaction or one step between two awaits, so any two actors
    may interleave between them. */
module Pipeline {
  import opened Models
  import opened Backoff
  import opened JobLifecycle
  import opened JobTable
  import opened EventProcessing
  import Limiter = RateLimiter
  import opened PseudoGram

  // ----- Actors ----------------------------------------------------------

  /** Where `DMWorker.run_once` stands with the job it claimed. `Releasing` is the
      `_release_claim` of its exception handlers. */
  datatype Phase = Claimed | Granted(grant: nat) | Awaiting | Responded(result: SendResult) | Releasing

  datatype Worker = Idle | Busy(job: nat, cycle: nat, claimedAt: real, phase: Phase)

  /** The reconciler works through `queue`; `reply` is the status read for its head and not
      applied yet. */
  datatype Reconciler = Resting | Polling(queue: seq<(nat, string)>, reply: Option<Option<string>>)

  /** A request that left: for which job and cycle, under which grant, and when. */
  datatype Request = Request(job: nat, cycle: nat, grant: nat, at: real)

  /** The database, the actors' memory, the network and the provider. History variables:
      `sent` are the (job, cycle) pairs whose key has ever left, `origin` says for which of
      them a provider DM was made, `sends` are the requests in the order they left, `unheard`
      counts by job the requests whose response never reached the row. */
  datatype State = State(
    db: Db,
    batch: seq<nat>,
    worker: Worker,
    recon: Reconciler,
    limiter: Limiter.Limiter,
    provider: Provider,
    sent: set<(nat, nat)>,
    origin: map<string, (nat, nat)>,
    sends: seq<Request>,
    unheard: multiset<nat>,
    now: real)

  const INIT :=
    State(EMPTY_DB, [], Idle, Resting, Limiter.Limiter([], [], []), EMPTY, {}, map[], [], multiset{}, 0.0)

  /** The Idempotency-Key of row j in a send cycle. */
  function Key(j: nat, cycle: nat): string {
    IdempotencyKey(j + 1, cycle)
  }

  /** Row j is the job with id j + 1. */
  lemma KeyOfRow(j: nat, cycle: nat)
    ensures Key(j, 0) == "dm-job-" + Decimal(j + 1)
    ensures cycle > 0 ==> Key(j, cycle) == "dm-job-" + Decimal(j + 1) + "-r" + Decimal(cycle)
  {
    KeyForm(j + 1, cycle);
  }

  // ----- Actions ---------------------------------------------------------

  datatype Action =
    | Tick(later: real)
    | AddRule(rule: string)
    | Webhook(payload: Payload)
    | TakeEvents(ks: seq<nat>, limit: nat)
    | HandleEvent
    | EventFails
    | AbandonEvents
    | ClaimJob(job: nat)
    | Acquire
    | Send
    | Respond(result: SendResult)
    | ApplyResult(draw: real)
    | Raise
    | ReleaseJob
    | ReleaseFails
    | Land(job: nat, cycle: nat, draws: Draws)
    | Settle(dmId: string, verdict: DmStatus)
    | LoadPending(ids: seq<nat>)
    | Poll(status: Option<string>)
    | PollFails
    | ApplyStatus(draw: real)
    | EndPolling
    | Requeue
    | Restart

  /** A status report the provider may give: it only calls a DM delivered or failed when it is. */
  predicate Truthful(p: Provider, dmId: string, status: Option<string>) {
    && (status == Some("delivered") ==> dmId in p.dms && p.dms[dmId].status == DmDelivered)
    && (status == Some("failed") ==> dmId in p.dms && p.dms[dmId].status == DmFailed)
  }

  ghost predicate Enabled(cfg: Settings, s: State, a: Action) {
    match a
    case Tick(later) => later >= s.now
    case AddRule(rule) => rule !in s.db.rules
    case Webhook(_) => true
    case TakeEvents(ks, limit) => s.batch == [] && IsEventBatch(s.db, limit, ks)
    case HandleEvent => s.batch != [] && s.batch[0] < |s.db.events|
    case EventFails => s.batch != [] && s.batch[0] < |s.db.events|
    // The handler that makes an event retryable can fail too: the rest of the batch is dropped.
    case AbandonEvents => s.batch != []
    case ClaimJob(j) => s.worker.Idle? && IsNext(s.db.jobs, s.now, j)
    case Acquire =>
      && s.worker.Busy? && s.worker.phase == Claimed
      && Limiter.HasSlot(cfg.maxCalls, cfg.window, s.limiter, s.now)
    case Send => s.worker.Busy? && s.worker.phase.Granted?
    // An accepted response carries the DM its key stands for; anything else may come back
    // whether or not the request landed.
    case Respond(result) =>
      && s.worker.Busy? && s.worker.phase == Awaiting
      && (IsAccept(Response(result)) ==>
            var key := Key(s.worker.job, s.worker.cycle);
            key in s.provider.byKey && s.provider.byKey[key] == result.dmId.value)
    case ApplyResult(draw) =>
      && s.worker.Busy? && s.worker.phase.Responded? && s.worker.job < |s.db.jobs|
      && IsDraw(cfg, s.db.jobs[s.worker.job].transientFailures + 1, draw)
    case Raise => s.worker.Busy?
    case ReleaseJob => s.worker.Busy? && s.worker.phase == Releasing && s.worker.job < |s.db.jobs|
    case ReleaseFails => s.worker.Busy? && s.worker.phase == Releasing
    // Any request that ever left may reach the provider, late or more than once.
    case Land(j, cycle, draws) =>
      (j, cycle) in s.sent && j < |s.db.jobs| && draws.dmId != "" && draws.dmId !in s.provider.dms
    case Settle(dmId, verdict) =>
      dmId in s.provider.dms && s.provider.dms[dmId].status == DmQueued && verdict != DmQueued
    case LoadPending(ids) => s.recon.Resting? && IsBatch(s.db.jobs, cfg.batchSize, ids)
    case Poll(status) =>
      s.recon.Polling? && s.recon.queue != [] && s.recon.reply.None? && Truthful(s.provider, s.recon.queue[0].1, status)
    case PollFails => s.recon.Polling? && s.recon.queue != [] && s.recon.reply.None?
    case ApplyStatus(draw) =>
      && s.recon.Polling? && s.recon.queue != [] && s.recon.reply.Some? && s.recon.queue[0].0 < |s.db.jobs|
      && IsDraw(cfg, s.db.jobs[s.recon.queue[0].0].sendCycle + 1, draw)
    case EndPolling => s.recon.Polling? && s.recon.queue == []
    case Requeue => true
    case Restart => true
  }

  // ----- Effects ---------------------------------------------------------

  function WithJobs(s: State, jobs: seq<Job>): State {
    s.(db := s.db.(jobs := jobs))
  }

  function Handled(cfg: Settings, s: State): State
    requires s.batch != [] && s.batch[0] < |s.db.events|
  {
    s.(db := ProcessEvent(cfg, s.db, s.batch[0], s.now), batch := s.batch[1..])
  }

  /** The request in flight whose response has not been applied, by job. */
  function Unanswered(w: Worker): multiset<nat> {
    if w.Busy? && (w.phase == Awaiting || w.phase.Responded?) then multiset{w.job} else multiset{}
  }

  /** `_apply`: a write the index rejects is rolled back and the claim is released. */
  function Applied(cfg: Settings, s: State, draw: real): State
    requires s.worker.Busy? && s.worker.phase.Responded? && s.worker.job < |s.db.jobs|
  {
    var j := s.worker.job;
    var row := AfterSend(cfg, s.db.jobs[j], s.worker.phase.result, s.now, draw);
    if Violates(s.db.jobs, j, row) then
      s.(worker := s.worker.(phase := Releasing), unheard := s.unheard + Unanswered(s.worker))
    else WithJobs(s, WriteBack(s.db.jobs, j, row)).(worker := Idle)
  }

  /** `ReconciliationService._apply`: the status is re-checked, the dm_id is not. */
  function StatusApplied(cfg: Settings, s: State, draw: real): State
    requires s.recon.Polling? && s.recon.queue != [] && s.recon.reply.Some? && s.recon.queue[0].0 < |s.db.jobs|
  {
    var j := s.recon.queue[0].0;
    var rest := s.(recon := Polling(s.recon.queue[1..], None));
    if s.db.jobs[j].status != Accepted then rest
    else WithJobs(rest, WriteBack(s.db.jobs, j, AfterStatus(cfg, s.db.jobs[j], s.recon.reply.value, s.now, draw)))
  }

  function Landed(s: State, j: nat, cycle: nat, draws: Draws): State
    requires j < |s.db.jobs|
  {
    var (provider, _) := SendDm(s.provider, Some(Key(j, cycle)), s.db.jobs[j].userId, s.now, draws);
    s.(provider := provider,
       origin := if provider.dms == s.provider.dms then s.origin else s.origin[draws.dmId := (j, cycle)])
  }

  /** The process dies, losing all memory, and a new one recovers and warm starts. */
  function Restarted(cfg: Settings, s: State): State {
    s.(db := s.db.(events := RequeueStuck(s.db.events), jobs := RequeueStale(s.db.jobs, 0.0, s.now),
                counters := Seeded(s.db.counters)),
       batch := [], worker := Idle, recon := Resting,
       limiter := Limiter.WarmStart(cfg.window, s.limiter, s.now),
       unheard := s.unheard + Unanswered(s.worker))
  }

  /** What `_load_pending` remembers of a row: its id and dm_id. */
  function Entry(jobs: seq<Job>, i: nat): (nat, string)
    requires i < |jobs| && Pollable(jobs[i])
  {
    (i, jobs[i].dmId.value)
  }

  function Entries(jobs: seq<Job>, ids: seq<nat>): (queue: seq<(nat, string)>)
    requires forall k :: 0 <= k < |ids| ==> ids[k] < |jobs| && Pollable(jobs[ids[k]])
    ensures |queue| == |ids| && forall k :: 0 <= k < |ids| ==> queue[k] == Entry(jobs, ids[k])
  {
    seq(|ids|, k requires 0 <= k < |ids| => assert Pollable(jobs[ids[k]]); Entry(jobs, ids[k]))
  }

  ghost function Step(cfg: Settings, s: State, a: Action): State
    requires Enabled(cfg, s, a)
  {
    match a
    case Tick(later) => s.(now := later)
    case AddRule(rule) => s.(db := s.db.(rules := s.db.rules + [rule]))
    case Webhook(payload) => s.(db := Ingest(cfg, s.db, payload))
    case TakeEvents(ks, _) => s.(db := s.db.(events := ClaimEvents(s.db.events, ks)), batch := ks)
    case HandleEvent => Handled(cfg, s)
    case EventFails => s.(db := RetryEvent(s.db, s.batch[0]), batch := s.batch[1..])
    case AbandonEvents => s.(batch := [])
    case ClaimJob(j) =>
      WithJobs(s, Claim(s.db.jobs, j, s.now)).(worker := Busy(j, s.db.jobs[j].sendCycle, s.now, Claimed))
    case Acquire =>
      s.(limiter := Limiter.Grant(cfg.window, s.limiter, s.now),
         worker := s.worker.(phase := Granted(|s.limiter.grants|)))
    case Send =>
      s.(sent := s.sent + {(s.worker.job, s.worker.cycle)},
         sends := s.sends + [Request(s.worker.job, s.worker.cycle, s.worker.phase.grant, s.now)],
         worker := s.worker.(phase := Awaiting))
    case Respond(result) => s.(worker := s.worker.(phase := Responded(result)))
    case ApplyResult(draw) => Applied(cfg, s, draw)
    case Raise => s.(worker := s.worker.(phase := Releasing), unheard := s.unheard + Unanswered(s.worker))
    case ReleaseJob => WithJobs(s, Release(s.db.jobs, s.worker.job, s.now)).(worker := Idle)
    case ReleaseFails => s.(worker := Idle)
    case Land(j, cycle, draws) => Landed(s, j, cycle, draws)
    case Settle(dmId, verdict) =>
      s.(provider := s.provider.(dms := s.provider.dms[dmId := s.provider.dms[dmId].(status := verdict)]))
    case LoadPending(ids) => s.(recon := Polling(Entries(s.db.jobs, ids), None))
    case Poll(status) => s.(recon := s.recon.(reply := Some(status)))
    case PollFails => s.(recon := s.recon.(queue := s.recon.queue[1..]))
    case ApplyStatus(draw) => StatusApplied(cfg, s, draw)
    case EndPolling => s.(recon := Resting)
    case Requeue => WithJobs(s, RequeueStale(s.db.jobs, cfg.staleSeconds, s.now))
    case Restart => Restarted(cfg, s)
  }

  /** An action that is not enabled leaves the state as it is. */
  ghost function Do(cfg: Settings, s: State, a: Action): State {
    if Enabled(cfg, s, a) then Step(cfg, s, a) else s
  }

  /** The state after a run: any sequence of actions. */
  ghost function Exec(cfg: Settings, s: State, run: seq<Action>): State
    decreases |run|
  {
    if run == [] then s else Exec(cfg, Do(cfg, s, run[0]), run[1..])
  }

  lemma {:induction false} ExecConcat(cfg: Settings, s: State, a: seq<Action>, b: seq<Action>)
    ensures Exec(cfg, s, a + b) == Exec(cfg, Exec(cfg, s, a), b)
    decreases |a|
  {
    if a == [] {
      assert a + b == b;
    } else {
      ExecConcat(cfg, Do(cfg, s, a[0]), a[1..], b);
      assert (a + b)[1..] == a[1..] + b;
    }
  }

  lemma ExecOne(cfg: Settings, s: State, a: Action)
    ensures Exec(cfg, s, [a]) == Do(cfg, s, a)
  {
    assert [a][1..] == [];
  }

  lemma ExecThree(cfg: Settings, s: State, a: Action, b: Action, c: Action)
    ensures Exec(cfg, s, [a, b, c]) == Do(cfg, Do(cfg, Do(cfg, s, a), b), c)
  {
    assert [a, b, c] == [a] + ([b] + [c]);
    ExecConcat(cfg, s, [a], [b] + [c]);
    ExecConcat(cfg, Do(cfg, s, a), [b], [c]);
    ExecOne(cfg, s, a);
    ExecOne(cfg, Do(cfg, s, a), b);
    ExecOne(cfg, Do(cfg, Do(cfg, s, a), b), c);
  }

  lemma ExecTwo(cfg: Settings, s: State, a: Action, b: Action)
    ensures Exec(cfg, s, [a, b]) == Do(cfg, Do(cfg, s, a), b)
  {
    assert [a, b] == [a] + [b];
    ExecConcat(cfg, s, [a], [b]);
    ExecOne(cfg, s, a);
    ExecOne(cfg, Do(cfg, s, a), b);
  }

  // ----- Reading a state -------------------------------------------------

  ghost predicate InFlight(s: State, j: nat) {
    s.worker.Busy? && s.worker.job == j
  }

  /** A DM the provider made for job j and has not reported failed. */
  ghost predicate LiveDm(s: State, d: string, j: nat) {
    d in s.origin && d in s.provider.dms && s.origin[d].0 == j && s.provider.dms[d].status != DmFailed
  }

  /** The replies and reports of the mock provider are among those the system allows. */
  lemma MockIsAllowed(s: State, j: nat, cycle: nat, draws: Draws)
    requires s.worker.Busy? && s.worker.job == j && s.worker.cycle == cycle && s.worker.phase == Awaiting
    requires j < |s.db.jobs| && draws.dmId != ""
    requires forall k :: k in s.provider.byKey ==> s.provider.byKey[k] != ""
    ensures var (p, reply) := SendDm(s.provider, Some(Key(j, cycle)), s.db.jobs[j].userId, s.now, draws);
            forall cfg :: Enabled(cfg, s.(provider := p), Respond(ToResult(reply)))
  {
    SendIsIdempotent(s.provider, Key(j, cycle), s.db.jobs[j].userId, s.now, draws);
  }

  /** The mock says `delivered` exactly of a delivered DM, and `failed` exactly of a failed one. */
  lemma MockReportsTruth(p: Provider, d: string, now: real)
    ensures var (p', status) := GetDm(p, d, now);
            status.Some? ==>
              && d in p'.dms && Truthful(p', d, Some(StatusText(status.value)))
              && (StatusText(status.value) == "delivered" <==> p'.dms[d].status == DmDelivered)
              && (StatusText(status.value) == "failed" <==> p'.dms[d].status == DmFailed)
  {
  }
}
