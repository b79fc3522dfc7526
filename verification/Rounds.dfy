/** The rounds of the background objects are runs of `Pipeline`: the actions that one
    undisturbed `run_once` of the DM worker, `process_pending_events` and `run_once` of the
    reconciler take, in order. */
module Rounds {
  import opened Models
  import opened Backoff
  import opened JobLifecycle
  import opened JobTable
  import opened EventProcessing
  import Limiter = RateLimiter
  import opened PseudoGram
  import opened Pipeline
  import opened Invariants
  import Database

  // ----- The DM worker ---------------------------------------------------

  /** Where an unexpected exception strikes `run_once`, if anywhere. */
  datatype Fault = NoFault | BeforeSend | ResponseLost

  function Claiming(id: nat, claimedAt: real, sentAt: real): seq<Action> {
    [Tick(claimedAt), ClaimJob(id), Tick(sentAt)] + [Acquire]
  }

  const DROP := [Raise, ReleaseJob]

  function Delivering(id: nat, cycle: nat, draws: Draws, reply: Reply, draw: real, fault: Fault): seq<Action> {
    match fault
    case BeforeSend => DROP
    case ResponseLost => [Send, Land(id, cycle, draws)] + DROP
    case NoFault => [Send, Land(id, cycle, draws)] + [Respond(ToResult(reply)), ApplyResult(draw)]
  }

  lemma TakenUp(cfg: Settings, s: State, id: nat, claimedAt: real, sentAt: real)
    requires s.worker == Idle && s.now <= claimedAt <= sentAt && IsNext(s.db.jobs, claimedAt, id)
    requires Limiter.HasSlot(cfg.maxCalls, cfg.window, s.limiter, sentAt)
    ensures Exec(cfg, s, Claiming(id, claimedAt, sentAt))
            == WithJobs(s, Claim(s.db.jobs, id, claimedAt)).(
                 now := sentAt, limiter := Limiter.Grant(cfg.window, s.limiter, sentAt),
                 worker := Busy(id, s.db.jobs[id].sendCycle, claimedAt, Granted(|s.limiter.grants|)))
  {
    hide Limiter.Grant, Limiter.HasSlot;
    var first := [Tick(claimedAt), ClaimJob(id), Tick(sentAt)];
    ExecThree(cfg, s, Tick(claimedAt), ClaimJob(id), Tick(sentAt));
    ExecConcat(cfg, s, first, [Acquire]);
    ExecOne(cfg, Exec(cfg, s, first), Acquire);
  }

  lemma Released(cfg: Settings, s: State)
    requires s.worker.Busy? && s.worker.job < |s.db.jobs|
    ensures Exec(cfg, s, DROP)
            == WithJobs(s, Release(s.db.jobs, s.worker.job, s.now)).(
                 worker := Idle, unheard := s.unheard + Unanswered(s.worker))
  {
    ExecTwo(cfg, s, Raise, ReleaseJob);
  }

  lemma Sent(cfg: Settings, s: State, draws: Draws)
    requires s.worker.Busy? && s.worker.phase.Granted? && s.worker.job < |s.db.jobs|
    requires draws.dmId != "" && draws.dmId !in s.provider.dms
    ensures var j, c := s.worker.job, s.worker.cycle;
            var s' := Exec(cfg, s, [Send, Land(j, c, draws)]);
            s' == s.(worker := s.worker.(phase := Awaiting), sent := s'.sent, sends := s'.sends, origin := s'.origin,
                     provider := SendDm(s.provider, Some(Key(j, c)), s.db.jobs[j].userId, s.now, draws).0)
  {
    hide SendDm, Key;
    ExecTwo(cfg, s, Send, Land(s.worker.job, s.worker.cycle, draws));
  }

  lemma Answered(cfg: Settings, s: State, before: Provider, draws: Draws, draw: real)
    requires s.worker.Busy? && s.worker.phase == Awaiting && s.worker.job < |s.db.jobs| && draws.dmId != ""
    requires IsDraw(cfg, s.db.jobs[s.worker.job].transientFailures + 1, draw)
    requires forall k :: k in before.byKey ==> before.byKey[k] != ""
    requires var j := s.worker.job;
             s.provider == SendDm(before, Some(Key(j, s.worker.cycle)), s.db.jobs[j].userId, s.now, draws).0
    ensures var j := s.worker.job;
            var reply := SendDm(before, Some(Key(j, s.worker.cycle)), s.db.jobs[j].userId, s.now, draws).1;
            var row := AfterSend(cfg, s.db.jobs[j], ToResult(reply), s.now, draw);
            !Violates(s.db.jobs, j, row) ==>
              Exec(cfg, s, [Respond(ToResult(reply)), ApplyResult(draw)])
              == WithJobs(s, s.db.jobs[j := row]).(worker := Idle)
  {
    hide SendDm, AfterSend, Violates, Key;
    var j, c := s.worker.job, s.worker.cycle;
    var reply := SendDm(before, Some(Key(j, c)), s.db.jobs[j].userId, s.now, draws).1;
    MockIsAllowed(s.(provider := before), j, c, draws);
    assert s.(provider := before).(provider := s.provider) == s;
    assert Enabled(cfg, s, Respond(ToResult(reply)));
    ExecTwo(cfg, s, Respond(ToResult(reply)), ApplyResult(draw));
  }

  /** The provider gives a fresh id and the jitter drawn is one of the job's band. */
  ghost predicate Possible(cfg: Settings, s: State, id: nat, draws: Draws, draw: real) {
    && draws.dmId != "" && draws.dmId !in s.provider.dms
    && (forall k :: k in s.provider.byKey ==> s.provider.byKey[k] != "")
    && id < |s.db.jobs| && IsDraw(cfg, s.db.jobs[id].transientFailures + 1, draw)
  }

  /** Time passes, the worker acts, its request lands; nothing else happens. */
  predicate OwnActions(run: seq<Action>) {
    forall k :: 0 <= k < |run| ==> run[k].Tick? || run[k].Land? || OfWorker(run[k])
  }

  lemma OnlyTicks(cfg: Settings, s: State, later: real)
    requires s.now <= later
    ensures Exec(cfg, s, [Tick(later)]) == s.(now := later) && OwnActions([Tick(later)])
  {
    ExecOne(cfg, s, Tick(later));
  }

  lemma ThenTicks(cfg: Settings, s: State, run: seq<Action>, later: real)
    ensures Exec(cfg, s, run).now <= later ==> Exec(cfg, s, run + [Tick(later)]) == Exec(cfg, s, run).(now := later)
    ensures OwnActions(run) ==> OwnActions(run + [Tick(later)])
  {
    if Exec(cfg, s, run).now <= later {
      ExecConcat(cfg, s, run, [Tick(later)]);
      OnlyTicks(cfg, Exec(cfg, s, run), later);
    }
  }

  /** One undisturbed round of the DM worker is a run: it ends with the table, the limiter,
      the provider and the clock that `DMWorker.RunOnce` leaves. */
  lemma RoundIsRun(cfg: Settings, s: State, id: nat, claimedAt: real, sentAt: real, draws: Draws, draw: real,
                   fault: Fault)
    returns (run: seq<Action>)
    requires s.worker == Idle && s.now <= claimedAt <= sentAt && IsNext(s.db.jobs, claimedAt, id)
    requires UniqueSlots(s.db.jobs) && Limiter.HasSlot(cfg.maxCalls, cfg.window, s.limiter, sentAt)
    ensures OwnActions(run)
    ensures Possible(cfg, s, id, draws, draw) ==>
              var claimed := Claim(s.db.jobs, id, claimedAt);
              var key := Key(id, claimed[id].sendCycle);
              var (p, reply) := SendDm(s.provider, Some(key), claimed[id].userId, sentAt, draws);
              var s' := Exec(cfg, s, run);
              && s'.worker == Idle && s'.now == sentAt && s'.limiter == Limiter.Grant(cfg.window, s.limiter, sentAt)
              && s'.provider == (if fault == BeforeSend then s.provider else p)
              && s'.db == s.db.(jobs := claimed[id := if fault == NoFault
                                                     then AfterSend(cfg, claimed[id], ToResult(reply), sentAt, draw)
                                                     else claimed[id].(status := Queued, updatedAt := sentAt)])
              && s'.batch == s.batch && s'.recon == s.recon
  {
    hide SendDm, AfterSend, Violates, Key, Limiter.Grant, Limiter.HasSlot, Exec, Enabled, Step, UniqueSlots, IsDraw;
    var jobs := Claim(s.db.jobs, id, claimedAt);
    var c := jobs[id].sendCycle;
    var reply := SendDm(s.provider, Some(Key(id, c)), jobs[id].userId, sentAt, draws).1;
    var start, rest := Claiming(id, claimedAt, sentAt), Delivering(id, c, draws, reply, draw, fault);
    run := start + rest;
    if Possible(cfg, s, id, draws, draw) {
      TakenUp(cfg, s, id, claimedAt, sentAt);
      ExecConcat(cfg, s, start, rest);
      QuietKeepsUnique(s.db.jobs, jobs);
      AppliedInTurn(cfg, jobs, id, ToResult(reply), sentAt, draw);
      SentAndAnswered(cfg, Exec(cfg, s, start), draws, reply, draw, fault);
    }
  }

  /** From the grant on. */
  lemma SentAndAnswered(cfg: Settings, s: State, draws: Draws, reply: Reply, draw: real, fault: Fault)
    requires s.worker.Busy? && s.worker.phase.Granted? && Possible(cfg, s, s.worker.job, draws, draw)
    requires s.db.jobs[s.worker.job].status == Sending
    requires var j := s.worker.job;
             && reply == SendDm(s.provider, Some(Key(j, s.worker.cycle)), s.db.jobs[j].userId, s.now, draws).1
             && !Violates(s.db.jobs, j, AfterSend(cfg, s.db.jobs[j], ToResult(reply), s.now, draw))
    ensures var j := s.worker.job;
            var p := SendDm(s.provider, Some(Key(j, s.worker.cycle)), s.db.jobs[j].userId, s.now, draws).0;
            var s' := Exec(cfg, s, Delivering(j, s.worker.cycle, draws, reply, draw, fault));
            s' == s.(worker := Idle, unheard := s'.unheard, sent := s'.sent, sends := s'.sends, origin := s'.origin,
                     provider := if fault == BeforeSend then s.provider else p,
                     db := s.db.(jobs := s.db.jobs[j :=
                                   if fault == NoFault then AfterSend(cfg, s.db.jobs[j], ToResult(reply), s.now, draw)
                                   else s.db.jobs[j].(status := Queued, updatedAt := s.now)]))
  {
    hide SendDm, AfterSend, Violates, Key, Exec, Enabled, Step, IsDraw;
    if fault == BeforeSend {
      Released(cfg, s);
    } else {
      Sent(cfg, s, draws);
      var out := [Send, Land(s.worker.job, s.worker.cycle, draws)];
      if fault == ResponseLost {
        ExecConcat(cfg, s, out, DROP);
        Released(cfg, Exec(cfg, s, out));
      } else {
        ExecConcat(cfg, s, out, [Respond(ToResult(reply)), ApplyResult(draw)]);
        Answered(cfg, Exec(cfg, s, out), s.provider, draws, draw);
      }
    }
  }

  /** With nobody in between, the index never refuses a send result. */
  lemma AppliedInTurn(cfg: Settings, jobs: seq<Job>, id: nat, result: SendResult, now: real, draw: real)
    requires id < |jobs| && UniqueSlots(jobs) && jobs[id].status == Sending
    ensures !Violates(jobs, id, AfterSend(cfg, jobs[id], result, now, draw))
  {
    LiveRowWrites(jobs, id, AfterSend(cfg, jobs[id], result, now, draw));
  }

  /** What each answer of the provider makes of a job. */
  ghost predicate AnsweredBy(cfg: Settings, job: Job, row: Job, reply: Reply, now: real) {
    && SameOrigin(job, row) && row.sendCycle == job.sendCycle && row.updatedAt == now
    && match reply
       case Accepted202(d) =>
         && row.status == Accepted && row.dmId == Some(d) && row.nextRetryAt == None
         && row.attempts == job.attempts + 1 && row.transientFailures == 0
       case Limited429(wait) =>
         && row.status == RetryWait && row.nextRetryAt == Some(now + wait)
         && row.attempts == job.attempts && row.transientFailures == job.transientFailures
       case Invalid400 => row.status == Failed && row.nextRetryAt == None && row.attempts == job.attempts + 1
       case Error500 =>
         && row.attempts == job.attempts + 1 && row.transientFailures == job.transientFailures + 1
         && if row.transientFailures >= cfg.maxDmAttempts then row.status == Failed && row.nextRetryAt == None
            else && row.status == RetryWait && row.nextRetryAt.Some?
                 && InBand(cfg, row.transientFailures, row.nextRetryAt.value - now)
  }

  lemma ReplyDecides(cfg: Settings, job: Job, reply: Reply, now: real, draw: real)
    requires cfg.Sensible() && IsDraw(cfg, job.transientFailures + 1, draw)
    requires reply.Accepted202? ==> reply.dmId != ""
    ensures AnsweredBy(cfg, job, AfterSend(cfg, job, ToResult(reply), now, draw), reply, now)
  {
    hide InBand, Delay, IsDraw;
    DelayAllowed(cfg, job.transientFailures + 1, draw);
  }

  lemma DelayAllowed(cfg: Settings, n: nat, draw: real)
    requires cfg.Sensible() && n >= 1 && IsDraw(cfg, n, draw)
    ensures InBand(cfg, n, Delay(cfg, n, draw))
  {
    hide InBand, Delay;
    assert IsDelay(cfg, n, Delay(cfg, n, draw));
    IsDelayIff(cfg, n, Delay(cfg, n, draw));
  }

  /** The DM an accepted answer names has a name. */
  lemma NamedReply(p: Provider, key: Option<string>, recipient: string, now: real, draws: Draws)
    requires draws.dmId != "" && forall k :: k in p.byKey ==> p.byKey[k] != ""
    ensures var reply := SendDm(p, key, recipient, now, draws).1; reply.Accepted202? ==> reply.dmId != ""
  {
  }

  /** The row the worker writes is the one the provider's answer decides. */
  lemma AnswerWritten(cfg: Settings, s: State, id: nat, claimedAt: real, at: real, draws: Draws, draw: real)
    requires id < |s.db.jobs|
    ensures Possible(cfg, s, id, draws, draw) && cfg.Sensible() ==>
              var job := Claim(s.db.jobs, id, claimedAt)[id];
              var reply := SendDm(s.provider, Some(Key(id, job.sendCycle)), job.userId, at, draws).1;
              AnsweredBy(cfg, job, AfterSend(cfg, job, ToResult(reply), at, draw), reply, at)
  {
    hide SendDm, AfterSend, AnsweredBy, Key;
    if Possible(cfg, s, id, draws, draw) && cfg.Sensible() {
      var job := Claim(s.db.jobs, id, claimedAt)[id];
      var reply := SendDm(s.provider, Some(Key(id, job.sendCycle)), job.userId, at, draws).1;
      NamedReply(s.provider, Some(Key(id, job.sendCycle)), job.userId, at, draws);
      ReplyDecides(cfg, job, reply, at, draw);
    }
  }

  // ----- The event worker ------------------------------------------------

  /** One event of the batch after another, at its time, committed or rolled back. */
  function EventTurns(ks: seq<nat>, fails: nat -> bool, at: nat -> real): seq<Action> {
    if ks == [] then []
    else
      var k := ks[|ks| - 1];
      EventTurns(ks[..|ks| - 1], fails, at) + [Tick(at(k)), if fails(k) then EventFails else HandleEvent]
  }

  /** The head of the batch is handled at its time, or raises. */
  lemma OneTurn(cfg: Settings, s: State, raises: bool, at: real)
    requires s.batch != [] && s.batch[0] < |s.db.events| && s.now <= at
    ensures Exec(cfg, s, [Tick(at), if raises then EventFails else HandleEvent])
            == s.(db := if raises then RetryEvent(s.db, s.batch[0]) else ProcessEvent(cfg, s.db, s.batch[0], at),
                  batch := s.batch[1..], now := at)
  {
    hide ProcessEvent, RetryEvent;
    ExecTwo(cfg, s, Tick(at), if raises then EventFails else HandleEvent);
  }

  /** One undisturbed batch of events is a run: `Database.ProcessPendingEvents` leaves the
      database that the actions leave. */
  lemma {:induction false} BatchIsRun(cfg: Settings, s: State, ks: seq<nat>, fails: nat -> bool, at: nat -> real)
    requires |ks| <= |s.batch| && ks == s.batch[..|ks|]
    requires forall a :: 0 <= a < |ks| ==> ks[a] < |s.db.events| && at(ks[a]) >= s.now
    requires forall a, b :: 0 <= a < b < |ks| ==> at(ks[a]) <= at(ks[b])
    ensures Exec(cfg, s, EventTurns(ks, fails, at))
            == s.(db := Database.HandleBatch(cfg, s.db, ks, fails, at), batch := s.batch[|ks|..],
                  now := if ks == [] then s.now else at(ks[|ks| - 1]))
  {
    hide ProcessEvent, RetryEvent, Exec, Step, Enabled;
    if ks == [] {
      ExecNothing(cfg, s);
    } else {
      var n := |ks| - 1;
      var k, init := ks[n], ks[..n];
      var last := if fails(k) then EventFails else HandleEvent;
      BatchIsRun(cfg, s, init, fails, at);
      var s1 := Exec(cfg, s, EventTurns(init, fails, at));
      assert s1.batch == s.batch[n..] && s1.batch[0] == k && s1.batch[1..] == s.batch[|ks|..];
      ExecConcat(cfg, s, EventTurns(init, fails, at), [Tick(at(k)), last]);
      OneTurn(cfg, s1, fails(k), at(k));
    }
  }

  /** From the claim on. */
  lemma PendingIsRun(cfg: Settings, s: State, limit: nat, ks: seq<nat>, fails: nat -> bool, at: nat -> real)
    requires s.batch == [] && IsEventBatch(s.db, limit, ks)
    requires forall a :: 0 <= a < |ks| ==> at(ks[a]) >= s.now
    requires forall a, b :: 0 <= a < b < |ks| ==> at(ks[a]) <= at(ks[b])
    ensures var start := s.db.(events := ClaimEvents(s.db.events, ks));
            var s' := Exec(cfg, s, [TakeEvents(ks, limit)] + EventTurns(ks, fails, at));
            s' == s.(db := Database.HandleBatch(cfg, start, ks, fails, at), batch := [], now := s'.now)
  {
    var take := TakeEvents(ks, limit);
    var taken := Do(cfg, s, take);
    ExecConcat(cfg, s, [take], EventTurns(ks, fails, at));
    ExecOne(cfg, s, take);
    BatchIsRun(cfg, taken, ks, fails, at);
  }

  // ----- The reconciler --------------------------------------------------

  /** `ReconciliationService._apply`: only the status is re-checked. */
  function StatusWritten(cfg: Settings, jobs: seq<Job>, id: nat, status: Option<string>, now: real,
                         draw: real): seq<Job> {
    if id >= |jobs| || jobs[id].status != Accepted then jobs
    else WriteBack(jobs, id, AfterStatus(cfg, jobs[id], status, now, draw))
  }

  /** Between the status read and its write anything may have happened to the job: the write the
      reconciler does is the one of the pipeline, and does nothing unless the job is accepted. */
  lemma WrittenIsApplied(cfg: Settings, s: State, draw: real)
    requires Enabled(cfg, s, ApplyStatus(draw))
    ensures var id, status := s.recon.queue[0].0, s.recon.reply.value;
            var jobs := StatusWritten(cfg, s.db.jobs, id, status, s.now, draw);
            && Step(cfg, s, ApplyStatus(draw)).db == s.db.(jobs := jobs)
            && (s.db.jobs[id].status != Accepted ==> jobs == s.db.jobs)
  {
    hide AfterStatus, WriteBack;
  }

  /** The worker's write, whatever has become of the row, is the one of the pipeline. */
  lemma ResultIsApplied(cfg: Settings, s: State, draw: real)
    requires Enabled(cfg, s, ApplyResult(draw))
    ensures var id := s.worker.job;
            var row := AfterSend(cfg, s.db.jobs[id], s.worker.phase.result, s.now, draw);
            Step(cfg, s, ApplyResult(draw)).db == s.db.(jobs := WriteBack(s.db.jobs, id, row))
  {
    hide AfterSend, Violates;
  }

  /** What one polling cycle meets: when each status is read, which calls fail, the jitter drawn. */
  datatype Conditions = Conditions(at: nat -> real, outage: nat -> bool, draw: nat -> real)

  /** The table and the provider after the batch `queue` was polled. */
  function PollAll(cfg: Settings, jobs: seq<Job>, p: Provider, queue: seq<(nat, string)>,
                   c: Conditions): (seq<Job>, Provider) {
    if queue == [] then (jobs, p)
    else
      var n := |queue| - 1;
      var (jobs1, p1) := PollAll(cfg, jobs, p, queue[..n], c);
      if c.outage(n) then (jobs1, p1)
      else
        var (p2, status) := GetDm(p1, queue[n].1, c.at(n));
        if status.None? then (jobs1, p2)
        else (StatusWritten(cfg, jobs1, queue[n].0, Some(StatusText(status.value)), c.at(n), c.draw(n)), p2)
  }

  /** What entry k of the batch makes of its row. */
  function Judged(cfg: Settings, jobs: seq<Job>, p: Provider, queue: seq<(nat, string)>, c: Conditions, k: nat): Job
    requires k < |queue| && queue[k].0 < |jobs|
  {
    var job := jobs[queue[k].0];
    var status := GetDm(PollAll(cfg, jobs, p, queue[..k], c).1, queue[k].1, c.at(k)).1;
    if c.outage(k) || status.None? then job
    else AfterStatus(cfg, job, Some(StatusText(status.value)), c.at(k), c.draw(k))
  }

  /** The rows after some of a batch was polled: each entry's row as its own DM says, every
      other row as it was. */
  ghost predicate BatchJudged(cfg: Settings, jobs: seq<Job>, p: Provider, queue: seq<(nat, string)>, c: Conditions,
                              jobs': seq<Job>)
  {
    && |jobs'| == |jobs|
    && (forall k :: 0 <= k < |queue| ==>
          queue[k].0 < |jobs| && jobs'[queue[k].0] == Judged(cfg, jobs, p, queue, c, k))
    && (forall i :: 0 <= i < |jobs| && (forall k :: 0 <= k < |queue| ==> queue[k].0 != i) ==> jobs'[i] == jobs[i])
  }

  lemma {:induction false} PollAllJudges(cfg: Settings, jobs: seq<Job>, p: Provider, queue: seq<(nat, string)>,
                                         c: Conditions)
    requires UniqueSlots(jobs)
    requires forall k :: 0 <= k < |queue| ==> queue[k].0 < |jobs| && jobs[queue[k].0].status == Accepted
    requires forall k, l :: 0 <= k < l < |queue| ==> queue[k].0 != queue[l].0
    ensures BatchJudged(cfg, jobs, p, queue, c, PollAll(cfg, jobs, p, queue, c).0)
    ensures UniqueSlots(PollAll(cfg, jobs, p, queue, c).0)
  {
    hide Judged, GetDm, StatusWritten, UniqueSlots;
    if queue != [] {
      var n := |queue| - 1;
      var init := queue[..n];
      PollAllJudges(cfg, jobs, p, init, c);
      var jobs1 := PollAll(cfg, jobs, p, init, c).0;
      assert jobs1[queue[n].0] == jobs[queue[n].0];
      LastJudged(cfg, jobs, p, queue, c, jobs1);
      assert queue == init + [queue[n]];
      JudgedOneMore(cfg, jobs, p, init, queue[n], c, jobs1);
    }
  }

  /** The last entry writes its own row and no other. */
  lemma LastJudged(cfg: Settings, jobs: seq<Job>, p: Provider, queue: seq<(nat, string)>, c: Conditions,
                   jobs1: seq<Job>)
    requires queue != [] && jobs1 == PollAll(cfg, jobs, p, queue[..|queue| - 1], c).0 && UniqueSlots(jobs1)
    requires |jobs1| == |jobs| && queue[|queue| - 1].0 < |jobs|
    requires jobs1[queue[|queue| - 1].0] == jobs[queue[|queue| - 1].0]
    requires jobs[queue[|queue| - 1].0].status == Accepted
    ensures var n := |queue| - 1;
            var end := PollAll(cfg, jobs, p, queue, c).0;
            end == jobs1[queue[n].0 := Judged(cfg, jobs, p, queue, c, n)] && UniqueSlots(end)
  {
    var n := |queue| - 1;
    var row := Judged(cfg, jobs, p, queue, c, n);
    LiveRowWrites(jobs1, queue[n].0, row);
    WriteBackKeepsUnique(jobs1, queue[n].0, row);
  }

  lemma JudgedOneMore(cfg: Settings, jobs: seq<Job>, p: Provider, init: seq<(nat, string)>, last: (nat, string),
                      c: Conditions, jobs1: seq<Job>)
    requires last.0 < |jobs| && BatchJudged(cfg, jobs, p, init, c, jobs1)
    requires forall k :: 0 <= k < |init| ==> init[k].0 != last.0
    ensures var queue := init + [last];
            BatchJudged(cfg, jobs, p, queue, c, jobs1[last.0 := Judged(cfg, jobs, p, queue, c, |init|)])
  {
    hide Judged, PollAll;
    var queue := init + [last];
    var jobs' := jobs1[last.0 := Judged(cfg, jobs, p, queue, c, |init|)];
    forall k | 0 <= k < |queue| ensures queue[k].0 < |jobs| && jobs'[queue[k].0] == Judged(cfg, jobs, p, queue, c, k) {
      if k < |init| {
        assert queue[k] == init[k];
        JudgedEarlier(cfg, jobs, p, init, last, c, k);
      }
    }
    forall i | 0 <= i < |jobs| && (forall k :: 0 <= k < |queue| ==> queue[k].0 != i) ensures jobs'[i] == jobs[i] {
      assert queue[|init|].0 != i;
      assert forall k :: 0 <= k < |init| ==> init[k] == queue[k];
    }
  }

  /** What is read for an entry does not depend on later ones. */
  lemma JudgedEarlier(cfg: Settings, jobs: seq<Job>, p: Provider, init: seq<(nat, string)>, last: (nat, string),
                      c: Conditions, k: nat)
    requires k < |init| && init[k].0 < |jobs|
    ensures Judged(cfg, jobs, p, init + [last], c, k) == Judged(cfg, jobs, p, init, c, k)
  {
    hide PollAll;
    assert (init + [last])[..k] == init[..k];
  }

  lemma PollNothing(cfg: Settings, jobs: seq<Job>, p: Provider, queue: seq<(nat, string)>, c: Conditions)
    ensures PollAll(cfg, jobs, p, queue[..0], c) == (jobs, p)
  {
  }

  /** One more entry of the batch. */
  lemma PollNext(cfg: Settings, jobs: seq<Job>, p: Provider, queue: seq<(nat, string)>, c: Conditions, i: nat)
    requires i < |queue|
    ensures var (jobs1, p1) := PollAll(cfg, jobs, p, queue[..i], c);
            var (p2, status) := GetDm(p1, queue[i].1, c.at(i));
            PollAll(cfg, jobs, p, queue[..i + 1], c)
            == (if c.outage(i) then (jobs1, p1)
                else if status.None? then (jobs1, p2)
                else (StatusWritten(cfg, jobs1, queue[i].0, Some(StatusText(status.value)), c.at(i), c.draw(i)), p2))
  {
    assert queue[..i + 1][..i] == queue[..i];
  }

  // What the batch reads.

  /** What each delivery status makes of an accepted job. */
  ghost predicate ReadAs(cfg: Settings, job: Job, row: Job, status: DmStatus, now: real) {
    && SameOrigin(job, row) && row.updatedAt == now
    && match status
       case DmDelivered =>
         row.status == Delivered && row.nextRetryAt == None && row.sendCycle == job.sendCycle && row.dmId == job.dmId
       case DmFailed =>
         && row.sendCycle == job.sendCycle + 1 && row.attempts == job.attempts + 1 && row.dmId == None
         && if row.sendCycle >= cfg.maxDeliveryAttempts then row.status == Failed && row.nextRetryAt == None
            else && row.status == RetryWait && row.transientFailures == 0 && row.nextRetryAt.Some?
                 && InBand(cfg, row.sendCycle, row.nextRetryAt.value - now)
       case DmQueued => row.status == Accepted && row.sendCycle == job.sendCycle && row.dmId == job.dmId
  }

  lemma StatusDecides(cfg: Settings, job: Job, status: DmStatus, now: real, draw: real)
    requires cfg.Sensible() && job.status == Accepted && IsDraw(cfg, job.sendCycle + 1, draw)
    ensures ReadAs(cfg, job, AfterStatus(cfg, job, Some(StatusText(status)), now, draw), status, now)
  {
    hide InBand, Delay, IsDraw;
    DelayAllowed(cfg, job.sendCycle + 1, draw);
  }

  /** The DM is there, and what is read of it from now on does not depend on the reads so far. */
  ghost predicate SameFate(p: Provider, p': Provider, d: string, from: real) {
    d in p.dms && d in p'.dms && forall t :: t >= from ==> Fate(p'.dms[d], t) == Fate(p.dms[d], t)
  }

  lemma {:induction false} PrefixFate(cfg: Settings, jobs: seq<Job>, p: Provider, queue: seq<(nat, string)>,
                                      c: Conditions, d: string, from: real)
    requires d in p.dms && forall k :: 0 <= k < |queue| ==> c.at(k) <= from
    ensures SameFate(p, PollAll(cfg, jobs, p, queue, c).1, d, from)
  {
    hide Fate, GetDm, StatusWritten, StatusText;
    if queue != [] {
      var n := |queue| - 1;
      PrefixFate(cfg, jobs, p, queue[..n], c, d, from);
      var p1 := PollAll(cfg, jobs, p, queue[..n], c).1;
      OneMoreRead(p1, queue[n].1, c.at(n), d, from);
    }
  }

  lemma OneMoreRead(p: Provider, e: string, at: real, d: string, from: real)
    requires d in p.dms && at <= from
    ensures SameFate(p, GetDm(p, e, at).0, d, from)
  {
    hide Fate, GetDm;
    ReadTellsFate(p, e, at);
    if e == d {
      forall t | t >= from ensures Fate(GetDm(p, e, at).0.dms[d], t) == Fate(p.dms[d], t) {
        FateSettles(p.dms[d], at, t);
      }
    }
  }

  lemma {:induction false} PrefixKnows(cfg: Settings, jobs: seq<Job>, p: Provider, queue: seq<(nat, string)>,
                                       c: Conditions, d: string)
    ensures d in PollAll(cfg, jobs, p, queue, c).1.dms <==> d in p.dms
  {
    hide StatusWritten, StatusText;
    if queue != [] {
      PrefixKnows(cfg, jobs, p, queue[..|queue| - 1], c, d);
    }
  }

  /** A call that fails, or names an unknown DM, leaves the row alone. */
  lemma UnreadStays(cfg: Settings, jobs: seq<Job>, p: Provider, queue: seq<(nat, string)>, c: Conditions, k: nat)
    requires k < |queue| && queue[k].0 < |jobs| && (c.outage(k) || queue[k].1 !in p.dms)
    ensures Judged(cfg, jobs, p, queue, c, k) == jobs[queue[k].0]
  {
    hide PollAll;
    PrefixKnows(cfg, jobs, p, queue[..k], c, queue[k].1);
  }

  /** Statuses are read one after the other, and every jitter drawn is in its band. */
  ghost predicate Orderly(cfg: Settings, jobs: seq<Job>, queue: seq<(nat, string)>, c: Conditions) {
    && (forall k, l :: 0 <= k < l < |queue| ==> c.at(k) <= c.at(l))
    && (forall k :: 0 <= k < |queue| ==>
          queue[k].0 < |jobs| && IsDraw(cfg, jobs[queue[k].0].sendCycle + 1, c.draw(k)))
  }

  /** Every entry whose call succeeds ends as the fate of its DM says. */
  lemma JudgedByFate(cfg: Settings, jobs: seq<Job>, p: Provider, queue: seq<(nat, string)>, c: Conditions, k: nat)
    requires cfg.Sensible() && Orderly(cfg, jobs, queue, c)
    requires k < |queue| && queue[k].0 < |jobs| && jobs[queue[k].0].status == Accepted
    requires !c.outage(k) && queue[k].1 in p.dms
    ensures var job := jobs[queue[k].0];
            ReadAs(cfg, job, Judged(cfg, jobs, p, queue, c, k), Fate(p.dms[queue[k].1], c.at(k)), c.at(k))
  {
    hide Fate, GetDm, StatusText, AfterStatus, ReadAs, IsDraw, PollAll;
    var d := queue[k].1;
    PrefixFate(cfg, jobs, p, queue[..k], c, d, c.at(k));
    var p1 := PollAll(cfg, jobs, p, queue[..k], c).1;
    ReadTellsFate(p1, d, c.at(k));
    StatusDecides(cfg, jobs[queue[k].0], Fate(p.dms[d], c.at(k)), c.at(k), c.draw(k));
  }

  // One cycle as a run.

  /** The actions by which entry k of the batch is checked. */
  function Checking(p: Provider, entry: (nat, string), c: Conditions, k: nat): seq<Action> {
    var (p', status) := GetDm(p, entry.1, c.at(k));
    [Tick(c.at(k))]
    + if c.outage(k) || status.None? then [PollFails]
      else (if p' != p then [Settle(entry.1, status.value)] else [])
           + [Poll(Some(StatusText(status.value))), ApplyStatus(c.draw(k))]
  }

  function Cycle(cfg: Settings, jobs: seq<Job>, p: Provider, queue: seq<(nat, string)>, c: Conditions): seq<Action> {
    if queue == [] then []
    else
      var n := |queue| - 1;
      var init := queue[..n];
      Cycle(cfg, jobs, p, init, c) + Checking(PollAll(cfg, jobs, p, init, c).1, queue[n], c, n)
  }

  lemma CheckIsRun(cfg: Settings, s: State, c: Conditions, k: nat)
    requires s.recon.Polling? && s.recon.queue != [] && s.recon.reply.None? && s.now <= c.at(k)
    requires var id := s.recon.queue[0].0;
             id < |s.db.jobs| && s.db.jobs[id].status == Accepted
             && IsDraw(cfg, s.db.jobs[id].sendCycle + 1, c.draw(k))
    ensures var entry := s.recon.queue[0];
            var (p', status) := GetDm(s.provider, entry.1, c.at(k));
            Exec(cfg, s, Checking(s.provider, entry, c, k))
            == s.(now := c.at(k), recon := Polling(s.recon.queue[1..], None),
                  provider := if c.outage(k) then s.provider else p',
                  db := s.db.(jobs := if c.outage(k) || status.None? then s.db.jobs
                                      else StatusWritten(cfg, s.db.jobs, entry.0, Some(StatusText(status.value)),
                                                         c.at(k), c.draw(k))))
  {
    hide Exec, Step, Enabled, AfterStatus, WriteBack, IsDraw, StatusText;
    var entry := s.recon.queue[0];
    var (p', status) := GetDm(s.provider, entry.1, c.at(k));
    var s1 := s.(now := c.at(k));
    OnlyTicks(cfg, s, c.at(k));
    if c.outage(k) || status.None? {
      ExecConcat(cfg, s, [Tick(c.at(k))], [PollFails]);
      Unread(cfg, s1);
    } else {
      var settle := if p' != s.provider then [Settle(entry.1, status.value)] else [];
      var read := [Poll(Some(StatusText(status.value))), ApplyStatus(c.draw(k))];
      ExecConcat(cfg, s, [Tick(c.at(k))], settle + read);
      ExecConcat(cfg, s1, settle, read);
      Settled(cfg, s1, entry.1);
      MockReportsTruth(s.provider, entry.1, c.at(k));
      ReadAndApplied(cfg, s1.(provider := p'), Some(StatusText(status.value)), c.draw(k));
    }
  }

  lemma Unread(cfg: Settings, s: State)
    requires s.recon.Polling? && s.recon.queue != [] && s.recon.reply.None?
    ensures Exec(cfg, s, [PollFails]) == s.(recon := Polling(s.recon.queue[1..], None))
  {
    ExecOne(cfg, s, PollFails);
  }

  /** The provider settles the DM when it is read. */
  lemma Settled(cfg: Settings, s: State, d: string)
    requires GetDm(s.provider, d, s.now).1.Some?
    ensures var (p', status) := GetDm(s.provider, d, s.now);
            Exec(cfg, s, if p' != s.provider then [Settle(d, status.value)] else []) == s.(provider := p')
  {
    ExecOne(cfg, s, Settle(d, GetDm(s.provider, d, s.now).1.value));
  }

  lemma ReadAndApplied(cfg: Settings, s: State, status: Option<string>, draw: real)
    requires s.recon.Polling? && s.recon.queue != [] && s.recon.reply.None?
    requires Truthful(s.provider, s.recon.queue[0].1, status)
    requires var id := s.recon.queue[0].0;
             id < |s.db.jobs| && s.db.jobs[id].status == Accepted && IsDraw(cfg, s.db.jobs[id].sendCycle + 1, draw)
    ensures Exec(cfg, s, [Poll(status), ApplyStatus(draw)])
            == s.(recon := Polling(s.recon.queue[1..], None),
                  db := s.db.(jobs := StatusWritten(cfg, s.db.jobs, s.recon.queue[0].0, status, s.now, draw)))
  {
    hide AfterStatus, WriteBack, IsDraw, Truthful;
    ExecTwo(cfg, s, Poll(status), ApplyStatus(draw));
  }

  /** The statuses are read one after the other, and every jitter drawn is in its band. */
  ghost predicate InTurn(cfg: Settings, s: State, queue: seq<(nat, string)>, c: Conditions) {
    && (forall k :: 0 <= k < |queue| ==>
          && s.now <= c.at(k) && queue[k].0 < |s.db.jobs| && s.db.jobs[queue[k].0].status == Accepted
          && IsDraw(cfg, s.db.jobs[queue[k].0].sendCycle + 1, c.draw(k)))
    && (forall k, l :: 0 <= k < l < |queue| ==> c.at(k) <= c.at(l) && queue[k].0 != queue[l].0)
  }

  lemma {:induction false} CycleIsRun(cfg: Settings, s: State, n: nat, c: Conditions)
    requires s.recon.Polling? && s.recon.reply.None? && n <= |s.recon.queue|
    requires UniqueSlots(s.db.jobs) && InTurn(cfg, s, s.recon.queue, c)
    ensures var queue := s.recon.queue[..n];
            var (jobs, p) := PollAll(cfg, s.db.jobs, s.provider, queue, c);
            Exec(cfg, s, Cycle(cfg, s.db.jobs, s.provider, queue, c))
            == s.(now := if n == 0 then s.now else c.at(n - 1), recon := Polling(s.recon.queue[n..], None),
                  provider := p, db := s.db.(jobs := jobs))
  {
    hide Exec, Step, Enabled, GetDm, Checking, StatusWritten, UniqueSlots, IsDraw;
    var queue := s.recon.queue[..n];
    if n == 0 {
      ExecNothing(cfg, s);
    } else {
      var init := s.recon.queue[..n - 1];
      assert queue[..n - 1] == init;
      CycleIsRun(cfg, s, n - 1, c);
      var s1 := Exec(cfg, s, Cycle(cfg, s.db.jobs, s.provider, init, c));
      NotYetJudged(cfg, s, n, c);
      assert s1.recon.queue[0] == queue[n - 1] && s1.recon.queue[1..] == s.recon.queue[n..];
      CheckIsRun(cfg, s1, c, n - 1);
      ExecConcat(cfg, s, Cycle(cfg, s.db.jobs, s.provider, init, c), Checking(s1.provider, queue[n - 1], c, n - 1));
    }
  }

  lemma ExecNothing(cfg: Settings, s: State)
    ensures Exec(cfg, s, []) == s
  {
  }

  /** The entries checked so far have not touched the row of the next one. */
  lemma NotYetJudged(cfg: Settings, s: State, n: nat, c: Conditions)
    requires s.recon.Polling? && 0 < n <= |s.recon.queue|
    requires UniqueSlots(s.db.jobs) && InTurn(cfg, s, s.recon.queue, c)
    ensures var id := s.recon.queue[n - 1].0;
            var jobs := PollAll(cfg, s.db.jobs, s.provider, s.recon.queue[..n - 1], c).0;
            id < |s.db.jobs| == |jobs| && jobs[id] == s.db.jobs[id]
  {
    hide PollAll, Judged, UniqueSlots, IsDraw;
    PollAllJudges(cfg, s.db.jobs, s.provider, s.recon.queue[..n - 1], c);
  }

  /** One undisturbed cycle of the reconciler is a run: `ReconciliationService.RunOnce` leaves
      the table and the provider that the actions leave. */
  lemma PollingIsRun(cfg: Settings, s: State, ids: seq<nat>, c: Conditions)
    requires s.recon == Resting && IsBatch(s.db.jobs, cfg.batchSize, ids) && UniqueSlots(s.db.jobs)
    requires InTurn(cfg, s, Entries(s.db.jobs, ids), c)
    ensures var queue := Entries(s.db.jobs, ids);
            var cycle := Cycle(cfg, s.db.jobs, s.provider, queue, c);
            var (jobs, p) := PollAll(cfg, s.db.jobs, s.provider, queue, c);
            var s' := Exec(cfg, s, [LoadPending(ids)] + (cycle + [EndPolling]));
            s' == s.(now := s'.now, provider := p, db := s.db.(jobs := jobs))
  {
    hide PollAll, Cycle, UniqueSlots, OldestFirst, Step, Exec;
    var queue := Entries(s.db.jobs, ids);
    var cycle := Cycle(cfg, s.db.jobs, s.provider, queue, c);
    var loaded := s.(recon := Polling(queue, None));
    Loaded(cfg, s, ids);
    CycleIsRun(cfg, loaded, |queue|, c);
    assert queue[..|queue|] == queue;
    ExecConcat(cfg, s, [LoadPending(ids)], cycle + [EndPolling]);
    ExecConcat(cfg, loaded, cycle, [EndPolling]);
    Ended(cfg, Exec(cfg, loaded, cycle));
  }

  lemma Loaded(cfg: Settings, s: State, ids: seq<nat>)
    requires s.recon == Resting && IsBatch(s.db.jobs, cfg.batchSize, ids)
    ensures Exec(cfg, s, [LoadPending(ids)]) == s.(recon := Polling(Entries(s.db.jobs, ids), None))
  {
    ExecOne(cfg, s, LoadPending(ids));
  }

  lemma Ended(cfg: Settings, s: State)
    requires s.recon.Polling? && s.recon.queue == []
    ensures Exec(cfg, s, [EndPolling]) == s.(recon := Resting)
  {
    ExecOne(cfg, s, EndPolling);
  }
}
