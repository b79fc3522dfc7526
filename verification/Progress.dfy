/** No stuck work: what recovery leaves behind, and a way to the end from every reachable state. */
module Progress {
  import opened Models
  import opened Backoff
  import opened JobLifecycle
  import opened JobTable
  import opened EventProcessing
  import Limiter = RateLimiter
  import opened PseudoGram
  import opened Pipeline
  import opened Invariants
  import opened Theorems
  import opened Deletion
  import opened Witnesses
  import opened Ordering

  // ----- Recovery --------------------------------------------------------

  /** After a restart no event is claimed, a job is still `sending` exactly when it was and its
      row was written at this very instant (the stale comparison is strict), any other claimed
      job is queued and stamped now, and nothing else about the jobs changes. */
  lemma RecoveryReclaims(cfg: Settings, s: State, j: nat)
    requires j < |s.db.jobs|
    ensures var s' := Step(cfg, s, Restart);
            && (forall k :: 0 <= k < |s'.db.events| ==> s'.db.events[k].status != Processing)
            && |s'.db.jobs| == |s.db.jobs|
            && (s'.db.jobs[j].status == Sending <==> s.db.jobs[j].status == Sending && s.db.jobs[j].updatedAt >= s.now)
            && s'.db.jobs[j] == if s.db.jobs[j].status == Sending && s'.db.jobs[j].status != Sending
                                then s.db.jobs[j].(status := Queued, updatedAt := s.now) else s.db.jobs[j]
  {
    assert Step(cfg, s, Restart).db.jobs == RequeueStale(s.db.jobs, 0.0, s.now);
  }

  /** The maintenance timer reclaims exactly the jobs claimed more than the stale limit ago. */
  lemma MaintenanceReclaims(cfg: Settings, s: State, j: nat)
    requires j < |s.db.jobs|
    ensures var s' := Step(cfg, s, Requeue);
            && s' == s.(db := s.db.(jobs := s'.db.jobs)) && |s'.db.jobs| == |s.db.jobs|
            && s'.db.jobs[j] == if s.db.jobs[j].status == Sending && s.now - s.db.jobs[j].updatedAt > cfg.staleSeconds
                                then s.db.jobs[j].(status := Queued, updatedAt := s.now) else s.db.jobs[j]
  {
  }

  /** In every reachable state a job in retry_wait has a due time and an accepted job a
      dm_id to ask for, so neither is ever forgotten. */
  lemma NothingForgotten(cfg: Settings, run: seq<Action>, j: nat)
    requires cfg.Sensible()
    ensures var jobs := Exec(cfg, INIT, run).db.jobs;
            j < |jobs| ==>
              && (jobs[j].status == RetryWait ==>
                    jobs[j].nextRetryAt.Some? && Runnable(jobs[j], jobs[j].nextRetryAt.value))
              && (jobs[j].status == Accepted ==> Pollable(jobs[j]) && jobs[j].dmId.value != "")
  {
    ReachableInv(cfg, run);
    var s := Exec(cfg, INIT, run);
    if j < |s.db.jobs| {
      assert RowOk(cfg, s.db.jobs[j], s.now);
    }
  }

  // ----- The way to the end ---------------------------------------------

  /** No actor is in the middle of anything. */
  predicate Calm(s: State) {
    s.batch == [] && s.worker == Idle && s.recon == Resting
  }

  predicate EventsDone(events: seq<Event>) {
    forall k :: 0 <= k < |events| ==> events[k].status in {Processed, Ignored}
  }

  predicate Terminal(status: JobStatus) {
    status in {JobStatus.Delivered, Failed, Cancelled}
  }

  predicate JobsDone(jobs: seq<Job>) {
    forall i :: 0 <= i < |jobs| ==> Terminal(jobs[i].status)
  }

  predicate NoneSending(jobs: seq<Job>) {
    forall i :: 0 <= i < |jobs| ==> jobs[i].status != Sending
  }

  /** Steps a job is away from its end, on the way taken below. */
  function Weight(cfg: Settings, job: Job): nat {
    if Terminal(job.status) then 0
    else if job.sendCycle >= cfg.maxDeliveryAttempts then 1
    else 2 * (cfg.maxDeliveryAttempts - job.sendCycle) + (if job.status == Accepted then 0 else 1)
  }

  function Work(cfg: Settings, jobs: seq<Job>): nat {
    if jobs == [] then 0 else Work(cfg, jobs[..|jobs| - 1]) + Weight(cfg, jobs[|jobs| - 1])
  }

  lemma {:induction false} WorkUpdate(cfg: Settings, jobs: seq<Job>, i: nat, row: Job)
    requires i < |jobs|
    ensures Work(cfg, jobs[i := row]) == Work(cfg, jobs) - Weight(cfg, jobs[i]) + Weight(cfg, row)
  {
    var n := |jobs| - 1;
    if i == n {
      assert jobs[i := row][..n] == jobs[..n];
    } else {
      assert jobs[i := row][..n] == jobs[..n][i := row];
      WorkUpdate(cfg, jobs[..n], i, row);
    }
  }

  /** Job j has not ended, and if the DM of its current key has failed a cycle is left. */
  ghost predicate Deliverable(cfg: Settings, s: State, j: nat) {
    && j < |s.db.jobs| && s.db.jobs[j].status !in {Failed, Cancelled}
    && (Refused(s, j, s.db.jobs[j].sendCycle) ==> s.db.jobs[j].sendCycle + 1 < cfg.maxDeliveryAttempts)
  }

  ghost predicate NoNewFailure(s: State, s': State) {
    forall k: nat, c: nat :: Refused(s', k, c) ==> Refused(s, k, c)
  }

  /** One job moved on and is no less deliverable, all others stayed, and no DM failed. */
  ghost predicate Onward(cfg: Settings, s: State, s': State, j: nat) {
    && j < |s.db.jobs| == |s'.db.jobs|
    && Calm(s') && s'.db == s.db.(jobs := s.db.jobs[j := s'.db.jobs[j]])
    && s'.db.jobs[j].status != Sending && Weight(cfg, s'.db.jobs[j]) < Weight(cfg, s.db.jobs[j])
    && NoNewFailure(s, s')
    && (Deliverable(cfg, s, j) ==> Deliverable(cfg, s', j))
  }

  // Jobs that wait to be sent.

  /** Answer the request that has left with the DM its key stands for. */
  lemma AnswerGranted(cfg: Settings, s: State) returns (run: seq<Action>, s': State, d: string)
    requires s.worker.Busy? && s.worker.phase.Granted? && s.worker.job < |s.db.jobs| && KeysOk(s)
    requires s.db.jobs[s.worker.job].userId != ""
    requires Limiter.After(s.provider.sendTimes, s.now - WINDOW_SECONDS) == []
    ensures s' == Exec(cfg, s, run) && d != ""
    ensures s' == s.(worker := s.worker.(phase := Responded(SendResult(OutAccepted, Some(d), None))),
                     provider := s'.provider, origin := s'.origin, sent := s'.sent, sends := s'.sends)
    ensures NoNewFailure(s, s')
  {
    hide KeysOk, Key, NoNewFailure, SendDm;
    var key := Key(s.worker.job, s.worker.cycle);
    if key in s.provider.byKey {
      d := s.provider.byKey[key];
      NamedDm(s, key);
      run, s' := Replayed(cfg, s, d);
      ProviderSame(s, s');
    } else {
      d := FreshId(s.provider.dms.Keys);
      run, s' := SentAndLanded(cfg, s, d, SendResult(OutAccepted, Some(d), None));
      NewDmIsNoFailure(s, s', d);
    }
  }

  lemma NamedDm(s: State, key: string)
    requires KeysOk(s) && key in s.provider.byKey
    ensures s.provider.byKey[key] != ""
  {
    hide Key;
  }

  /** The key has been used before: the answer names the DM it stands for. */
  lemma Replayed(cfg: Settings, s: State, d: string) returns (run: seq<Action>, s': State)
    requires s.worker.Busy? && s.worker.phase.Granted? && d != ""
    requires Key(s.worker.job, s.worker.cycle) in s.provider.byKey
    requires s.provider.byKey[Key(s.worker.job, s.worker.cycle)] == d
    ensures s' == Exec(cfg, s, run)
    ensures s' == s.(worker := s.worker.(phase := Responded(SendResult(OutAccepted, Some(d), None))),
                     sent := s'.sent, sends := s'.sends)
  {
    hide Key;
    var result := SendResult(OutAccepted, Some(d), None);
    run := [Send, Respond(result)];
    ExecTwo(cfg, s, Send, Respond(result));
    s' := Do(cfg, Do(cfg, s, Send), Respond(result));
  }

  lemma NewDmIsNoFailure(s: State, s': State, d: string)
    requires KeysOk(s) && s.worker.Busy? && d !in s.provider.dms && d in s'.provider.dms
    requires s'.provider.dms == s.provider.dms[d := s'.provider.dms[d]] && s'.provider.dms[d].status == DmQueued
    requires s'.provider.byKey == s.provider.byKey[Key(s.worker.job, s.worker.cycle) := d]
    ensures NoNewFailure(s, s')
  {
    hide Key;
  }

  /** From the grant on: the request leaves and is accepted. */
  lemma AcceptGranted(cfg: Settings, s: State) returns (run: seq<Action>, s': State)
    requires s.worker.Busy? && s.worker.phase.Granted? && s.worker.job < |s.db.jobs| && UniqueSlots(s.db.jobs)
    requires s.db.jobs[s.worker.job].status == Sending && s.db.jobs[s.worker.job].userId != ""
    requires cfg.Sensible() && KeysOk(s) && Limiter.After(s.provider.sendTimes, s.now - WINDOW_SECONDS) == []
    ensures s' == Exec(cfg, s, run) && |s'.db.jobs| == |s.db.jobs|
    ensures s'.batch == s.batch && s'.recon == s.recon && s'.worker == Idle
    ensures s'.db == s.db.(jobs := s.db.jobs[s.worker.job := s'.db.jobs[s.worker.job]])
    ensures s'.db.jobs[s.worker.job].status == Accepted
    ensures s'.db.jobs[s.worker.job].sendCycle == s.db.jobs[s.worker.job].sendCycle
    ensures NoNewFailure(s, s')
  {
    hide KeysOk, Refused, IsDraw, AfterSend;
    var answer, answered, d := AnswerGranted(cfg, s);
    var result := answered.worker.phase.result;
    SendShape(cfg, s.db.jobs[s.worker.job], result, s.now, 0.0);
    LiveRowWrites(s.db.jobs, s.worker.job, AfterSend(cfg, s.db.jobs[s.worker.job], result, s.now, 0.0));
    NoJitter(cfg, s.db.jobs[s.worker.job].transientFailures + 1);
    s' := Do(cfg, answered, ApplyResult(0.0));
    ExecOne(cfg, answered, ApplyResult(0.0));
    ExecConcat(cfg, s, answer, [ApplyResult(0.0)]);
    run := answer + [ApplyResult(0.0)];
    ProviderSame(answered, s');
    FailuresTrans(s, answered, s');
  }

  /** Some job is next to be claimed once job i is due. */
  lemma FirstDue(jobs: seq<Job>, now: real, i: nat) returns (due: real, j: nat)
    requires i < |jobs| && jobs[i].status in {Queued, RetryWait}
    requires jobs[i].status == RetryWait ==> jobs[i].nextRetryAt.Some?
    ensures due >= now && IsNext(jobs, due, j)
  {
    due := if jobs[i].nextRetryAt.Some? && jobs[i].nextRetryAt.value > now then jobs[i].nextRetryAt.value else now;
    assert Runnable(jobs[i], due);
    NextIsNext(jobs, due);
    j := NextBelow(jobs, due, |jobs|).value;
  }

  /** Send one waiting job, once it is due: the first in claim order. */
  lemma SendOne(cfg: Settings, s: State, i: nat) returns (run: seq<Action>, j: nat)
    requires cfg.Sensible() && UniqueSlots(s.db.jobs) && RowsOk(cfg, s) && KeysOk(s) && Calm(s)
    requires i < |s.db.jobs| && s.db.jobs[i].status in {Queued, RetryWait}
    ensures Onward(cfg, s, Exec(cfg, s, run), j)
  {
    hide KeysOk, RowOk, Refused, Key;
    var due;
    due, j := NextDue(cfg, s, i);
    var ticked := Do(cfg, s, Tick(due));
    var claim, granted, later := ClaimedAndGranted(cfg, ticked, j);
    QuietKeepsUnique(s.db.jobs, Claim(s.db.jobs, j, due));
    assert KeysOk(granted) by { KeysElsewhere(s, granted); }
    var send, sent := AcceptGranted(cfg, granted);
    ExecOne(cfg, s, Tick(due));
    ExecConcat(cfg, s, [Tick(due)], claim);
    ExecConcat(cfg, s, [Tick(due)] + claim, send);
    run := [Tick(due)] + claim + send;
    SentJob(s.db.jobs, j, due, sent.db.jobs);
    SentOnward(cfg, s, granted, sent, j);
  }

  lemma NextDue(cfg: Settings, s: State, i: nat) returns (due: real, j: nat)
    requires RowsOk(cfg, s) && i < |s.db.jobs| && s.db.jobs[i].status in {Queued, RetryWait}
    ensures due >= s.now && IsNext(s.db.jobs, due, j) && s.db.jobs[j].userId != ""
    ensures s.db.jobs[j].sendCycle < cfg.maxDeliveryAttempts
  {
    hide Sound;
    assert RowOk(cfg, s.db.jobs[i], s.now);
    due, j := FirstDue(s.db.jobs, s.now, i);
    assert RowOk(cfg, s.db.jobs[j], s.now);
    CycleLeft(cfg, s.db.jobs[j]);
  }

  lemma CycleLeft(cfg: Settings, job: Job)
    requires Sound(cfg, job) && job.status != Failed
    ensures job.sendCycle < cfg.maxDeliveryAttempts
  {
    hide TallyOf;
  }

  lemma KeysElsewhere(s: State, s': State)
    requires KeysOk(s) && s'.provider == s.provider && s'.origin == s.origin && s'.sent == s.sent
    ensures KeysOk(s')
  {
  }

  /** The accepted job is one step nearer and as deliverable as before. */
  lemma SentOnward(cfg: Settings, s: State, granted: State, s': State, j: nat)
    requires j < |s.db.jobs| == |s'.db.jobs| && Calm(s)
    requires s'.db == s.db.(jobs := s.db.jobs[j := s'.db.jobs[j]])
    requires s.db.jobs[j].status in {Queued, RetryWait} && s'.db.jobs[j].status == Accepted
    requires s'.db.jobs[j].sendCycle == s.db.jobs[j].sendCycle < cfg.maxDeliveryAttempts
    requires s'.batch == [] && s'.recon == Resting && s'.worker == Idle
    requires granted.provider == s.provider && NoNewFailure(granted, s')
    ensures Onward(cfg, s, s', j)
  {
    hide Key;
    assert NoNewFailure(s, s');
  }

  lemma SentJob(jobs: seq<Job>, j: nat, now: real, jobs': seq<Job>)
    requires j < |jobs| == |jobs'| && jobs' == Claim(jobs, j, now)[j := jobs'[j]]
    ensures jobs' == jobs[j := jobs'[j]]
  {
  }

  // Accepted jobs.

  /** Have the provider settle a DM that is still queued. */
  lemma SettleDm(cfg: Settings, s: State, d: string) returns (run: seq<Action>, s': State)
    requires d in s.provider.dms
    ensures s' == Exec(cfg, s, run) && s' == s.(provider := s'.provider)
    ensures d in s'.provider.dms && s'.provider.dms[d].status != DmQueued
    ensures s'.provider.dms[d].status == DmFailed <==> s.provider.dms[d].status == DmFailed
    ensures NoNewFailure(s, s')
  {
    if s.provider.dms[d].status == DmQueued {
      run := [Settle(d, DmDelivered)];
      s' := Do(cfg, s, Settle(d, DmDelivered));
      ExecOne(cfg, s, Settle(d, DmDelivered));
    } else {
      run, s' := [], s;
    }
  }

  /** Give up on the rest of a batch. */
  lemma SkipRest(cfg: Settings, s: State) returns (run: seq<Action>)
    requires s.recon.Polling? && s.recon.reply.None?
    ensures Exec(cfg, s, run) == s.(recon := Resting)
    decreases |s.recon.queue|
  {
    if s.recon.queue == [] {
      run := [EndPolling];
      ExecOne(cfg, s, EndPolling);
    } else {
      var s' := Do(cfg, s, PollFails);
      var rest := SkipRest(cfg, s');
      ExecOne(cfg, s, PollFails);
      ExecConcat(cfg, s, [PollFails], rest);
      run := [PollFails] + rest;
    }
  }

  /** The row after its DM was found failed, or delivered. */
  predicate Concluded(cfg: Settings, job: Job, row: Job, failed: bool) {
    if failed then
      && row.sendCycle == job.sendCycle + 1
      && row.status == if row.sendCycle >= cfg.maxDeliveryAttempts then Failed else RetryWait
    else row.sendCycle == job.sendCycle && row.status == JobStatus.Delivered
  }

  /** Apply the verdict read for the head. */
  lemma ApplyHead(cfg: Settings, s: State, j: nat, d: string, verdict: string) returns (s': State)
    requires cfg.Sensible() && UniqueSlots(s.db.jobs) && Awaits(s.db.jobs, (j, d))
    requires s.recon.Polling? && s.recon.queue != [] && s.recon.queue[0] == (j, d)
    requires s.recon.reply == Some(Some(verdict)) && verdict in {"delivered", "failed"}
    ensures s' == Do(cfg, s, ApplyStatus(0.0)) && j < |s'.db.jobs|
    ensures s' == WithJobs(s, s.db.jobs[j := s'.db.jobs[j]]).(recon := Polling(s.recon.queue[1..], None))
    ensures Concluded(cfg, s.db.jobs[j], s'.db.jobs[j], verdict == "failed")
  {
    hide IsDraw, AfterStatus;
    var row := AfterStatus(cfg, s.db.jobs[j], Some(verdict), s.now, 0.0);
    StatusShape(cfg, s.db.jobs[j], Some(verdict), s.now, 0.0);
    LiveRowWrites(s.db.jobs, j, row);
    NoJitter(cfg, s.db.jobs[j].sendCycle + 1);
    s' := Do(cfg, s, ApplyStatus(0.0));
  }

  /** Read the head's settled DM and apply what it says. */
  lemma PollHead(cfg: Settings, s: State, j: nat, d: string) returns (run: seq<Action>, s': State)
    requires s.recon.Polling? && s.recon.reply.None? && s.recon.queue != [] && s.recon.queue[0] == (j, d)
    requires Awaits(s.db.jobs, (j, d)) && UniqueSlots(s.db.jobs)
    requires d in s.provider.dms && s.provider.dms[d].status != DmQueued && cfg.Sensible()
    ensures s' == Exec(cfg, s, run) && j < |s'.db.jobs|
    ensures s' == WithJobs(s, s.db.jobs[j := s'.db.jobs[j]]).(recon := Polling(s.recon.queue[1..], None))
    ensures Concluded(cfg, s.db.jobs[j], s'.db.jobs[j], s.provider.dms[d].status == DmFailed)
  {
    hide Concluded, KeysOk;
    var verdict := if s.provider.dms[d].status == DmDelivered then "delivered" else "failed";
    var polled := Do(cfg, s, Poll(Some(verdict)));
    s' := ApplyHead(cfg, polled, j, d, verdict);
    run := [Poll(Some(verdict)), ApplyStatus(0.0)];
    ExecTwo(cfg, s, Poll(Some(verdict)), ApplyStatus(0.0));
  }

  /** A load of these ids puts the accepted job j, with its dm_id, at the head of the queue. */
  ghost predicate Heads(cfg: Settings, jobs: seq<Job>, ids: seq<nat>, j: nat, d: string) {
    IsBatch(jobs, cfg.batchSize, ids) && ids != [] && ids[0] == j && Awaits(jobs, (j, d))
  }

  lemma LoadOldest(cfg: Settings, s: State) returns (ids: seq<nat>, j: nat, d: string)
    requires cfg.Sensible() && RowsOk(cfg, s)
    requires exists i :: 0 <= i < |s.db.jobs| && s.db.jobs[i].status == Accepted
    ensures Heads(cfg, s.db.jobs, ids, j, d) && s.db.jobs[j].sendCycle < cfg.maxDeliveryAttempts
  {
    hide Sound, OnSchedule, IsBatch;
    var i :| 0 <= i < |s.db.jobs| && s.db.jobs[i].status == Accepted;
    assert RowOk(cfg, s.db.jobs[i], s.now);
    ids := BatchExists(s.db.jobs, cfg.batchSize, []);
    BatchHead(s.db.jobs, cfg.batchSize, ids, i);
    j := ids[0];
    assert RowOk(cfg, s.db.jobs[j], s.now);
    CycleLeft(cfg, s.db.jobs[j]);
    d := s.db.jobs[j].dmId.value;
  }

  lemma BatchHead(jobs: seq<Job>, limit: int, ids: seq<nat>, i: nat)
    requires IsBatch(jobs, limit, ids) && limit >= 1 && i < |jobs| && Pollable(jobs[i])
    ensures ids != [] && ids[0] < |jobs| && Pollable(jobs[ids[0]])
  {
  }

  lemma OwnedDm(s: State, j: nat, d: string)
    requires KeysOk(s) && OwnersOk(s) && j < |s.db.jobs| && s.db.jobs[j].dmId == Some(d)
    ensures MadeFor(s, d, j, s.db.jobs[j].sendCycle) && d in s.provider.dms
  {
    hide Key;
  }

  lemma SettleLoaded(cfg: Settings, s: State, j: nat, d: string) returns (run: seq<Action>)
    requires s.recon.Polling? && s.recon.reply.None? && s.recon.queue != [] && s.recon.queue[0] == (j, d)
    requires Awaits(s.db.jobs, (j, d)) && UniqueSlots(s.db.jobs) && d in s.provider.dms && cfg.Sensible()
    ensures var s' := Exec(cfg, s, run);
            && j < |s'.db.jobs|
            && Concluded(cfg, s.db.jobs[j], s'.db.jobs[j], s.provider.dms[d].status == DmFailed)
            && s' == WithJobs(s, s.db.jobs[j := s'.db.jobs[j]]).(recon := Resting, provider := s'.provider)
            && NoNewFailure(s, s')
  {
    hide Concluded, NoNewFailure, Step, Enabled;
    var settle, settled := SettleDm(cfg, s, d);
    var poll, polled := PollHead(cfg, settled, j, d);
    var skip := SkipRest(cfg, polled);
    run := settle + poll + skip;
    ExecConcat(cfg, s, settle, poll);
    ExecConcat(cfg, s, settle + poll, skip);
    ProviderSame(settled, Exec(cfg, s, run));
    FailuresTrans(s, settled, Exec(cfg, s, run));
  }

  /** The judged job is nearer its end, and still deliverable if it was. */
  lemma ConcludedOnward(cfg: Settings, s: State, s': State, j: nat, d: string)
    requires KeysOk(s) && CyclesOk(s) && Calm(s) && Awaits(s.db.jobs, (j, d))
    requires MadeFor(s, d, j, s.db.jobs[j].sendCycle) && d in s.provider.dms
    requires s.db.jobs[j].sendCycle < cfg.maxDeliveryAttempts
    requires |s'.db.jobs| == |s.db.jobs|
    requires Concluded(cfg, s.db.jobs[j], s'.db.jobs[j], s.provider.dms[d].status == DmFailed)
    requires s' == WithJobs(s, s.db.jobs[j := s'.db.jobs[j]]).(recon := Resting, provider := s'.provider)
    requires NoNewFailure(s, s')
    ensures Onward(cfg, s, s', j)
  {
    hide Key, KeysOk;
    var c := s.db.jobs[j].sendCycle;
    DmOfKey(s, d, j, c);
    NoLaterDm(s, j, c + 1);
    assert s.provider.dms[d].status == DmFailed <==> Refused(s, j, c);
  }

  /** No DM was made for a cycle that has not begun. */
  lemma NoLaterDm(s: State, j: nat, c: nat)
    requires KeysOk(s) && CyclesOk(s) && (j < |s.db.jobs| ==> c > s.db.jobs[j].sendCycle)
    ensures !Refused(s, j, c)
  {
    hide Key;
    if Key(j, c) in s.provider.byKey {
      KeyOwner(s, s.provider.byKey[Key(j, c)], j, c);
    }
  }

  /** Poll one accepted job, the oldest. */
  lemma SettleOne(cfg: Settings, s: State) returns (run: seq<Action>, j: nat)
    requires cfg.Sensible() && UniqueSlots(s.db.jobs) && RowsOk(cfg, s)
    requires KeysOk(s) && CyclesOk(s) && OwnersOk(s) && Calm(s)
    requires exists i :: 0 <= i < |s.db.jobs| && s.db.jobs[i].status == Accepted
    ensures Onward(cfg, s, Exec(cfg, s, run), j)
  {
    hide KeysOk, CyclesOk, OwnersOk, RowsOk, Refused, Key, IsBatch, Onward, Concluded, NoNewFailure;
    var ids, d;
    ids, j, d := LoadOldest(cfg, s);
    OwnedDm(s, j, d);
    var loaded := Loaded(cfg, s, ids, j, d);
    var rest := SettleLoaded(cfg, loaded, j, d);
    ExecConcat(cfg, s, [LoadPending(ids)], rest);
    run := [LoadPending(ids)] + rest;
    assert NoNewFailure(s, loaded) by { ProviderSame(s, loaded); }
    FailuresTrans(s, loaded, Exec(cfg, s, run));
    ConcludedOnward(cfg, s, Exec(cfg, s, run), j, d);
  }

  lemma ProviderSame(s: State, s': State)
    requires s'.provider == s.provider
    ensures NoNewFailure(s, s')
  {
  }

  lemma FailuresTrans(s: State, mid: State, s': State)
    requires NoNewFailure(s, mid) && NoNewFailure(mid, s')
    ensures NoNewFailure(s, s')
  {
  }

  lemma Loaded(cfg: Settings, s: State, ids: seq<nat>, j: nat, d: string) returns (loaded: State)
    requires s.recon.Resting? && Heads(cfg, s.db.jobs, ids, j, d)
    ensures loaded == Exec(cfg, s, [LoadPending(ids)])
    ensures loaded == s.(recon := loaded.recon) && loaded.recon.Polling? && loaded.recon.reply.None?
    ensures loaded.recon.queue != [] && loaded.recon.queue[0] == (j, d)
  {
    loaded := Do(cfg, s, LoadPending(ids));
    ExecOne(cfg, s, LoadPending(ids));
    assert Pollable(s.db.jobs[ids[0]]);
    assert loaded.recon.queue[0] == Entry(s.db.jobs, ids[0]);
  }

  // All jobs.

  /** What bringing jobs to their end keeps. */
  ghost predicate Kept(cfg: Settings, s: State, s': State) {
    && Calm(s') && |s'.db.jobs| == |s.db.jobs| && s'.db == s.db.(jobs := s'.db.jobs)
    && (forall i: nat :: Deliverable(cfg, s, i) ==> Deliverable(cfg, s', i))
    && (forall i :: 0 <= i < |s.db.jobs| && Terminal(s.db.jobs[i].status) ==> s'.db.jobs[i] == s.db.jobs[i])
  }

  lemma OnwardKeeps(cfg: Settings, s: State, s': State, j: nat)
    requires Onward(cfg, s, s', j) && NoneSending(s.db.jobs)
    ensures Kept(cfg, s, s') && NoneSending(s'.db.jobs) && Work(cfg, s'.db.jobs) < Work(cfg, s.db.jobs)
  {
    hide Refused;
    WorkUpdate(cfg, s.db.jobs, j, s'.db.jobs[j]);
    forall i: nat | Deliverable(cfg, s, i) ensures Deliverable(cfg, s', i) {
      if i != j {
        assert s'.db.jobs[i] == s.db.jobs[i];
      }
    }
  }

  lemma KeptTrans(cfg: Settings, s: State, mid: State, s': State)
    requires Kept(cfg, s, mid) && Kept(cfg, mid, s')
    ensures Kept(cfg, s, s')
  {
    hide Deliverable;
  }

  /** One step of some job that has not ended. */
  lemma MoveOne(cfg: Settings, s: State, i: nat) returns (run: seq<Action>, j: nat)
    requires cfg.Sensible() && Inv(cfg, s) && Calm(s) && NoneSending(s.db.jobs)
    requires i < |s.db.jobs| && !Terminal(s.db.jobs[i].status)
    ensures Onward(cfg, s, Exec(cfg, s, run), j)
  {
    hide KeysOk, CyclesOk, OwnersOk, RowsOk, AccountsOk, GrantsOk, CountersOk, Onward;
    if s.db.jobs[i].status == Accepted {
      run, j := SettleOne(cfg, s);
    } else {
      run, j := SendOne(cfg, s, i);
    }
  }

  /** Every job comes to its end, and every deliverable one is delivered. */
  lemma {:induction false} FinishJobs(cfg: Settings, s: State) returns (run: seq<Action>)
    requires cfg.Sensible() && Inv(cfg, s) && Calm(s) && NoneSending(s.db.jobs)
    ensures JobsDone(Exec(cfg, s, run).db.jobs) && Kept(cfg, s, Exec(cfg, s, run))
    decreases Work(cfg, s.db.jobs)
  {
    hide Inv, Kept, Onward, Work, NoneSending;
    if JobsDone(s.db.jobs) {
      run := [];
      KeptSame(cfg, s);
    } else {
      var i :| 0 <= i < |s.db.jobs| && !Terminal(s.db.jobs[i].status);
      var first, j := MoveOne(cfg, s, i);
      var mid := Exec(cfg, s, first);
      OnwardKeeps(cfg, s, mid, j);
      KeptCalm(cfg, s, mid);
      RunKeepsInv(cfg, s, first);
      var rest := FinishJobs(cfg, mid);
      ExecConcat(cfg, s, first, rest);
      run := first + rest;
      KeptTrans(cfg, s, mid, Exec(cfg, s, run));
    }
  }

  lemma KeptSame(cfg: Settings, s: State)
    requires Calm(s)
    ensures Kept(cfg, s, s)
  {
  }

  lemma KeptCalm(cfg: Settings, s: State, s': State)
    requires Kept(cfg, s, s')
    ensures Calm(s')
  {
  }

  // Events.

  /** The rows from n on are new and have not been sent, or their comment was deleted; the
      others have ended. */
  predicate NewFrom(db: Db, n: nat) {
    && n <= |db.jobs|
    && (forall i :: 0 <= i < n ==> Terminal(db.jobs[i].status))
    && (forall i :: n <= i < |db.jobs| ==> db.jobs[i].status == Queued || Withdrawn(db, db.jobs[i]))
  }

  predicate Withdrawn(db: Db, job: Job) {
    job.status == Cancelled && CommentDeleted(db, job.commentId)
  }

  /** Take and handle every event from row k on, oldest first. */
  lemma HandleAll(cfg: Settings, s: State, k: nat, n: nat) returns (run: seq<Action>)
    requires s.batch == [] && k <= |s.db.events| && NewFrom(s.db, n)
    requires forall i :: 0 <= i < k ==> s.db.events[i].status in {Processed, Ignored}
    requires forall i :: k <= i < |s.db.events| ==> s.db.events[i].status != Processing
    ensures var s' := Exec(cfg, s, run);
            && s' == s.(db := s'.db) && EventsDone(s'.db.events)
            && NewFrom(s'.db, n) && s'.db.jobs[..n] == s.db.jobs[..n]
    decreases |s.db.events| - k
  {
    hide Step, Enabled;
    if k == |s.db.events| {
      run := [];
    } else if s.db.events[k].status in {Processed, Ignored} {
      run := HandleAll(cfg, s, k + 1, n);
    } else {
      var s' := HandleOne(cfg, s, k, n);
      var rest := HandleAll(cfg, s', k + 1, n);
      ExecConcat(cfg, s, [TakeEvents([k], 1), HandleEvent], rest);
      run := [TakeEvents([k], 1), HandleEvent] + rest;
    }
  }

  lemma HandleOne(cfg: Settings, s: State, k: nat, n: nat) returns (s': State)
    requires s.batch == [] && k < |s.db.events| && s.db.events[k].status == Received && NewFrom(s.db, n)
    requires forall i :: 0 <= i < k ==> s.db.events[i].status in {Processed, Ignored}
    ensures s' == Exec(cfg, s, [TakeEvents([k], 1), HandleEvent])
    ensures s' == s.(db := s'.db) && |s'.db.events| == |s.db.events|
    ensures s'.db.events[k].status in {Processed, Ignored}
    ensures forall i :: 0 <= i < |s.db.events| && i != k ==> s'.db.events[i] == s.db.events[i]
    ensures NewFrom(s'.db, n) && s'.db.jobs[..n] == s.db.jobs[..n]
  {
    hide ProcessEvent, NewFrom;
    assert IsEventBatch(s.db, 1, [k]);
    var taken := Do(cfg, s, TakeEvents([k], 1));
    s' := Do(cfg, taken, HandleEvent);
    ExecTwo(cfg, s, TakeEvents([k], 1), HandleEvent);
    ProcessKeepsEvents(cfg, taken.db, k, taken.now);
    ProcessSettles(cfg, taken.db, k, taken.now);
    EventsAside(s.db, taken.db, n);
    ProcessNewFrom(cfg, taken.db, k, taken.now, n);
  }

  /** Processing an event always ends in `processed` or `ignored`. */
  lemma ProcessSettles(cfg: Settings, db: Db, k: nat, now: real)
    requires k < |db.events|
    ensures var db' := ProcessEvent(cfg, db, k, now);
            |db'.events| == |db.events| && db'.events[k].status in {Processed, Ignored}
  {
    var e := db.events[k];
    var rules := FindMatching(cfg, db.rules, e.text);
    if Present(e.userId) {
      CreateAllCreates(SetEvent(db, k, Processed, |rules|), rules, e.userId.value, e.commentId, now);
    }
  }

  lemma EventsAside(db: Db, db': Db, n: nat)
    requires NewFrom(db, n) && db' == db.(events := db'.events)
    ensures NewFrom(db', n)
  {
  }

  lemma ProcessNewFrom(cfg: Settings, db: Db, k: nat, now: real, n: nat)
    requires k < |db.events| && NewFrom(db, n)
    ensures var db' := ProcessEvent(cfg, db, k, now); NewFrom(db', n) && db'.jobs[..n] == db.jobs[..n]
  {
    hide ProcessEvent, Wants;
    var db' := ProcessEvent(cfg, db, k, now);
    ProcessRows(cfg, db, k, now);
    forall i | |db.jobs| <= i < |db'.jobs| ensures db'.jobs[i].status == Queued {
      assert Newcomer(cfg, db, k, db'.jobs[i]);
    }
  }

  // All of it.

  /** A restart a second later leaves no job `sending`, no event claimed and no actor busy. */
  lemma RestartLater(cfg: Settings, s: State) returns (run: seq<Action>, s': State)
    requires RowsOk(cfg, s)
    ensures s' == Exec(cfg, s, run) && Calm(s') && NoneSending(s'.db.jobs)
    ensures forall k :: 0 <= k < |s'.db.events| ==> s'.db.events[k].status != Processing
    ensures |s'.db.jobs| == |s.db.jobs|
    ensures forall i: nat :: Deliverable(cfg, s, i) ==> Deliverable(cfg, s', i)
    ensures forall i :: 0 <= i < |s.db.jobs| && Terminal(s.db.jobs[i].status) ==> s'.db.jobs[i] == s.db.jobs[i]
  {
    hide Sound, OnSchedule, Refused;
    run := [Tick(s.now + 1.0), Restart];
    s' := Do(cfg, Do(cfg, s, Tick(s.now + 1.0)), Restart);
    ExecTwo(cfg, s, Tick(s.now + 1.0), Restart);
    assert s'.db.jobs == RequeueStale(s.db.jobs, 0.0, s.now + 1.0);
    assert s'.db.events == RequeueStuck(s.db.events);
    forall i | 0 <= i < |s.db.jobs| ensures s.db.jobs[i].updatedAt <= s.now {
      assert RowOk(cfg, s.db.jobs[i], s.now);
    }
    forall i: nat | Deliverable(cfg, s, i) ensures Deliverable(cfg, s', i) {
      SameRefusals(s, s', i, s.db.jobs[i].sendCycle);
    }
  }

  lemma SameRefusals(s: State, s': State, j: nat, c: nat)
    requires s'.provider == s.provider
    ensures Refused(s', j, c) <==> Refused(s, j, c)
  {
  }

  /** Recover, then bring every job to its end and deliver what can be delivered. */
  lemma DeliverAll(cfg: Settings, s: State) returns (run: seq<Action>, s': State)
    requires cfg.Sensible() && Inv(cfg, s)
    ensures s' == Exec(cfg, s, run) && Inv(cfg, s') && Calm(s') && JobsDone(s'.db.jobs)
    ensures forall k :: 0 <= k < |s'.db.events| ==> s'.db.events[k].status != Processing
    ensures |s'.db.jobs| == |s.db.jobs|
    ensures forall i: nat :: Deliverable(cfg, s, i) ==> i < |s'.db.jobs| && s'.db.jobs[i].status == JobStatus.Delivered
    ensures forall i :: 0 <= i < |s.db.jobs| && Terminal(s.db.jobs[i].status) ==> s'.db.jobs[i] == s.db.jobs[i]
  {
    hide Step, Enabled, Refused, Exec;
    hide KeysOk, CyclesOk, OwnersOk, AccountsOk, GrantsOk, CountersOk, RowsOk, UniqueSlots, WorkerOk, ReconOk, BatchOk;
    var restart, s1 := RestartLater(cfg, s);
    RunKeepsInv(cfg, s, restart);
    var deliver := FinishJobs(cfg, s1);
    s' := Exec(cfg, s1, deliver);
    RunKeepsInv(cfg, s1, deliver);
    run := restart + deliver;
    ExecConcat(cfg, s, restart, deliver);
  }

  /** Process what is left of the events: the new jobs are new in every respect. */
  lemma HandleRest(cfg: Settings, s: State) returns (run: seq<Action>, s': State)
    requires cfg.Sensible() && Inv(cfg, s) && Calm(s) && JobsDone(s.db.jobs)
    requires forall k :: 0 <= k < |s.db.events| ==> s.db.events[k].status != Processing
    ensures s' == Exec(cfg, s, run) && Inv(cfg, s') && Calm(s') && EventsDone(s'.db.events)
    ensures NewFrom(s'.db, |s.db.jobs|) && s'.db.jobs[..|s.db.jobs|] == s.db.jobs
    ensures forall i: nat :: |s.db.jobs| <= i < |s'.db.jobs| && s'.db.jobs[i].status == Queued ==>
              Deliverable(cfg, s', i)
  {
    hide KeysOk, CyclesOk, OwnersOk, AccountsOk, GrantsOk, CountersOk, RowsOk, UniqueSlots, WorkerOk, ReconOk, BatchOk;
    hide Step, Enabled, Refused, Exec, Withdrawn;
    var n := |s.db.jobs|;
    run := HandleAll(cfg, s, 0, n);
    s' := Exec(cfg, s, run);
    RunKeepsInv(cfg, s, run);
    assert s.db.jobs[..n] == s.db.jobs;
    forall i: nat | n <= i < |s'.db.jobs| && s'.db.jobs[i].status == Queued ensures Deliverable(cfg, s', i) {
      NoLaterDm(s, i, s'.db.jobs[i].sendCycle);
      SameRefusals(s, s', i, s'.db.jobs[i].sendCycle);
    }
  }

  /** Deliver what can be delivered, then process what is left of the events. */
  lemma DeliverThenHandle(cfg: Settings, s: State) returns (run: seq<Action>, s': State)
    requires cfg.Sensible() && Inv(cfg, s)
    ensures s' == Exec(cfg, s, run) && Inv(cfg, s') && Calm(s') && EventsDone(s'.db.events)
    ensures NewFrom(s'.db, |s.db.jobs|)
    ensures forall i: nat :: Deliverable(cfg, s, i) ==>
              i < |s.db.jobs| <= |s'.db.jobs| && s'.db.jobs[i].status == JobStatus.Delivered
    ensures forall i :: 0 <= i < |s.db.jobs| <= |s'.db.jobs| && Terminal(s.db.jobs[i].status) ==>
              s'.db.jobs[i] == s.db.jobs[i]
    ensures forall i: nat :: |s.db.jobs| <= i < |s'.db.jobs| && s'.db.jobs[i].status == Queued ==>
              Deliverable(cfg, s', i)
  {
    hide Inv, Exec, Refused, Withdrawn;
    var first, mid := DeliverAll(cfg, s);
    var second;
    second, s' := HandleRest(cfg, mid);
    run := first + second;
    ExecConcat(cfg, s, first, second);
    forall i | 0 <= i < |s.db.jobs| ensures s'.db.jobs[i] == mid.db.jobs[i] {
      assert s'.db.jobs[..|s.db.jobs|][i] == mid.db.jobs[i];
    }
  }

  /** From every reachable state, however it was interrupted, some continuation processes
      every event, delivers every job that has a delivery attempt left, and leaves every job
      made meanwhile delivered, or cancelled because its comment was deleted. */
  lemma NothingStuck(cfg: Settings, before: seq<Action>) returns (run: seq<Action>)
    requires cfg.Sensible()
    ensures var s, s' := Exec(cfg, INIT, before), Exec(cfg, INIT, before + run);
            && EventsDone(s'.db.events) && JobsDone(s'.db.jobs) && |s.db.jobs| <= |s'.db.jobs|
            && (forall j: nat :: Deliverable(cfg, s, j) ==> s'.db.jobs[j].status == JobStatus.Delivered)
            && (forall j :: 0 <= j < |s.db.jobs| && Terminal(s.db.jobs[j].status) ==> s'.db.jobs[j] == s.db.jobs[j])
            && (forall j :: |s.db.jobs| <= j < |s'.db.jobs| ==>
                  s'.db.jobs[j].status == JobStatus.Delivered || Withdrawn(s'.db, s'.db.jobs[j]))
  {
    hide Inv, Refused, Step, Enabled, IsEventBatch, Exec;
    var s := Exec(cfg, INIT, before);
    ReachableInv(cfg, before);
    var first, mid := DeliverThenHandle(cfg, s);
    var second := FinishJobs(cfg, mid);
    ExecConcat(cfg, s, first, second);
    run := first + second;
    ExecConcat(cfg, INIT, before, run);
  }

  // ----- Exactly which jobs can be delivered ----------------------------

  /** The job has failed, or the DM of its last cycle has. */
  ghost predicate Hopeless(cfg: Settings, s: State, j: nat) {
    && j < |s.db.jobs|
    && (|| s.db.jobs[j].status == Failed
        || (&& Refused(s, j, s.db.jobs[j].sendCycle)
            && s.db.jobs[j].sendCycle + 1 >= cfg.maxDeliveryAttempts))
  }

  lemma HopelessStep(cfg: Settings, s: State, a: Action, j: nat)
    requires Enabled(cfg, s, a) && WorkerOk(s) && Hopeless(cfg, s, j)
    ensures Hopeless(cfg, Step(cfg, s, a), j)
  {
    hide Step, AfterSend, AfterStatus, IsDraw;
    var s' := Step(cfg, s, a);
    StepRows(cfg, s, a);
    StepGrows(cfg, s, a);
    assert RowStep(cfg, s, a, j, s'.db.jobs[j]);
    if s.db.jobs[j].status == Failed {
      TerminalStays(cfg, s, a, j);
    } else {
      RowCycle(cfg, s, a, j, s'.db.jobs[j]);
      if s'.db.jobs[j].sendCycle == s.db.jobs[j].sendCycle {
        RefusedStays(s, s', j, s.db.jobs[j].sendCycle);
      } else {
        StatusShape(cfg, s.db.jobs[j], s.recon.reply.value, s.now, a.draw);
      }
    }
  }

  lemma {:induction false} HopelessForever(cfg: Settings, s: State, run: seq<Action>, j: nat)
    requires cfg.Sensible() && Inv(cfg, s) && Hopeless(cfg, s, j)
    ensures Hopeless(cfg, Exec(cfg, s, run), j)
    decreases |run|
  {
    hide Step, Enabled, Hopeless, KeysOk, CyclesOk, OwnersOk, AccountsOk, GrantsOk, CountersOk, RowsOk;
    if run != [] {
      if Enabled(cfg, s, run[0]) {
        HopelessStep(cfg, s, run[0], j);
      }
      DoKeepsInv(cfg, s, run[0]);
      HopelessForever(cfg, Do(cfg, s, run[0]), run[1..], j);
    }
  }

  lemma HopelessNotDelivered(cfg: Settings, s: State, j: nat)
    requires RowsOk(cfg, s) && KeysOk(s) && OwnersOk(s) && Hopeless(cfg, s, j)
    ensures s.db.jobs[j].status != JobStatus.Delivered
  {
    hide Sound, OnSchedule, KeysOk;
    assert RowOk(cfg, s.db.jobs[j], s.now);
    if s.db.jobs[j].status == JobStatus.Delivered {
      DmOfKey(s, s.db.jobs[j].dmId.value, j, s.db.jobs[j].sendCycle);
    }
  }

  ghost predicate MayBeDelivered(cfg: Settings, s: State, j: nat) {
    exists more :: var jobs := Exec(cfg, s, more).db.jobs; j < |jobs| && jobs[j].status == JobStatus.Delivered
  }

  /** In every reachable state a job that is not cancelled can still be delivered if and only
      if it has not failed and the DM of its last cycle has not. */
  lemma DeliverableIff(cfg: Settings, before: seq<Action>, j: nat)
    requires cfg.Sensible()
    ensures var s := Exec(cfg, INIT, before);
            j < |s.db.jobs| && s.db.jobs[j].status != Cancelled ==>
              (MayBeDelivered(cfg, s, j) <==> Deliverable(cfg, s, j))
  {
    hide Step, Enabled, KeysOk, CyclesOk, OwnersOk, AccountsOk, GrantsOk, CountersOk, RowsOk, Refused;
    var s := Exec(cfg, INIT, before);
    ReachableInv(cfg, before);
    if j < |s.db.jobs| && s.db.jobs[j].status != Cancelled {
      if Deliverable(cfg, s, j) {
        var more := NothingStuck(cfg, before);
        ExecConcat(cfg, INIT, before, more);
        assert Exec(cfg, s, more).db.jobs[j].status == JobStatus.Delivered;
      } else {
        forall more ensures var jobs := Exec(cfg, s, more).db.jobs;
                            !(j < |jobs| && jobs[j].status == JobStatus.Delivered)
        {
          HopelessForever(cfg, s, more, j);
          RunKeepsInv(cfg, s, more);
          HopelessNotDelivered(cfg, Exec(cfg, s, more), j);
        }
      }
    }
  }
}
