/** The background objects: `DMWorker` (app/workers/dm_worker.py), `ReconciliationService`
    (app/services/reconciliation.py) and `WorkerManager` (app/workers/manager.py). Their
    rounds are runs of `Pipeline` in which one actor acts and no other: see `DMWorker.RunOnce`,
    `PollingIsRun` and `PendingIsRun`. */
module Workers {
  import opened Models
  import opened JobLifecycle
  import opened JobTable
  import opened EventProcessing
  import Limiter = RateLimiter
  import opened PseudoGram
  import opened Pipeline
  import opened Rounds
  import Database

  // ----- The DM worker ---------------------------------------------------

  /** What `_claim` hands to the sending code. */
  datatype Ticket = Ticket(id: nat, userId: string, key: string)

  class DMWorker {
    const cfg: Settings
    const db: Database.Database
    const limiter: Limiter.RollingWindowRateLimiter
    const client: MockPseudoGram
    const configured: bool

    constructor (cfg: Settings, db: Database.Database, limiter: Limiter.RollingWindowRateLimiter,
                 client: MockPseudoGram, configured: bool)
      ensures this.cfg == cfg && this.db == db && this.limiter == limiter && this.client == client
      ensures this.configured == configured
    {
      this.cfg, this.db, this.limiter, this.client, this.configured := cfg, db, limiter, client, configured;
    }

    method ClaimTicket(now: real) returns (ticket: Option<Ticket>)
      modifies db`jobs
      ensures ticket.None? ==> db.jobs == old(db.jobs) && forall k :: 0 <= k < |db.jobs| ==> !Runnable(db.jobs[k], now)
      ensures ticket.Some? ==>
                var id := ticket.value.id;
                && IsNext(old(db.jobs), now, id) && db.jobs == Claim(old(db.jobs), id, now)
                && ticket.value.userId == db.jobs[id].userId && ticket.value.key == Key(id, db.jobs[id].sendCycle)
    {
      var claimed := db.ClaimNextJob(now);
      if claimed.None? {
        return None;
      }
      var job := db.jobs[claimed.value];
      return Some(Ticket(claimed.value, job.userId, Key(claimed.value, job.sendCycle)));
    }

    /** Load, change, flush. The status is not looked at: only the unique index can refuse. */
    method Apply(id: nat, result: SendResult, now: real, draw: real) returns (stored: bool)
      requires id < |db.jobs|
      modifies db`jobs
      ensures var row := AfterSend(cfg, old(db.jobs)[id], result, now, draw);
              db.jobs == WriteBack(old(db.jobs), id, row) && (stored <==> !Violates(old(db.jobs), id, row))
    {
      var job := new DMJob.Load(db.jobs[id]);
      job.ApplySendResult(cfg, result, now, draw);
      stored := db.Flush(id, job.Row());
    }

    method ReleaseClaim(id: nat, now: real)
      requires id < |db.jobs|
      modifies db`jobs
      ensures db.jobs == Release(old(db.jobs), id, now)
    {
      if db.jobs[id].status == Sending {
        db.jobs := db.jobs[id := db.jobs[id].(status := Queued, updatedAt := now)];
      }
    }

    /** The state of the pipeline this worker's objects stand for. */
    ghost predicate Shows(s: State)
      reads db, limiter, limiter.store, limiter.clock, client
    {
      && s.worker == Idle && s.db.jobs == db.jobs && s.provider == client.Value()
      && s.limiter == limiter.State() && s.now == limiter.clock.now
      && cfg.maxCalls == limiter.maxCalls && cfg.window == limiter.window
    }

    /** After a rejected key, or when the server throttles, nothing is sent for as long as
        configured, or as asked, or for a window. */
    method Pause(result: SendResult)
      requires limiter.Valid()
      modifies limiter.clock
      ensures limiter.Valid() && limiter.clock.now >= old(limiter.clock.now)
      ensures var clock := limiter.clock;
              if result.outcome == OutAuthError then
                clock.now >= old(clock.now) + cfg.authPause
                && clock.naps == old(clock.naps) + [Limiter.Nap(old(clock.now), cfg.authPause)]
              else if result.outcome == OutRateLimited then
                var wait := if result.retryAfter.Some? then result.retryAfter.value else limiter.window;
                clock.now >= old(clock.now) + wait
                && clock.naps == old(clock.naps) + [Limiter.Nap(old(clock.now), if wait > 0.0 then wait else 0.0)]
              else clock.now == old(clock.now) && clock.naps == old(clock.naps)
    {
      hide Limiter.LimiterOk;
      if result.outcome == OutAuthError {
        ghost var since := limiter.clock.now;
        limiter.clock.Sleep(cfg.authPause);
        Limiter.WaitKeepsOk(limiter.maxCalls, limiter.window, limiter.State(), since, limiter.clock.now);
      } else if result.outcome == OutRateLimited {
        limiter.Penalise(if result.retryAfter.Some? then result.retryAfter.value else limiter.window);
      }
    }

    /** One undisturbed round: without an API key nothing happens; else the next job gets a
        grant of its own, its key goes out at most once, the row ends as the response says, or
        queued again if the round raises, and the pause the response calls for is kept. For
        every state s the objects stand for, the round is a run from s. */
    method RunOnce(draws: Draws, draw: real, fault: Fault, ghost s: State)
      returns (worked: bool, ghost id: nat, ghost claimedAt: real, ghost run: seq<Action>)
      requires limiter.Valid() && UniqueSlots(db.jobs) && Shows(s)
      modifies db`jobs, limiter, limiter.store, limiter.clock, client
      ensures limiter.Valid() && limiter.clock.now >= old(limiter.clock.now)
      ensures !worked ==>
                && db.jobs == old(db.jobs) && client.Value() == old(client.Value())
                && limiter.grants == old(limiter.grants)
                && (configured ==> forall k :: 0 <= k < |db.jobs| ==> !Runnable(db.jobs[k], claimedAt))
      ensures worked ==>
                configured && IsNext(old(db.jobs), claimedAt, id) && |limiter.grants| == |old(limiter.grants)| + 1
      ensures worked ==>
                var claimed := Claim(old(db.jobs), id, claimedAt)[id];
                var sentAt := limiter.grants[|limiter.grants| - 1];
                var (p, reply) := SendDm(old(client.Value()), Some(Key(id, claimed.sendCycle)), claimed.userId, sentAt,
                                         draws);
                && client.Value() == (if fault == BeforeSend then old(client.Value()) else p)
                && |db.jobs| == |old(db.jobs)|
                && (forall k :: 0 <= k < |db.jobs| && k != id ==> db.jobs[k] == old(db.jobs)[k])
                && db.jobs[id] == (if fault == NoFault then AfterSend(cfg, claimed, ToResult(reply), sentAt, draw)
                                   else claimed.(status := Queued, updatedAt := sentAt))
                && (fault == NoFault && reply.Limited429? ==> limiter.clock.now >= sentAt + reply.retryAfter)
                && (fault == NoFault && Possible(cfg, s, id, draws, draw) && cfg.Sensible() ==>
                      AnsweredBy(cfg, claimed, db.jobs[id], reply, sentAt))
      ensures OwnActions(run)
      ensures Possible(cfg, s, id, draws, draw) || !worked ==>
                Shows(Exec(cfg, s, run)) && Exec(cfg, s, run).db == s.db.(jobs := db.jobs)
    {
      hide Exec, SendDm, AfterSend, Violates, Key, Limiter.LimiterOk, Limiter.After, UniqueSlots, Enabled, Step;
      hide OwnActions, Limiter.Grant, Limiter.HasSlot, Before, Limiter.Trim, AnsweredBy, Possible;
      id, claimedAt, run := 0, limiter.clock.now, [Tick(limiter.clock.now)];
      if !configured {
        OnlyTicks(cfg, s, claimedAt);
        return false, id, claimedAt, run;
      }
      var now := limiter.clock.Read();
      claimedAt, run := now, [Tick(now)];
      Limiter.WaitKeepsOk(limiter.maxCalls, limiter.window, limiter.State(), old(limiter.clock.now), now);
      var ticket := ClaimTicket(now);
      if ticket.None? {
        OnlyTicks(cfg, s, now);
        return false, id, claimedAt, run;
      }
      id := ticket.value.id;
      ghost var claimed := db.jobs;
      var sleeps := limiter.Acquire();
      var sentAt := limiter.clock.now;
      run := RoundIsRun(cfg, s, id, now, sentAt, draws, draw, fault);
      if fault == BeforeSend {
        ReleaseClaim(ticket.value.id, sentAt);
        return true, id, claimedAt, run;
      }
      var reply := client.Send(Some(ticket.value.key), ticket.value.userId, sentAt, draws);
      if fault == ResponseLost {
        ReleaseClaim(ticket.value.id, sentAt);
        return true, id, claimedAt, run;
      }
      QuietKeepsUnique(old(db.jobs), claimed);
      AppliedInTurn(cfg, claimed, id, ToResult(reply), sentAt, draw);
      AnswerWritten(cfg, s, id, now, sentAt, draws, draw);
      var stored := Apply(ticket.value.id, ToResult(reply), sentAt, draw);
      Pause(ToResult(reply));
      ThenTicks(cfg, s, run, limiter.clock.now);
      run := run + [Tick(limiter.clock.now)];
      worked := true;
    }
  }

  // ----- The reconciler --------------------------------------------------

  class ReconciliationService {
    const cfg: Settings
    const db: Database.Database
    const client: MockPseudoGram

    constructor (cfg: Settings, db: Database.Database, client: MockPseudoGram)
      ensures this.cfg == cfg && this.db == db && this.client == client
    {
      this.cfg, this.db, this.client := cfg, db, client;
    }

    /** The oldest accepted jobs with their dm_ids, at most a batch. */
    method LoadPending() returns (pending: seq<(nat, string)>)
      requires cfg.Sensible()
      ensures exists ids :: IsBatch(db.jobs, cfg.batchSize, ids) && pending == Entries(db.jobs, ids)
    {
      var taken: seq<nat> := [];
      var oldest := OldestBelow(db.jobs, |db.jobs|, taken);
      while |taken| < cfg.batchSize && oldest.Some?
        invariant OldestFirst(db.jobs, taken) && |taken| <= cfg.batchSize
        invariant oldest == OldestBelow(db.jobs, |db.jobs|, taken)
        decreases cfg.batchSize - |taken|
      {
        TakeNextOldest(db.jobs, taken);
        taken := taken + [oldest.value];
        oldest := OldestBelow(db.jobs, |db.jobs|, taken);
      }
      TakeNextOldest(db.jobs, taken);
      assert IsBatch(db.jobs, cfg.batchSize, taken);
      pending := Entries(db.jobs, taken);
    }

    method Apply(id: nat, status: Option<string>, now: real, draw: real)
      modifies db`jobs
      ensures db.jobs == StatusWritten(cfg, old(db.jobs), id, status, now, draw)
      ensures id >= |old(db.jobs)| || old(db.jobs)[id].status != Accepted ==> db.jobs == old(db.jobs)
    {
      if id >= |db.jobs| || db.jobs[id].status != Accepted {
        return;
      }
      var job := new DMJob.Load(db.jobs[id]);
      job.ApplyDeliveryStatus(cfg, status, now, draw);
      var stored := db.Flush(id, job.Row());
    }

    /** One undisturbed cycle: every job of the batch gets exactly the verdict of its own DM,
        unless the call failed or the DM is unknown, and no other row is touched. */
    method RunOnce(c: Conditions) returns (checked: nat, ghost pending: seq<(nat, string)>)
      requires cfg.Sensible() && UniqueSlots(db.jobs)
      modifies db`jobs, client
      ensures exists ids :: IsBatch(old(db.jobs), cfg.batchSize, ids) && pending == Entries(old(db.jobs), ids)
      ensures checked == |pending|
      ensures (db.jobs, client.Value()) == PollAll(cfg, old(db.jobs), old(client.Value()), pending, c)
      ensures BatchJudged(cfg, old(db.jobs), old(client.Value()), pending, c, db.jobs)
      ensures |db.jobs| == |old(db.jobs)|
      ensures forall k :: 0 <= k < |pending| && (c.outage(k) || pending[k].1 !in old(client.dms)) ==>
                pending[k].0 < |db.jobs| && db.jobs[pending[k].0] == old(db.jobs)[pending[k].0]
      ensures Orderly(cfg, old(db.jobs), pending, c) ==>
                forall k :: 0 <= k < |pending| && !c.outage(k) && pending[k].1 in old(client.dms) ==>
                  && pending[k].0 < |db.jobs|
                  && ReadAs(cfg, old(db.jobs)[pending[k].0], db.jobs[pending[k].0],
                            Fate(old(client.dms)[pending[k].1], c.at(k)), c.at(k))
    {
      hide PollAll, GetDm, StatusWritten, BatchJudged, ReadAs, Fate, Orderly;
      var batch := LoadPending();
      ghost var ids :| IsBatch(db.jobs, cfg.batchSize, ids) && batch == Entries(db.jobs, ids);
      pending := batch;
      ghost var jobs, p := db.jobs, client.Value();
      PollNothing(cfg, jobs, p, batch, c);
      for i := 0 to |batch|
        invariant (db.jobs, client.Value()) == PollAll(cfg, jobs, p, batch[..i], c)
      {
        PollNext(cfg, jobs, p, batch, c, i);
        if !c.outage(i) {
          var status := client.Get(batch[i].1, c.at(i));
          if status.Some? {
            Apply(batch[i].0, Some(StatusText(status.value)), c.at(i), c.draw(i));
          }
        }
      }
      assert batch[..|batch|] == batch;
      checked := |batch|;
      BatchIsAccepted(jobs, cfg.batchSize, ids);
      PollAllJudges(cfg, jobs, p, batch, c);
      BatchUnread(cfg, jobs, p, batch, c, db.jobs);
      if Orderly(cfg, jobs, batch, c) {
        BatchByFate(cfg, jobs, p, batch, c, db.jobs);
      }
    }
  }

  lemma BatchUnread(cfg: Settings, jobs: seq<Job>, p: Provider, queue: seq<(nat, string)>, c: Conditions,
                    jobs': seq<Job>)
    requires BatchJudged(cfg, jobs, p, queue, c, jobs')
    ensures |jobs'| == |jobs|
    ensures forall k :: 0 <= k < |queue| && (c.outage(k) || queue[k].1 !in p.dms) ==>
              queue[k].0 < |jobs| && jobs'[queue[k].0] == jobs[queue[k].0]
  {
    hide Judged;
    forall k | 0 <= k < |queue| && (c.outage(k) || queue[k].1 !in p.dms)
      ensures queue[k].0 < |jobs| && jobs'[queue[k].0] == jobs[queue[k].0]
    {
      UnreadStays(cfg, jobs, p, queue, c, k);
    }
  }

  lemma BatchByFate(cfg: Settings, jobs: seq<Job>, p: Provider, queue: seq<(nat, string)>, c: Conditions,
                    jobs': seq<Job>)
    requires cfg.Sensible() && Orderly(cfg, jobs, queue, c) && BatchJudged(cfg, jobs, p, queue, c, jobs')
    requires forall k :: 0 <= k < |queue| ==> queue[k].0 < |jobs| && jobs[queue[k].0].status == Accepted
    ensures |jobs'| == |jobs|
    ensures forall k :: 0 <= k < |queue| && !c.outage(k) && queue[k].1 in p.dms ==>
              ReadAs(cfg, jobs[queue[k].0], jobs'[queue[k].0], Fate(p.dms[queue[k].1], c.at(k)), c.at(k))
  {
    hide Judged, ReadAs, Fate, Orderly;
    forall k | 0 <= k < |queue| && !c.outage(k) && queue[k].1 in p.dms
      ensures ReadAs(cfg, jobs[queue[k].0], jobs'[queue[k].0], Fate(p.dms[queue[k].1], c.at(k)), c.at(k))
    {
      JudgedByFate(cfg, jobs, p, queue, c, k);
    }
  }

  lemma BatchIsAccepted(jobs: seq<Job>, limit: int, ids: seq<nat>)
    requires IsBatch(jobs, limit, ids)
    ensures var queue := Entries(jobs, ids);
            && (forall k :: 0 <= k < |queue| ==> queue[k].0 < |jobs| && jobs[queue[k].0].status == Accepted)
            && forall k, l :: 0 <= k < l < |queue| ==> queue[k].0 != queue[l].0
  {
    var queue := Entries(jobs, ids);
    forall k | 0 <= k < |queue| ensures queue[k].0 == ids[k] && Pollable(jobs[ids[k]]) {
      assert queue[k] == Entry(jobs, ids[k]);
    }
  }

  // ----- The manager -----------------------------------------------------

  class WorkerManager {
    const cfg: Settings
    const db: Database.Database
    const limiter: Limiter.RollingWindowRateLimiter

    constructor (cfg: Settings, db: Database.Database, limiter: Limiter.RollingWindowRateLimiter)
      ensures this.cfg == cfg && this.db == db && this.limiter == limiter
    {
      this.cfg, this.db, this.limiter := cfg, db, limiter;
    }

    /** The database part of `Pipeline.Restarted`. */
    method RecoverState(now: real)
      modifies db`events, db`jobs, db`counters
      ensures db.Value() == old(db.Value()).(events := RequeueStuck(old(db.events)),
                                             jobs := RequeueStale(old(db.jobs), 0.0, now),
                                             counters := Seeded(old(db.counters)))
    {
      db.SeedCounters();
      db.RequeueStuckEvents();
      db.RequeueStaleSending(0.0, now);
    }

    /** What `start` does before it starts the workers: recover, warm the limiter up. */
    method Start()
      requires LimiterReady()
      modifies db`events, db`jobs, db`counters, limiter, limiter.store, limiter.clock
      ensures limiter.Valid() && limiter.grants == old(limiter.grants)
      ensures limiter.timestamps == Limiter.After(limiter.grants, limiter.clock.now - limiter.window)
      ensures db.Value() == old(db.Value()).(events := RequeueStuck(old(db.events)),
                                             jobs := RequeueStale(old(db.jobs), 0.0, old(limiter.clock.now)),
                                             counters := Seeded(old(db.counters)))
      ensures |db.jobs| == |old(db.jobs)|
      ensures forall j :: 0 <= j < |db.jobs| ==>
                (db.jobs[j].status == Sending
                 <==> old(db.jobs)[j].status == Sending && old(db.jobs)[j].updatedAt >= old(limiter.clock.now))
      ensures forall k :: 0 <= k < |db.events| ==> db.events[k].status != Processing
    {
      hide Limiter.After, Limiter.Tail, Limiter.Sorted, Limiter.Spaced;
      RecoverState(limiter.clock.now);
      limiter.LoadWindow();
    }

    ghost predicate LimiterReady()
      reads this, limiter, limiter.store, limiter.clock
    {
      && limiter.maxCalls >= 1 && limiter.window > 0.0 && limiter.safety >= 0.0
      && Limiter.LogOk(limiter.maxCalls, limiter.window, limiter.State(), limiter.clock.now)
    }

    method RequeueStaleClaims(now: real)
      modifies db`jobs
      ensures db.jobs == RequeueStale(old(db.jobs), cfg.staleSeconds, now)
    {
      db.RequeueStaleSending(cfg.staleSeconds, now);
    }
  }
}
