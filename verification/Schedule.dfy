/** Retries wait: a job is claimed only when it is due, and no request leaves before the wait
    of its last response or delivery status is over. */
module Schedule {
  import opened Models
  import opened Backoff
  import opened JobLifecycle
  import opened JobTable
  import opened EventProcessing
  import Limiter = RateLimiter
  import opened PseudoGram
  import opened Pipeline
  import opened Invariants
  import opened Deletion
  import opened Origins

  /** The worker claims a job only if it is queued or its retry is due. */
  lemma ClaimedWhenDue(cfg: Settings, s: State, j: nat)
    requires Enabled(cfg, s, ClaimJob(j))
    ensures j < |s.db.jobs|
    ensures var job := s.db.jobs[j];
            || job.status == Queued
            || (job.status == RetryWait && job.nextRetryAt.Some? && job.nextRetryAt.value <= s.now)
  {
    NextInColumns(s.db.jobs, s.now, j);
  }

  /** Job j waits for its due time, or was cancelled meanwhile, and the worker does not have it. */
  ghost predicate Resting(s: State, j: nat, due: real) {
    && j < |s.db.jobs| && !InFlight(s, j) && s.db.jobs[j].status in {RetryWait, Cancelled}
    && (s.db.jobs[j].status == RetryWait ==> s.db.jobs[j].nextRetryAt == Some(due))
  }

  /** Nothing but a claim makes a waiting job `sending` or gives it to the worker. */
  lemma OnlyClaimSends(cfg: Settings, s: State, a: Action, j: nat)
    requires Enabled(cfg, s, a) && j < |s.db.jobs| && s.db.jobs[j].status in {RetryWait, Cancelled} && !InFlight(s, j)
    requires a != ClaimJob(j)
    ensures var s' := Step(cfg, s, a);
            j < |s'.db.jobs| && s'.db.jobs[j].status != Sending && !InFlight(s', j)
  {
    if OfWorker(a) {
      WorkerClaims(cfg, s, a, j);
    } else {
      hide Step;
      OthersSendNothing(cfg, s, a, j);
      if !a.Restart? {
        OthersLeaveWorker(cfg, s, a);
      }
    }
  }

  lemma WorkerClaims(cfg: Settings, s: State, a: Action, j: nat)
    requires Enabled(cfg, s, a) && OfWorker(a) && j < |s.db.jobs| && !InFlight(s, j) && a != ClaimJob(j)
    ensures var s' := Step(cfg, s, a); |s'.db.jobs| == |s.db.jobs| && s'.db.jobs[j] == s.db.jobs[j] && !InFlight(s', j)
  {
    hide AfterSend, IsDraw, Violates, Before, Limiter.Grant, Limiter.HasSlot;
  }

  lemma OthersSendNothing(cfg: Settings, s: State, a: Action, j: nat)
    requires Enabled(cfg, s, a) && !OfWorker(a) && j < |s.db.jobs| && s.db.jobs[j].status != Sending
    ensures var s' := Step(cfg, s, a);
            && j < |s'.db.jobs| && s'.db.jobs[j].status != Sending && (a.Restart? ==> s'.worker == Idle)
  {
    hide AfterStatus, IsDraw, SendDm, ProcessEvent, Violates;
    if a.HandleEvent? {
      DeletionCancelsExactly(cfg, s.db, s.batch[0], s.now, j);
    } else if a.ApplyStatus? && s.db.jobs[s.recon.queue[0].0].status == Accepted {
      StatusShape(cfg, s.db.jobs[s.recon.queue[0].0], s.recon.reply.value, s.now, a.draw);
    }
  }

  lemma RestingStep(cfg: Settings, s: State, a: Action, j: nat, due: real)
    requires Enabled(cfg, s, a) && Resting(s, j, due) && s.now < due
    ensures Resting(Step(cfg, s, a), j, due) && NoRequestSince(s, Step(cfg, s, a), j)
  {
    hide Step, Enabled;
    if a == ClaimJob(j) {
      ClaimedWhenDue(cfg, s, j);
    }
    OnlyClaimSends(cfg, s, a, j);
    StepRows(cfg, s, a);
    assert RowStep(cfg, s, a, j, Step(cfg, s, a).db.jobs[j]);
    NoSendStep(cfg, s, a, j);
  }

  lemma {:induction false} LaterSends(cfg: Settings, s: State, run: seq<Action>)
    ensures s.sends <= Exec(cfg, s, run).sends
    ensures forall i :: |s.sends| <= i < |Exec(cfg, s, run).sends| ==> Exec(cfg, s, run).sends[i].at >= s.now
    decreases |run|
  {
    hide Step, Enabled;
    if run != [] {
      if Enabled(cfg, s, run[0]) {
        SendsStep(cfg, s, run[0]);
        ClockMoves(cfg, s, run[0]);
      }
      LaterSends(cfg, Do(cfg, s, run[0]), run[1..]);
    }
  }

  lemma ClockMoves(cfg: Settings, s: State, a: Action)
    requires Enabled(cfg, s, a)
    ensures Step(cfg, s, a).now >= s.now
  {
    hide AfterSend, AfterStatus, IsDraw, SendDm, ProcessEvent, Violates, Before;
  }

  lemma {:induction false} SendsAfterDue(cfg: Settings, s: State, run: seq<Action>, j: nat, due: real)
    requires Resting(s, j, due) || s.now >= due
    ensures forall i :: |s.sends| <= i < |Exec(cfg, s, run).sends| && Exec(cfg, s, run).sends[i].job == j ==>
              Exec(cfg, s, run).sends[i].at >= due
    decreases |run|
  {
    hide Step, Enabled, Resting;
    if s.now >= due {
      LaterSends(cfg, s, run);
    } else if run != [] {
      var mid := Do(cfg, s, run[0]);
      if Enabled(cfg, s, run[0]) {
        RestingStep(cfg, s, run[0], j, due);
      }
      LaterSends(cfg, mid, run[1..]);
      SendsAfterDue(cfg, mid, run[1..], j, due);
    }
  }

  /** A job in retry_wait asks for a wait its trace calls for, and until that is over, counted
      from its last write, no request for it leaves, whatever happens. */
  lemma NoRequestBeforeDue(cfg: Settings, before: seq<Action>, more: seq<Action>, j: nat)
    requires cfg.Sensible()
    ensures var s, s' := Exec(cfg, INIT, before), Exec(cfg, INIT, before + more);
            j < |s.db.jobs| && s.db.jobs[j].status == RetryWait ==>
              && s.db.jobs[j].nextRetryAt.Some?
              && var wait := s.db.jobs[j].nextRetryAt.value - s.db.jobs[j].updatedAt;
                 && WaitsFor(cfg, s.db.jobs[j].trace, wait)
                 && forall i :: |s.sends| <= i < |s'.sends| && s'.sends[i].job == j ==>
                      s'.sends[i].at >= s.db.jobs[j].updatedAt + wait
  {
    hide KeysOk, CyclesOk, OwnersOk, AccountsOk, GrantsOk, CountersOk, UniqueSlots, ReconOk, BatchOk, WaitsFor, Sound;
    hide Exec;
    var s := Exec(cfg, INIT, before);
    ReachableInv(cfg, before);
    ExecConcat(cfg, INIT, before, more);
    if j < |s.db.jobs| && s.db.jobs[j].status == RetryWait {
      assert RowOk(cfg, s.db.jobs[j], s.now);
      SendsAfterDue(cfg, s, more, j, s.db.jobs[j].nextRetryAt.value);
    }
  }
}
