/** When a cancelled job comes back: the exact state in which the DM worker still sends for it
    or writes it alive again. */
module Revival {
  import opened Models
  import opened Backoff
  import opened JobLifecycle
  import opened JobTable
  import Limiter = RateLimiter
  import opened Pipeline
  import opened Invariants
  import opened Theorems
  import opened Deletion
  import opened Witnesses

  /** The clock, the DM worker and the answers it gets; nobody else acts. */
  predicate WorkerRun(run: seq<Action>) {
    forall k :: 0 <= k < |run| ==>
      run[k].Tick? || run[k].Acquire? || run[k].Send? || run[k].Respond? || run[k].ApplyResult?
  }

  /** Since `before` a request for job j left, or the job is not cancelled any more. */
  ghost predicate Stirred(before: State, s: State, j: nat) {
    || (j < |s.db.jobs| && s.db.jobs[j].status != Cancelled)
    || (exists k :: |before.sends| <= k < |s.sends| && s.sends[k].job == j)
  }

  ghost predicate MayStir(cfg: Settings, s: State, j: nat) {
    exists more :: WorkerRun(more) && Stirred(s, Exec(cfg, s, more), j)
  }

  /** The worker is about to send for job j, or has sent and the slot is free for the result. */
  ghost predicate Dangling(s: State, j: nat)
    requires j < |s.db.jobs|
  {
    && InFlight(s, j)
    && (|| s.worker.phase == Claimed || s.worker.phase.Granted?
        || (&& (s.worker.phase == Awaiting || s.worker.phase.Responded?)
            && !SlotTaken(s.db.jobs, s.db.jobs[j].ruleId, s.db.jobs[j].userId)))
  }

  /** A cancelled job that does not dangle is left alone by the worker's next step. */
  lemma NotDanglingStep(cfg: Settings, s: State, a: Action, j: nat)
    requires Enabled(cfg, s, a) && WorkerRun([a])
    requires j < |s.db.jobs| && s.db.jobs[j].status == Cancelled && !Dangling(s, j)
    ensures var s' := Step(cfg, s, a);
            && j < |s'.db.jobs| && s'.db.jobs[j].status == Cancelled && !Dangling(s', j)
            && NoRequestSince(s, s', j)
  {
    hide AfterSend;
    assert a == [a][0];
    SendsStep(cfg, s, a);
    if a.ApplyResult? && s.worker.job == j {
      var row := AfterSend(cfg, s.db.jobs[j], s.worker.phase.result, s.now, a.draw);
      SendShape(cfg, s.db.jobs[j], s.worker.phase.result, s.now, a.draw);
      RevivedIffSlotFree(s.db.jobs, j, row);
    }
  }

  lemma {:induction false} NotDanglingStays(cfg: Settings, s: State, more: seq<Action>, j: nat)
    requires WorkerRun(more) && j < |s.db.jobs| && s.db.jobs[j].status == Cancelled && !Dangling(s, j)
    ensures !Stirred(s, Exec(cfg, s, more), j)
    ensures NoRequestSince(s, Exec(cfg, s, more), j)
    decreases |more|
  {
    hide Step, Enabled, Dangling;
    if more != [] {
      var mid := Do(cfg, s, more[0]);
      if Enabled(cfg, s, more[0]) {
        NotDanglingStep(cfg, s, more[0], j);
      }
      NotDanglingStays(cfg, mid, more[1..], j);
      RequestsSince(s, mid, Exec(cfg, mid, more[1..]), j);
    }
  }

  /** A granted request leaves. */
  lemma GrantedLeaves(cfg: Settings, s: State, j: nat)
    requires InFlight(s, j) && s.worker.phase.Granted?
    ensures Stirred(s, Exec(cfg, s, [Send]), j)
  {
    ExecOne(cfg, s, Send);
    assert Do(cfg, s, Send).sends[|s.sends|].job == j;
  }

  lemma ClaimedLeaves(cfg: Settings, s: State, j: nat) returns (more: seq<Action>)
    requires cfg.Sensible() && InFlight(s, j) && s.worker.phase == Claimed
    ensures WorkerRun(more) && Stirred(s, Exec(cfg, s, more), j)
  {
    var tick := WaitForSlot(cfg, s);
    var granted := Do(cfg, Do(cfg, s, tick), Acquire);
    more := [tick, Acquire, Send];
    ExecThree(cfg, s, tick, Acquire, Send);
    assert Do(cfg, granted, Send).sends[|s.sends|].job == j;
  }

  /** The answer revives the job if its slot is free. */
  lemma AnswerRevives(cfg: Settings, s: State, j: nat)
    requires cfg.Sensible() && InFlight(s, j) && s.worker.phase.Responded?
    requires j < |s.db.jobs| && s.db.jobs[j].status == Cancelled
    requires !SlotTaken(s.db.jobs, s.db.jobs[j].ruleId, s.db.jobs[j].userId)
    ensures Stirred(s, Do(cfg, s, ApplyResult(0.0)), j)
  {
    hide AfterSend, IsDraw;
    var row := AfterSend(cfg, s.db.jobs[j], s.worker.phase.result, s.now, 0.0);
    NoJitter(cfg, s.db.jobs[j].transientFailures + 1);
    SendShape(cfg, s.db.jobs[j], s.worker.phase.result, s.now, 0.0);
    RevivedIffSlotFree(s.db.jobs, j, row);
  }

  lemma AnsweredStirs(cfg: Settings, s: State, j: nat) returns (more: seq<Action>)
    requires cfg.Sensible() && InFlight(s, j) && (s.worker.phase == Awaiting || s.worker.phase.Responded?)
    requires j < |s.db.jobs| && s.db.jobs[j].status == Cancelled
    requires !SlotTaken(s.db.jobs, s.db.jobs[j].ruleId, s.db.jobs[j].userId)
    ensures WorkerRun(more) && Stirred(s, Exec(cfg, s, more), j)
  {
    hide Stirred;
    if s.worker.phase == Awaiting {
      var answered := Do(cfg, s, Respond(LOST));
      AnswerRevives(cfg, answered, j);
      StirredSame(s, answered, Do(cfg, answered, ApplyResult(0.0)), j);
      more := [Respond(LOST), ApplyResult(0.0)];
      assert more[1..] == [ApplyResult(0.0)];
      ExecOne(cfg, answered, ApplyResult(0.0));
    } else {
      AnswerRevives(cfg, s, j);
      more := [ApplyResult(0.0)];
      ExecOne(cfg, s, ApplyResult(0.0));
    }
  }

  lemma StirredSame(before: State, before': State, s: State, j: nat)
    requires Stirred(before', s, j) && before'.sends == before.sends
    ensures Stirred(before, s, j)
  {
  }

  lemma DanglingStirs(cfg: Settings, s: State, j: nat) returns (more: seq<Action>)
    requires cfg.Sensible() && j < |s.db.jobs| && s.db.jobs[j].status == Cancelled && Dangling(s, j)
    ensures WorkerRun(more) && Stirred(s, Exec(cfg, s, more), j)
  {
    hide Stirred;
    if s.worker.phase == Claimed {
      more := ClaimedLeaves(cfg, s, j);
    } else if s.worker.phase.Granted? {
      GrantedLeaves(cfg, s, j);
      more := [Send];
    } else {
      more := AnsweredStirs(cfg, s, j);
    }
  }

  /** Exactly when a cancelled job is not final on the worker's side: the worker still sends
      for it or takes it out of `cancelled` if and only if it holds the job before its send,
      or after it while the job's slot is free. */
  lemma CancelledStirsIff(cfg: Settings, run: seq<Action>, j: nat)
    requires cfg.Sensible()
    requires j < |Exec(cfg, INIT, run).db.jobs| && Exec(cfg, INIT, run).db.jobs[j].status == Cancelled
    ensures var s := Exec(cfg, INIT, run); MayStir(cfg, s, j) <==> Dangling(s, j)
  {
    hide Stirred, WorkerRun, Dangling;
    var s := Exec(cfg, INIT, run);
    if Dangling(s, j) {
      var more := DanglingStirs(cfg, s, j);
    } else {
      forall more | WorkerRun(more) ensures !Stirred(s, Exec(cfg, s, more), j) {
        NotDanglingStays(cfg, s, more, j);
      }
    }
  }

  /** Whoever acts: a cancelled job only ever moves, or is only ever sent for again, if the
      worker was handling it. */
  lemma StirredWasHandled(cfg: Settings, run: seq<Action>, more: seq<Action>, j: nat)
    ensures var s, s' := Exec(cfg, INIT, run), Exec(cfg, INIT, run + more);
            j < |s.db.jobs| && s.db.jobs[j].status == Cancelled && Stirred(s, s', j) ==> Handling(s, j)
  {
    var s := Exec(cfg, INIT, run);
    ExecConcat(cfg, INIT, run, more);
    if j < |s.db.jobs| && s.db.jobs[j].status == Cancelled && !Handling(s, j) {
      CancelledStays(cfg, s, more, j);
      NotSentAgain(cfg, s, more, j);
    }
  }
}
