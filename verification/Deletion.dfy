/** What deleting a comment guarantees, and what it does not. */
module Deletion {
  import opened Models
  import opened JobLifecycle
  import opened JobTable
  import opened EventProcessing
  import Limiter = RateLimiter
  import opened PseudoGram
  import opened Pipeline
  import opened Invariants
  import opened Theorems

  // ----- After the deletion was processed -------------------------------

  lemma StepKeepsDeleted(cfg: Settings, s: State, a: Action)
    requires Enabled(cfg, s, a)
    ensures s.db.deleted <= Step(cfg, s, a).db.deleted
  {
    if a.HandleEvent? {
      HandledRows(cfg, s);
    }
  }

  /** Once a deletion was processed, no job is ever created for that comment. */
  lemma {:induction false} NoJobAfterDeletion(cfg: Settings, s: State, run: seq<Action>, comment: string)
    requires comment in s.db.deleted && comment != ""
    ensures var s' := Exec(cfg, s, run);
            |s.db.jobs| <= |s'.db.jobs| && comment in s'.db.deleted
            && forall j :: |s.db.jobs| <= j < |s'.db.jobs| ==> s'.db.jobs[j].commentId != Some(comment)
    decreases |run|
  {
    if run != [] {
      var mid := Do(cfg, s, run[0]);
      if Enabled(cfg, s, run[0]) {
        StepRows(cfg, s, run[0]);
        StepKeepsDeleted(cfg, s, run[0]);
        forall j | |s.db.jobs| <= j < |mid.db.jobs| ensures mid.db.jobs[j].commentId != Some(comment) {
          assert NewRow(s, run[0], mid.db.jobs[j]);
        }
      }
      NoJobAfterDeletion(cfg, mid, run[1..], comment);
      CommentsKept(cfg, mid, run[1..]);
    }
  }

  lemma {:induction false} CommentsKept(cfg: Settings, s: State, run: seq<Action>)
    ensures var s' := Exec(cfg, s, run);
            |s.db.jobs| <= |s'.db.jobs| && forall j :: 0 <= j < |s.db.jobs| ==> SameOrigin(s.db.jobs[j], s'.db.jobs[j])
    decreases |run|
  {
    if run != [] {
      var mid := Do(cfg, s, run[0]);
      if Enabled(cfg, s, run[0]) {
        StepRows(cfg, s, run[0]);
        forall j | 0 <= j < |s.db.jobs| ensures SameOrigin(s.db.jobs[j], mid.db.jobs[j]) {
          assert RowStep(cfg, s, run[0], j, mid.db.jobs[j]);
          RowCycle(cfg, s, run[0], j, mid.db.jobs[j]);
        }
      }
      CommentsKept(cfg, mid, run[1..]);
    }
  }

  /** The DM worker holds the job and has not given it up yet. */
  ghost predicate Handling(s: State, j: nat) {
    InFlight(s, j) && s.worker.phase != Releasing
  }

  /** Cancelled while the DM worker does not handle it: the job stays cancelled for ever. */
  lemma {:induction false} CancelledStays(cfg: Settings, s: State, run: seq<Action>, j: nat)
    requires j < |s.db.jobs| && s.db.jobs[j].status == Cancelled && !Handling(s, j)
    ensures var s' := Exec(cfg, s, run); j < |s'.db.jobs| && s'.db.jobs[j].status == Cancelled && !Handling(s', j)
    decreases |run|
  {
    if run != [] {
      if Enabled(cfg, s, run[0]) {
        CancelledStep(cfg, s, run[0], j);
      }
      CancelledStays(cfg, Do(cfg, s, run[0]), run[1..], j);
    }
  }

  lemma CancelledStep(cfg: Settings, s: State, a: Action, j: nat)
    requires Enabled(cfg, s, a)
    requires j < |s.db.jobs| && s.db.jobs[j].status == Cancelled && !Handling(s, j)
    ensures var s' := Step(cfg, s, a); j < |s'.db.jobs| && s'.db.jobs[j].status == Cancelled && !Handling(s', j)
  {
    hide AfterSend, AfterStatus, SendDm;
    StepRows(cfg, s, a);
    assert RowStep(cfg, s, a, j, Step(cfg, s, a).db.jobs[j]);
  }

  /** The event worker is about to process the deletion of this comment. */
  ghost predicate DeletionDue(s: State, comment: string) {
    && s.batch != [] && s.batch[0] < |s.db.events| && comment != ""
    && s.db.events[s.batch[0]].eventType == COMMENT_DELETED && s.db.events[s.batch[0]].commentId == Some(comment)
  }

  /** However the run goes on after a deletion, a job of that comment that is not cancelled
      was already past `queued` and `retry_wait` when the deletion was processed, or was being
      handled by the DM worker. */
  lemma DeletionSpares(cfg: Settings, s: State, more: seq<Action>, comment: string, j: nat)
    requires DeletionDue(s, comment)
    ensures var s' := Exec(cfg, Do(cfg, s, HandleEvent), more);
            j < |s'.db.jobs| && s'.db.jobs[j].commentId == Some(comment) && Live(s'.db.jobs[j]) ==>
              j < |s.db.jobs| && (s.db.jobs[j].status in {Sending, Accepted, Delivered, Failed} || Handling(s, j))
  {
    var mid := Do(cfg, s, HandleEvent);
    assert comment in mid.db.deleted;
    NoJobAfterDeletion(cfg, mid, more, comment);
    CommentsKept(cfg, mid, more);
    assert mid.db.jobs == CancelFor(s.db.jobs, comment, s.now) && mid.worker == s.worker;
    var s' := Exec(cfg, mid, more);
    if j < |s'.db.jobs| && s'.db.jobs[j].commentId == Some(comment) && Live(s'.db.jobs[j]) {
      assert SameOrigin(mid.db.jobs[j], s'.db.jobs[j]);
      if mid.db.jobs[j].status == Cancelled && !Handling(mid, j) {
        CancelledStays(cfg, mid, more, j);
      }
    }
  }

  // ----- When sends stay below the stale limit --------------------------

  /** In every state of the run the job in flight was claimed at most staleSeconds ago. */
  ghost predicate Timely(cfg: Settings, s: State, run: seq<Action>)
    decreases |run|
  {
    && (s.worker.Busy? ==> s.now - s.worker.claimedAt <= cfg.staleSeconds)
    && (run != [] ==> Timely(cfg, Do(cfg, s, run[0]), run[1..]))
  }

  /** The job in flight is still `sending`, untouched since its claim. */
  ghost predicate Held(s: State) {
    s.worker.Busy? ==>
      && s.worker.job < |s.db.jobs|
      && s.db.jobs[s.worker.job].status == Sending && s.db.jobs[s.worker.job].updatedAt == s.worker.claimedAt
  }

  lemma StepKeepsHeld(cfg: Settings, s: State, a: Action)
    requires Enabled(cfg, s, a) && Held(s) && WorkerOk(s) && UniqueSlots(s.db.jobs)
    requires s.worker.Busy? ==> s.now - s.worker.claimedAt <= cfg.staleSeconds
    ensures Held(Step(cfg, s, a))
  {
    match a
    case HandleEvent =>
      HandledRows(cfg, s);
      if s.worker.Busy? {
        assert RowStep(cfg, s, a, s.worker.job, Step(cfg, s, a).db.jobs[s.worker.job]);
        HandlingSparesSending(cfg, s, s.worker.job);
      }
    case ApplyStatus(draw) =>
    case ApplyResult(draw) =>
      var j := s.worker.job;
      var row := AfterSend(cfg, s.db.jobs[j], s.worker.phase.result, s.now, draw);
      SendShape(cfg, s.db.jobs[j], s.worker.phase.result, s.now, draw);
      LiveRowWrites(s.db.jobs, j, row);
    case _ =>
  }

  lemma HandlingSparesSending(cfg: Settings, s: State, j: nat)
    requires s.batch != [] && s.batch[0] < |s.db.events| && j < |s.db.jobs| && s.db.jobs[j].status == Sending
    ensures j < |Handled(cfg, s).db.jobs| && Handled(cfg, s).db.jobs[j] == s.db.jobs[j]
  {
    var k := s.batch[0];
    var e := s.db.events[k];
    var rules := FindMatching(cfg, s.db.rules, e.text);
    if e.eventType == COMMENT_CREATED && Present(e.userId) && !CommentDeleted(s.db, e.commentId) {
      CreateAllCreates(SetEvent(s.db, k, Processed, |rules|), rules, e.userId.value, e.commentId, s.now);
      assert Handled(cfg, s).db.jobs[j] == Handled(cfg, s).db.jobs[..|s.db.jobs|][j];
    }
  }

  lemma {:induction false} TimelyHeld(cfg: Settings, s: State, run: seq<Action>)
    requires cfg.Sensible() && Inv(cfg, s) && Held(s) && Timely(cfg, s, run)
    ensures Held(Exec(cfg, s, run))
    decreases |run|
  {
    if run != [] {
      if Enabled(cfg, s, run[0]) {
        StepKeepsHeld(cfg, s, run[0]);
      }
      DoKeepsInv(cfg, s, run[0]);
      TimelyHeld(cfg, Do(cfg, s, run[0]), run[1..]);
    }
  }

  /** No request for job j left since `before`. */
  ghost predicate NoRequestSince(before: State, s: State, j: nat) {
    && before.sends <= s.sends
    && forall k :: |before.sends| <= k < |s.sends| ==> s.sends[k].job != j
  }

  lemma SendsStep(cfg: Settings, s: State, a: Action)
    requires Enabled(cfg, s, a)
    ensures Step(cfg, s, a).sends
            == if a.Send? then s.sends + [Request(s.worker.job, s.worker.cycle, s.worker.phase.grant, s.now)]
               else s.sends
  {
    hide AfterSend, AfterStatus, SendDm;
  }

  lemma RequestsSince(s: State, mid: State, end: State, j: nat)
    requires NoRequestSince(s, mid, j) && NoRequestSince(mid, end, j)
    ensures NoRequestSince(s, end, j)
  {
  }

  lemma {:induction false} NotSentAgain(cfg: Settings, s: State, run: seq<Action>, j: nat)
    requires j < |s.db.jobs| && s.db.jobs[j].status == Cancelled && !Handling(s, j)
    ensures NoRequestSince(s, Exec(cfg, s, run), j)
    decreases |run|
  {
    hide Step, Enabled;
    if run != [] {
      var mid := Do(cfg, s, run[0]);
      if Enabled(cfg, s, run[0]) {
        CancelledStep(cfg, s, run[0], j);
        NoSendStep(cfg, s, run[0], j);
      }
      NotSentAgain(cfg, mid, run[1..], j);
      RequestsSince(s, mid, Exec(cfg, mid, run[1..]), j);
    }
  }

  lemma NoSendStep(cfg: Settings, s: State, a: Action, j: nat)
    requires Enabled(cfg, s, a) && !Handling(s, j)
    ensures NoRequestSince(s, Step(cfg, s, a), j)
  {
    SendsStep(cfg, s, a);
  }

  /** With claim-to-apply times within the stale limit, cancelled is final: the job stays
      cancelled and no request for it, under a new key or an old one, ever leaves again. */
  lemma CancelledIsFinal(cfg: Settings, run: seq<Action>, more: seq<Action>, j: nat)
    requires cfg.Sensible() && Timely(cfg, INIT, run)
    ensures var s, s' := Exec(cfg, INIT, run), Exec(cfg, INIT, run + more);
            j < |s.db.jobs| && s.db.jobs[j].status == Cancelled ==>
              j < |s'.db.jobs| && s'.db.jobs[j].status == Cancelled && NoRequestSince(s, s', j)
  {
    hide Inv, NoRequestSince, Timely;
    var s := Exec(cfg, INIT, run);
    InitInv(cfg);
    TimelyHeld(cfg, INIT, run);
    ExecConcat(cfg, INIT, run, more);
    if j < |s.db.jobs| && s.db.jobs[j].status == Cancelled {
      CancelledStays(cfg, s, more, j);
      NotSentAgain(cfg, s, more, j);
    }
  }

  // ----- When a cancelled job is really harmless ------------------------

  ghost predicate StaysCancelled(cfg: Settings, s: State, run: seq<Action>, j: nat)
    decreases |run|
  {
    && j < |s.db.jobs| && s.db.jobs[j].status == Cancelled
    && (run != [] ==> StaysCancelled(cfg, Do(cfg, s, run[0]), run[1..], j))
  }

  /** A request of the current cycle has left, or the worker is about to send one, and its
      DM is not known to have failed. */
  ghost predicate Outstanding(s: State, j: nat)
    requires j < |s.db.jobs|
  {
    && (|| (j, s.db.jobs[j].sendCycle) in s.sent
        || (InFlight(s, j) && (s.worker.phase == Claimed || s.worker.phase.Granted?)))
    && !Refused(s, j, s.db.jobs[j].sendCycle)
  }

  lemma NotOutstandingStays(cfg: Settings, s: State, a: Action, j: nat)
    requires Enabled(cfg, s, a) && WorkerOk(s)
    requires j < |s.db.jobs| && s.db.jobs[j].status == Cancelled && !Outstanding(s, j)
    requires j < |Step(cfg, s, a).db.jobs| && Step(cfg, s, a).db.jobs[j].status == Cancelled
    ensures !Outstanding(Step(cfg, s, a), j)
  {
    hide Step, Enabled, RowStep, Key;
    var s' := Step(cfg, s, a);
    StepRows(cfg, s, a);
    StepGrows(cfg, s, a);
    OnlySendLeaves(cfg, s, a);
    StillCancelled(cfg, s, a, j, s'.db.jobs[j]);
    NotTakenUp(cfg, s, a, j);
    if Refused(s, j, s.db.jobs[j].sendCycle) {
      RefusedStays(s, s', j, s.db.jobs[j].sendCycle);
    }
  }

  /** A row that stays cancelled is not written. */
  lemma StillCancelled(cfg: Settings, s: State, a: Action, j: nat, row: Job)
    requires j < |s.db.jobs| && RowStep(cfg, s, a, j, row)
    requires s.db.jobs[j].status == row.status == Cancelled
    ensures row == s.db.jobs[j]
  {
    hide AfterSend, AfterStatus;
    if a.ApplyResult? && InFlight(s, j) && s.worker.phase.Responded? {
      SendShape(cfg, s.db.jobs[j], s.worker.phase.result, s.now, a.draw);
    }
  }

  /** A cancelled job is not claimed. */
  lemma NotTakenUp(cfg: Settings, s: State, a: Action, j: nat)
    requires Enabled(cfg, s, a) && j < |s.db.jobs| && s.db.jobs[j].status == Cancelled
    ensures var s' := Step(cfg, s, a);
            InFlight(s', j) && (s'.worker.phase == Claimed || s'.worker.phase.Granted?) ==>
              InFlight(s, j) && (s.worker.phase == Claimed || s.worker.phase.Granted?)
  {
    hide AfterSend, AfterStatus, Key, ProcessEvent, Ingest, Violates, WriteBack, SendDm, IsBatch;
  }

  lemma {:induction false} NeverLandsAgain(cfg: Settings, s: State, run: seq<Action>, j: nat, d: string)
    requires cfg.Sensible() && Inv(cfg, s) && StaysCancelled(cfg, s, run, j) && !Outstanding(s, j)
    ensures !LiveDm(Exec(cfg, s, run), d, j)
    decreases |run|
  {
    if run == [] {
      if LiveDm(s, d, j) {
        LiveIsCurrent(s, j, d);
      }
    } else {
      DoKeepsInv(cfg, s, run[0]);
      if Enabled(cfg, s, run[0]) {
        NotOutstandingStays(cfg, s, run[0], j);
      }
      NeverLandsAgain(cfg, Do(cfg, s, run[0]), run[1..], j, d);
    }
  }

  // Fresh ids and late enough instants.

  lemma {:induction false} FreshId(taken: set<string>) returns (d: string)
    ensures d !in taken && d != ""
    ensures forall t :: t in taken ==> |t| < |d|
  {
    if taken == {} {
      d := "d";
    } else {
      var t :| t in taken;
      var shorter := FreshId(taken - {t});
      d := shorter + t + "d";
      forall u | u in taken ensures |u| < |d| {
        if u != t {
          assert u in taken - {t};
        }
      }
    }
  }

  lemma {:induction false} LateEnough(ts: seq<real>, after: real) returns (h: real)
    ensures h >= after && Limiter.Trim(ts, h) == [] && Limiter.After(ts, h) == []
    ensures forall h' :: h' >= h ==> Limiter.Trim(ts, h') == [] && Limiter.After(ts, h') == []
  {
    if ts == [] {
      h := after;
    } else {
      var rest := LateEnough(ts[1..], after);
      h := if rest >= ts[0] then rest else ts[0];
      forall h' | h' >= h ensures Limiter.Trim(ts, h') == [] && Limiter.After(ts, h') == [] {
      }
    }
  }

  /** The runs below only wait, acquire, send and land: prepending such an action keeps the
      job cancelled. */
  lemma Prepend(cfg: Settings, s: State, a: Action, rest: seq<Action>, j: nat)
    requires j < |s.db.jobs| && s.db.jobs[j].status == Cancelled && StaysCancelled(cfg, Do(cfg, s, a), rest, j)
    ensures StaysCancelled(cfg, s, [a] + rest, j) && Exec(cfg, s, [a] + rest) == Exec(cfg, Do(cfg, s, a), rest)
  {
    assert ([a] + rest)[1..] == rest;
  }

  /** The outstanding request of a cancelled job can still become a DM. */
  lemma CanStillLand(cfg: Settings, s: State, j: nat) returns (run: seq<Action>, d: string)
    requires cfg.Sensible() && KeysOk(s)
    requires j < |s.db.jobs| && s.db.jobs[j].status == Cancelled && s.db.jobs[j].userId != ""
    requires Outstanding(s, j) && (InFlight(s, j) ==> s.worker.cycle == s.db.jobs[j].sendCycle)
    ensures StaysCancelled(cfg, s, run, j) && LiveDm(Exec(cfg, s, run), d, j)
    decreases if (j, s.db.jobs[j].sendCycle) in s.sent then 0
              else if s.worker.Busy? && s.worker.phase.Granted? then 1 else 2
  {
    if (j, s.db.jobs[j].sendCycle) in s.sent {
      run, d := LandOne(cfg, s, j);
      LandingStaysCancelled(cfg, s, run, j);
    } else if s.worker.phase.Granted? {
      StepKeepsKeys(cfg, s, Send);
      run, d := CanStillLand(cfg, Do(cfg, s, Send), j);
      Prepend(cfg, s, Send, run, j);
      run := [Send] + run;
    } else {
      var tick := WaitForSlot(cfg, s);
      var ticked := Do(cfg, s, tick);
      StepKeepsKeys(cfg, s, tick);
      StepKeepsKeys(cfg, ticked, Acquire);
      run, d := CanStillLand(cfg, Do(cfg, ticked, Acquire), j);
      Prepend(cfg, ticked, Acquire, run, j);
      Prepend(cfg, s, tick, [Acquire] + run, j);
      run := [tick] + ([Acquire] + run);
    }
  }

  lemma WaitForSlot(cfg: Settings, s: State) returns (tick: Action)
    requires cfg.Sensible()
    ensures tick.Tick? && Enabled(cfg, s, tick)
    ensures var ticked := Step(cfg, s, tick);
            ticked == s.(now := tick.later) && Limiter.HasSlot(cfg.maxCalls, cfg.window, ticked.limiter, ticked.now)
  {
    var h := LateEnough(s.limiter.stamps, s.now);
    tick := Tick(h + cfg.window);
  }

  /** Time passes and requests reach the provider, nothing else. */
  predicate Landing(run: seq<Action>) {
    forall k :: 0 <= k < |run| ==> run[k].Tick? || run[k].Land?
  }

  /** Nothing but the clock and the provider moved; what the provider had, it has, and no DM
      failed. */
  ghost predicate OnlyLanded(s: State, s': State) {
    && s' == s.(now := s'.now, provider := s'.provider, origin := s'.origin)
    && Grows(s, s')
    && (forall d, k :: LiveDm(s, d, k) ==> LiveDm(s', d, k))
    && forall k: nat, c: nat :: Refused(s', k, c) ==> Refused(s, k, c)
  }

  lemma LandStep(cfg: Settings, s: State, a: Action)
    requires Enabled(cfg, s, a) && (a.Tick? || a.Land?) && KeysOk(s)
    ensures OnlyLanded(s, Step(cfg, s, a)) && KeysOk(Step(cfg, s, a))
  {
    StepKeepsKeys(cfg, s, a);
    StepGrows(cfg, s, a);
    if a.Land? {
      LandFailsNone(s, a.job, a.cycle, a.draws);
    }
  }

  lemma LandFailsNone(s: State, j: nat, cycle: nat, draws: Draws)
    requires j < |s.db.jobs| && draws.dmId !in s.provider.dms && KeysOk(s)
    ensures var s' := Landed(s, j, cycle, draws);
            && (forall d, k :: LiveDm(s, d, k) ==> LiveDm(s', d, k))
            && forall k: nat, c: nat :: Refused(s', k, c) ==> Refused(s, k, c)
  {
    hide IdempotencyKey;
    var s' := Landed(s, j, cycle, draws);
    assert s'.provider.dms == s.provider.dms
           || (s'.provider.dms == s.provider.dms[draws.dmId := s'.provider.dms[draws.dmId]]
               && s'.provider.dms[draws.dmId].status == DmQueued);
  }

  lemma OnlyLandedRefl(s: State)
    ensures OnlyLanded(s, s)
  {
  }

  lemma OnlyLandedTrans(s: State, mid: State, end: State)
    requires OnlyLanded(s, mid) && OnlyLanded(mid, end)
    ensures OnlyLanded(s, end)
  {
    hide LiveDm, Refused, Grows;
    assert Grows(s, end) by { GrowsTrans(s, mid, end); }
  }

  lemma GrowsTrans(s: State, mid: State, end: State)
    requires Grows(s, mid) && Grows(mid, end)
    ensures Grows(s, end)
  {
  }

  lemma {:induction false} LandingKeeps(cfg: Settings, s: State, run: seq<Action>)
    requires Landing(run) && KeysOk(s)
    ensures OnlyLanded(s, Exec(cfg, s, run)) && KeysOk(Exec(cfg, s, run))
    decreases |run|
  {
    hide Step, Enabled, KeysOk, OnlyLanded;
    if run == [] {
      OnlyLandedRefl(s);
    } else {
      var mid := Do(cfg, s, run[0]);
      if Enabled(cfg, s, run[0]) {
        LandStep(cfg, s, run[0]);
      } else {
        OnlyLandedRefl(s);
      }
      LandingKeeps(cfg, mid, run[1..]);
      OnlyLandedTrans(s, mid, Exec(cfg, mid, run[1..]));
    }
  }

  /** The open request of a job becomes a DM of it that has not failed, if it has not yet. */
  lemma LandOne(cfg: Settings, s: State, j: nat) returns (run: seq<Action>, d: string)
    requires KeysOk(s) && j < |s.db.jobs| && s.db.jobs[j].userId != ""
    requires (j, s.db.jobs[j].sendCycle) in s.sent && !Refused(s, j, s.db.jobs[j].sendCycle)
    ensures Landing(run) && LiveDm(Exec(cfg, s, run), d, j)
  {
    var cycle := s.db.jobs[j].sendCycle;
    if Key(j, cycle) in s.provider.byKey {
      d := s.provider.byKey[Key(j, cycle)];
      KeyOwner(s, d, j, cycle);
      run := [];
    } else {
      run, d := FirstLanding(cfg, s, j, cycle);
    }
  }

  lemma FirstLanding(cfg: Settings, s: State, j: nat, cycle: nat) returns (run: seq<Action>, d: string)
    requires j < |s.db.jobs| && s.db.jobs[j].userId != ""
    requires (j, cycle) in s.sent && Key(j, cycle) !in s.provider.byKey
    ensures Landing(run) && LiveDm(Exec(cfg, s, run), d, j)
  {
    hide LiveDm, Key, Exec, Landed;
    var h := LateEnough(s.provider.sendTimes, s.now);
    d := FreshId(s.provider.dms.Keys);
    var tick, land := Tick(h + WINDOW_SECONDS), Land(j, cycle, Draws(false, d, false));
    var ticked := Do(cfg, s, tick);
    assert ticked == s.(now := h + WINDOW_SECONDS);
    LandingMakesDm(ticked, j, cycle, d);
    run := [tick, land];
    ExecTwo(cfg, s, tick, land);
  }

  lemma LandingMakesDm(s: State, j: nat, cycle: nat, d: string)
    requires j < |s.db.jobs| && s.db.jobs[j].userId != "" && d !in s.provider.dms
    requires Key(j, cycle) !in s.provider.byKey && Limiter.After(s.provider.sendTimes, s.now - WINDOW_SECONDS) == []
    ensures LiveDm(Landed(s, j, cycle, Draws(false, d, false)), d, j)
  {
    assert d in Landed(s, j, cycle, Draws(false, d, false)).provider.dms;
  }

  lemma {:induction false} LandingStaysCancelled(cfg: Settings, s: State, run: seq<Action>, j: nat)
    requires Landing(run) && KeysOk(s) && j < |s.db.jobs| && s.db.jobs[j].status == Cancelled
    ensures StaysCancelled(cfg, s, run, j)
    decreases |run|
  {
    if run != [] {
      if Enabled(cfg, s, run[0]) {
        LandStep(cfg, s, run[0]);
      }
      LandingStaysCancelled(cfg, Do(cfg, s, run[0]), run[1..], j);
    }
  }

  /** Some continuation, all through which the job stays cancelled, ends with a DM of it that
      has not failed. */
  ghost predicate MayOwnDm(cfg: Settings, s: State, j: nat) {
    exists more, d :: StaysCancelled(cfg, s, more, j) && LiveDm(Exec(cfg, s, more), d, j)
  }

  lemma OutstandingMayOwn(cfg: Settings, s: State, j: nat)
    requires cfg.Sensible() && Inv(cfg, s) && j < |s.db.jobs| && s.db.jobs[j].status == Cancelled && Outstanding(s, j)
    ensures MayOwnDm(cfg, s, j)
  {
    assert RowOk(cfg, s.db.jobs[j], s.now);
    var more, d := CanStillLand(cfg, s, j);
  }

  lemma HarmlessMayNot(cfg: Settings, s: State, j: nat)
    requires cfg.Sensible() && Inv(cfg, s) && j < |s.db.jobs| && s.db.jobs[j].status == Cancelled && !Outstanding(s, j)
    ensures !MayOwnDm(cfg, s, j)
  {
    forall more, d | StaysCancelled(cfg, s, more, j) ensures !LiveDm(Exec(cfg, s, more), d, j) {
      NeverLandsAgain(cfg, s, more, j, d);
    }
  }

  /** A cancelled job can still come to own a DM that does not fail, without ever leaving
      `cancelled`, exactly when a request of its current cycle is outstanding. */
  lemma CancelledMayOwnDmIff(cfg: Settings, run: seq<Action>, j: nat)
    requires cfg.Sensible()
    requires j < |Exec(cfg, INIT, run).db.jobs| && Exec(cfg, INIT, run).db.jobs[j].status == Cancelled
    ensures var s := Exec(cfg, INIT, run); MayOwnDm(cfg, s, j) <==> Outstanding(s, j)
  {
    var s := Exec(cfg, INIT, run);
    ReachableInv(cfg, run);
    if Outstanding(s, j) {
      OutstandingMayOwn(cfg, s, j);
    } else {
      HarmlessMayNot(cfg, s, j);
    }
  }
}
