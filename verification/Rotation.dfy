/** Reconciliation rotation: a polled job moves to the back of the line, so an accepted job
    is reached after a bounded number of cycles, whatever is accepted meanwhile. */
module Rotation {
  import opened Models
  import opened Backoff
  import opened JobLifecycle
  import opened JobTable
  import Limiter = RateLimiter
  import opened Pipeline
  import opened Invariants

  /** The pollable jobs that may come before job j in `_load_pending`; ties may. */
  function Ahead(jobs: seq<Job>, j: nat): set<nat>
    requires j < |jobs|
  {
    set i: nat | i < |jobs| && i != j && Pollable(jobs[i]) && jobs[i].updatedAt <= jobs[j].updatedAt
  }

  predicate InQueue(queue: seq<(nat, string)>, j: nat) {
    exists k :: 0 <= k < |queue| && queue[k].0 == j
  }

  /** Reconciliation cycles that end in this run. */
  ghost function Cycles(cfg: Settings, s: State, run: seq<Action>): nat
    decreases |run|
  {
    if run == [] then 0
    else (if run[0].EndPolling? && Enabled(cfg, s, run[0]) then 1 else 0) + Cycles(cfg, Do(cfg, s, run[0]), run[1..])
  }

  /** Status calls fail only for jobs of F. */
  ghost predicate FailsOnly(cfg: Settings, s: State, run: seq<Action>, F: set<nat>)
    decreases |run|
  {
    run != [] ==>
      && (run[0].PollFails? && Enabled(cfg, s, run[0]) ==> s.recon.queue[0].0 in F)
      && FailsOnly(cfg, Do(cfg, s, run[0]), run[1..], F)
  }

  /** The jobs of a batch whose calls do not fail. */
  function Sure(queue: seq<(nat, string)>, F: set<nat>): set<nat> {
    set k | 0 <= k < |queue| && queue[k].0 !in F :: queue[k].0
  }

  /** A batch that passes job j over holds only jobs ahead of it. */
  ghost predicate Passing(s: State, j: nat)
    requires j < |s.db.jobs|
  {
    s.recon.Polling? && !InQueue(s.recon.queue, j) ==>
      forall k :: 0 <= k < |s.recon.queue| ==> s.recon.queue[k].0 in Ahead(s.db.jobs, j)
  }

  /** How many jobs a batch that passes job j over serves at least: a full batch but for F. */
  function Share(cfg: Settings, F: set<nat>): int {
    cfg.batchSize - |F|
  }

  /** What this cycle still owes of its share. */
  ghost function Owed(cfg: Settings, recon: Reconciler, j: nat, F: set<nat>): int {
    if recon.Polling? && !InQueue(recon.queue, j) && |Sure(recon.queue, F)| < Share(cfg, F)
    then Share(cfg, F) - |Sure(recon.queue, F)| else 0
  }

  /** How many more jobs can still be served before job j. */
  ghost function Slack(cfg: Settings, s: State, j: nat, F: set<nat>): int
    requires j < |s.db.jobs|
  {
    |Ahead(s.db.jobs, j) - F| + Owed(cfg, s.recon, j, F)
  }

  /** Job j is accepted and the clock has moved since it was last written. */
  ghost predicate Waits(s: State, j: nat) {
    j < |s.db.jobs| && s.db.jobs[j].status == Accepted && s.db.jobs[j].updatedAt < s.now
  }

  /** This action applies a status to job j. */
  ghost predicate Serves(s: State, a: Action, j: nat) {
    a.ApplyStatus? && s.recon.Polling? && s.recon.queue != [] && s.recon.queue[0].0 == j
  }

  /** Nobody gets ahead of a waiting job. */
  lemma NoOvertaking(cfg: Settings, s: State, a: Action, j: nat)
    requires Enabled(cfg, s, a) && WorkerOk(s) && Waits(s, j) && !Serves(s, a, j)
    ensures Waits(Step(cfg, s, a), j) && Step(cfg, s, a).db.jobs[j] == s.db.jobs[j]
    ensures Ahead(Step(cfg, s, a).db.jobs, j) <= Ahead(s.db.jobs, j)
  {
    var s' := Step(cfg, s, a);
    StepRows(cfg, s, a);
    assert RowStep(cfg, s, a, j, s'.db.jobs[j]);
    forall i | |s.db.jobs| <= i < |s'.db.jobs| ensures !Pollable(s'.db.jobs[i]) {
      assert NewRow(s, a, s'.db.jobs[i]);
    }
    forall i | i in Ahead(s'.db.jobs, j) ensures i in Ahead(s.db.jobs, j) {
      assert RowStep(cfg, s, a, i, s'.db.jobs[i]);
      StillAhead(cfg, s, a, i, s'.db.jobs[i], s.db.jobs[j].updatedAt);
    }
  }

  /** A job ahead stays ahead until it is served. */
  lemma AheadStays(cfg: Settings, s: State, a: Action, i: nat, j: nat)
    requires Enabled(cfg, s, a) && WorkerOk(s) && Waits(s, j) && !Serves(s, a, j) && !Serves(s, a, i)
    requires i in Ahead(s.db.jobs, j)
    ensures j < |Step(cfg, s, a).db.jobs| && i in Ahead(Step(cfg, s, a).db.jobs, j)
  {
    AcceptedStays(cfg, s, a, i);
    AcceptedStays(cfg, s, a, j);
  }

  /** A job that is served is stamped with the current time, and if it is still accepted
      every other accepted job is ahead of it. */
  lemma ServedFallsBehind(cfg: Settings, s: State, draw: real)
    requires Enabled(cfg, s, ApplyStatus(draw)) && UniqueSlots(s.db.jobs) && ReconOk(s)
    requires forall i :: 0 <= i < |s.db.jobs| ==> s.db.jobs[i].updatedAt <= s.now
    ensures var h, jobs := s.recon.queue[0].0, Step(cfg, s, ApplyStatus(draw)).db.jobs;
            && h < |jobs| && jobs[h].updatedAt == s.now
            && forall i: nat :: i < |jobs| && i != h && Pollable(jobs[i]) ==> i in Ahead(jobs, h)
  {
    hide AfterStatus, IsDraw;
    var h := s.recon.queue[0].0;
    assert Awaits(s.db.jobs, s.recon.queue[0]);
    StatusShape(cfg, s.db.jobs[h], s.recon.reply.value, s.now, draw);
    LiveRowWrites(s.db.jobs, h, AfterStatus(cfg, s.db.jobs[h], s.recon.reply.value, s.now, draw));
  }

  lemma StillAhead(cfg: Settings, s: State, a: Action, i: nat, row: Job, bound: real)
    requires i < |s.db.jobs| && RowStep(cfg, s, a, i, row)
    requires Pollable(row) && row.updatedAt <= bound < s.now
    ensures row == s.db.jobs[i]
  {
    var job := s.db.jobs[i];
    if !QuietChange(job, row) {
      if a.ApplyResult? {
        SendShape(cfg, job, s.worker.phase.result, s.now, a.draw);
      } else {
        StatusShape(cfg, job, s.recon.reply.value, s.now, a.draw);
      }
    }
  }

  // ----- One action ------------------------------------------------------

  /** A load takes job j, or fills its batch with jobs ahead of it. */
  lemma LoadPasses(cfg: Settings, s: State, ids: seq<nat>, j: nat, F: set<nat>)
    requires Enabled(cfg, s, LoadPending(ids)) && j < |s.db.jobs| && Pollable(s.db.jobs[j])
    ensures var s' := Step(cfg, s, LoadPending(ids));
            Passing(s', j) && Slack(cfg, s', j, F) <= Slack(cfg, s, j, F)
  {
    var queue := Entries(s.db.jobs, ids);
    forall k | 0 <= k < |ids| ensures queue[k].0 == ids[k] && Pollable(s.db.jobs[ids[k]]) {
      assert queue[k] == Entry(s.db.jobs, ids[k]);
    }
    if !InQueue(queue, j) {
      forall k | 0 <= k < |ids| ensures ids[k] != j {
        assert queue[k].0 == ids[k];
      }
      assert j !in ids;
      FullBatchShares(cfg, ids, queue, F);
    }
  }

  /** A full batch holds its share of jobs outside F. */
  lemma FullBatchShares(cfg: Settings, ids: seq<nat>, queue: seq<(nat, string)>, F: set<nat>)
    requires |queue| == |ids| == cfg.batchSize && forall k :: 0 <= k < |ids| ==> queue[k].0 == ids[k]
    requires forall k, l :: 0 <= k < l < |ids| ==> ids[k] != ids[l]
    ensures |Sure(queue, F)| >= Share(cfg, F)
  {
    var all := Limiter.Elements(ids);
    Limiter.DistinctSize(ids);
    forall i | i in all - F ensures i in Sure(queue, F) {
      var k :| 0 <= k < |ids| && ids[k] == i;
      assert queue[k].0 == i;
    }
    Limiter.SubsetSize(all - F, Sure(queue, F));
    Limiter.SubsetSize(all * F, F);
  }

  lemma ApplyPasses(cfg: Settings, s: State, draw: real, j: nat, F: set<nat>)
    requires Enabled(cfg, s, ApplyStatus(draw)) && UniqueSlots(s.db.jobs) && WorkerOk(s) && ReconOk(s)
    requires forall i :: 0 <= i < |s.db.jobs| ==> s.db.jobs[i].updatedAt <= s.now
    requires Waits(s, j) && !Serves(s, ApplyStatus(draw), j) && Passing(s, j)
    ensures var s' := Step(cfg, s, ApplyStatus(draw));
            Waits(s', j) && Passing(s', j) && Slack(cfg, s', j, F) <= Slack(cfg, s, j, F)
  {
    hide Step, Sure, Ahead;
    var s' := Step(cfg, s, ApplyStatus(draw));
    var q, h := s.recon.queue, s.recon.queue[0].0;
    NoOvertaking(cfg, s, ApplyStatus(draw), j);
    HeadServed(cfg, s, draw, j);
    QueuePopped(q, j);
    SurePopped(q, F);
    if !InQueue(q, j) {
      assert q[0].0 in Ahead(s.db.jobs, j);
      Limiter.SubsetSize(Ahead(s'.db.jobs, j) - F, (Ahead(s.db.jobs, j) - F) - {h});
      forall k | 0 <= k < |q[1..]| ensures q[1..][k].0 in Ahead(s'.db.jobs, j) {
        assert q[k + 1].0 in Ahead(s.db.jobs, j) && q[0].0 != q[k + 1].0;
        AheadStays(cfg, s, ApplyStatus(draw), q[k + 1].0, j);
      }
    } else {
      Limiter.SubsetSize(Ahead(s'.db.jobs, j) - F, Ahead(s.db.jobs, j) - F);
    }
  }

  /** The head is off the queue and not ahead any more. */
  lemma HeadServed(cfg: Settings, s: State, draw: real, j: nat)
    requires Enabled(cfg, s, ApplyStatus(draw)) && UniqueSlots(s.db.jobs) && ReconOk(s)
    requires forall i :: 0 <= i < |s.db.jobs| ==> s.db.jobs[i].updatedAt <= s.now
    requires var s' := Step(cfg, s, ApplyStatus(draw));
             j < |s.db.jobs| && j < |s'.db.jobs| && s'.db.jobs[j] == s.db.jobs[j] && s.db.jobs[j].updatedAt < s.now
    ensures var s' := Step(cfg, s, ApplyStatus(draw));
            s'.recon == Polling(s.recon.queue[1..], None) && s.recon.queue[0].0 !in Ahead(s'.db.jobs, j)
  {
    hide AfterStatus, IsDraw, WriteBack;
    ServedFallsBehind(cfg, s, draw);
  }

  lemma SurePopped(q: seq<(nat, string)>, F: set<nat>)
    requires q != [] && forall k, l :: 0 <= k < l < |q| ==> q[k].0 != q[l].0
    ensures Sure(q[1..], F) == Sure(q, F) - {q[0].0}
    ensures q[0].0 in F ==> q[0].0 !in Sure(q, F)
  {
    forall i ensures i in Sure(q[1..], F) <==> i in Sure(q, F) - {q[0].0} {
      if i in Sure(q, F) - {q[0].0} {
        var k :| 0 <= k < |q| && q[k].0 !in F && q[k].0 == i;
        assert q[1..][k - 1].0 == i;
      }
      if i in Sure(q[1..], F) {
        var k :| 0 <= k < |q[1..]| && q[1..][k].0 !in F && q[1..][k].0 == i;
        assert q[k + 1].0 == i;
      }
    }
  }

  /** A call that fails for a job of F takes nothing from the share. */
  lemma FailPasses(cfg: Settings, s: State, j: nat, F: set<nat>)
    requires Enabled(cfg, s, PollFails) && ReconOk(s) && Waits(s, j) && Passing(s, j)
    requires s.recon.queue[0].0 in F && j !in F
    ensures var s' := Step(cfg, s, PollFails);
            Waits(s', j) && Passing(s', j) && Slack(cfg, s', j, F) <= Slack(cfg, s, j, F)
  {
    hide Sure, Ahead;
    QueuePopped(s.recon.queue, j);
    SurePopped(s.recon.queue, F);
    assert Sure(s.recon.queue, F) - {s.recon.queue[0].0} == Sure(s.recon.queue, F);
  }

  lemma QueuePopped(q: seq<(nat, string)>, j: nat)
    requires q != [] && q[0].0 != j
    ensures InQueue(q[1..], j) <==> InQueue(q, j)
  {
    if k :| 0 <= k < |q| && q[k].0 == j {
      assert q[1..][k - 1].0 == j;
    }
    if k :| 0 <= k < |q[1..]| && q[1..][k].0 == j {
      assert q[k + 1].0 == j;
    }
  }

  /** Any other action leaves the queue, and the jobs in it, as they are. */
  lemma OtherPasses(cfg: Settings, s: State, a: Action, j: nat, F: set<nat>)
    requires Enabled(cfg, s, a) && WorkerOk(s) && Waits(s, j) && Passing(s, j)
    requires !a.LoadPending? && !a.ApplyStatus? && !a.PollFails? && !a.EndPolling? && !a.Restart?
    ensures var s' := Step(cfg, s, a);
            Waits(s', j) && Passing(s', j) && Slack(cfg, s', j, F) <= Slack(cfg, s, j, F)
  {
    hide Step, Enabled, Sure, Ahead;
    var s' := Step(cfg, s, a);
    NoOvertaking(cfg, s, a, j);
    Limiter.SubsetSize(Ahead(s'.db.jobs, j) - F, Ahead(s.db.jobs, j) - F);
    SameQueue(cfg, s, a);
    if s.recon.Polling? && !InQueue(s.recon.queue, j) {
      forall k | 0 <= k < |s.recon.queue| ensures s.recon.queue[k].0 in Ahead(s'.db.jobs, j) {
        AheadStays(cfg, s, a, s.recon.queue[k].0, j);
      }
    }
  }

  lemma SameQueue(cfg: Settings, s: State, a: Action)
    requires Enabled(cfg, s, a)
    requires !a.LoadPending? && !a.ApplyStatus? && !a.PollFails? && !a.EndPolling? && !a.Restart?
    ensures var s' := Step(cfg, s, a);
            s'.recon.Polling? == s.recon.Polling? && (s.recon.Polling? ==> s'.recon.queue == s.recon.queue)
  {
  }

  /** The end of a cycle that passed job j over uses up the cycle's share of slack. */
  lemma EndPasses(cfg: Settings, s: State, a: Action, j: nat, F: set<nat>)
    requires Enabled(cfg, s, a) && WorkerOk(s) && Waits(s, j) && Passing(s, j) && (a.EndPolling? || a.Restart?)
    ensures var s' := Step(cfg, s, a);
            && Waits(s', j) && Passing(s', j)
            && Slack(cfg, s', j, F) + (if a.EndPolling? then Share(cfg, F) else 0) <= Slack(cfg, s, j, F)
  {
    hide Ahead;
    NoOvertaking(cfg, s, a, j);
    Limiter.SubsetSize(Ahead(Step(cfg, s, a).db.jobs, j) - F, Ahead(s.db.jobs, j) - F);
    assert a.EndPolling? ==> Sure(s.recon.queue, F) == {};
  }

  lemma StepPasses(cfg: Settings, s: State, a: Action, j: nat, F: set<nat>)
    requires Enabled(cfg, s, a) && UniqueSlots(s.db.jobs) && WorkerOk(s) && ReconOk(s) && RowsOk(cfg, s)
    requires Waits(s, j) && Passing(s, j) && !Serves(s, a, j) && j !in F
    requires a.PollFails? ==> s.recon.queue[0].0 in F
    ensures var s' := Step(cfg, s, a);
            && Waits(s', j) && s'.db.jobs[j] == s.db.jobs[j] && Passing(s', j)
            && Slack(cfg, s', j, F) + (if a.EndPolling? then Share(cfg, F) else 0) <= Slack(cfg, s, j, F)
  {
    hide Step, Enabled, Slack, Passing, RowOk;
    NoOvertaking(cfg, s, a, j);
    Stamps(cfg, s);
    if a.LoadPending? {
      LoadPasses(cfg, s, a.ids, j, F);
    } else if a.ApplyStatus? {
      ApplyPasses(cfg, s, a.draw, j, F);
    } else if a.EndPolling? || a.Restart? {
      EndPasses(cfg, s, a, j, F);
    } else if a.PollFails? {
      FailPasses(cfg, s, j, F);
    } else {
      OtherPasses(cfg, s, a, j, F);
    }
  }

  lemma Stamps(cfg: Settings, s: State)
    requires RowsOk(cfg, s)
    ensures forall i :: 0 <= i < |s.db.jobs| ==> s.db.jobs[i].updatedAt <= s.now
    ensures forall i :: 0 <= i < |s.db.jobs| && s.db.jobs[i].status == Accepted ==> Pollable(s.db.jobs[i])
  {
    hide Sound, OnSchedule;
    forall i | 0 <= i < |s.db.jobs|
      ensures s.db.jobs[i].updatedAt <= s.now && (s.db.jobs[i].status == Accepted ==> Pollable(s.db.jobs[i]))
    {
      assert RowOk(cfg, s.db.jobs[i], s.now);
    }
  }

  // ----- Whole runs ------------------------------------------------------

  /** Job j had a delivery status applied to it first of all. */
  predicate Polled(before: Job, after: Job) {
    before.trace < after.trace && after.trace[|before.trace|].Verdict?
  }

  lemma ServedIsPolled(cfg: Settings, s: State, a: Action, j: nat)
    requires Enabled(cfg, s, a) && Serves(s, a, j) && UniqueSlots(s.db.jobs) && ReconOk(s)
    ensures j < |Step(cfg, s, a).db.jobs| && Polled(s.db.jobs[j], Step(cfg, s, a).db.jobs[j])
  {
    assert Awaits(s.db.jobs, s.recon.queue[0]);
    StatusShape(cfg, s.db.jobs[j], s.recon.reply.value, s.now, a.draw);
    LiveRowWrites(s.db.jobs, j, AfterStatus(cfg, s.db.jobs[j], s.recon.reply.value, s.now, a.draw));
  }

  lemma {:induction false} TracesGrow(cfg: Settings, s: State, run: seq<Action>, j: nat)
    requires j < |s.db.jobs|
    ensures j < |Exec(cfg, s, run).db.jobs| && s.db.jobs[j].trace <= Exec(cfg, s, run).db.jobs[j].trace
    decreases |run|
  {
    hide Step;
    if run != [] {
      if Enabled(cfg, s, run[0]) {
        StepRows(cfg, s, run[0]);
        assert RowStep(cfg, s, run[0], j, Step(cfg, s, run[0]).db.jobs[j]);
      }
      TracesGrow(cfg, Do(cfg, s, run[0]), run[1..], j);
    }
  }

  /** Either job j gets polled, or the cycles of the run fit into the slack. */
  ghost predicate Bounded(cfg: Settings, s: State, run: seq<Action>, j: nat, F: set<nat>)
    requires j < |s.db.jobs|
  {
    || (j < |Exec(cfg, s, run).db.jobs| && Polled(s.db.jobs[j], Exec(cfg, s, run).db.jobs[j]))
    || Scaled(Share(cfg, F), Cycles(cfg, s, run)) <= Slack(cfg, s, j, F)
  }

  lemma PolledFirst(cfg: Settings, s: State, run: seq<Action>, j: nat)
    requires run != [] && Enabled(cfg, s, run[0]) && Serves(s, run[0], j) && UniqueSlots(s.db.jobs) && ReconOk(s)
    ensures j < |s.db.jobs| && j < |Exec(cfg, s, run).db.jobs| && Polled(s.db.jobs[j], Exec(cfg, s, run).db.jobs[j])
  {
    ServedIsPolled(cfg, s, run[0], j);
    TracesGrow(cfg, Do(cfg, s, run[0]), run[1..], j);
  }

  lemma PassedFirst(cfg: Settings, s: State, run: seq<Action>, j: nat, F: set<nat>)
    requires run != [] && j < |s.db.jobs|
    requires var mid := Do(cfg, s, run[0]);
             && j < |mid.db.jobs| && mid.db.jobs[j] == s.db.jobs[j] && Bounded(cfg, mid, run[1..], j, F)
             && Slack(cfg, mid, j, F) + (if run[0].EndPolling? && Enabled(cfg, s, run[0]) then Share(cfg, F) else 0)
                <= Slack(cfg, s, j, F)
    ensures Bounded(cfg, s, run, j, F)
  {
    hide Step, Enabled, Polled, Slack;
    var rest := Cycles(cfg, Do(cfg, s, run[0]), run[1..]);
    assert Scaled(Share(cfg, F), rest + 1) == Scaled(Share(cfg, F), rest) + Share(cfg, F);
  }

  /** Until job j is polled, every cycle takes its share out of the slack. */
  lemma {:induction false} CyclesBounded(cfg: Settings, s: State, run: seq<Action>, j: nat, F: set<nat>)
    requires cfg.Sensible() && Inv(cfg, s) && Waits(s, j) && Passing(s, j)
    requires FailsOnly(cfg, s, run, F) && j !in F && |F| < cfg.batchSize
    ensures Bounded(cfg, s, run, j, F)
    decreases |run|
  {
    hide Step, Enabled, Passing, Slack, Polled, Exec;
    if run == [] {
      SlackLeft(cfg, s, j, F);
    } else if Enabled(cfg, s, run[0]) && Serves(s, run[0], j) {
      PolledFirst(cfg, s, run, j);
    } else {
      DoKeepsInv(cfg, s, run[0]);
      if Enabled(cfg, s, run[0]) {
        StepPasses(cfg, s, run[0], j, F);
      }
      CyclesBounded(cfg, Do(cfg, s, run[0]), run[1..], j, F);
      PassedFirst(cfg, s, run, j, F);
    }
  }

  lemma SlackLeft(cfg: Settings, s: State, j: nat, F: set<nat>)
    requires j < |s.db.jobs|
    ensures Slack(cfg, s, j, F) >= 0 && Scaled(Share(cfg, F), Cycles(cfg, s, [])) == 0
  {
  }

  /** The same in the middle of a cycle, whose rest may still serve others: one share more. */
  ghost predicate BoundedMidway(cfg: Settings, s: State, run: seq<Action>, j: nat, F: set<nat>)
    requires j < |s.db.jobs|
  {
    || (j < |Exec(cfg, s, run).db.jobs| && Polled(s.db.jobs[j], Exec(cfg, s, run).db.jobs[j]))
    || Scaled(Share(cfg, F), Cycles(cfg, s, run))
       <= |Ahead(s.db.jobs, j) - F| + (if s.recon.Polling? then Share(cfg, F) else 0)
  }

  /** At rest nothing has been passed over: the bound without the extra share. */
  lemma BoundedAtRest(cfg: Settings, s: State, run: seq<Action>, j: nat, F: set<nat>)
    requires cfg.Sensible() && Inv(cfg, s) && Waits(s, j) && s.recon.Resting?
    requires FailsOnly(cfg, s, run, F) && j !in F && |F| < cfg.batchSize
    ensures BoundedMidway(cfg, s, run, j, F)
  {
    hide Inv, Polled, Ahead, Waits, Exec, Cycles, FailsOnly;
    CyclesBounded(cfg, s, run, j, F);
  }

  lemma {:induction false} CyclesBoundedMidway(cfg: Settings, s: State, run: seq<Action>, j: nat, F: set<nat>)
    requires cfg.Sensible() && Inv(cfg, s) && Waits(s, j)
    requires FailsOnly(cfg, s, run, F) && j !in F && |F| < cfg.batchSize
    ensures BoundedMidway(cfg, s, run, j, F)
    decreases |run|
  {
    hide Inv, Step, Enabled, Exec, Polled, Ahead, BoundedMidway;
    if s.recon.Resting? {
      BoundedAtRest(cfg, s, run, j, F);
    } else if run == [] {
      NothingMidway(cfg, s, j, F);
    } else if Enabled(cfg, s, run[0]) && Serves(s, run[0], j) {
      ServedMidway(cfg, s, run, j, F);
    } else {
      var mid := Do(cfg, s, run[0]);
      StillWaits(cfg, s, run[0], j, F);
      DoKeepsInv(cfg, s, run[0]);
      CyclesBoundedMidway(cfg, mid, run[1..], j, F);
      PassedMidway(cfg, s, run, j, F);
    }
  }

  lemma NothingMidway(cfg: Settings, s: State, j: nat, F: set<nat>)
    requires j < |s.db.jobs| && |F| < cfg.batchSize
    ensures BoundedMidway(cfg, s, [], j, F)
  {
    assert Scaled(Share(cfg, F), 0) == 0;
  }

  lemma ServedMidway(cfg: Settings, s: State, run: seq<Action>, j: nat, F: set<nat>)
    requires Inv(cfg, s) && run != [] && Enabled(cfg, s, run[0]) && Serves(s, run[0], j)
    ensures j < |s.db.jobs| && BoundedMidway(cfg, s, run, j, F)
  {
    hide KeysOk, CyclesOk, OwnersOk, AccountsOk, GrantsOk, CountersOk, RowsOk, Step, Enabled, Polled, Exec, Cycles;
    PolledFirst(cfg, s, run, j);
  }

  /** What one action leaves of the job, the jobs ahead and the current cycle. */
  lemma StillWaits(cfg: Settings, s: State, a: Action, j: nat, F: set<nat>)
    requires Inv(cfg, s) && Waits(s, j) && s.recon.Polling? && !(Enabled(cfg, s, a) && Serves(s, a, j))
    ensures var mid := Do(cfg, s, a);
            && Waits(mid, j) && mid.db.jobs[j] == s.db.jobs[j]
            && |Ahead(mid.db.jobs, j) - F| <= |Ahead(s.db.jobs, j) - F|
            && (a.EndPolling? && Enabled(cfg, s, a) ==> mid.recon.Resting?)
  {
    hide KeysOk, CyclesOk, OwnersOk, AccountsOk, GrantsOk, CountersOk, RowsOk, Ahead;
    if Enabled(cfg, s, a) {
      NoOvertaking(cfg, s, a, j);
      Limiter.SubsetSize(Ahead(Step(cfg, s, a).db.jobs, j) - F, Ahead(s.db.jobs, j) - F);
    }
  }

  lemma PassedMidway(cfg: Settings, s: State, run: seq<Action>, j: nat, F: set<nat>)
    requires run != [] && j < |s.db.jobs| && s.recon.Polling? && |F| < cfg.batchSize
    requires var mid := Do(cfg, s, run[0]);
             && j < |mid.db.jobs| && mid.db.jobs[j] == s.db.jobs[j]
             && |Ahead(mid.db.jobs, j) - F| <= |Ahead(s.db.jobs, j) - F|
             && (run[0].EndPolling? && Enabled(cfg, s, run[0]) ==> mid.recon.Resting?)
             && BoundedMidway(cfg, mid, run[1..], j, F)
    ensures BoundedMidway(cfg, s, run, j, F)
  {
    hide Step, Enabled, Ahead, Polled;
    var rest := Cycles(cfg, Do(cfg, s, run[0]), run[1..]);
    assert Scaled(Share(cfg, F), rest + 1) == Scaled(Share(cfg, F), rest) + Share(cfg, F);
  }

  /** From any reachable state in which the clock has moved since its last write, let status
      calls fail only for fewer jobs than a batch holds. Any other accepted job, with r accepted
      jobs not newer than it whose calls do not fail, is polled within r / (batchSize - |F|) + 1
      cycles, the one under way not counted: whatever else happens and whichever jobs are
      accepted meanwhile. */
  lemma PolledInTime(cfg: Settings, before: seq<Action>, run: seq<Action>, j: nat, F: set<nat>)
    requires cfg.Sensible() && j !in F && |F| < cfg.batchSize
    ensures var s, s' := Exec(cfg, INIT, before), Exec(cfg, INIT, before + run);
            && Waits(s, j) && FailsOnly(cfg, s, run, F)
            && Cycles(cfg, s, run)
               > |Ahead(s.db.jobs, j) - F| / (cfg.batchSize - |F|) + (if s.recon.Polling? then 1 else 0) ==>
              j < |s'.db.jobs| && Polled(s.db.jobs[j], s'.db.jobs[j])
  {
    hide Inv, Polled, Ahead, Exec, Cycles, Scaled, FailsOnly;
    var s := Exec(cfg, INIT, before);
    ReachableInv(cfg, before);
    ExecConcat(cfg, INIT, before, run);
    if && Waits(s, j) && FailsOnly(cfg, s, run, F)
       && Cycles(cfg, s, run)
          > |Ahead(s.db.jobs, j) - F| / (cfg.batchSize - |F|) + (if s.recon.Polling? then 1 else 0)
    {
      CyclesBoundedMidway(cfg, s, run, j, F);
      TooMany(Share(cfg, F), Cycles(cfg, s, run), |Ahead(s.db.jobs, j) - F|, s.recon.Polling?);
    }
  }

  lemma TooMany(b: int, c: nat, r: nat, midway: bool)
    requires b >= 1 && c > r / b + (if midway then 1 else 0)
    ensures Scaled(b, c) > r + (if midway then b else 0)
  {
    var q := r / b + (if midway then 1 else 0);
    assert r == b * (r / b) + r % b;
    ScaledIsProduct(b, r / b);
    assert Scaled(b, r / b + 1) == Scaled(b, r / b) + b;
    assert Scaled(b, r / b + 2) == Scaled(b, r / b + 1) + b;
    ScaledMonotone(b, q + 1, c);
  }
}
