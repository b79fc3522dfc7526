/** Why `Rotation.PolledInTime` needs fewer failing jobs than a batch holds: a full batch of
    them keeps the head of the line for ever. */
module Starvation {
  import opened Models
  import opened JobLifecycle
  import opened JobTable
  import opened EventProcessing
  import Limiter = RateLimiter
  import opened Pipeline
  import opened Invariants
  import opened Deletion
  import opened Witnesses
  import opened Rotation
  import opened Progress

  // ----- Runs put together ----------------------------------------------

  lemma {:induction false} CyclesConcat(cfg: Settings, s: State, a: seq<Action>, b: seq<Action>)
    ensures Cycles(cfg, s, a + b) == Cycles(cfg, s, a) + Cycles(cfg, Exec(cfg, s, a), b)
    decreases |a|
  {
    hide Step, Enabled;
    if a == [] {
      assert a + b == b;
    } else {
      CyclesConcat(cfg, Do(cfg, s, a[0]), a[1..], b);
      assert (a + b)[1..] == a[1..] + b;
    }
  }

  lemma {:induction false} FailsOnlyConcat(cfg: Settings, s: State, a: seq<Action>, b: seq<Action>, F: set<nat>)
    requires FailsOnly(cfg, s, a, F) && FailsOnly(cfg, Exec(cfg, s, a), b, F)
    ensures FailsOnly(cfg, s, a + b, F)
    decreases |a|
  {
    hide Step;
    if a == [] {
      assert a + b == b;
    } else {
      FailsOnlyConcat(cfg, Do(cfg, s, a[0]), a[1..], b, F);
      assert (a + b)[1..] == a[1..] + b;
    }
  }

  // ----- Cycles in which every call fails -------------------------------

  /** The rest of a cycle whose calls all fail. */
  lemma {:induction false} AllFail(cfg: Settings, s: State, F: set<nat>) returns (run: seq<Action>)
    requires s.recon.Polling? && s.recon.reply.None?
    requires forall k :: 0 <= k < |s.recon.queue| ==> s.recon.queue[k].0 in F
    ensures Exec(cfg, s, run) == s.(recon := Resting)
    ensures FailsOnly(cfg, s, run, F) && Cycles(cfg, s, run) == 1
    decreases |s.recon.queue|
  {
    if s.recon.queue == [] {
      run := [EndPolling];
      ExecOne(cfg, s, EndPolling);
    } else {
      var s' := Do(cfg, s, PollFails);
      assert s' == s.(recon := s.recon.(queue := s.recon.queue[1..]));
      var rest := AllFail(cfg, s', F);
      run := [PollFails] + rest;
      assert run[0] == PollFails && run[1..] == rest;
    }
  }

  /** A whole cycle whose calls all fail changes nothing. */
  lemma FailingCycle(cfg: Settings, s: State, ids: seq<nat>) returns (run: seq<Action>)
    requires s.recon == Resting && IsBatch(s.db.jobs, cfg.batchSize, ids)
    ensures Exec(cfg, s, run) == s
    ensures FailsOnly(cfg, s, run, Limiter.Elements(ids)) && Cycles(cfg, s, run) == 1
  {
    hide IsBatch;
    var loaded := LoadedFor(cfg, s, ids);
    var rest := AllFail(cfg, loaded, Limiter.Elements(ids));
    run := [LoadPending(ids)] + rest;
    assert run[0] == LoadPending(ids) && run[1..] == rest;
  }

  lemma LoadedFor(cfg: Settings, s: State, ids: seq<nat>) returns (loaded: State)
    requires s.recon == Resting && IsBatch(s.db.jobs, cfg.batchSize, ids)
    ensures Enabled(cfg, s, LoadPending(ids)) && loaded == Do(cfg, s, LoadPending(ids))
    ensures loaded == s.(recon := loaded.recon) && loaded.recon.Polling? && loaded.recon.reply.None?
    ensures forall k :: 0 <= k < |loaded.recon.queue| ==> loaded.recon.queue[k].0 in Limiter.Elements(ids)
  {
    loaded := Do(cfg, s, LoadPending(ids));
    forall k | 0 <= k < |loaded.recon.queue| ensures loaded.recon.queue[k].0 in Limiter.Elements(ids) {
      assert Pollable(s.db.jobs[ids[k]]) && loaded.recon.queue[k] == Entry(s.db.jobs, ids[k]);
    }
  }

  /** So any number of them changes nothing, wherever they start. */
  lemma {:induction false} FailingCycles(cfg: Settings, s: State, ids: seq<nat>, n: nat) returns (run: seq<Action>)
    requires s.recon == Resting && IsBatch(s.db.jobs, cfg.batchSize, ids)
    ensures Exec(cfg, s, run) == s
    ensures FailsOnly(cfg, s, run, Limiter.Elements(ids)) && Cycles(cfg, s, run) == n
  {
    hide IsBatch, FailsOnly, Cycles, Exec;
    if n == 0 {
      run := [];
      NoCycle(cfg, s, Limiter.Elements(ids));
    } else {
      var first := FailingCycle(cfg, s, ids);
      var rest := FailingCycles(cfg, s, ids, n - 1);
      run := first + rest;
      ExecConcat(cfg, s, first, rest);
      CyclesConcat(cfg, s, first, rest);
      FailsOnlyConcat(cfg, s, first, rest, Limiter.Elements(ids));
    }
  }

  lemma NoCycle(cfg: Settings, s: State, F: set<nat>)
    ensures Exec(cfg, s, []) == s && FailsOnly(cfg, s, [], F) && Cycles(cfg, s, []) == 0
  {
  }

  // ----- More accepted jobs than a batch holds --------------------------

  /** m jobs, all accepted, and nothing else to do. */
  ghost predicate Crowded(s: State, rule: string, m: nat) {
    && Calm(s) && Settled(s, rule) && s.db.deleted == {}
    && |s.db.jobs| == m && forall i :: 0 <= i < m ==> s.db.jobs[i].status == Accepted
  }

  lemma NextComment(s: State, rule: string, text: string) returns (p: Payload)
    ensures !Known(s.db, p.eventId) && p.eventType == COMMENT_CREATED && p.text == Some(text)
    ensures Present(p.userId) && Present(p.commentId) && !SlotTaken(s.db.jobs, rule, p.userId.value)
  {
    var eventId := FreshId(set k | 0 <= k < |s.db.events| :: s.db.events[k].eventId);
    var user := FreshId(set i | 0 <= i < |s.db.jobs| :: s.db.jobs[i].userId);
    p := Payload(eventId, COMMENT_CREATED, Some("c"), Some(user), Some(text));
  }

  /** The same, and one more job that waits. */
  ghost predicate Awaited(s: State, rule: string, m: nat) {
    && Calm(s) && Settled(s, rule) && s.db.deleted == {}
    && |s.db.jobs| == m + 1 && s.db.jobs[m].status == Queued && s.db.jobs[m].userId != ""
    && forall i :: 0 <= i < m ==> s.db.jobs[i].status == Accepted
  }

  lemma CommentArrives(cfg: Settings, s: State, rule: string, text: string, m: nat) returns (run: seq<Action>)
    requires Crowded(s, rule, m) && text != "" && cfg.matches(rule, text)
    ensures Awaited(Exec(cfg, s, run), rule, m)
  {
    hide Exec, SlotTaken, Known, Delivery;
    var p := NextComment(s, rule, text);
    run := Delivery(s, p);
    CommentCreatesJob(cfg, s, rule, p);
  }

  lemma LastAccepted(cfg: Settings, s: State, rule: string, m: nat) returns (run: seq<Action>)
    requires cfg.Sensible() && KeysOk(s) && UniqueSlots(s.db.jobs) && Awaited(s, rule, m)
    ensures Crowded(Exec(cfg, s, run), rule, m + 1)
  {
    hide Exec, KeysOk, UniqueSlots, Key, IsNext;
    NewcomerNext(s.db.jobs, s.now, m);
    var claim, granted, later := ClaimedAndGranted(cfg, s, m);
    QuietKeepsUnique(s.db.jobs, Claim(s.db.jobs, m, s.now));
    assert KeysOk(granted) by { KeysElsewhere(s, granted); }
    var send, sent := AcceptGranted(cfg, granted);
    ExecConcat(cfg, s, claim, send);
    run := claim + send;
  }

  /** One more comment, and its job is sent and accepted. */
  lemma OneMore(cfg: Settings, s: State, rule: string, text: string, m: nat) returns (run: seq<Action>)
    requires cfg.Sensible() && Inv(cfg, s) && Crowded(s, rule, m) && text != "" && cfg.matches(rule, text)
    ensures Crowded(Exec(cfg, s, run), rule, m + 1)
  {
    hide KeysOk, CyclesOk, OwnersOk, RowsOk, AccountsOk, GrantsOk, CountersOk, UniqueSlots, ReconOk, BatchOk, WorkerOk;
    hide Exec, Crowded, Awaited;
    var arrival := CommentArrives(cfg, s, rule, text, m);
    RunKeepsInv(cfg, s, arrival);
    var sending := LastAccepted(cfg, Exec(cfg, s, arrival), rule, m);
    ExecConcat(cfg, s, arrival, sending);
    run := arrival + sending;
  }

  lemma NewcomerNext(jobs: seq<Job>, now: real, m: nat)
    requires m < |jobs| && jobs[m].status == Queued
    requires forall i :: 0 <= i < |jobs| && i != m ==> jobs[i].status == Accepted
    ensures IsNext(jobs, now, m)
  {
  }

  lemma {:induction false} Crowd(cfg: Settings, rule: string, text: string, m: nat) returns (run: seq<Action>)
    requires cfg.Sensible() && text != "" && cfg.matches(rule, text)
    ensures Crowded(Exec(cfg, INIT, run), rule, m)
  {
    hide Crowded, Inv;
    if m == 0 {
      run := [AddRule(rule)];
      NobodyYet(cfg, rule);
    } else {
      var before := Crowd(cfg, rule, text, m - 1);
      ReachableInv(cfg, before);
      var more := OneMore(cfg, Exec(cfg, INIT, before), rule, text, m - 1);
      run := before + more;
      ExecConcat(cfg, INIT, before, more);
    }
  }

  lemma NobodyYet(cfg: Settings, rule: string)
    ensures Crowded(Exec(cfg, INIT, [AddRule(rule)]), rule, 0)
  {
    ExecOne(cfg, INIT, AddRule(rule));
  }

  /** Of more rows than the batch has places, one is left out. */
  lemma LeftOut(jobs: seq<Job>, limit: nat, ids: seq<nat>) returns (j: nat)
    requires IsBatch(jobs, limit, ids) && |jobs| > limit
    ensures j < |jobs| && j !in ids && |Limiter.Elements(ids)| == |ids|
  {
    Limiter.DistinctSize(ids);
    if forall i :: 0 <= i < |jobs| ==> i in ids {
      Limiter.SubsetSize(Limiter.Range(0, |jobs|), Limiter.Elements(ids));
    }
    j :| 0 <= j < |jobs| && j !in ids;
  }

  /** With as many failing jobs as a batch holds there is no bound: for every n a run has n
      whole cycles in which calls fail for those jobs only, and another accepted job is never
      polled. */
  lemma StarvedBehindFailures(cfg: Settings, rule: string, text: string, n: nat)
    returns (before: seq<Action>, run: seq<Action>, j: nat, F: set<nat>)
    requires cfg.Sensible() && text != "" && cfg.matches(rule, text)
    ensures var s := Exec(cfg, INIT, before);
            && Waits(s, j) && j !in F && |F| == cfg.batchSize
            && FailsOnly(cfg, s, run, F) && Cycles(cfg, s, run) == n
            && Exec(cfg, INIT, before + run) == s
  {
    hide Exec, Inv, FailsOnly, Cycles;
    var b := cfg.batchSize;
    var crowd := Crowd(cfg, rule, text, b + 1);
    var s0 := Exec(cfg, INIT, crowd);
    ReachableInv(cfg, crowd);
    var tick := Tick(s0.now + 1.0);
    before := crowd + [tick];
    ExecConcat(cfg, INIT, crowd, [tick]);
    ExecOne(cfg, s0, tick);
    var s := s0.(now := s0.now + 1.0);
    assert Exec(cfg, INIT, before) == s;
    CrowdWaits(cfg, s0);
    var ids := BatchExists(s.db.jobs, b, []);
    j := LeftOut(s.db.jobs, b, ids);
    F := Limiter.Elements(ids);
    run := FailingCycles(cfg, s, ids, n);
    ExecConcat(cfg, INIT, before, run);
  }

  lemma CrowdWaits(cfg: Settings, s: State)
    requires Inv(cfg, s)
    ensures forall j :: 0 <= j < |s.db.jobs| ==> s.db.jobs[j].updatedAt <= s.now
    ensures forall j :: 0 <= j < |s.db.jobs| && s.db.jobs[j].status == Accepted ==> Pollable(s.db.jobs[j])
  {
    hide KeysOk, CyclesOk, OwnersOk, AccountsOk, GrantsOk, CountersOk, RowOk;
    Stamps(cfg, s);
  }
}
