/** No event is lost: only handling settles an event, one whose handling raised is received
    again, and every unsettled event can still be processed in full. */
module EventSafety {
  import opened Models
  import opened JobLifecycle
  import opened JobTable
  import opened EventProcessing
  import Limiter = RateLimiter
  import opened PseudoGram
  import opened Pipeline
  import opened Invariants
  import opened Theorems
  import opened Origins
  import opened Comeback

  /** An event becomes processed or ignored only as the head of the batch, and only when its
      handling does not raise. */
  lemma SettledOnlyByHandling(cfg: Settings, s: State, a: Action, k: nat)
    requires Enabled(cfg, s, a) && k < |s.db.events| && s.db.events[k].status in {Received, Processing}
    ensures var s' := Step(cfg, s, a);
            && k < |s'.db.events|
            && (s'.db.events[k].status in {Processed, Ignored} ==> a == HandleEvent && s.batch[0] == k)
            && (s'.db.events[k].status in {Received, Processing} ==>
                  s'.db.events[k] == s.db.events[k].(status := s'.db.events[k].status))
  {
    hide AfterSend, AfterStatus, SendDm, ProcessEvent, Violates, Before;
    if a.HandleEvent? {
      ProcessKeepsEvents(cfg, s.db, s.batch[0], s.now);
      OutcomeOf(cfg, s.db, s.batch[0], s.now);
    }
  }

  /** An event whose handling raised is received again, and nothing else of it remains. */
  lemma RaisedIsKept(cfg: Settings, s: State)
    requires Enabled(cfg, s, EventFails)
    ensures var k, s' := s.batch[0], Step(cfg, s, EventFails);
            && |s'.db.events| == |s.db.events|
            && s'.db.events[k] == s.db.events[k].(status := Received)
            && (forall i :: 0 <= i < |s.db.events| && i != k ==> s'.db.events[i] == s.db.events[i])
            && s'.db == s.db.(events := s'.db.events) && s' == s.(db := s'.db, batch := s.batch[1..])
  {
  }

  /** A batch takes received events only, oldest first: one that is left out is younger than
      all of them, and then the batch is full. */
  lemma OldestTaken(cfg: Settings, s: State, ks: seq<nat>, limit: nat, k: nat)
    requires Enabled(cfg, s, TakeEvents(ks, limit)) && k < |s.db.events| && s.db.events[k].status == Received
    ensures |ks| <= limit
    ensures forall a :: 0 <= a < |ks| ==> ks[a] < |s.db.events| && s.db.events[ks[a]].status == Received
    ensures k !in ks ==> |ks| == limit && forall a :: 0 <= a < |ks| ==> ks[a] < k
    ensures limit > 0 && (forall i :: 0 <= i < k ==> s.db.events[i].status != Received) ==>
              k in ks && Step(cfg, s, TakeEvents(ks, limit)).db.events[k].status == Processing
  {
    if k !in ks && limit > 0 {
      assert ks[0] < k;
    }
  }

  // ----- A way to process any unsettled event ---------------------------

  /** The first m events of the batch raise and go back. */
  lemma {:induction false} FirstRaise(cfg: Settings, s: State, m: nat) returns (run: seq<Action>)
    requires m <= |s.batch| && forall a :: 0 <= a < |s.batch| ==> s.batch[a] < |s.db.events|
    requires forall a, b :: 0 <= a < b < |s.batch| ==> s.batch[a] < s.batch[b]
    ensures var s' := Exec(cfg, s, run);
            && s' == s.(db := s.db.(events := s'.db.events), batch := s.batch[m..])
            && |s'.db.events| == |s.db.events|
            && forall a :: m <= a < |s.batch| ==> s'.db.events[s.batch[a]] == s.db.events[s.batch[a]]
    decreases m
  {
    if m == 0 {
      run := [];
      assert s.batch[0..] == s.batch;
    } else {
      var s1 := Do(cfg, s, EventFails);
      assert s1.batch == s.batch[1..] && s1.db == RetryEvent(s.db, s.batch[0]);
      var rest := FirstRaise(cfg, s1, m - 1);
      run := [EventFails] + rest;
      assert run[0] == EventFails && run[1..] == rest;
      assert s.batch[1..][m - 1..] == s.batch[m..];
      var s' := Exec(cfg, s, run);
      forall a | m <= a < |s.batch| ensures s'.db.events[s.batch[a]] == s.db.events[s.batch[a]] {
        assert s.batch[a] == s1.batch[a - 1];
      }
    }
  }

  lemma TakeBatch(cfg: Settings, s: State, ks: seq<nat>, limit: nat)
    requires s.batch == [] && IsEventBatch(s.db, limit, ks)
    ensures Exec(cfg, s, [TakeEvents(ks, limit)])
            == s.(db := s.db.(events := ClaimEvents(s.db.events, ks)), batch := ks)
  {
    ExecOne(cfg, s, TakeEvents(ks, limit));
  }

  /** Every received event is taken, this one among them. */
  lemma TakenWith(cfg: Settings, s: State, k: nat) returns (run: seq<Action>, s': State, m: nat)
    requires s.batch == [] && k < |s.db.events| && s.db.events[k].status == Received
    ensures s' == Exec(cfg, s, run) && s' == s.(db := s.db.(events := s'.db.events), batch := s'.batch)
    ensures |s'.db.events| == |s.db.events| && s'.db.events[k] == s.db.events[k].(status := Processing)
    ensures m < |s'.batch| && s'.batch[m] == k && forall a :: 0 <= a < |s'.batch| ==> s'.batch[a] < |s'.db.events|
    ensures forall a, b :: 0 <= a < b < |s'.batch| ==> s'.batch[a] < s'.batch[b]
  {
    hide Exec;
    var n := |s.db.events|;
    var ks := ReceivedBelow(s.db.events, n);
    ReceivedIsBatch(s.db.events, n);
    m :| 0 <= m < |ks| && ks[m] == k;
    s' := s.(db := s.db.(events := ClaimEvents(s.db.events, ks)), batch := ks);
    run := [TakeEvents(ks, n)];
    TakeBatch(cfg, s, ks, n);
  }

  /** After a restart nothing is claimed; rules, deletions and the event itself are as before. */
  lemma RestartedWith(cfg: Settings, s: State, k: nat) returns (s': State)
    requires k < |s.db.events| && s.db.events[k].status in {Received, Processing}
    ensures s' == Exec(cfg, s, [Restart]) && s'.batch == [] && |s'.db.events| == |s.db.events|
    ensures s'.db.events[k] == s.db.events[k].(status := Received)
    ensures s'.db.rules == s.db.rules && s'.db.deleted == s.db.deleted
  {
    hide RequeueStale, Limiter.WarmStart;
    s' := Do(cfg, s, Restart);
    ExecOne(cfg, s, Restart);
  }

  /** What the event stands for has been done: its matches are counted and each is served. */
  ghost predicate FullyProcessed(cfg: Settings, db: Db, k: nat, rules: seq<string>) {
    && k < |db.events| && db.events[k].status == Processed
    && db.events[k].matched
       == (if Present(db.events[k].text) then |set r | r in rules && cfg.matches(r, db.events[k].text.value)| else 0)
    && forall r :: r in rules && AsksFor(cfg, db.events[k], r) ==> Served(db.jobs, r, db.events[k].userId.value)
  }

  lemma HandledFully(cfg: Settings, db: Db, k: nat, now: real)
    requires k < |db.events| && NoRepeats(db.rules)
    requires var e := db.events[k];
             e.eventType == "comment.created" && Present(e.userId) && !IsGone(db.deleted, e.commentId)
    ensures FullyProcessed(cfg, ProcessEvent(cfg, db, k, now), k, db.rules)
  {
    hide ProcessEvent, FindMatching, Served;
    var e, db' := db.events[k], ProcessEvent(cfg, db, k, now);
    OutcomeOf(cfg, db, k, now);
    ProcessKeepsEvents(cfg, db, k, now);
    MatchedBy(cfg, db, k, now);
    if Present(e.text) {
      MatchesCounted(cfg, db.rules, e.text);
    } else {
      NoTextNoMatch(cfg, db.rules, e.text);
    }
    forall r | r in db.rules && AsksFor(cfg, db'.events[k], r) ensures Served(db'.jobs, r, e.userId.value) {
      MatchesServed(cfg, db, k, now, r);
    }
  }

  lemma NoTextNoMatch(cfg: Settings, rules: seq<string>, text: Option<string>)
    requires !Present(text)
    ensures FindMatching(cfg, rules, text) == []
  {
  }

  /** Whatever raised, crashed or was abandoned before: in every reachable state a comment that
      is stored and not settled can still be processed in full, unless it was deleted. */
  lemma NoEventLost(cfg: Settings, before: seq<Action>, k: nat) returns (more: seq<Action>)
    requires cfg.Sensible()
    requires var db := Exec(cfg, INIT, before).db;
             && k < |db.events| && db.events[k].status in {Received, Processing}
             && db.events[k].eventType == "comment.created" && Present(db.events[k].userId)
             && !IsGone(db.deleted, db.events[k].commentId)
    ensures var s := Exec(cfg, INIT, before);
            FullyProcessed(cfg, Exec(cfg, INIT, before + more).db, k, s.db.rules)
  {
    hide KeysOk, CyclesOk, OwnersOk, RowsOk, AccountsOk, GrantsOk, CountersOk, UniqueSlots, WorkerOk, ReconOk, BatchOk;
    hide Exec, FullyProcessed, NoRepeats, ProcessEvent;
    var s := Exec(cfg, INIT, before);
    ReachableInv(cfg, before);
    var s1 := RestartedWith(cfg, s, k);
    var take, s2, m := TakenWith(cfg, s1, k);
    var skip := FirstRaise(cfg, s2, m);
    var s3 := Exec(cfg, s2, skip);
    assert s3.batch[0] == k && s3.db.events[k] == s2.db.events[k];
    HandledFully(cfg, s3.db, k, s3.now);
    ExecOne(cfg, s3, HandleEvent);
    ExecConcat(cfg, s2, skip, [HandleEvent]);
    ExecConcat(cfg, s1, take, skip + [HandleEvent]);
    ExecConcat(cfg, s, [Restart], take + (skip + [HandleEvent]));
    more := [Restart] + (take + (skip + [HandleEvent]));
    ExecConcat(cfg, INIT, before, more);
  }
}
