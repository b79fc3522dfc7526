/** Where jobs, cancellations and DMs come from: every job answers a comment its rule matches,
    every matching rule is answered, and every DM goes to the user who asked for it. Stated on
    the columns alone. */
module Origins {
  import opened Models
  import opened JobLifecycle
  import opened JobTable
  import opened EventProcessing
  import opened PseudoGram
  import opened Pipeline
  import opened Invariants
  import opened Theorems
  import opened Ordering

  // ----- One event -------------------------------------------------------

  /** A created comment of a known user with a text that the rule matches. */
  ghost predicate AsksFor(cfg: Settings, e: Event, rule: string) {
    && e.eventType == "comment.created" && e.userId.Some? && e.userId.value != ""
    && e.text.Some? && e.text.value != "" && cfg.matches(rule, e.text.value)
  }

  predicate IsGone(deleted: set<string>, comment: Option<string>) {
    comment.Some? && comment.value != "" && comment.value in deleted
  }

  /** Every row an event adds is a fresh one for its user and comment and a stored rule that
      matches its text. */
  lemma RowsMatch(cfg: Settings, db: Db, k: nat, now: real)
    requires k < |db.events| && NoRepeats(db.rules)
    ensures var e, db' := db.events[k], ProcessEvent(cfg, db, k, now);
            forall i :: |db.jobs| <= i < |db'.jobs| ==>
              var row := db'.jobs[i];
              && AsksFor(cfg, e, row.ruleId) && row.ruleId in db.rules
              && row == Job(row.ruleId, e.userId.value, e.commentId, Queued, 0, 0, 0, None, None, now, [])
  {
    var e, db' := db.events[k], ProcessEvent(cfg, db, k, now);
    if e.eventType == COMMENT_CREATED && Present(e.userId) && !CommentDeleted(db, e.commentId) {
      var rules := FindMatching(cfg, db.rules, e.text);
      var marked := SetEvent(db, k, Processed, |rules|);
      MatchesExactly(cfg, db.rules, e.text);
      CreateAllCreates(marked, rules, e.userId.value, e.commentId, now);
      CreatedWanted(marked, rules, e.userId.value, e.commentId, now);
      forall i | |db.jobs| <= i < |db'.jobs| ensures db'.jobs[i].ruleId in rules {
        assert Fills(db.jobs, rules, e.userId.value, db'.jobs[i]);
      }
    }
  }

  /** Some live row is for this rule and user. */
  ghost predicate Served(jobs: seq<Job>, rule: string, user: string) {
    exists i :: 0 <= i < |jobs| && jobs[i].status != Cancelled && jobs[i].ruleId == rule && jobs[i].userId == user
  }

  /** After an event that is not ignored, every stored rule that matches its text is served. */
  lemma MatchesServed(cfg: Settings, db: Db, k: nat, now: real, rule: string)
    requires k < |db.events| && NoRepeats(db.rules)
    requires AsksFor(cfg, db.events[k], rule) && rule in db.rules && !IsGone(db.deleted, db.events[k].commentId)
    ensures Served(ProcessEvent(cfg, db, k, now).jobs, rule, db.events[k].userId.value)
  {
    hide ProcessEvent;
    var e, jobs := db.events[k], ProcessEvent(cfg, db, k, now).jobs;
    MatchesExactly(cfg, db.rules, e.text);
    PairsHas(FindMatching(cfg, db.rules, e.text), e.userId.value, rule);
    AskedIsTaken(cfg, db, k, now, (rule, e.userId.value));
    var i :| 0 <= i < |jobs| && Holds(jobs[i], rule, e.userId.value);
  }

  /** The pairs an event asks for, on the columns. */
  lemma WantsExactly(cfg: Settings, db: Db, k: nat, rule: string, user: string)
    requires k < |db.events| && NoRepeats(db.rules)
    ensures (rule, user) in Wants(cfg, db, k)
            <==> && AsksFor(cfg, db.events[k], rule) && rule in db.rules && db.events[k].userId == Some(user)
                 && !IsGone(db.deleted, db.events[k].commentId)
  {
    var e := db.events[k];
    MatchesExactly(cfg, db.rules, e.text);
    PairsExactly(Demand(cfg, db, k), if Present(e.userId) then e.userId.value else "", rule, user);
  }

  lemma {:induction false} PairsExactly(rules: seq<string>, owner: string, rule: string, user: string)
    ensures (rule, user) in Pairs(rules, owner) <==> rule in rules && user == owner
  {
    if rules != [] {
      PairsExactly(rules[1..], owner, rule, user);
    }
  }

  /** A processed deletion cancels exactly the waiting rows of its comment; no other event
      cancels any row. */
  lemma DeletionCancelsExactly(cfg: Settings, db: Db, k: nat, now: real, i: nat)
    requires k < |db.events| && i < |db.jobs|
    ensures var e, job, jobs' := db.events[k], db.jobs[i], ProcessEvent(cfg, db, k, now).jobs;
            i < |jobs'| && jobs'[i] ==
              if && e.eventType == "comment.deleted" && e.commentId.Some? && e.commentId.value != ""
                 && job.commentId == e.commentId && job.status in {Queued, RetryWait}
              then job.(status := Cancelled, updatedAt := now) else job
  {
    var e := db.events[k];
    if Present(e.userId) {
      var rules := FindMatching(cfg, db.rules, e.text);
      var marked := SetEvent(db, k, Processed, |rules|);
      CreateAllCreates(marked, rules, e.userId.value, e.commentId, now);
      var jobs := CreateAll(marked, rules, e.userId.value, e.commentId, now).jobs;
      assert jobs[i] == jobs[..|db.jobs|][i];
    }
  }

  // ----- Every job has its comment --------------------------------------

  /** Event k is why the job exists. */
  ghost predicate Explains(cfg: Settings, e: Event, job: Job) {
    && e.status == Processed && AsksFor(cfg, e, job.ruleId)
    && e.userId == Some(job.userId) && e.commentId == job.commentId
  }

  ghost predicate HasComment(cfg: Settings, db: Db, job: Job) {
    job.ruleId in db.rules && exists k :: 0 <= k < |db.events| && Explains(cfg, db.events[k], job)
  }

  ghost predicate Explained(cfg: Settings, db: Db) {
    forall j :: 0 <= j < |db.jobs| ==> HasComment(cfg, db, db.jobs[j])
  }

  /** Stored rules and settled events stay. */
  ghost predicate Remembers(db: Db, db': Db) {
    && (forall r :: r in db.rules ==> r in db'.rules)
    && |db.events| <= |db'.events|
    && (forall k :: 0 <= k < |db.events| && db.events[k].status == Processed ==> db'.events[k] == db.events[k])
  }

  lemma StepRemembers(cfg: Settings, s: State, a: Action)
    requires Enabled(cfg, s, a) && BatchOk(s)
    ensures Remembers(s.db, Step(cfg, s, a).db)
  {
    StepEvents(cfg, s, a);
    RulesStay(cfg, s, a);
  }

  lemma RulesStay(cfg: Settings, s: State, a: Action)
    requires Enabled(cfg, s, a)
    ensures forall r :: r in s.db.rules ==> r in Step(cfg, s, a).db.rules
  {
    hide AfterSend, AfterStatus, SendDm, ProcessEvent, Violates, Before;
    if a.HandleEvent? {
      ProcessKeepsEvents(cfg, s.db, s.batch[0], s.now);
    }
  }

  lemma CommentRemembered(cfg: Settings, db: Db, db': Db, job: Job, job': Job)
    requires Remembers(db, db') && HasComment(cfg, db, job) && SameOrigin(job, job')
    ensures HasComment(cfg, db', job')
  {
    var k :| 0 <= k < |db.events| && Explains(cfg, db.events[k], job);
    assert Explains(cfg, db'.events[k], job');
  }

  lemma StepExplains(cfg: Settings, s: State, a: Action)
    requires Inv(cfg, s) && Enabled(cfg, s, a) && Explained(cfg, s.db)
    ensures Explained(cfg, Step(cfg, s, a).db)
  {
    hide KeysOk, CyclesOk, OwnersOk, RowsOk, AccountsOk, GrantsOk, CountersOk, UniqueSlots, WorkerOk, ReconOk;
    hide Step, Enabled, HasComment, RowStep, Remembers;
    var s' := Step(cfg, s, a);
    StepRows(cfg, s, a);
    StepRemembers(cfg, s, a);
    forall j | 0 <= j < |s'.db.jobs| ensures HasComment(cfg, s'.db, s'.db.jobs[j]) {
      if j < |s.db.jobs| {
        assert RowStep(cfg, s, a, j, s'.db.jobs[j]);
        RowCycle(cfg, s, a, j, s'.db.jobs[j]);
        CommentRemembered(cfg, s.db, s'.db, s.db.jobs[j], s'.db.jobs[j]);
      } else {
        assert NewRow(s, a, s'.db.jobs[j]);
        NewcomerExplained(cfg, s, j);
      }
    }
  }

  lemma NewcomerExplained(cfg: Settings, s: State, j: nat)
    requires Enabled(cfg, s, HandleEvent) && NoRepeats(s.db.rules)
    requires var s' := Step(cfg, s, HandleEvent); |s.db.jobs| <= j < |s'.db.jobs|
    ensures var s' := Step(cfg, s, HandleEvent); HasComment(cfg, s'.db, s'.db.jobs[j])
  {
    hide ProcessEvent;
    var k, s' := s.batch[0], Step(cfg, s, HandleEvent);
    RowsMatch(cfg, s.db, k, s.now);
    ProcessKeepsEvents(cfg, s.db, k, s.now);
    OutcomeOf(cfg, s.db, k, s.now);
    NotIgnored(cfg, s.db, k, s.now);
    assert Explains(cfg, s'.db.events[k], s'.db.jobs[j]);
  }

  /** Only an event that is processed adds rows. */
  lemma NotIgnored(cfg: Settings, db: Db, k: nat, now: real)
    requires k < |db.events|
    ensures var db' := ProcessEvent(cfg, db, k, now);
            |db'.jobs| > |db.jobs| ==> !IsGone(db.deleted, db.events[k].commentId)
  {
  }

  lemma {:induction false} RunExplains(cfg: Settings, s: State, run: seq<Action>)
    requires cfg.Sensible() && Inv(cfg, s) && Explained(cfg, s.db)
    ensures Explained(cfg, Exec(cfg, s, run).db)
    decreases |run|
  {
    hide Inv, Explained, Step, Enabled;
    if run != [] {
      DoKeepsInv(cfg, s, run[0]);
      if Enabled(cfg, s, run[0]) {
        StepExplains(cfg, s, run[0]);
      }
      RunExplains(cfg, Do(cfg, s, run[0]), run[1..]);
    }
  }

  /** In every reachable state every job has a stored rule and a processed comment of its own
      user, with its comment id, whose text that rule matches. */
  lemma JobHasItsComment(cfg: Settings, run: seq<Action>, j: nat)
    requires cfg.Sensible()
    ensures var db := Exec(cfg, INIT, run).db;
            j < |db.jobs| ==>
              && db.jobs[j].ruleId in db.rules
              && exists k :: 0 <= k < |db.events| && Explains(cfg, db.events[k], db.jobs[j])
  {
    hide Inv;
    InitInv(cfg);
    RunExplains(cfg, INIT, run);
    if j < |Exec(cfg, INIT, run).db.jobs| {
      assert HasComment(cfg, Exec(cfg, INIT, run).db, Exec(cfg, INIT, run).db.jobs[j]);
    }
  }

  /** And the other way round: once a reachable state processes a comment that was not deleted,
      every stored rule that matches it has a job for its user, in every state from then on. */
  lemma MatchingRulesAnswered(cfg: Settings, run: seq<Action>, more: seq<Action>, rule: string)
    requires cfg.Sensible()
    ensures var s, s' := Exec(cfg, INIT, run), Exec(cfg, INIT, run + ([HandleEvent] + more));
            Enabled(cfg, s, HandleEvent) && rule in s.db.rules && AsksFor(cfg, s.db.events[s.batch[0]], rule)
            && !IsGone(s.db.deleted, s.db.events[s.batch[0]].commentId) ==>
              exists i :: 0 <= i < |s'.db.jobs| && s'.db.jobs[i].ruleId == rule
                          && s'.db.jobs[i].userId == s.db.events[s.batch[0]].userId.value
  {
    hide KeysOk, CyclesOk, OwnersOk, RowsOk, AccountsOk, GrantsOk, CountersOk, UniqueSlots, WorkerOk, ReconOk, BatchOk;
    hide Exec;
    var s := Exec(cfg, INIT, run);
    ReachableInv(cfg, run);
    ExecConcat(cfg, INIT, run, [HandleEvent] + more);
    ExecConcat(cfg, s, [HandleEvent], more);
    ExecOne(cfg, s, HandleEvent);
    if && Enabled(cfg, s, HandleEvent) && rule in s.db.rules && AsksFor(cfg, s.db.events[s.batch[0]], rule)
       && !IsGone(s.db.deleted, s.db.events[s.batch[0]].commentId)
    {
      var mid := Step(cfg, s, HandleEvent);
      MatchesServed(cfg, s.db, s.batch[0], s.now, rule);
      var i :| 0 <= i < |mid.db.jobs| && mid.db.jobs[i].ruleId == rule
               && mid.db.jobs[i].userId == s.db.events[s.batch[0]].userId.value;
      OriginKept(cfg, mid, more, i);
    }
  }

  lemma {:induction false} OriginKept(cfg: Settings, s: State, run: seq<Action>, i: nat)
    requires i < |s.db.jobs|
    ensures var s' := Exec(cfg, s, run); i < |s'.db.jobs| && SameOrigin(s.db.jobs[i], s'.db.jobs[i])
    decreases |run|
  {
    hide Step, Enabled, RowStep;
    if run != [] {
      var mid := Do(cfg, s, run[0]);
      if Enabled(cfg, s, run[0]) {
        StepRows(cfg, s, run[0]);
        assert RowStep(cfg, s, run[0], i, mid.db.jobs[i]);
        RowCycle(cfg, s, run[0], i, mid.db.jobs[i]);
      }
      OriginKept(cfg, mid, run[1..], i);
    }
  }

  // ----- Every cancelled job has its deletion ---------------------------

  /** A row becomes cancelled only while its own comment's deletion is handled, from waiting. */
  lemma CancelledByDeletion(cfg: Settings, s: State, a: Action, k: nat)
    requires Enabled(cfg, s, a) && k < |s.db.jobs| && s.db.jobs[k].status != Cancelled
    requires k < |Step(cfg, s, a).db.jobs| && Step(cfg, s, a).db.jobs[k].status == Cancelled
    ensures a.HandleEvent? && s.batch != [] && s.batch[0] < |s.db.events|
    ensures var e := s.db.events[s.batch[0]];
            e.eventType == "comment.deleted" && e.commentId == s.db.jobs[k].commentId && Present(e.commentId)
    ensures s.db.jobs[k].status in {Queued, RetryWait}
  {
    hide AfterSend, AfterStatus, SendDm, ProcessEvent, Violates, UniqueSlots;
    if a.HandleEvent? {
      DeletionCancelsExactly(cfg, s.db, s.batch[0], s.now, k);
    } else if a.ApplyResult? {
      SendShape(cfg, s.db.jobs[s.worker.job], s.worker.phase.result, s.now, a.draw);
    } else if a.ApplyStatus? && s.db.jobs[s.recon.queue[0].0].status == Accepted {
      StatusShape(cfg, s.db.jobs[s.recon.queue[0].0], s.recon.reply.value, s.now, a.draw);
    }
  }

  /** A processed deletion of this comment is stored. */
  ghost predicate Withdrawal(e: Event, comment: Option<string>) {
    e.status == Processed && e.eventType == "comment.deleted" && e.commentId == comment && Present(comment)
  }

  ghost predicate HasDeletion(db: Db, job: Job) {
    CommentDeleted(db, job.commentId) && exists k :: 0 <= k < |db.events| && Withdrawal(db.events[k], job.commentId)
  }

  ghost predicate CancelledForReason(db: Db) {
    forall j :: 0 <= j < |db.jobs| && db.jobs[j].status == Cancelled ==> HasDeletion(db, db.jobs[j])
  }

  lemma DeletionRemembered(db: Db, db': Db, job: Job, job': Job)
    requires Remembers(db, db') && db.deleted <= db'.deleted && HasDeletion(db, job) && SameOrigin(job, job')
    ensures HasDeletion(db', job')
  {
    var k :| 0 <= k < |db.events| && Withdrawal(db.events[k], job.commentId);
    assert Withdrawal(db'.events[k], job'.commentId);
  }

  lemma DeletedGrows(cfg: Settings, s: State, a: Action)
    requires Enabled(cfg, s, a)
    ensures s.db.deleted <= Step(cfg, s, a).db.deleted
  {
    hide AfterSend, AfterStatus, SendDm, ProcessEvent, Violates, Before;
    if a.HandleEvent? {
      OutcomeOf(cfg, s.db, s.batch[0], s.now);
    }
  }

  lemma JustCancelled(cfg: Settings, s: State, j: nat)
    requires Enabled(cfg, s, HandleEvent) && j < |s.db.jobs|
    requires var e := s.db.events[s.batch[0]];
             e.eventType == "comment.deleted" && e.commentId == s.db.jobs[j].commentId && Present(e.commentId)
    ensures HasDeletion(Step(cfg, s, HandleEvent).db, s.db.jobs[j])
  {
    hide ProcessEvent;
    var k, db' := s.batch[0], Step(cfg, s, HandleEvent).db;
    OutcomeOf(cfg, s.db, k, s.now);
    ProcessKeepsEvents(cfg, s.db, k, s.now);
    assert Withdrawal(db'.events[k], s.db.jobs[j].commentId);
  }

  lemma StepCancelsForReason(cfg: Settings, s: State, a: Action)
    requires Enabled(cfg, s, a) && BatchOk(s) && CancelledForReason(s.db)
    ensures CancelledForReason(Step(cfg, s, a).db)
  {
    hide Step, Enabled, RowStep, HasDeletion, Remembers;
    var s' := Step(cfg, s, a);
    StepRows(cfg, s, a);
    StepRemembers(cfg, s, a);
    DeletedGrows(cfg, s, a);
    forall j | |s.db.jobs| <= j < |s'.db.jobs| ensures s'.db.jobs[j].status == Queued {
      assert NewRow(s, a, s'.db.jobs[j]);
    }
    forall j | 0 <= j < |s'.db.jobs| && s'.db.jobs[j].status == Cancelled ensures HasDeletion(s'.db, s'.db.jobs[j]) {
      if j < |s.db.jobs| {
        assert RowStep(cfg, s, a, j, s'.db.jobs[j]);
        RowCycle(cfg, s, a, j, s'.db.jobs[j]);
        if s.db.jobs[j].status != Cancelled {
          CancelledByDeletion(cfg, s, a, j);
          JustCancelled(cfg, s, j);
          SameDeletion(s'.db, s.db.jobs[j], s'.db.jobs[j]);
        } else {
          DeletionRemembered(s.db, s'.db, s.db.jobs[j], s'.db.jobs[j]);
        }
      }
    }
  }

  lemma SameDeletion(db: Db, job: Job, job': Job)
    requires HasDeletion(db, job) && SameOrigin(job, job')
    ensures HasDeletion(db, job')
  {
  }

  lemma {:induction false} RunCancelsForReason(cfg: Settings, s: State, run: seq<Action>)
    requires cfg.Sensible() && Inv(cfg, s) && CancelledForReason(s.db)
    ensures CancelledForReason(Exec(cfg, s, run).db)
    decreases |run|
  {
    hide KeysOk, CyclesOk, OwnersOk, RowsOk, AccountsOk, GrantsOk, CountersOk, UniqueSlots, WorkerOk, ReconOk;
    hide CancelledForReason, Step, Enabled;
    if run != [] {
      DoKeepsInv(cfg, s, run[0]);
      if Enabled(cfg, s, run[0]) {
        StepCancelsForReason(cfg, s, run[0]);
      }
      RunCancelsForReason(cfg, Do(cfg, s, run[0]), run[1..]);
    }
  }

  /** In every reachable state every cancelled job has a stored, processed deletion of its own
      comment. */
  lemma CancelledHasItsDeletion(cfg: Settings, run: seq<Action>, j: nat)
    requires cfg.Sensible()
    ensures var db := Exec(cfg, INIT, run).db;
            j < |db.jobs| && db.jobs[j].status == Cancelled ==>
              && db.jobs[j].commentId.Some? && db.jobs[j].commentId.value in db.deleted
              && exists k :: 0 <= k < |db.events| && Withdrawal(db.events[k], db.jobs[j].commentId)
  {
    hide Inv;
    InitInv(cfg);
    RunCancelsForReason(cfg, INIT, run);
    var db := Exec(cfg, INIT, run).db;
    if j < |db.jobs| && db.jobs[j].status == Cancelled {
      assert HasDeletion(db, db.jobs[j]);
    }
  }

  // ----- Every DM goes to the user who asked ----------------------------

  /** The DM is addressed to the user of the job it was made for. */
  ghost predicate RightlyAddressed(s: State, d: string) {
    && d in s.origin && s.origin[d].0 < |s.db.jobs|
    && d in s.provider.dms && s.provider.dms[d].recipient == s.db.jobs[s.origin[d].0].userId
  }

  ghost predicate Addressed(s: State) {
    forall d :: d in s.provider.dms ==> RightlyAddressed(s, d)
  }

  /** Only a landing request makes a DM, for the user of its job; no other action readdresses one. */
  lemma DmsAddressed(cfg: Settings, s: State, a: Action, d: string)
    requires Enabled(cfg, s, a) && d in Step(cfg, s, a).provider.dms
    ensures var s' := Step(cfg, s, a);
            if d in s.provider.dms then
              s'.provider.dms[d].recipient == s.provider.dms[d].recipient
              && (d in s.origin ==> d in s'.origin && s'.origin[d] == s.origin[d])
            else
              && d in s'.origin && s'.origin[d].0 < |s.db.jobs|
              && s'.provider.dms[d].recipient == s.db.jobs[s'.origin[d].0].userId
  {
    if a.Land? {
      LandAddressed(s, a.job, a.cycle, a.draws, d);
    } else {
      hide Step;
      NobodyReaddressed(cfg, s, a);
    }
  }

  lemma LandAddressed(s: State, j: nat, cycle: nat, draws: Draws, d: string)
    requires j < |s.db.jobs| && draws.dmId !in s.provider.dms && d in Landed(s, j, cycle, draws).provider.dms
    ensures var s' := Landed(s, j, cycle, draws);
            if d in s.provider.dms then
              s'.provider.dms[d].recipient == s.provider.dms[d].recipient
              && (d in s.origin ==> d in s'.origin && s'.origin[d] == s.origin[d])
            else d in s'.origin && s'.origin[d].0 == j && s'.provider.dms[d].recipient == s.db.jobs[j].userId
  {
    hide Key;
  }

  lemma NobodyReaddressed(cfg: Settings, s: State, a: Action)
    requires Enabled(cfg, s, a) && !a.Land?
    ensures var s' := Step(cfg, s, a);
            && s'.origin == s.origin && s'.provider.dms.Keys == s.provider.dms.Keys
            && forall d :: d in s.provider.dms ==> s'.provider.dms[d].recipient == s.provider.dms[d].recipient
  {
    hide AfterSend, AfterStatus, ProcessEvent, Ingest, Violates, WriteBack, RequeueStale, IsNext;
    if !a.Settle? {
      assert Step(cfg, s, a).provider == s.provider;
    }
  }

  lemma StepAddresses(cfg: Settings, s: State, a: Action)
    requires Enabled(cfg, s, a) && Addressed(s)
    ensures Addressed(Step(cfg, s, a))
  {
    hide Step, Enabled, RowStep;
    var s' := Step(cfg, s, a);
    StepRows(cfg, s, a);
    forall d | d in s'.provider.dms ensures RightlyAddressed(s', d) {
      DmsAddressed(cfg, s, a, d);
      if d in s.provider.dms {
        assert RightlyAddressed(s, d);
      }
      var j := s'.origin[d].0;
      assert RowStep(cfg, s, a, j, s'.db.jobs[j]);
      RowCycle(cfg, s, a, j, s'.db.jobs[j]);
    }
  }

  lemma {:induction false} RunAddresses(cfg: Settings, s: State, run: seq<Action>)
    requires Addressed(s)
    ensures Addressed(Exec(cfg, s, run))
    decreases |run|
  {
    hide Addressed, Step, Enabled;
    if run != [] {
      if Enabled(cfg, s, run[0]) {
        StepAddresses(cfg, s, run[0]);
      }
      RunAddresses(cfg, Do(cfg, s, run[0]), run[1..]);
    }
  }

  /** Whatever is lost, repeated or late: every DM the provider ever made is addressed to a user
      with a processed comment that the rule of the DM's job matches. */
  lemma EveryDmWasAskedFor(cfg: Settings, run: seq<Action>, d: string)
    requires cfg.Sensible()
    ensures var s := Exec(cfg, INIT, run);
            d in s.provider.dms ==>
              && d in s.origin && s.origin[d].0 < |s.db.jobs|
              && exists k :: 0 <= k < |s.db.events| && s.db.events[k].status == Processed
                   && AsksFor(cfg, s.db.events[k], s.db.jobs[s.origin[d].0].ruleId)
                   && s.db.events[k].userId == Some(s.provider.dms[d].recipient)
  {
    var s := Exec(cfg, INIT, run);
    RunAddresses(cfg, INIT, run);
    if d in s.provider.dms {
      assert RightlyAddressed(s, d);
      var j := s.origin[d].0;
      JobHasItsComment(cfg, run, j);
      var k :| 0 <= k < |s.db.events| && Explains(cfg, s.db.events[k], s.db.jobs[j]);
    }
  }
}
