/** The reported numbers in terms of the rows and the run: counters count webhooks, and the
    statistics count rows. */
module Accounting {
  import opened Models
  import opened JobLifecycle
  import opened JobTable
  import opened EventProcessing
  import opened Pipeline
  import opened Invariants
  import opened Theorems

  /** Webhooks that arrived in a run. */
  ghost function Webhooks(run: seq<Action>): nat {
    if run == [] then 0 else (if run[0].Webhook? then 1 else 0) + Webhooks(run[1..])
  }

  /** The two webhook counters, absent ones read as 0. */
  function WebhookCounts(counters: map<CounterKey, nat>): (nat, nat) {
    (if EventsReceived in counters then counters[EventsReceived] else 0,
     if DuplicateEvents in counters then counters[DuplicateEvents] else 0)
  }

  /** Creating jobs counts nothing but blocked duplicates. */
  lemma {:induction false} CreationCounts(db: Db, rules: seq<string>, user: string, comment: Option<string>, now: real)
    ensures WebhookCounts(CreateAll(db, rules, user, comment, now).counters) == WebhookCounts(db.counters)
    decreases |rules|
  {
    if rules != [] {
      CreationCounts(CreateJob(db, rules[0], user, comment, now), rules[1..], user, comment, now);
    }
  }

  lemma HandlingCounts(cfg: Settings, db: Db, k: nat, now: real)
    requires k < |db.events|
    ensures var db' := ProcessEvent(cfg, db, k, now);
            |db'.events| == |db.events| && WebhookCounts(db'.counters) == WebhookCounts(db.counters)
  {
    ProcessKeepsEvents(cfg, db, k, now);
    var e := db.events[k];
    if Present(e.userId) {
      var rules := FindMatching(cfg, db.rules, e.text);
      CreationCounts(SetEvent(db, k, Processed, |rules|), rules, e.userId.value, e.commentId, now);
    }
  }

  /** A webhook counts one event received or one duplicate; nothing else counts either. */
  lemma StepCounts(cfg: Settings, s: State, a: Action)
    requires Enabled(cfg, s, a)
    ensures var db, db' := s.db, Step(cfg, s, a).db;
            var c, c' := WebhookCounts(db.counters), WebhookCounts(db'.counters);
            && c'.0 - c.0 == |db'.events| - |db.events|
            && c'.0 + c'.1 == c.0 + c.1 + (if a.Webhook? then 1 else 0)
  {
    hide Step, WebhookCounts;
    if a.HandleEvent? {
      HandlingCounted(cfg, s);
    } else if a.Webhook? {
      WebhookCounted(cfg, s, a.payload);
    } else if a.TakeEvents? || a.EventFails? || a.Restart? {
      RequeueCounted(cfg, s, a);
    } else {
      CountsUntouched(cfg, s, a);
    }
  }

  lemma HandlingCounted(cfg: Settings, s: State)
    requires Enabled(cfg, s, HandleEvent)
    ensures var db' := Step(cfg, s, HandleEvent).db;
            |db'.events| == |s.db.events| && WebhookCounts(db'.counters) == WebhookCounts(s.db.counters)
  {
    hide ProcessEvent, WebhookCounts;
    HandlingCounts(cfg, s.db, s.batch[0], s.now);
  }

  lemma WebhookCounted(cfg: Settings, s: State, p: Payload)
    ensures var db, db' := s.db, Step(cfg, s, Webhook(p)).db;
            var c, c' := WebhookCounts(db.counters), WebhookCounts(db'.counters);
            c'.0 - c.0 == |db'.events| - |db.events| && c'.0 + c'.1 == c.0 + c.1 + 1
  {
  }

  lemma RequeueCounted(cfg: Settings, s: State, a: Action)
    requires Enabled(cfg, s, a) && (a.TakeEvents? || a.EventFails? || a.Restart?)
    ensures var db' := Step(cfg, s, a).db;
            |db'.events| == |s.db.events| && WebhookCounts(db'.counters) == WebhookCounts(s.db.counters)
  {
    if a.Restart? {
      SeededKeeps(s.db.counters, EventsReceived);
      SeededKeeps(s.db.counters, DuplicateEvents);
    }
  }

  lemma {:induction false} RunCounts(cfg: Settings, s: State, run: seq<Action>)
    ensures var db, db' := s.db, Exec(cfg, s, run).db;
            var c, c' := WebhookCounts(db.counters), WebhookCounts(db'.counters);
            && c'.0 - c.0 == |db'.events| - |db.events|
            && c'.0 + c'.1 == c.0 + c.1 + Webhooks(run)
    decreases |run|
  {
    hide Step, Enabled, WebhookCounts;
    if run != [] {
      if Enabled(cfg, s, run[0]) {
        StepCounts(cfg, s, run[0]);
      } else {
        NotAWebhook(cfg, s, run[0]);
      }
      RunCounts(cfg, Do(cfg, s, run[0]), run[1..]);
    }
  }

  lemma NotAWebhook(cfg: Settings, s: State, a: Action)
    requires !Enabled(cfg, s, a)
    ensures !a.Webhook?
  {
  }

  /** In every reachable state, restarts included: `events_received` is the number of stored
      events, and with the duplicate events it is the number of webhooks that arrived. */
  lemma WebhooksCounted(cfg: Settings, run: seq<Action>)
    ensures var db := Exec(cfg, INIT, run).db;
            var received := if EventsReceived in db.counters then db.counters[EventsReceived] else 0;
            var duplicates := if DuplicateEvents in db.counters then db.counters[DuplicateEvents] else 0;
            received == |db.events| && received + duplicates == Webhooks(run)
  {
    hide Exec;
    RunCounts(cfg, INIT, run);
  }

  /** Rows neither ended nor cancelled. */
  function Open(jobs: seq<Job>): set<nat> {
    set i: nat | i < |jobs| && jobs[i].status in {Queued, Sending, Accepted, RetryWait}
  }

  lemma OpenSplit(jobs: seq<Job>)
    ensures |Open(jobs)| == |WithStatus(jobs, Queued)| + |WithStatus(jobs, Sending)|
                            + |WithStatus(jobs, Accepted)| + |WithStatus(jobs, RetryWait)|
  {
    var q, s, a, r := WithStatus(jobs, Queued), WithStatus(jobs, Sending), WithStatus(jobs, Accepted),
                      WithStatus(jobs, RetryWait);
    Disjoint(jobs);
    assert Open(jobs) == q + s + a + r;
    Apart4(q, s, a, r);
  }

  lemma Disjoint(jobs: seq<Job>)
    ensures forall s, s' :: s != s' ==> WithStatus(jobs, s) !! WithStatus(jobs, s')
  {
  }

  lemma Apart4(a: set<nat>, b: set<nat>, c: set<nat>, d: set<nat>)
    requires a !! b && a !! c && a !! d && b !! c && b !! d && c !! d
    ensures |a + b + c + d| == |a| + |b| + |c| + |d|
  {
    assert |a + b| == |a| + |b| && (a + b) !! c;
    assert |a + b + c| == |a + b| + |c| && (a + b + c) !! d;
  }

  /** The statistics are numbers of rows: delivered, failed, and neither ended nor cancelled. */
  lemma StatsCountRows(jobs: seq<Job>)
    ensures CountStatus(jobs, Delivered) == |WithStatus(jobs, Delivered)|
    ensures CountStatus(jobs, Failed) == |WithStatus(jobs, Failed)|
    ensures Pending(jobs) == |Open(jobs)|
  {
    hide WithStatus, Open, CountStatus;
    CountIsSize(jobs, Delivered);
    CountIsSize(jobs, Failed);
    CountIsSize(jobs, Queued);
    CountIsSize(jobs, Sending);
    CountIsSize(jobs, Accepted);
    CountIsSize(jobs, RetryWait);
    OpenSplit(jobs);
  }
}
