/** Webhook ingestion and event processing (app/services/events.py, app/services/counters.py
    and `create_job` of app/services/jobs.py) as functions on the whole database, with the
    conservation law of `duplicates_blocked` and order independence. */
module EventProcessing {
  import opened Models
  import opened JobLifecycle
  import opened JobTable

  datatype Payload = Payload(
    eventId: string,
    eventType: string,
    commentId: Option<string>,
    userId: Option<string>,
    text: Option<string>)

  /** `events[k]` is the row with primary key k + 1, `rules` the ids of the active rules.
      `redelivered` is a history variable: matches counted for redelivered webhooks. */
  datatype Db = Db(
    rules: seq<string>,
    events: seq<Event>,
    jobs: seq<Job>,
    deleted: set<string>,
    counters: map<CounterKey, nat>,
    redelivered: nat)

  const EMPTY_DB := Db([], [], [], {}, map[], 0)

  // ----- Counters --------------------------------------------------------

  function Get(counters: map<CounterKey, nat>, key: CounterKey): nat {
    if key in counters then counters[key] else 0
  }

  function Increment(counters: map<CounterKey, nat>, key: CounterKey, amount: nat): map<CounterKey, nat> {
    if amount == 0 then counters else counters[key := Get(counters, key) + amount]
  }

  /** `seed_counters`: missing rows are created with 0. */
  function Seeded(counters: map<CounterKey, nat>): map<CounterKey, nat> {
    map[DuplicatesBlocked := Get(counters, DuplicatesBlocked),
        DuplicateEvents := Get(counters, DuplicateEvents),
        EventsReceived := Get(counters, EventsReceived)]
  }

  // ----- Matching --------------------------------------------------------

  function Matching(cfg: Settings, rules: seq<string>, text: string): seq<string> {
    if rules == [] then []
    else (if cfg.matches(rules[0], text) then [rules[0]] else []) + Matching(cfg, rules[1..], text)
  }

  /** `find_matching_rules`. */
  function FindMatching(cfg: Settings, rules: seq<string>, text: Option<string>): seq<string> {
    if Present(text) then Matching(cfg, rules, text.value) else []
  }

  ghost predicate NoRepeats(xs: seq<string>) {
    forall i, k :: 0 <= i < k < |xs| ==> xs[i] != xs[k]
  }

  lemma {:induction false} MatchingIs(cfg: Settings, rules: seq<string>, text: string)
    ensures forall r :: r in Matching(cfg, rules, text) <==> r in rules && cfg.matches(r, text)
  {
    if rules != [] {
      MatchingIs(cfg, rules[1..], text);
      assert rules == [rules[0]] + rules[1..];
    }
  }

  /** The rules found for a text: those that match, none of them twice; none without a text. */
  lemma MatchesExactly(cfg: Settings, rules: seq<string>, text: Option<string>)
    requires NoRepeats(rules)
    ensures var found := FindMatching(cfg, rules, text);
            && NoRepeats(found)
            && forall r :: r in found
                 <==> r in rules && text.Some? && text.value != "" && cfg.matches(r, text.value)
  {
    if Present(text) {
      MatchingIs(cfg, rules, text.value);
      MatchingOnce(cfg, rules, text.value);
    }
  }

  lemma {:induction false} MatchingOnce(cfg: Settings, rules: seq<string>, text: string)
    requires NoRepeats(rules)
    ensures NoRepeats(Matching(cfg, rules, text))
  {
    if rules != [] {
      assert forall k :: 0 <= k < |rules[1..]| ==> rules[1..][k] == rules[k + 1];
      MatchingOnce(cfg, rules[1..], text);
      MatchingIs(cfg, rules[1..], text);
      assert rules[0] !in rules[1..];
    }
  }

  // ----- Job creation ----------------------------------------------------

  /** `create_job`: insert, or count a duplicate when the index rejects the row. */
  function CreateJob(db: Db, rule: string, user: string, comment: Option<string>, now: real): Db {
    if SlotTaken(db.jobs, rule, user) then
      db.(counters := Increment(db.counters, DuplicatesBlocked, 1))
    else
      db.(jobs := db.jobs + [NewJob(rule, user, comment, now)])
  }

  function CreateAll(db: Db, rules: seq<string>, user: string, comment: Option<string>, now: real): Db
    decreases |rules|
  {
    if rules == [] then db
    else CreateAll(CreateJob(db, rules[0], user, comment, now), rules[1..], user, comment, now)
  }

  // ----- Processing one event -------------------------------------------

  predicate CommentDeleted(db: Db, comment: Option<string>) {
    Present(comment) && comment.value in db.deleted
  }

  function SetEvent(db: Db, k: nat, status: EventStatus, matched: nat): Db
    requires k < |db.events|
  {
    db.(events := db.events[k := db.events[k].(status := status, matched := matched)])
  }

  /** `process_event` with both its branches, committed. */
  function ProcessEvent(cfg: Settings, db: Db, k: nat, now: real): Db
    requires k < |db.events|
  {
    var e := db.events[k];
    if e.eventType == COMMENT_CREATED then
      if !Present(e.userId) || CommentDeleted(db, e.commentId) then SetEvent(db, k, Ignored, 0)
      else
        var rules := FindMatching(cfg, db.rules, e.text);
        CreateAll(SetEvent(db, k, Processed, |rules|), rules, e.userId.value, e.commentId, now)
    else if e.eventType == COMMENT_DELETED then
      if !Present(e.commentId) then SetEvent(db, k, Ignored, 0)
      else
        SetEvent(db, k, Processed, 0).(deleted := db.deleted + {e.commentId.value},
                                       jobs := CancelFor(db.jobs, e.commentId.value, now))
    else SetEvent(db, k, Ignored, 0)
  }

  /** The handler of `process_pending_events`: after the rollback the event is retryable. */
  function RetryEvent(db: Db, k: nat): Db
    requires k < |db.events|
  {
    db.(events := db.events[k := db.events[k].(status := Received)])
  }

  // ----- Ingesting, claiming and requeueing events ----------------------

  predicate Known(db: Db, eventId: string) {
    exists k :: 0 <= k < |db.events| && db.events[k].eventId == eventId
  }

  /** Matches `_handle_duplicate_event` counts for a redelivery. */
  function RedeliveredMatches(cfg: Settings, db: Db, p: Payload): nat {
    if cfg.countRedeliveries && p.eventType == COMMENT_CREATED && Present(p.userId) && !CommentDeleted(db, p.commentId)
    then |FindMatching(cfg, db.rules, p.text)| else 0
  }

  /** `ingest_event`. */
  function Ingest(cfg: Settings, db: Db, p: Payload): Db {
    if Known(db, p.eventId) then
      var blocked := RedeliveredMatches(cfg, db, p);
      db.(counters := Increment(Increment(db.counters, DuplicateEvents, 1), DuplicatesBlocked, blocked),
          redelivered := db.redelivered + blocked)
    else
      db.(events := db.events + [Event(p.eventId, p.eventType, p.commentId, p.userId, p.text, Received, 0)],
          counters := Increment(db.counters, EventsReceived, 1))
  }

  /** `ks` are the oldest `received` events, at most `limit` of them. */
  ghost predicate IsEventBatch(db: Db, limit: nat, ks: seq<nat>) {
    && |ks| <= limit
    && (forall a :: 0 <= a < |ks| ==> ks[a] < |db.events| && db.events[ks[a]].status == Received)
    && (forall a, b :: 0 <= a < b < |ks| ==> ks[a] < ks[b])
    && (forall k :: 0 <= k < |db.events| && db.events[k].status == Received && k !in ks ==>
          |ks| == limit && forall a :: 0 <= a < |ks| ==> ks[a] < k)
  }

  function ClaimEvents(events: seq<Event>, ks: seq<nat>): (events': seq<Event>)
    ensures |events'| == |events|
    ensures forall k :: 0 <= k < |events| ==>
              events'[k] == if k in ks then events[k].(status := Processing) else events[k]
  {
    seq(|events|, k requires 0 <= k < |events| => if k in ks then events[k].(status := Processing) else events[k])
  }

  function RequeueStuck(events: seq<Event>): (events': seq<Event>)
    ensures |events'| == |events|
    ensures forall k :: 0 <= k < |events| ==>
              events'[k] == if events[k].status == Processing then events[k].(status := Received) else events[k]
  {
    seq(|events|, k requires 0 <= k < |events| =>
          if events[k].status == Processing then events[k].(status := Received) else events[k])
  }

  // ----- What creation does ---------------------------------------------

  /** Everything the creations of one event may change, and the counting law. */
  ghost predicate Created(db: Db, db': Db, wanted: nat, user: string, comment: Option<string>) {
    && db' == db.(jobs := db'.jobs, counters := db'.counters)
    && |db.jobs| <= |db'.jobs|
    && db'.jobs[..|db.jobs|] == db.jobs
    && (forall i :: |db.jobs| <= i < |db'.jobs| ==>
          db'.jobs[i] == NewJob(db'.jobs[i].ruleId, user, comment, db'.jobs[i].updatedAt))
    && |db'.jobs| + Get(db'.counters, DuplicatesBlocked) == |db.jobs| + Get(db.counters, DuplicatesBlocked) + wanted
  }

  lemma {:induction false} CreateAllCreates(db: Db, rules: seq<string>, user: string, comment: Option<string>,
                                            now: real)
    ensures Created(db, CreateAll(db, rules, user, comment, now), |rules|, user, comment)
    ensures forall i :: |db.jobs| <= i < |CreateAll(db, rules, user, comment, now).jobs| ==>
              CreateAll(db, rules, user, comment, now).jobs[i].updatedAt == now
    ensures UniqueSlots(db.jobs) ==> UniqueSlots(CreateAll(db, rules, user, comment, now).jobs)
    decreases |rules|
  {
    if rules != [] {
      var mid := CreateJob(db, rules[0], user, comment, now);
      CreateAllCreates(mid, rules[1..], user, comment, now);
      var end := CreateAll(mid, rules[1..], user, comment, now);
      assert db.jobs == mid.jobs[..|db.jobs|] == end.jobs[..|mid.jobs|][..|db.jobs|] == end.jobs[..|db.jobs|];
      if |mid.jobs| > |db.jobs| {
        assert end.jobs[|db.jobs|] == end.jobs[..|mid.jobs|][|db.jobs|] == mid.jobs[|db.jobs|];
        if UniqueSlots(db.jobs) {
          AppendKeepsUnique(db.jobs, NewJob(rules[0], user, comment, now));
        }
      }
    }
  }

  // ----- Conservation ----------------------------------------------------

  /** Rules matched by the comment.created events that reached `processed`. */
  function SumMatched(events: seq<Event>): nat {
    if events == [] then 0
    else SumMatched(events[..|events| - 1]) + Share(events[|events| - 1])
  }

  function Share(e: Event): nat {
    if e.status == Processed && e.eventType == COMMENT_CREATED then e.matched else 0
  }

  lemma {:induction false} SumMatchedUpdate(events: seq<Event>, k: nat, e: Event)
    requires k < |events|
    ensures SumMatched(events[k := e]) == SumMatched(events) - Share(events[k]) + Share(e)
  {
    var n := |events| - 1;
    if k == n {
      assert events[k := e][..n] == events[..n];
    } else {
      assert events[k := e][..n] == events[..n][k := e];
      SumMatchedUpdate(events[..n], k, e);
    }
  }

  lemma {:induction false} SumMatchedSame(events: seq<Event>, events': seq<Event>)
    requires |events| == |events'| && forall k :: 0 <= k < |events| ==> Share(events[k]) == Share(events'[k])
    ensures SumMatched(events) == SumMatched(events')
  {
    if events != [] {
      SumMatchedSame(events[..|events| - 1], events'[..|events| - 1]);
    }
  }

  /** Every matching decision is either a job or a blocked duplicate, once. */
  ghost predicate Conserved(db: Db) {
    |db.jobs| + Get(db.counters, DuplicatesBlocked) == SumMatched(db.events) + db.redelivered
  }

  lemma ProcessConserves(cfg: Settings, db: Db, k: nat, now: real)
    requires Conserved(db) && k < |db.events| && db.events[k].status == Processing
    ensures Conserved(ProcessEvent(cfg, db, k, now))
  {
    var e := db.events[k];
    var rules := FindMatching(cfg, db.rules, e.text);
    SumMatchedUpdate(db.events, k, e.(status := Ignored, matched := 0));
    SumMatchedUpdate(db.events, k, e.(status := Processed, matched := 0));
    SumMatchedUpdate(db.events, k, e.(status := Processed, matched := |rules|));
    if Present(e.userId) {
      CreateAllCreates(SetEvent(db, k, Processed, |rules|), rules, e.userId.value, e.commentId, now);
    }
  }

  lemma IngestConserves(cfg: Settings, db: Db, p: Payload)
    requires Conserved(db)
    ensures Conserved(Ingest(cfg, db, p))
  {
    if !Known(db, p.eventId) {
      var e := Event(p.eventId, p.eventType, p.commentId, p.userId, p.text, Received, 0);
      assert (db.events + [e])[..|db.events|] == db.events;
    }
  }

  // ----- Order independence ---------------------------------------------

  /** Process the events with the given keys, in that order. */
  function ProcessAll(cfg: Settings, db: Db, order: seq<nat>, now: real): Db
    requires forall a :: 0 <= a < |order| ==> order[a] < |db.events|
    decreases |order|
  {
    if order == [] then db
    else
      ProcessKeepsEvents(cfg, db, order[0], now);
      ProcessAll(cfg, ProcessEvent(cfg, db, order[0], now), order[1..], now)
  }

  lemma ProcessKeepsEvents(cfg: Settings, db: Db, k: nat, now: real)
    requires k < |db.events|
    ensures var db' := ProcessEvent(cfg, db, k, now);
            && |db'.events| == |db.events| && db'.rules == db.rules
            && forall i :: 0 <= i < |db.events| ==>
                 db'.events[i] == db.events[i].(status := db'.events[i].status, matched := db'.events[i].matched)
                 && (i != k ==> db'.events[i] == db.events[i])
  {
    var e := db.events[k];
    var rules := FindMatching(cfg, db.rules, e.text);
    if Present(e.userId) {
      CreateAllCreates(SetEvent(db, k, Processed, |rules|), rules, e.userId.value, e.commentId, now);
    }
  }

  /** What becomes of the event: a created comment of a known user is processed unless it was
      deleted, a deletion of a known comment is processed, and anything else is ignored. */
  lemma OutcomeOf(cfg: Settings, db: Db, k: nat, now: real)
    requires k < |db.events|
    ensures var e, db' := db.events[k], ProcessEvent(cfg, db, k, now);
            var user, comment := e.userId.Some? && e.userId.value != "", e.commentId.Some? && e.commentId.value != "";
            && |db'.events| == |db.events|
            && db'.events[k].status
               == (if || (e.eventType == "comment.created" && user && !(comment && e.commentId.value in db.deleted))
                      || (e.eventType == "comment.deleted" && comment)
                   then Processed else Ignored)
            && db'.deleted
               == db.deleted + (if e.eventType == "comment.deleted" && comment then {e.commentId.value} else {})
  {
    var e := db.events[k];
    var rules := FindMatching(cfg, db.rules, e.text);
    if Present(e.userId) {
      CreateAllCreates(SetEvent(db, k, Processed, |rules|), rules, e.userId.value, e.commentId, now);
    }
  }

  /** A new webhook is stored as it came, a known one changes nothing but counters. */
  lemma IngestStores(cfg: Settings, db: Db, p: Payload)
    ensures var db' := Ingest(cfg, db, p);
            && db'.rules == db.rules && db'.jobs == db.jobs && db'.deleted == db.deleted
            && if exists k :: 0 <= k < |db.events| && db.events[k].eventId == p.eventId
               then db'.events == db.events
               else db'.events
                    == db.events + [Event(p.eventId, p.eventType, p.commentId, p.userId, p.text, Received, 0)]
  {
  }

  /** Seeding makes every counter present and changes no count. */
  lemma SeededKeeps(counters: map<CounterKey, nat>, key: CounterKey)
    ensures key in Seeded(counters)
    ensures Seeded(counters)[key] == if key in counters then counters[key] else 0
  {
  }

  /** The (rule, user) pairs that are taken. */
  function Slots(jobs: seq<Job>): set<(string, string)> {
    if jobs == [] then {}
    else
      var job := jobs[|jobs| - 1];
      Slots(jobs[..|jobs| - 1]) + if Live(job) then {(job.ruleId, job.userId)} else {}
  }

  lemma {:induction false} SlotTakenIff(jobs: seq<Job>, rule: string, user: string)
    ensures SlotTaken(jobs, rule, user) <==> (rule, user) in Slots(jobs)
  {
    if jobs != [] {
      var n := |jobs| - 1;
      SlotTakenIff(jobs[..n], rule, user);
      assert forall i :: 0 <= i < n ==> jobs[..n][i] == jobs[i];
      assert Holds(jobs[n], rule, user) ==> SlotTaken(jobs, rule, user);
    }
  }

  /** The rules an event asks a DM for. */
  function Demand(cfg: Settings, db: Db, k: nat): seq<string>
    requires k < |db.events|
  {
    var e := db.events[k];
    if e.eventType == COMMENT_CREATED && Present(e.userId) && !CommentDeleted(db, e.commentId)
    then FindMatching(cfg, db.rules, e.text) else []
  }

  function Pairs(rules: seq<string>, user: string): set<(string, string)> {
    if rules == [] then {} else {(rules[0], user)} + Pairs(rules[1..], user)
  }

  function Wants(cfg: Settings, db: Db, k: nat): set<(string, string)>
    requires k < |db.events|
  {
    var e := db.events[k];
    if Present(e.userId) then Pairs(Demand(cfg, db, k), e.userId.value) else {}
  }

  function TotalDemand(cfg: Settings, db: Db, order: seq<nat>): nat
    requires forall a :: 0 <= a < |order| ==> order[a] < |db.events|
  {
    if order == [] then 0 else |Demand(cfg, db, order[0])| + TotalDemand(cfg, db, order[1..])
  }

  lemma CreateJobSlots(db: Db, rule: string, user: string, comment: Option<string>, now: real)
    ensures var db' := CreateJob(db, rule, user, comment, now);
            && Slots(db'.jobs) == Slots(db.jobs) + {(rule, user)}
            && |db'.jobs| - |Slots(db'.jobs)| == |db.jobs| - |Slots(db.jobs)|
  {
    SlotTakenIff(db.jobs, rule, user);
    var job := NewJob(rule, user, comment, now);
    assert (db.jobs + [job])[..|db.jobs|] == db.jobs;
  }

  lemma {:induction false} CreateAllSlots(db: Db, rules: seq<string>, user: string, comment: Option<string>, now: real)
    ensures var db' := CreateAll(db, rules, user, comment, now);
            && Slots(db'.jobs) == Slots(db.jobs) + Pairs(rules, user)
            && |db'.jobs| - |Slots(db'.jobs)| == |db.jobs| - |Slots(db.jobs)|
    decreases |rules|
  {
    if rules != [] {
      CreateJobSlots(db, rules[0], user, comment, now);
      CreateAllSlots(CreateJob(db, rules[0], user, comment, now), rules[1..], user, comment, now);
    }
  }

  /** One comment.created event: the slots it takes, the jobs and duplicates it adds. */
  lemma ProcessSlots(cfg: Settings, db: Db, k: nat, now: real)
    requires k < |db.events| && db.events[k].eventType == COMMENT_CREATED
    ensures var db' := ProcessEvent(cfg, db, k, now);
            && Slots(db'.jobs) == Slots(db.jobs) + Wants(cfg, db, k)
            && |db'.jobs| - |Slots(db'.jobs)| == |db.jobs| - |Slots(db.jobs)|
            && |db'.jobs| + Get(db'.counters, DuplicatesBlocked)
               == |db.jobs| + Get(db.counters, DuplicatesBlocked) + |Demand(cfg, db, k)|
            && db'.deleted == db.deleted
  {
    var e := db.events[k];
    if Present(e.userId) && !CommentDeleted(db, e.commentId) {
      var rules := FindMatching(cfg, db.rules, e.text);
      var marked := SetEvent(db, k, Processed, |rules|);
      CreateAllCreates(marked, rules, e.userId.value, e.commentId, now);
      CreateAllSlots(marked, rules, e.userId.value, e.commentId, now);
    } else {
      assert Wants(cfg, db, k) == {};
    }
  }

  /** Outcomes of other events do not change what an event asks for. */
  lemma SameDemand(cfg: Settings, db0: Db, db: Db, k: nat)
    requires k < |db.events| == |db0.events| && db.rules == db0.rules && db.deleted == db0.deleted
    requires db.events[k] == db0.events[k].(status := db.events[k].status, matched := db.events[k].matched)
    ensures Demand(cfg, db, k) == Demand(cfg, db0, k) && Wants(cfg, db, k) == Wants(cfg, db0, k)
  {
  }

  /** The outcome of a whole order, in terms of the events as they were at the start. */
  lemma {:induction false} ProcessAllOutcome(cfg: Settings, db0: Db, db: Db, order: seq<nat>, now: real)
    requires |db.events| == |db0.events| && db.rules == db0.rules && db.deleted == db0.deleted
    requires forall i :: 0 <= i < |db.events| ==>
               db.events[i] == db0.events[i].(status := db.events[i].status, matched := db.events[i].matched)
    requires forall a :: 0 <= a < |order| ==> order[a] < |db.events| && db.events[order[a]].eventType == COMMENT_CREATED
    ensures var end := ProcessAll(cfg, db, order, now);
            && (forall p :: p in Slots(end.jobs) <==>
                  p in Slots(db.jobs) || exists a :: 0 <= a < |order| && p in Wants(cfg, db0, order[a]))
            && |end.jobs| - |Slots(end.jobs)| == |db.jobs| - |Slots(db.jobs)|
            && |end.jobs| + Get(end.counters, DuplicatesBlocked)
               == |db.jobs| + Get(db.counters, DuplicatesBlocked) + TotalDemand(cfg, db0, order)
    decreases |order|
  {
    hide ProcessEvent, Demand, Wants, Slots;
    if order != [] {
      var k, rest := order[0], order[1..];
      var mid := ProcessEvent(cfg, db, k, now);
      ProcessKeepsEvents(cfg, db, k, now);
      ProcessSlots(cfg, db, k, now);
      SameDemand(cfg, db0, db, k);
      ProcessAllOutcome(cfg, db0, mid, rest, now);
      var end := ProcessAll(cfg, db, order, now);
      forall p
        ensures p in Slots(end.jobs) <==>
                  p in Slots(db.jobs) || exists a :: 0 <= a < |order| && p in Wants(cfg, db0, order[a])
      {
        if p in Wants(cfg, db0, k) {
          assert p in Wants(cfg, db0, order[0]);
        }
        if a :| 0 <= a < |rest| && p in Wants(cfg, db0, rest[a]) {
          assert p in Wants(cfg, db0, order[a + 1]);
        }
        if a :| 0 <= a < |order| && p in Wants(cfg, db0, order[a]) {
          assert a == 0 || p in Wants(cfg, db0, rest[a - 1]);
        }
      }
    }
  }

  lemma {:induction false} TotalDemandRemove(cfg: Settings, db: Db, order: seq<nat>, a: nat)
    requires forall b :: 0 <= b < |order| ==> order[b] < |db.events|
    requires a < |order|
    ensures TotalDemand(cfg, db, order)
            == |Demand(cfg, db, order[a])| + TotalDemand(cfg, db, order[..a] + order[a + 1..])
    decreases |order|
  {
    if a > 0 {
      TotalDemandRemove(cfg, db, order[1..], a - 1);
      var rest := order[..a] + order[a + 1..];
      assert rest[1..] == order[1..][..a - 1] + order[1..][a..];
    } else {
      assert order[..0] + order[1..] == order[1..];
    }
  }

  lemma RemoveFirst(order: seq<nat>, order': seq<nat>) returns (a: nat)
    requires order != [] && multiset(order) == multiset(order')
    ensures a < |order'| && order'[a] == order[0]
    ensures multiset(order[1..]) == multiset(order'[..a] + order'[a + 1..])
  {
    assert order[0] in multiset(order');
    a :| 0 <= a < |order'| && order'[a] == order[0];
    assert order == [order[0]] + order[1..];
    assert order' == order'[..a] + ([order'[a]] + order'[a + 1..]);
    assert multiset(order) - multiset{order[0]} == multiset(order[1..]);
  }

  lemma {:induction false} TotalDemandPermuted(cfg: Settings, db: Db, order: seq<nat>, order': seq<nat>)
    requires multiset(order) == multiset(order')
    requires forall b :: 0 <= b < |order| ==> order[b] < |db.events|
    requires forall b :: 0 <= b < |order'| ==> order'[b] < |db.events|
    ensures TotalDemand(cfg, db, order) == TotalDemand(cfg, db, order')
    decreases |order|
  {
    if order == [] {
      assert |multiset(order')| == |order'|;
      assert order' == [];
    } else {
      var a := RemoveFirst(order, order');
      var rest, rest' := order[1..], order'[..a] + order'[a + 1..];
      TotalDemandPermuted(cfg, db, rest, rest');
      TotalDemandRemove(cfg, db, order', a);
    }
  }

  /** Processing the same comment.created events in any order, with fixed rules and no
      deletion in between, takes the same slots, creates as many jobs and blocks as many
      duplicates. */
  lemma OrderIndependent(cfg: Settings, db: Db, order: seq<nat>, order': seq<nat>, now: real, now': real)
    requires multiset(order) == multiset(order')
    requires forall b :: 0 <= b < |order| ==> order[b] < |db.events| && db.events[order[b]].eventType == COMMENT_CREATED
    requires forall b :: 0 <= b < |order'| ==>
               order'[b] < |db.events| && db.events[order'[b]].eventType == COMMENT_CREATED
    ensures var end, end' := ProcessAll(cfg, db, order, now), ProcessAll(cfg, db, order', now');
            && Slots(end.jobs) == Slots(end'.jobs)
            && |end.jobs| == |end'.jobs|
            && Get(end.counters, DuplicatesBlocked) == Get(end'.counters, DuplicatesBlocked)
  {
    ProcessAllOutcome(cfg, db, db, order, now);
    ProcessAllOutcome(cfg, db, db, order', now');
    TotalDemandPermuted(cfg, db, order, order');
    var end, end' := ProcessAll(cfg, db, order, now), ProcessAll(cfg, db, order', now');
    forall p ensures p in Slots(end.jobs) <==> p in Slots(end'.jobs) {
      SameWants(cfg, db, order, order', p);
      SameWants(cfg, db, order', order, p);
    }
    assert Slots(end.jobs) == Slots(end'.jobs);
  }

  lemma SameWants(cfg: Settings, db: Db, order: seq<nat>, order': seq<nat>, p: (string, string))
    requires multiset(order) == multiset(order')
    requires forall b :: 0 <= b < |order| ==> order[b] < |db.events|
    requires forall b :: 0 <= b < |order'| ==> order'[b] < |db.events|
    ensures (exists a :: 0 <= a < |order| && p in Wants(cfg, db, order[a])) ==>
            (exists a :: 0 <= a < |order'| && p in Wants(cfg, db, order'[a]))
  {
    if a :| 0 <= a < |order| && p in Wants(cfg, db, order[a]) {
      assert order[a] in multiset(order');
      var b :| 0 <= b < |order'| && order'[b] == order[a];
      assert p in Wants(cfg, db, order'[b]);
    }
  }

  // ----- Deletions break it ---------------------------------------------

  lemma ProcessThree(cfg: Settings, db: Db, a: nat, b: nat, c: nat, now: real) returns (end: Db)
    requires a < |db.events| && b < |db.events| && c < |db.events|
    ensures end == ProcessAll(cfg, db, [a, b, c], now)
    ensures var db1 := ProcessEvent(cfg, db, a, now);
            && |db1.events| == |db.events|
            && var db2 := ProcessEvent(cfg, db1, b, now);
               |db2.events| == |db.events| && end == ProcessEvent(cfg, db2, c, now)
  {
    ProcessKeepsEvents(cfg, db, a, now);
    var db1 := ProcessEvent(cfg, db, a, now);
    ProcessKeepsEvents(cfg, db1, b, now);
    var db2 := ProcessEvent(cfg, db1, b, now);
    end := ProcessEvent(cfg, db2, c, now);
    ProcessKeepsEvents(cfg, db2, c, now);
    assert [a, b, c][1..] == [b, c] && [b, c][1..] == [c] && [c][1..] == [];
    assert ProcessAll(cfg, db2, [c], now) == end;
    assert ProcessAll(cfg, db1, [b, c], now) == end;
  }

  lemma OneRuleCreates(cfg: Settings, db: Db, rule: string, k: nat, now: real)
    requires k < |db.events| && db.rules == [rule]
    requires var e := db.events[k];
             && e.eventType == COMMENT_CREATED && Present(e.userId) && !CommentDeleted(db, e.commentId)
             && Present(e.text) && cfg.matches(rule, e.text.value)
    ensures ProcessEvent(cfg, db, k, now)
            == CreateJob(SetEvent(db, k, Processed, 1), rule, db.events[k].userId.value, db.events[k].commentId, now)
  {
    var e := db.events[k];
    assert Matching(cfg, [rule], e.text.value) == [rule];
    var marked := SetEvent(db, k, Processed, 1);
    assert CreateAll(marked, [rule], e.userId.value, e.commentId, now)
        == CreateJob(marked, rule, e.userId.value, e.commentId, now);
  }

  /** With a deletion among the events the order matters: two comments of one user, then the
      first deleted, leave the pair without a job; the deletion in between leaves it one. */
  lemma DeletionBreaksOrder(cfg: Settings, db: Db, rule: string, user: string, now: real)
    requires db.rules == [rule] && db.jobs == [] && db.deleted == {} && |db.events| == 3
    requires forall k :: 0 <= k < 2 ==>
               var e := db.events[k];
               && e.eventType == COMMENT_CREATED && e.userId == Some(user) && Present(e.commentId)
               && Present(e.text) && cfg.matches(rule, e.text.value)
    requires user != "" && db.events[0].commentId != db.events[1].commentId
    requires db.events[2].eventType == COMMENT_DELETED && db.events[2].commentId == db.events[0].commentId
    ensures !SlotTaken(ProcessAll(cfg, db, [0, 1, 2], now).jobs, rule, user)
    ensures SlotTaken(ProcessAll(cfg, db, [0, 2, 1], now).jobs, rule, user)
  {
    var late := ProcessThree(cfg, db, 0, 1, 2, now);
    var early := ProcessThree(cfg, db, 0, 2, 1, now);
    OneRuleCreates(cfg, db, rule, 0, now);
    var db1 := ProcessEvent(cfg, db, 0, now);
    assert db1.jobs == [NewJob(rule, user, db.events[0].commentId, now)];
    assert Holds(db1.jobs[0], rule, user);
    OneRuleCreates(cfg, db1, rule, 1, now);
    assert ProcessEvent(cfg, db1, 1, now).jobs == db1.jobs;
    assert late.jobs == CancelFor(db1.jobs, db.events[0].commentId.value, now);
    var db2 := ProcessEvent(cfg, db1, 2, now);
    assert db2.jobs == CancelFor(db1.jobs, db.events[0].commentId.value, now);
    OneRuleCreates(cfg, db2, rule, 1, now);
    assert !SlotTaken(db2.jobs, rule, user);
    assert early.jobs == db2.jobs + [NewJob(rule, user, db.events[1].commentId, now)];
    assert Holds(early.jobs[1], rule, user);
  }
}
