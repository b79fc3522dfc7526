/** Order independence with deletions among the events: exactly when the order in which a set
    of events is processed can change which (rule, user) slots are taken. */
module Ordering {
  import opened Models
  import opened JobLifecycle
  import opened JobTable
  import opened EventProcessing

  type Pair = (string, string)

  predicate InRange(db: Db, order: seq<nat>) {
    forall a :: 0 <= a < |order| ==> order[a] < |db.events|
  }

  predicate Deletes(e: Event) {
    e.eventType == COMMENT_DELETED && Present(e.commentId)
  }

  /** The comments deleted by the events to process. */
  function Doomed(db: Db, order: seq<nat>): set<string>
    requires InRange(db, order)
  {
    set a: nat | a < |order| && Deletes(db.events[order[a]]) :: db.events[order[a]].commentId.value
  }

  predicate On(doomed: set<string>, comment: Option<string>) {
    Present(comment) && comment.value in doomed
  }

  /** A row these deletions cancel. */
  predicate Fleeting(doomed: set<string>, job: Job) {
    job.status in {Queued, RetryWait} && On(doomed, job.commentId)
  }

  predicate HeldFirmly(jobs: seq<Job>, doomed: set<string>, p: Pair) {
    exists i :: 0 <= i < |jobs| && Holds(jobs[i], p.0, p.1) && !Fleeting(doomed, jobs[i])
  }

  predicate HeldFleetingly(jobs: seq<Job>, doomed: set<string>, p: Pair) {
    exists i :: 0 <= i < |jobs| && Holds(jobs[i], p.0, p.1) && Fleeting(doomed, jobs[i])
  }

  /** Event k asks for the pair, for a comment that is (not) deleted by these events. */
  predicate Asks(cfg: Settings, db: Db, k: nat, p: Pair, doomed: set<string>, fleeting: bool)
    requires k < |db.events|
  {
    p in Wants(cfg, db, k) && On(doomed, db.events[k].commentId) == fleeting
  }

  predicate Asked(cfg: Settings, db: Db, order: seq<nat>, p: Pair, doomed: set<string>, fleeting: bool)
    requires InRange(db, order)
  {
    exists a :: 0 <= a < |order| && Asks(cfg, db, order[a], p, doomed, fleeting)
  }

  /** The pair is asked for by a comment that stays, no row that stays holds it, and a comment
      that goes asks for it, too, or holds it. */
  predicate Contested(cfg: Settings, db: Db, order: seq<nat>, p: Pair)
    requires InRange(db, order)
  {
    var doomed := Doomed(db, order);
    && !HeldFirmly(db.jobs, doomed, p) && Asked(cfg, db, order, p, doomed, false)
    && (HeldFleetingly(db.jobs, doomed, p) || Asked(cfg, db, order, p, doomed, true))
  }

  predicate IsOrder(db: Db, order: seq<nat>, keys: seq<nat>) {
    InRange(db, order) && multiset(order) == multiset(keys)
  }

  // ----- One event -------------------------------------------------------

  /** The same rules and events, up to their outcomes, and nothing deleted but these. */
  ghost predicate Drifted(db0: Db, db: Db, doomed: set<string>) {
    && |db.events| == |db0.events| && db.rules == db0.rules
    && db0.deleted <= db.deleted <= db0.deleted + doomed
    && forall i :: 0 <= i < |db.events| ==>
         db.events[i] == db0.events[i].(status := db.events[i].status, matched := db.events[i].matched)
  }

  /** The row answers one of these rules, whose slot was free. */
  ghost predicate Fills(jobs: seq<Job>, rules: seq<string>, user: string, row: Job) {
    row.ruleId in rules && !SlotTaken(jobs, row.ruleId, user)
  }

  lemma {:induction false} CreatedWanted(db: Db, rules: seq<string>, user: string, comment: Option<string>, now: real)
    ensures forall i :: |db.jobs| <= i < |CreateAll(db, rules, user, comment, now).jobs| ==>
              Fills(db.jobs, rules, user, CreateAll(db, rules, user, comment, now).jobs[i])
    decreases |rules|
  {
    if rules != [] {
      var mid := CreateJob(db, rules[0], user, comment, now);
      var end := CreateAll(mid, rules[1..], user, comment, now);
      CreatedWanted(mid, rules[1..], user, comment, now);
      CreateAllCreates(mid, rules[1..], user, comment, now);
      forall i | |db.jobs| <= i < |end.jobs| ensures Fills(db.jobs, rules, user, end.jobs[i]) {
        if i < |mid.jobs| {
          assert end.jobs[i] == end.jobs[..|mid.jobs|][i] == mid.jobs[i] == NewJob(rules[0], user, comment, now);
        } else {
          assert Fills(mid.jobs, rules[1..], user, end.jobs[i]);
          StillFree(db.jobs, mid.jobs, end.jobs[i].ruleId, user);
        }
      }
    }
  }

  lemma StillFree(jobs: seq<Job>, more: seq<Job>, rule: string, user: string)
    requires jobs <= more && !SlotTaken(more, rule, user)
    ensures !SlotTaken(jobs, rule, user)
  {
    forall j | 0 <= j < |jobs| ensures !Holds(jobs[j], rule, user) {
      assert jobs[j] == more[j];
    }
  }

  lemma {:induction false} PairsHas(rules: seq<string>, user: string, rule: string)
    requires rule in rules
    ensures (rule, user) in Pairs(rules, user)
  {
    if rule != rules[0] {
      PairsHas(rules[1..], user, rule);
    }
  }

  /** What processing event k does to the rows. */
  ghost predicate RowsAfter(cfg: Settings, db: Db, k: nat, db': Db)
    requires k < |db.events|
  {
    var e := db.events[k];
    && |db.jobs| <= |db'.jobs|
    && (forall i :: 0 <= i < |db.jobs| ==>
          || db'.jobs[i] == db.jobs[i]
          || (&& Deletes(e) && Cancellable(db.jobs[i], e.commentId.value)
              && db'.jobs[i].status == Cancelled && SameOrigin(db.jobs[i], db'.jobs[i])))
    && (Deletes(e) ==> forall i :: 0 <= i < |db'.jobs| ==> !Cancellable(db'.jobs[i], e.commentId.value))
    && (forall i :: |db.jobs| <= i < |db'.jobs| ==> Newcomer(cfg, db, k, db'.jobs[i]))
    && db'.deleted == db.deleted + (if Deletes(e) then {e.commentId.value} else {})
  }

  /** A row made for a free slot that event k asks for. */
  ghost predicate Newcomer(cfg: Settings, db: Db, k: nat, row: Job)
    requires k < |db.events|
  {
    && row.status == Queued && row.commentId == db.events[k].commentId && !CommentDeleted(db, row.commentId)
    && (row.ruleId, row.userId) in Wants(cfg, db, k) && !SlotTaken(db.jobs, row.ruleId, row.userId)
    && db.events[k].eventType == COMMENT_CREATED
  }

  lemma ProcessRows(cfg: Settings, db: Db, k: nat, now: real)
    requires k < |db.events|
    ensures RowsAfter(cfg, db, k, ProcessEvent(cfg, db, k, now))
  {
    var e := db.events[k];
    if e.eventType == COMMENT_CREATED && Present(e.userId) && !CommentDeleted(db, e.commentId) {
      CreatedRows(cfg, db, k, now);
    }
  }

  lemma CreatedRows(cfg: Settings, db: Db, k: nat, now: real)
    requires k < |db.events| && db.events[k].eventType == COMMENT_CREATED
    requires Present(db.events[k].userId) && !CommentDeleted(db, db.events[k].commentId)
    ensures RowsAfter(cfg, db, k, ProcessEvent(cfg, db, k, now))
  {
    hide FindMatching, SlotTaken;
    var e := db.events[k];
    var user := e.userId.value;
    var rules := FindMatching(cfg, db.rules, e.text);
    var marked := SetEvent(db, k, Processed, |rules|);
    var jobs := CreateAll(marked, rules, user, e.commentId, now).jobs;
    CreateAllCreates(marked, rules, user, e.commentId, now);
    CreatedWanted(marked, rules, user, e.commentId, now);
    forall i | |db.jobs| <= i < |jobs| ensures Newcomer(cfg, db, k, jobs[i]) {
      assert Fills(db.jobs, rules, user, jobs[i]);
      PairsHas(rules, user, jobs[i].ruleId);
    }
    forall i | 0 <= i < |db.jobs| ensures jobs[i] == db.jobs[i] {
      assert jobs[i] == jobs[..|db.jobs|][i];
    }
  }

  /** An event asks for no more than at the start, and for as much while its comment stands. */
  lemma WantsDrifted(cfg: Settings, db0: Db, db: Db, doomed: set<string>, k: nat)
    requires Drifted(db0, db, doomed) && k < |db.events|
    ensures Wants(cfg, db, k) <= Wants(cfg, db0, k)
    ensures !On(doomed, db.events[k].commentId) ==> Wants(cfg, db, k) == Wants(cfg, db0, k)
  {
  }

  lemma StepDrifts(cfg: Settings, db0: Db, db: Db, doomed: set<string>, k: nat, now: real)
    requires Drifted(db0, db, doomed) && k < |db.events|
    requires Deletes(db.events[k]) ==> db.events[k].commentId.value in doomed
    ensures Drifted(db0, ProcessEvent(cfg, db, k, now), doomed)
  {
    ProcessKeepsEvents(cfg, db, k, now);
    ProcessRows(cfg, db, k, now);
  }

  /** The pairs an event asks for are taken afterwards. */
  lemma AskedIsTaken(cfg: Settings, db: Db, k: nat, now: real, p: Pair)
    requires k < |db.events| && p in Wants(cfg, db, k)
    ensures SlotTaken(ProcessEvent(cfg, db, k, now).jobs, p.0, p.1)
  {
    ProcessSlots(cfg, db, k, now);
    SlotTakenIff(ProcessEvent(cfg, db, k, now).jobs, p.0, p.1);
  }

  // ----- What one event does to a pair ----------------------------------

  lemma FirmStep(cfg: Settings, db: Db, k: nat, db': Db, doomed: set<string>, p: Pair)
    requires k < |db.events| && RowsAfter(cfg, db, k, db')
    requires Deletes(db.events[k]) ==> db.events[k].commentId.value in doomed
    ensures HeldFirmly(db.jobs, doomed, p) ==> HeldFirmly(db'.jobs, doomed, p)
  {
    hide Newcomer;
    if i :| 0 <= i < |db.jobs| && Holds(db.jobs[i], p.0, p.1) && !Fleeting(doomed, db.jobs[i]) {
      assert db'.jobs[i] == db.jobs[i];
    }
  }

  lemma FirmComesFrom(cfg: Settings, db: Db, k: nat, db': Db, doomed: set<string>, p: Pair)
    requires k < |db.events| && RowsAfter(cfg, db, k, db') && HeldFirmly(db'.jobs, doomed, p)
    ensures HeldFirmly(db.jobs, doomed, p)
            || (Asks(cfg, db, k, p, doomed, false) && !SlotTaken(db.jobs, p.0, p.1))
  {
    hide Wants;
    var i :| 0 <= i < |db'.jobs| && Holds(db'.jobs[i], p.0, p.1) && !Fleeting(doomed, db'.jobs[i]);
    if i < |db.jobs| {
      assert db'.jobs[i] == db.jobs[i];
    } else {
      assert Newcomer(cfg, db, k, db'.jobs[i]);
    }
  }

  lemma FleetingComesFrom(cfg: Settings, db: Db, k: nat, db': Db, doomed: set<string>, p: Pair)
    requires k < |db.events| && RowsAfter(cfg, db, k, db') && HeldFleetingly(db'.jobs, doomed, p)
    ensures HeldFleetingly(db.jobs, doomed, p) || Asks(cfg, db, k, p, doomed, true)
  {
    hide Wants;
    var i :| 0 <= i < |db'.jobs| && Holds(db'.jobs[i], p.0, p.1) && Fleeting(doomed, db'.jobs[i]);
    if i < |db.jobs| {
      assert db'.jobs[i] == db.jobs[i];
    } else {
      assert Newcomer(cfg, db, k, db'.jobs[i]);
    }
  }

  /** A row that goes blocks every newcomer until its comment is deleted. */
  lemma FleetingBlocks(cfg: Settings, db: Db, k: nat, db': Db, doomed: set<string>, p: Pair)
    requires k < |db.events| && RowsAfter(cfg, db, k, db') && db.events[k].eventType == COMMENT_CREATED
    requires HeldFleetingly(db.jobs, doomed, p) && !HeldFirmly(db.jobs, doomed, p)
    ensures HeldFleetingly(db'.jobs, doomed, p) && !HeldFirmly(db'.jobs, doomed, p)
  {
    hide Wants, Newcomer;
    var i :| 0 <= i < |db.jobs| && Holds(db.jobs[i], p.0, p.1) && Fleeting(doomed, db.jobs[i]);
    assert db'.jobs[i] == db.jobs[i];
    if HeldFirmly(db'.jobs, doomed, p) {
      FirmComesFrom(cfg, db, k, db', doomed, p);
    }
  }

  lemma TakenIsHeld(jobs: seq<Job>, doomed: set<string>, p: Pair)
    ensures SlotTaken(jobs, p.0, p.1) <==> HeldFirmly(jobs, doomed, p) || HeldFleetingly(jobs, doomed, p)
  {
    if i :| 0 <= i < |jobs| && Holds(jobs[i], p.0, p.1) {
      assert HeldFirmly(jobs, doomed, p) || Fleeting(doomed, jobs[i]);
    }
  }

  // ----- Whole orders ----------------------------------------------------

  lemma DoomedRest(cfg: Settings, db: Db, order: seq<nat>, now: real)
    requires InRange(db, order) && order != []
    ensures var db' := ProcessEvent(cfg, db, order[0], now);
            && InRange(db', order[1..])
            && Doomed(db, order) == Doomed(db', order[1..])
                                    + (if Deletes(db.events[order[0]]) then {db.events[order[0]].commentId.value}
                                       else {})
  {
    var db', rest := ProcessEvent(cfg, db, order[0], now), order[1..];
    ProcessKeepsEvents(cfg, db, order[0], now);
    forall c | c in Doomed(db, order)
      ensures c in Doomed(db', rest) || (Deletes(db.events[order[0]]) && c == db.events[order[0]].commentId.value)
    {
      var a: nat :| a < |order| && Deletes(db.events[order[a]]) && db.events[order[a]].commentId.value == c;
      if a > 0 {
        assert rest[a - 1] == order[a] && Deletes(db'.events[rest[a - 1]]);
      }
    }
    forall c | c in Doomed(db', rest) ensures c in Doomed(db, order) {
      var a: nat :| a < |rest| && Deletes(db'.events[rest[a]]) && db'.events[rest[a]].commentId.value == c;
      assert order[a + 1] == rest[a] && Deletes(db.events[order[a + 1]]);
    }
  }

  lemma {:induction false} FirmStays(cfg: Settings, db: Db, order: seq<nat>, now: real, doomed: set<string>, p: Pair)
    requires InRange(db, order) && Doomed(db, order) <= doomed && HeldFirmly(db.jobs, doomed, p)
    ensures HeldFirmly(ProcessAll(cfg, db, order, now).jobs, doomed, p)
    decreases |order|
  {
    hide ProcessEvent, HeldFirmly, Doomed, RowsAfter;
    if order != [] {
      var db' := ProcessEvent(cfg, db, order[0], now);
      DoomedRest(cfg, db, order, now);
      ProcessRows(cfg, db, order[0], now);
      FirmStep(cfg, db, order[0], db', doomed, p);
      FirmStays(cfg, db', order[1..], now, doomed, p);
    }
  }

  ghost predicate NoneFleeting(jobs: seq<Job>, doomed: set<string>) {
    forall i :: 0 <= i < |jobs| ==> !Fleeting(doomed, jobs[i])
  }

  /** Once all deletions are processed, no row they cancel is left. */
  lemma {:induction false} NoneFleetingLeft(cfg: Settings, db: Db, order: seq<nat>, now: real, gone: set<string>)
    requires InRange(db, order) && gone <= db.deleted
    requires NoneFleeting(db.jobs, gone)
    ensures NoneFleeting(ProcessAll(cfg, db, order, now).jobs, gone + Doomed(db, order))
    decreases |order|
  {
    hide ProcessEvent, Doomed, Wants, NoneFleeting, RowsAfter;
    if order == [] {
      NothingDoomed(db);
      assert gone + {} == gone;
    } else {
      var e, db' := db.events[order[0]], ProcessEvent(cfg, db, order[0], now);
      DoomedRest(cfg, db, order, now);
      ProcessRows(cfg, db, order[0], now);
      var more := gone + if Deletes(e) then {e.commentId.value} else {};
      CleanStep(cfg, db, order[0], db', gone, more);
      NoneFleetingLeft(cfg, db', order[1..], now, more);
      assert gone + Doomed(db, order) == more + Doomed(db', order[1..]);
    }
  }

  lemma NothingDoomed(db: Db)
    ensures Doomed(db, []) == {}
  {
  }

  lemma CleanStep(cfg: Settings, db: Db, k: nat, db': Db, gone: set<string>, more: set<string>)
    requires k < |db.events| && RowsAfter(cfg, db, k, db') && gone <= db.deleted
    requires more == gone + if Deletes(db.events[k]) then {db.events[k].commentId.value} else {}
    requires NoneFleeting(db.jobs, gone)
    ensures more <= db'.deleted && NoneFleeting(db'.jobs, more)
  {
    hide Wants;
    forall i | 0 <= i < |db'.jobs| ensures !Fleeting(more, db'.jobs[i]) {
      if i >= |db.jobs| {
        assert Newcomer(cfg, db, k, db'.jobs[i]);
      }
    }
  }

  /** A row that holds the pair in the end was there or answers an event whose comment stays. */
  lemma {:induction false} FirmHasOrigin(cfg: Settings, db0: Db, db: Db, order: seq<nat>, now: real,
                                         doomed: set<string>, p: Pair)
    requires InRange(db, order) && Drifted(db0, db, doomed) && Doomed(db, order) <= doomed
    requires HeldFirmly(ProcessAll(cfg, db, order, now).jobs, doomed, p)
    ensures HeldFirmly(db.jobs, doomed, p) || Asked(cfg, db0, order, p, doomed, false)
    decreases |order|
  {
    hide ProcessEvent, HeldFirmly, Doomed, RowsAfter, Wants;
    if order != [] {
      var k, db' := order[0], ProcessEvent(cfg, db, order[0], now);
      DoomedRest(cfg, db, order, now);
      ProcessRows(cfg, db, k, now);
      StepDrifts(cfg, db0, db, doomed, k, now);
      FirmHasOrigin(cfg, db0, db', order[1..], now, doomed, p);
      if HeldFirmly(db'.jobs, doomed, p) {
        FirmComesFrom(cfg, db, k, db', doomed, p);
        WantsDrifted(cfg, db0, db, doomed, k);
      } else {
        var a :| 0 <= a < |order[1..]| && Asks(cfg, db0, order[1..][a], p, doomed, false);
        assert Asks(cfg, db0, order[a + 1], p, doomed, false);
      }
    }
  }

  /** An event whose comment stays takes the pair for good if nothing that goes is in its way. */
  lemma AskTakes(cfg: Settings, db0: Db, db: Db, k: nat, now: real, doomed: set<string>, p: Pair)
    requires k < |db.events| && Drifted(db0, db, doomed) && Asks(cfg, db0, k, p, doomed, false)
    requires !HeldFleetingly(db.jobs, doomed, p)
    ensures HeldFirmly(ProcessEvent(cfg, db, k, now).jobs, doomed, p)
  {
    hide ProcessEvent, HeldFirmly, HeldFleetingly, RowsAfter, Wants;
    var db' := ProcessEvent(cfg, db, k, now);
    WantsDrifted(cfg, db0, db, doomed, k);
    AskedIsTaken(cfg, db, k, now, p);
    TakenIsHeld(db'.jobs, doomed, p);
    ProcessRows(cfg, db, k, now);
    if HeldFleetingly(db'.jobs, doomed, p) {
      FleetingComesFrom(cfg, db, k, db', doomed, p);
    }
  }

  lemma {:induction false} FirmInTheEnd(cfg: Settings, db0: Db, db: Db, order: seq<nat>, now: real,
                                        doomed: set<string>, p: Pair)
    requires InRange(db0, order) && Drifted(db0, db, doomed) && InRange(db, order) && Doomed(db, order) <= doomed
    requires !HeldFleetingly(db.jobs, doomed, p) && !Asked(cfg, db0, order, p, doomed, true)
    requires Asked(cfg, db0, order, p, doomed, false)
    ensures HeldFirmly(ProcessAll(cfg, db, order, now).jobs, doomed, p)
    decreases |order|
  {
    hide ProcessEvent, HeldFirmly, HeldFleetingly, Doomed, RowsAfter, Wants;
    var k, db', rest := order[0], ProcessEvent(cfg, db, order[0], now), order[1..];
    DoomedRest(cfg, db, order, now);
    if Asks(cfg, db0, k, p, doomed, false) {
      AskTakes(cfg, db0, db, k, now, doomed, p);
      FirmStays(cfg, db', rest, now, doomed, p);
    } else {
      ProcessRows(cfg, db, k, now);
      StepDrifts(cfg, db0, db, doomed, k, now);
      NotHindered(cfg, db0, db, k, db', doomed, p);
      AskedLater(cfg, db0, order, p, doomed);
      FirmInTheEnd(cfg, db0, db', rest, now, doomed, p);
    }
  }

  lemma NotHindered(cfg: Settings, db0: Db, db: Db, k: nat, db': Db, doomed: set<string>, p: Pair)
    requires k < |db.events| && Drifted(db0, db, doomed) && RowsAfter(cfg, db, k, db')
    requires !HeldFleetingly(db.jobs, doomed, p) && !Asks(cfg, db0, k, p, doomed, true)
    ensures !HeldFleetingly(db'.jobs, doomed, p)
  {
    hide HeldFleetingly, RowsAfter, Wants;
    if HeldFleetingly(db'.jobs, doomed, p) {
      FleetingComesFrom(cfg, db, k, db', doomed, p);
      WantsDrifted(cfg, db0, db, doomed, k);
    }
  }

  lemma AskedLater(cfg: Settings, db0: Db, order: seq<nat>, p: Pair, doomed: set<string>)
    requires InRange(db0, order) && order != [] && !Asked(cfg, db0, order, p, doomed, true)
    requires Asked(cfg, db0, order, p, doomed, false) && !Asks(cfg, db0, order[0], p, doomed, false)
    ensures !Asked(cfg, db0, order[1..], p, doomed, true) && Asked(cfg, db0, order[1..], p, doomed, false)
  {
    hide Wants, Asks;
    var a :| 0 <= a < |order| && Asks(cfg, db0, order[a], p, doomed, false);
    assert order[1..][a - 1] == order[a];
    forall b | 0 <= b < |order[1..]| ensures !Asks(cfg, db0, order[1..][b], p, doomed, true) {
      assert order[1..][b] == order[b + 1];
    }
  }

  // ----- The outcome when nothing is contested --------------------------

  lemma Doomeds(db: Db, order: seq<nat>, keys: seq<nat>)
    requires IsOrder(db, order, keys) && InRange(db, keys)
    ensures Doomed(db, order) <= Doomed(db, keys)
  {
    forall a: nat | a < |order| && Deletes(db.events[order[a]])
      ensures db.events[order[a]].commentId.value in Doomed(db, keys)
    {
      assert order[a] in multiset(keys);
      var b: nat :| b < |keys| && keys[b] == order[a];
    }
  }

  lemma AskedBoth(cfg: Settings, db: Db, order: seq<nat>, keys: seq<nat>, p: Pair, doomed: set<string>, fleeting: bool)
    requires IsOrder(db, order, keys) && InRange(db, keys) && Asked(cfg, db, order, p, doomed, fleeting)
    ensures Asked(cfg, db, keys, p, doomed, fleeting)
  {
    hide Asks;
    var a :| 0 <= a < |order| && Asks(cfg, db, order[a], p, doomed, fleeting);
    assert order[a] in multiset(keys);
    var b :| 0 <= b < |keys| && keys[b] == order[a];
  }

  /** In every order, a pair that is not contested is taken in the end exactly if a row that
      stays held it or a comment that stays asked for it. */
  lemma UncontestedOutcome(cfg: Settings, db: Db, keys: seq<nat>, order: seq<nat>, now: real, p: Pair)
    requires InRange(db, keys) && IsOrder(db, order, keys) && !Contested(cfg, db, keys, p)
    ensures p in Slots(ProcessAll(cfg, db, order, now).jobs)
            <==> HeldFirmly(db.jobs, Doomed(db, keys), p) || Asked(cfg, db, keys, p, Doomed(db, keys), false)
  {
    hide Doomed, HeldFirmly, HeldFleetingly, Asked;
    var doomed := Doomed(db, keys);
    EndIsFirm(cfg, db, keys, order, now, p);
    if HeldFirmly(db.jobs, doomed, p) {
      FirmStays(cfg, db, order, now, doomed, p);
    } else if Asked(cfg, db, keys, p, doomed, false) {
      AskedBoth(cfg, db, keys, order, p, doomed, false);
      if Asked(cfg, db, order, p, doomed, true) {
        AskedBoth(cfg, db, order, keys, p, doomed, true);
      }
      FirmInTheEnd(cfg, db, db, order, now, doomed, p);
    }
  }

  /** What holds a slot in the end stays, and has a reason. */
  lemma EndIsFirm(cfg: Settings, db: Db, keys: seq<nat>, order: seq<nat>, now: real, p: Pair)
    requires InRange(db, keys) && IsOrder(db, order, keys)
    ensures Doomed(db, order) == Doomed(db, keys)
    ensures var doomed, jobs := Doomed(db, keys), ProcessAll(cfg, db, order, now).jobs;
            && (p in Slots(jobs) <==> HeldFirmly(jobs, doomed, p))
            && (HeldFirmly(jobs, doomed, p) ==>
                  HeldFirmly(db.jobs, doomed, p) || Asked(cfg, db, keys, p, doomed, false))
  {
    hide Doomed, Asked, ProcessAll, Wants;
    var doomed, jobs := Doomed(db, keys), ProcessAll(cfg, db, order, now).jobs;
    Doomeds(db, order, keys);
    Doomeds(db, keys, order);
    NoneFleetingLeft(cfg, db, order, now, {});
    assert {} + doomed == doomed;
    SlotTakenIff(jobs, p.0, p.1);
    TakenIsHeld(jobs, doomed, p);
    if HeldFirmly(jobs, doomed, p) {
      FirmHasOrigin(cfg, db, db, order, now, doomed, p);
      if Asked(cfg, db, order, p, doomed, false) {
        AskedBoth(cfg, db, order, keys, p, doomed, false);
      }
    }
  }

  // ----- Two orders that differ -----------------------------------------

  function Creations(db: Db, keys: seq<nat>, creations: bool): seq<nat>
    requires InRange(db, keys)
  {
    if keys == [] then []
    else (if (db.events[keys[0]].eventType == COMMENT_CREATED) == creations then [keys[0]] else [])
         + Creations(db, keys[1..], creations)
  }

  lemma {:induction false} CreationsSplit(db: Db, keys: seq<nat>)
    requires InRange(db, keys)
    ensures multiset(Creations(db, keys, true)) + multiset(Creations(db, keys, false)) == multiset(keys)
  {
    if keys != [] {
      CreationsSplit(db, keys[1..]);
      assert keys == [keys[0]] + keys[1..];
    }
  }

  lemma {:induction false} CreationsTyped(db: Db, keys: seq<nat>, creations: bool)
    requires InRange(db, keys)
    ensures AllOfType(db, Creations(db, keys, creations), creations)
  {
    if keys != [] {
      CreationsTyped(db, keys[1..], creations);
    }
  }

  /** The same keys with k in front. */
  lemma PutFirst(keys: seq<nat>, k: nat) returns (rest: seq<nat>)
    requires k in keys
    ensures multiset([k] + rest) == multiset(keys)
  {
    var a :| 0 <= a < |keys| && keys[a] == k;
    rest := keys[..a] + keys[a + 1..];
    assert keys == keys[..a] + ([k] + keys[a + 1..]);
  }

  lemma {:induction false} ProcessAllConcat(cfg: Settings, db: Db, a: seq<nat>, b: seq<nat>, now: real)
    requires InRange(db, a) && InRange(db, b)
    ensures var mid := ProcessAll(cfg, db, a, now);
            && InRange(db, a + b) && InRange(mid, b)
            && ProcessAll(cfg, db, a + b, now) == ProcessAll(cfg, mid, b, now)
    decreases |a|
  {
    hide ProcessEvent;
    if a == [] {
      assert a + b == b;
    } else {
      ProcessKeepsEvents(cfg, db, a[0], now);
      ProcessAllConcat(cfg, ProcessEvent(cfg, db, a[0], now), a[1..], b, now);
      assert (a + b)[1..] == a[1..] + b;
    }
  }

  lemma {:induction false} AllDrift(cfg: Settings, db0: Db, db: Db, order: seq<nat>, now: real, doomed: set<string>)
    requires Drifted(db0, db, doomed) && InRange(db, order) && Doomed(db, order) <= doomed
    ensures Drifted(db0, ProcessAll(cfg, db, order, now), doomed)
    decreases |order|
  {
    hide ProcessEvent, Doomed, Drifted;
    if order != [] {
      DoomedRest(cfg, db, order, now);
      StepDrifts(cfg, db0, db, doomed, order[0], now);
      AllDrift(cfg, db0, ProcessEvent(cfg, db, order[0], now), order[1..], now, doomed);
    }
  }

  ghost predicate AllOfType(db: Db, order: seq<nat>, creations: bool) {
    forall a :: 0 <= a < |order| ==>
      order[a] < |db.events| && (db.events[order[a]].eventType == COMMENT_CREATED) == creations
  }

  lemma TypesRest(cfg: Settings, db: Db, order: seq<nat>, creations: bool, now: real)
    requires AllOfType(db, order, creations) && order != []
    ensures AllOfType(ProcessEvent(cfg, db, order[0], now), order[1..], creations)
  {
    ProcessKeepsEvents(cfg, db, order[0], now);
  }

  /** While nothing is deleted, a row that goes keeps the pair from everyone. */
  lemma {:induction false} HeldBack(cfg: Settings, db: Db, order: seq<nat>, now: real, doomed: set<string>, p: Pair)
    requires InRange(db, order) && AllOfType(db, order, true)
    requires HeldFleetingly(db.jobs, doomed, p) && !HeldFirmly(db.jobs, doomed, p)
    ensures !HeldFirmly(ProcessAll(cfg, db, order, now).jobs, doomed, p)
    decreases |order|
  {
    hide ProcessEvent, HeldFirmly, HeldFleetingly, RowsAfter;
    if order != [] {
      var db' := ProcessEvent(cfg, db, order[0], now);
      ProcessRows(cfg, db, order[0], now);
      FleetingBlocks(cfg, db, order[0], db', doomed, p);
      TypesRest(cfg, db, order, true, now);
      HeldBack(cfg, db', order[1..], now, doomed, p);
    }
  }

  /** Without creations nobody takes the pair. */
  lemma {:induction false} NobodyTakes(cfg: Settings, db: Db, order: seq<nat>, now: real, doomed: set<string>, p: Pair)
    requires InRange(db, order) && AllOfType(db, order, false) && !HeldFirmly(db.jobs, doomed, p)
    ensures !HeldFirmly(ProcessAll(cfg, db, order, now).jobs, doomed, p)
    decreases |order|
  {
    hide ProcessEvent, HeldFirmly, RowsAfter;
    if order != [] {
      var db' := ProcessEvent(cfg, db, order[0], now);
      ProcessRows(cfg, db, order[0], now);
      if HeldFirmly(db'.jobs, doomed, p) {
        FirmComesFrom(cfg, db, order[0], db', doomed, p);
      }
      TypesRest(cfg, db, order, false, now);
      NobodyTakes(cfg, db', order[1..], now, doomed, p);
    }
  }

  /** The creations in an order in which a row that goes holds the pair throughout. */
  lemma GoingFirst(cfg: Settings, db: Db, keys: seq<nat>, now: real, p: Pair) returns (front: seq<nat>)
    requires InRange(db, keys) && Contested(cfg, db, keys, p)
    ensures multiset(front) == multiset(Creations(db, keys, true)) && InRange(db, front)
    ensures !HeldFirmly(ProcessAll(cfg, db, front, now).jobs, Doomed(db, keys), p)
  {
    hide Doomed, HeldFirmly, HeldFleetingly, Wants, Drifted;
    var doomed, creations := Doomed(db, keys), Creations(db, keys, true);
    CreationsSplit(db, keys);
    CreationsTyped(db, keys, true);
    CreationsTyped(db, keys, false);
    if HeldFleetingly(db.jobs, doomed, p) {
      front := creations;
      HeldBack(cfg, db, front, now, doomed, p);
    } else {
      var a :| 0 <= a < |keys| && Asks(cfg, db, keys[a], p, doomed, true);
      var k := keys[a];
      AsksCreates(cfg, db, k, p);
      IsCreation(db, keys, k);
      var rest := PutFirst(creations, k);
      front := [k] + rest;
      TypesPermuted(db, front, creations, true);
      TakesForNow(cfg, db, k, now, doomed, p);
      assert front[0] == k && front[1..] == rest;
      TypesRest(cfg, db, front, true, now);
      HeldBack(cfg, ProcessEvent(cfg, db, k, now), rest, now, doomed, p);
    }
  }

  lemma AsksCreates(cfg: Settings, db: Db, k: nat, p: Pair)
    requires k < |db.events| && p in Wants(cfg, db, k)
    ensures db.events[k].eventType == COMMENT_CREATED
  {
  }

  lemma TypesPermuted(db: Db, order: seq<nat>, keys: seq<nat>, creations: bool)
    requires multiset(order) == multiset(keys) && AllOfType(db, keys, creations)
    ensures AllOfType(db, order, creations)
  {
    forall a | 0 <= a < |order|
      ensures order[a] < |db.events| && (db.events[order[a]].eventType == COMMENT_CREATED) == creations
    {
      assert order[a] in multiset(keys);
      var b :| 0 <= b < |keys| && keys[b] == order[a];
    }
  }

  lemma IsCreation(db: Db, keys: seq<nat>, k: nat)
    requires InRange(db, keys) && k in keys && db.events[k].eventType == COMMENT_CREATED
    ensures k in Creations(db, keys, true)
  {
    CreationsSplit(db, keys);
    CreationsTyped(db, keys, true);
    CreationsTyped(db, keys, false);
    assert k in multiset(keys);
  }

  lemma TakesForNow(cfg: Settings, db: Db, k: nat, now: real, doomed: set<string>, p: Pair)
    requires k < |db.events| && Asks(cfg, db, k, p, doomed, true)
    requires !HeldFirmly(db.jobs, doomed, p) && !HeldFleetingly(db.jobs, doomed, p)
    ensures var jobs := ProcessEvent(cfg, db, k, now).jobs;
            HeldFleetingly(jobs, doomed, p) && !HeldFirmly(jobs, doomed, p)
  {
    hide ProcessEvent, HeldFirmly, HeldFleetingly, RowsAfter, Wants;
    var db' := ProcessEvent(cfg, db, k, now);
    ProcessRows(cfg, db, k, now);
    AskedIsTaken(cfg, db, k, now, p);
    TakenIsHeld(db'.jobs, doomed, p);
    if HeldFirmly(db'.jobs, doomed, p) {
      FirmComesFrom(cfg, db, k, db', doomed, p);
    }
  }

  /** A contested pair is free in the end of one order: creations first, deletions last. */
  lemma FreeInOneOrder(cfg: Settings, db: Db, keys: seq<nat>, now: real, p: Pair) returns (order: seq<nat>)
    requires InRange(db, keys) && Contested(cfg, db, keys, p)
    ensures IsOrder(db, order, keys) && p !in Slots(ProcessAll(cfg, db, order, now).jobs)
  {
    hide Doomed, HeldFirmly, HeldFleetingly, Wants, Contested;
    var front := GoingFirst(cfg, db, keys, now, p);
    var back := Creations(db, keys, false);
    CreationsSplit(db, keys);
    CreationsTyped(db, keys, true);
    CreationsTyped(db, keys, false);
    order := front + back;
    ProcessAllConcat(cfg, db, front, back, now);
    var mid := ProcessAll(cfg, db, front, now);
    TypesDrifted(cfg, db, front, now, back);
    NobodyTakes(cfg, mid, back, now, Doomed(db, keys), p);
    EndIsFirm(cfg, db, keys, order, now, p);
  }

  lemma TypesDrifted(cfg: Settings, db: Db, front: seq<nat>, now: real, back: seq<nat>)
    requires InRange(db, front) && AllOfType(db, back, false)
    ensures AllOfType(ProcessAll(cfg, db, front, now), back, false)
  {
    hide Doomed;
    AllDrift(cfg, db, db, front, now, Doomed(db, front));
  }

  /** And taken in the end of another: deletions first, then a comment that stays. */
  lemma TakenInOneOrder(cfg: Settings, db: Db, keys: seq<nat>, now: real, p: Pair) returns (order: seq<nat>)
    requires InRange(db, keys) && Contested(cfg, db, keys, p)
    ensures IsOrder(db, order, keys) && p in Slots(ProcessAll(cfg, db, order, now).jobs)
  {
    hide Doomed, HeldFirmly, HeldFleetingly, Wants, Drifted;
    var doomed, back := Doomed(db, keys), Creations(db, keys, false);
    CreationsSplit(db, keys);
    CreationsTyped(db, keys, true);
    CreationsTyped(db, keys, false);
    var a :| 0 <= a < |keys| && Asks(cfg, db, keys[a], p, doomed, false);
    var k := keys[a];
    AsksCreates(cfg, db, k, p);
    IsCreation(db, keys, k);
    var rest := PutFirst(Creations(db, keys, true), k);
    TypesPermuted(db, [k] + rest, Creations(db, keys, true), true);
    order := back + ([k] + rest);
    DeletionsFirst(cfg, db, keys, back, now, p);
    ProcessAllConcat(cfg, db, back, [k] + rest, now);
    var mid := ProcessAll(cfg, db, back, now);
    AskTakes(cfg, db, mid, k, now, doomed, p);
    EndIsFirm(cfg, db, keys, order, now, p);
    LaterDoomed(cfg, db, mid, [k] + rest, doomed);
    DoomedRest(cfg, mid, [k] + rest, now);
    assert ([k] + rest)[1..] == rest;
    FirmStays(cfg, ProcessEvent(cfg, mid, k, now), rest, now, doomed, p);
  }

  /** After the deletions nothing that goes holds the pair. */
  lemma DeletionsFirst(cfg: Settings, db: Db, keys: seq<nat>, back: seq<nat>, now: real, p: Pair)
    requires InRange(db, keys) && back == Creations(db, keys, false) && InRange(db, back)
    ensures var mid, doomed := ProcessAll(cfg, db, back, now), Doomed(db, keys);
            Drifted(db, mid, doomed) && !HeldFleetingly(mid.jobs, doomed, p)
  {
    hide ProcessAll, Wants;
    DeletionsIn(db, keys);
    AllDrift(cfg, db, db, back, now, Doomed(db, keys));
    NoneFleetingLeft(cfg, db, back, now, {});
    assert {} + Doomed(db, back) == Doomed(db, keys);
  }

  lemma DeletionsIn(db: Db, keys: seq<nat>)
    requires InRange(db, keys) && InRange(db, Creations(db, keys, false))
    ensures Doomed(db, Creations(db, keys, false)) == Doomed(db, keys)
  {
    var back := Creations(db, keys, false);
    CreationsSplit(db, keys);
    CreationsTyped(db, keys, true);
    CreationsTyped(db, keys, false);
    forall a: nat | a < |keys| && Deletes(db.events[keys[a]])
      ensures db.events[keys[a]].commentId.value in Doomed(db, back)
    {
      assert keys[a] in multiset(keys);
      assert keys[a] !in Creations(db, keys, true);
      var b: nat :| b < |back| && back[b] == keys[a];
    }
    forall b: nat | b < |back| && Deletes(db.events[back[b]])
      ensures db.events[back[b]].commentId.value in Doomed(db, keys)
    {
      assert back[b] in multiset(keys);
      var a: nat :| a < |keys| && keys[a] == back[b];
    }
  }

  /** Only creations are left: nothing more is deleted. */
  lemma LaterDoomed(cfg: Settings, db: Db, mid: Db, order: seq<nat>, doomed: set<string>)
    requires Drifted(db, mid, doomed) && InRange(mid, order) && AllOfType(db, order, true)
    ensures Doomed(mid, order) <= doomed
  {
  }

  // ----- When the order matters -----------------------------------------

  ghost predicate Agree(cfg: Settings, db: Db, keys: seq<nat>, now: real) {
    forall o, o' :: IsOrder(db, o, keys) && IsOrder(db, o', keys) ==>
      Slots(ProcessAll(cfg, db, o, now).jobs) == Slots(ProcessAll(cfg, db, o', now).jobs)
  }

  /** Any events, any rows to start from, any comments deleted before: all orders of
      processing take the same slots if and only if no pair is contested. */
  lemma OrderMattersIff(cfg: Settings, db: Db, keys: seq<nat>, now: real)
    requires InRange(db, keys)
    ensures Agree(cfg, db, keys, now) <==> forall p :: !Contested(cfg, db, keys, p)
  {
    hide Contested, Slots, ProcessAll;
    if p :| Contested(cfg, db, keys, p) {
      var o := FreeInOneOrder(cfg, db, keys, now, p);
      var o' := TakenInOneOrder(cfg, db, keys, now, p);
    } else {
      forall o, o' | IsOrder(db, o, keys) && IsOrder(db, o', keys)
        ensures Slots(ProcessAll(cfg, db, o, now).jobs) == Slots(ProcessAll(cfg, db, o', now).jobs)
      {
        forall p
          ensures p in Slots(ProcessAll(cfg, db, o, now).jobs) <==> p in Slots(ProcessAll(cfg, db, o', now).jobs)
        {
          UncontestedOutcome(cfg, db, keys, o, now, p);
          UncontestedOutcome(cfg, db, keys, o', now, p);
        }
      }
    }
  }
}
