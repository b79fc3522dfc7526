/** When a (rule, user) pair can end up with two DMs: exactly what the network may still make
    of the requests that left. */
module Pairs {
  import opened Models
  import opened JobLifecycle
  import opened JobTable
  import opened PseudoGram
  import opened Pipeline
  import opened Invariants
  import opened Theorems
  import opened Deletion

  /** A request of the job's current cycle has left and its DM is not known to have failed. */
  ghost predicate Open(s: State, j: nat) {
    j < |s.db.jobs| && (j, s.db.jobs[j].sendCycle) in s.sent && !Refused(s, j, s.db.jobs[j].sendCycle)
  }

  /** Two jobs of the pair have an open request. */
  ghost predicate TwoOpen(s: State, rule: string, user: string) {
    exists i: nat, j: nat ::
      i != j && Open(s, i) && Open(s, j) && IsFor(s.db.jobs[i], rule, user) && IsFor(s.db.jobs[j], rule, user)
  }

  ghost predicate TwoLive(s: State, rule: string, user: string) {
    exists d, e :: d != e && PairDm(s, d, rule, user) && PairDm(s, e, rule, user)
  }

  /** If nobody acts any more, requests on their way may still give the pair two DMs. */
  ghost predicate MayHaveTwo(cfg: Settings, s: State, rule: string, user: string) {
    exists more :: Landing(more) && TwoLive(Exec(cfg, s, more), rule, user)
  }

  /** The job of a live DM had an open request before the landings, too. */
  lemma LiveWasOpen(s: State, s': State, d: string, j: nat)
    requires OnlyLanded(s, s') && KeysOk(s') && CyclesOk(s) && LiveDm(s', d, j)
    ensures Open(s, j)
  {
    hide Key;
    assert CyclesOk(s') by {
      LandedCycles(s, s');
    }
    LiveIsCurrent(s', j, d);
    var c := s.db.jobs[j].sendCycle;
    if Refused(s, j, c) {
      RefusedStays(s, s', j, c);
    }
  }

  lemma LandedCycles(s: State, s': State)
    requires OnlyLanded(s, s') && CyclesOk(s)
    ensures CyclesOk(s')
  {
    hide Key, LiveDm;
    forall j: nat, c: nat | j < |s'.db.jobs| && c < s'.db.jobs[j].sendCycle ensures Refused(s', j, c) {
      RefusedStays(s, s', j, c);
    }
  }

  lemma TwoLiveWereOpen(cfg: Settings, s: State, more: seq<Action>, rule: string, user: string)
    requires KeysOk(s) && CyclesOk(s) && Landing(more) && TwoLive(Exec(cfg, s, more), rule, user)
    ensures TwoOpen(s, rule, user)
  {
    hide LiveDm, Grows, Refused, KeysOk, CyclesOk, Open;
    LandingKeeps(cfg, s, more);
    var s' := Exec(cfg, s, more);
    LandedCycles(s, s');
    var d, e :| d != e && PairDm(s', d, rule, user) && PairDm(s', e, rule, user);
    var i: nat :| i < |s'.db.jobs| && IsFor(s'.db.jobs[i], rule, user) && LiveDm(s', d, i);
    var j: nat :| j < |s'.db.jobs| && IsFor(s'.db.jobs[j], rule, user) && LiveDm(s', e, j);
    if i == j {
      OneLiveDm(s', i, d, e);
    }
    LiveWasOpen(s, s', d, i);
    LiveWasOpen(s, s', e, j);
  }

  /** Both open requests can land. */
  lemma BothLand(cfg: Settings, s: State, i: nat, j: nat) returns (more: seq<Action>, d: string, e: string)
    requires KeysOk(s) && Open(s, i) && Open(s, j) && s.db.jobs[i].userId != "" && s.db.jobs[j].userId != ""
    ensures Landing(more) && Exec(cfg, s, more).db == s.db
    ensures LiveDm(Exec(cfg, s, more), d, i) && LiveDm(Exec(cfg, s, more), e, j)
  {
    hide LiveDm, Grows, Refused, KeysOk;
    var first, second;
    first, d := LandOne(cfg, s, i);
    LandingKeeps(cfg, s, first);
    var mid := Exec(cfg, s, first);
    second, e := LandOne(cfg, mid, j);
    LandingKeeps(cfg, mid, second);
    ExecConcat(cfg, s, first, second);
    more := first + second;
  }

  lemma OpenMayHaveTwo(cfg: Settings, s: State, rule: string, user: string)
    requires KeysOk(s) && TwoOpen(s, rule, user)
    requires forall j :: 0 <= j < |s.db.jobs| ==> s.db.jobs[j].userId != ""
    ensures MayHaveTwo(cfg, s, rule, user)
  {
    hide KeysOk, Refused, Key;
    var i: nat, j: nat :|
      i != j && Open(s, i) && Open(s, j) && IsFor(s.db.jobs[i], rule, user) && IsFor(s.db.jobs[j], rule, user);
    var more, d, e := BothLand(cfg, s, i, j);
    var s' := Exec(cfg, s, more);
    assert d != e && PairDm(s', d, rule, user) && PairDm(s', e, rule, user);
  }

  /** Exactly when a pair can get two DMs that have not failed with nobody acting any more:
      when two of its jobs, cancelled or not, have an open request. */
  lemma TwoDmsIffTwoOpen(cfg: Settings, run: seq<Action>, rule: string, user: string)
    requires cfg.Sensible()
    ensures var s := Exec(cfg, INIT, run); MayHaveTwo(cfg, s, rule, user) <==> TwoOpen(s, rule, user)
  {
    hide KeysOk, CyclesOk, AccountsOk, GrantsOk, OwnersOk, CountersOk, Landing, TwoOpen, TwoLive;
    var s := Exec(cfg, INIT, run);
    ReachableInv(cfg, run);
    if TwoOpen(s, rule, user) {
      forall j | 0 <= j < |s.db.jobs| ensures s.db.jobs[j].userId != "" {
        assert RowOk(cfg, s.db.jobs[j], s.now);
      }
      OpenMayHaveTwo(cfg, s, rule, user);
    }
    if more :| Landing(more) && TwoLive(Exec(cfg, s, more), rule, user) {
      TwoLiveWereOpen(cfg, s, more, rule, user);
    }
  }

  /** Of two open requests of a pair at least one belongs to a cancelled job: the case
      `NeverTwoLiveDmsPerPair` excludes. */
  lemma OneOfTwoIsOrphaned(cfg: Settings, run: seq<Action>, i: nat, j: nat)
    requires cfg.Sensible()
    ensures var s := Exec(cfg, INIT, run);
            i != j && Open(s, i) && Open(s, j) && SameSlot(s.db.jobs[i], s.db.jobs[j]) ==>
              Orphaned(s, i) || Orphaned(s, j)
  {
    hide KeysOk, CyclesOk, AccountsOk, GrantsOk, OwnersOk, CountersOk, RowsOk, Refused;
    var s := Exec(cfg, INIT, run);
    ReachableInv(cfg, run);
    if i != j && Open(s, i) && Open(s, j) && SameSlot(s.db.jobs[i], s.db.jobs[j]) {
      if Live(s.db.jobs[i]) && Live(s.db.jobs[j]) {
        SameJob(s.db.jobs, i, j);
      }
    }
  }
}
