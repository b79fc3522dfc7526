/** The rolling-window limiter of app/services/rate_limiter.py: the deque, the persisted
    send log and the warm start, against the unbounded history of grants. */
module RateLimiter {

  ghost predicate Sorted(ts: seq<real>) {
    |ts| <= 1 || (ts[0] <= ts[1] && Sorted(ts[1..]))
  }

  /** The newest stamp is not later than t. */
  predicate UpTo(ts: seq<real>, t: real) {
    ts == [] || ts[|ts| - 1] <= t
  }

  /** `_trim`: drop from the left while the oldest stamp has left the window. */
  function Trim(ts: seq<real>, horizon: real): seq<real> {
    if ts != [] && ts[0] <= horizon then Trim(ts[1..], horizon) else ts
  }

  /** The specification of a trimmed deque: every stamp later than the horizon. */
  function After(ts: seq<real>, horizon: real): seq<real> {
    if ts == [] then [] else (if ts[0] > horizon then [ts[0]] else []) + After(ts[1..], horizon)
  }

  /** Rows `load_recent` selects and `prune` keeps. */
  function NotBefore(ts: seq<real>, cutoff: real): seq<real> {
    if ts == [] then [] else (if ts[0] >= cutoff then [ts[0]] else []) + NotBefore(ts[1..], cutoff)
  }

  function Insert(x: real, ts: seq<real>): seq<real> {
    if ts == [] || x <= ts[0] then [x] + ts else [ts[0]] + Insert(x, ts[1..])
  }

  /** Python's `sorted`. */
  function SortReals(ts: seq<real>): seq<real> {
    if ts == [] then [] else Insert(ts[0], SortReals(ts[1..]))
  }

  /** The deque, the log table and, as a history variable, every grant ever made. */
  datatype Limiter = Limiter(stamps: seq<real>, log: seq<real>, grants: seq<real>)

  predicate HasSlot(maxCalls: int, window: real, l: Limiter, now: real) {
    |Trim(l.stamps, now - window)| < maxCalls
  }

  /** The granting pass of `acquire`, with its persisted row. */
  function Grant(window: real, l: Limiter, now: real): Limiter {
    Limiter(Trim(l.stamps, now - window) + [now], l.log + [now], l.grants + [now])
  }

  /** `warm_start` of a new process: nothing but the log survived. */
  function WarmStart(window: real, l: Limiter, now: real): Limiter {
    var recent := NotBefore(l.log, now - window);
    Limiter(Trim(SortReals(recent), now - window), recent, l.grants)
  }

  // ----- Lists of stamps -------------------------------------------------

  /** `part` is `whole` without some oldest stamps, all of them at or before the horizon. */
  ghost predicate Tail(part: seq<real>, whole: seq<real>, horizon: real) {
    part == whole || (whole != [] && whole[0] <= horizon && Tail(part, whole[1..], horizon))
  }

  lemma {:induction false} SortedAt(ts: seq<real>, i: nat, j: nat)
    requires Sorted(ts) && i <= j < |ts|
    ensures ts[i] <= ts[j]
  {
    if 0 < i {
      SortedAt(ts[1..], i - 1, j - 1);
    } else if 0 < j {
      SortedAt(ts[1..], 0, j - 1);
    }
  }

  lemma {:induction false} SortedAppend(ts: seq<real>, t: real)
    requires Sorted(ts) && UpTo(ts, t)
    ensures Sorted(ts + [t])
  {
    if |ts| > 1 {
      SortedAppend(ts[1..], t);
    }
    if ts != [] {
      assert (ts + [t])[1..] == ts[1..] + [t];
    }
  }

  lemma {:induction false} TrimIsTail(ts: seq<real>, horizon: real)
    ensures Tail(Trim(ts, horizon), ts, horizon) && |Trim(ts, horizon)| <= |ts|
    ensures Trim(ts, horizon) != [] ==> Trim(ts, horizon)[0] > horizon
  {
    if ts != [] && ts[0] <= horizon {
      TrimIsTail(ts[1..], horizon);
    }
  }

  lemma {:induction false} TailTrans(a: seq<real>, b: seq<real>, c: seq<real>, horizon: real)
    requires Tail(a, b, horizon) && Tail(b, c, horizon)
    ensures Tail(a, c, horizon)
    decreases |c|
  {
    if b != c {
      TailTrans(a, b, c[1..], horizon);
    }
  }

  lemma {:induction false} TailLater(part: seq<real>, whole: seq<real>, horizon: real, later: real)
    requires Tail(part, whole, horizon) && horizon <= later
    ensures Tail(part, whole, later)
    decreases |whole|
  {
    if part != whole {
      TailLater(part, whole[1..], horizon, later);
    }
  }

  lemma {:induction false} TailAppend(part: seq<real>, whole: seq<real>, horizon: real, t: real)
    requires Tail(part, whole, horizon)
    ensures Tail(part + [t], whole + [t], horizon)
    decreases |whole|
  {
    if part != whole {
      TailAppend(part, whole[1..], horizon, t);
      assert (whole + [t])[1..] == whole[1..] + [t];
    }
  }

  lemma {:induction false} TailSorted(part: seq<real>, whole: seq<real>, horizon: real)
    requires Tail(part, whole, horizon) && Sorted(whole)
    ensures Sorted(part) && |part| <= |whole|
    decreases |whole|
  {
    if part != whole {
      TailSorted(part, whole[1..], horizon);
    }
  }

  /** A stamp that is missing from the tail is not later than the horizon. */
  lemma {:induction false} TailAt(part: seq<real>, whole: seq<real>, horizon: real, i: nat)
    requires Tail(part, whole, horizon) && i + |part| < |whole|
    ensures whole[i] <= horizon
    decreases |whole|
  {
    if i > 0 {
      TailAt(part, whole[1..], horizon, i - 1);
    }
  }

  lemma {:induction false} AfterNothing(ts: seq<real>, horizon: real)
    requires Sorted(ts) && (ts == [] || ts[0] > horizon)
    ensures After(ts, horizon) == ts
  {
    if ts != [] {
      AfterNothing(ts[1..], horizon);
    }
  }

  /** Dropping expired stamps first does not change which stamps are in the window. */
  lemma {:induction false} AfterTail(part: seq<real>, whole: seq<real>, horizon: real)
    requires Tail(part, whole, horizon)
    ensures After(part, horizon) == After(whole, horizon)
    decreases |whole|
  {
    if part != whole {
      AfterTail(part, whole[1..], horizon);
    }
  }

  lemma {:induction false} SortSorted(ts: seq<real>)
    requires Sorted(ts)
    ensures SortReals(ts) == ts
  {
    if ts != [] {
      SortSorted(ts[1..]);
    }
  }

  lemma {:induction false} NotBeforeTail(ts: seq<real>, cutoff: real)
    requires Sorted(ts)
    ensures Tail(NotBefore(ts, cutoff), ts, cutoff)
    ensures ts != [] && ts[0] >= cutoff ==> NotBefore(ts, cutoff) == ts
  {
    if ts != [] {
      NotBeforeTail(ts[1..], cutoff);
      assert ts == [ts[0]] + ts[1..];
      if ts[0] < cutoff {
        assert NotBefore(ts, cutoff) == NotBefore(ts[1..], cutoff);
      }
    }
  }

  // ----- The invariant ---------------------------------------------------

  /** Any two grants that are maxCalls apart are a full window apart. */
  ghost predicate Spaced(maxCalls: int, window: real, grants: seq<real>) {
    maxCalls >= 0 && forall i :: 0 <= i && i + maxCalls < |grants| ==> grants[i + maxCalls] - grants[i] >= window
  }

  /** The log, which survives a restart, against the history of grants. */
  ghost predicate LogOk(maxCalls: int, window: real, l: Limiter, now: real) {
    && Sorted(l.grants)
    && UpTo(l.grants, now)
    && Tail(l.log, l.grants, now - window)
    && Spaced(maxCalls, window, l.grants)
  }

  ghost predicate LimiterOk(maxCalls: int, window: real, l: Limiter, now: real) {
    LogOk(maxCalls, window, l, now) && Tail(l.stamps, l.grants, now - window)
  }

  lemma {:induction false} TrimProgress(ts: seq<real>, horizon: real)
    ensures |Trim(ts, horizon)| <= |ts|
    ensures ts != [] && ts[0] <= horizon ==> |Trim(ts, horizon)| < |ts|
  {
    if ts != [] && ts[0] <= horizon {
      TrimProgress(ts[1..], horizon);
    }
  }

  lemma TrimKeepsOk(maxCalls: int, window: real, l: Limiter, now: real)
    requires LimiterOk(maxCalls, window, l, now)
    ensures LimiterOk(maxCalls, window, l.(stamps := Trim(l.stamps, now - window)), now)
  {
    TrimIsTail(l.stamps, now - window);
    TailTrans(Trim(l.stamps, now - window), l.stamps, l.grants, now - window);
  }

  lemma GrantKeepsOk(maxCalls: int, window: real, l: Limiter, now: real)
    requires maxCalls >= 1 && LimiterOk(maxCalls, window, l, now) && HasSlot(maxCalls, window, l, now)
    ensures LimiterOk(maxCalls, window, Grant(window, l, now), now)
  {
    var kept := Trim(l.stamps, now - window);
    TrimKeepsOk(maxCalls, window, l, now);
    TailAppend(kept, l.grants, now - window, now);
    TailAppend(l.log, l.grants, now - window, now);
    SortedAppend(l.grants, now);
    SpacedAppend(maxCalls, window, l.grants, kept, now);
  }

  lemma SpacedAppend(maxCalls: int, window: real, grants: seq<real>, kept: seq<real>, now: real)
    requires maxCalls >= 1 && Spaced(maxCalls, window, grants)
    requires Tail(kept, grants, now - window) && |kept| < maxCalls
    ensures Spaced(maxCalls, window, grants + [now])
  {
    var n, more := |grants|, grants + [now];
    forall i | 0 <= i && i + maxCalls < |more| ensures more[i + maxCalls] - more[i] >= window {
      if i + maxCalls == n {
        TailAt(kept, grants, now - window, i);
      } else {
        assert grants[i + maxCalls] - grants[i] >= window;
      }
    }
  }

  lemma WaitKeepsOk(maxCalls: int, window: real, l: Limiter, now: real, later: real)
    requires now <= later
    ensures LogOk(maxCalls, window, l, now) ==> LogOk(maxCalls, window, l, later)
    ensures LimiterOk(maxCalls, window, l, now) ==> LimiterOk(maxCalls, window, l, later)
  {
    if LogOk(maxCalls, window, l, now) {
      TailLater(l.log, l.grants, now - window, later - window);
    }
    if LimiterOk(maxCalls, window, l, now) {
      TailLater(l.stamps, l.grants, now - window, later - window);
    }
  }

  /** What `load_recent` returns is a tail of the history, already in order. */
  lemma RecentLog(maxCalls: int, window: real, l: Limiter, now: real)
    requires LogOk(maxCalls, window, l, now)
    ensures var recent := NotBefore(l.log, now - window);
            Tail(recent, l.grants, now - window) && SortReals(recent) == recent
  {
    var recent := NotBefore(l.log, now - window);
    TailSorted(l.log, l.grants, now - window);
    NotBeforeTail(l.log, now - window);
    TailTrans(recent, l.log, l.grants, now - window);
    TailSorted(recent, l.grants, now - window);
    SortSorted(recent);
  }

  lemma WarmStartKeepsOk(maxCalls: int, window: real, l: Limiter, now: real)
    requires LogOk(maxCalls, window, l, now)
    ensures LimiterOk(maxCalls, window, WarmStart(window, l, now), now)
  {
    var recent := NotBefore(l.log, now - window);
    RecentLog(maxCalls, window, l, now);
    TrimKeepsOk(maxCalls, window, Limiter(recent, recent, l.grants), now);
  }

  // ----- What the invariant means ---------------------------------------

  /** After `_trim` the deque is exactly the past grants in (now - window, now]. */
  lemma TrimIsWindow(maxCalls: int, window: real, l: Limiter, now: real)
    requires LimiterOk(maxCalls, window, l, now)
    ensures Trim(l.stamps, now - window) == After(l.grants, now - window)
  {
    var kept := Trim(l.stamps, now - window);
    TrimKeepsOk(maxCalls, window, l, now);
    TrimIsTail(l.stamps, now - window);
    TailSorted(kept, l.grants, now - window);
    AfterNothing(kept, now - window);
    AfterTail(kept, l.grants, now - window);
  }

  /** A warm start rebuilds exactly that deque from the pruned log, whatever was lost. */
  lemma WarmStartIsWindow(maxCalls: int, window: real, l: Limiter, now: real)
    requires LogOk(maxCalls, window, l, now)
    ensures WarmStart(window, l, now).stamps == After(l.grants, now - window)
  {
    var recent := NotBefore(l.log, now - window);
    RecentLog(maxCalls, window, l, now);
    TrimIsWindow(maxCalls, window, Limiter(recent, recent, l.grants), now);
  }

  /** One pass of the wait loop: trimming keeps the invariant, leaves exactly the window,
      makes progress after a sleep, and a grant is safe when a slot is free. */
  lemma PassKeepsOk(maxCalls: int, window: real, before: Limiter, seen: real, now: real, kept: seq<real>)
    requires maxCalls >= 1 && LimiterOk(maxCalls, window, before, seen) && seen <= now
    requires kept == Trim(before.stamps, now - window)
    ensures kept == After(before.grants, now - window)
    ensures LimiterOk(maxCalls, window, before.(stamps := kept), now)
    ensures |kept| <= |before.stamps|
    ensures before.stamps != [] && before.stamps[0] <= now - window ==> |kept| < |before.stamps|
    ensures |kept| < maxCalls ==>
              LimiterOk(maxCalls, window, Limiter(kept + [now], before.log + [now], before.grants + [now]), now)
  {
    WaitKeepsOk(maxCalls, window, before, seen, now);
    TrimKeepsOk(maxCalls, window, before, now);
    TrimProgress(before.stamps, now - window);
    TrimIsWindow(maxCalls, window, before, now);
    if HasSlot(maxCalls, window, before, now) {
      GrantKeepsOk(maxCalls, window, before, now);
    }
  }

  /** `warm_start` with its two clock readings: rows are loaded and pruned as of the first,
      the deque trimmed as of the second; the rows are in order, so sorting changes nothing. */
  lemma LoadedOk(maxCalls: int, window: real, l: Limiter, start: real, first: real, second: real,
                 recent: seq<real>, rows: seq<real>, stamps: seq<real>)
    requires LogOk(maxCalls, window, l, start) && start <= first <= second
    requires rows == NotBefore(l.log, first - window) && recent == SortReals(rows)
    requires stamps == Trim(SortReals(recent), second - window)
    ensures LimiterOk(maxCalls, window, Limiter(stamps, rows, l.grants), second)
    ensures stamps == After(l.grants, second - window)
  {
    WaitKeepsOk(maxCalls, window, l, start, first);
    RecentLog(maxCalls, window, l, first);
    var loaded := Limiter(rows, rows, l.grants);
    WaitKeepsOk(maxCalls, window, loaded, first, second);
    TrimKeepsOk(maxCalls, window, loaded, second);
    TrimIsWindow(maxCalls, window, loaded, second);
  }

  /** Indices of the grants in the half-open interval (lo, lo + window]. */
  function OpenLeft(grants: seq<real>, lo: real, window: real): set<nat> {
    set i: nat | i < |grants| && lo < grants[i] <= lo + window
  }

  /** Indices of the grants in the half-open interval [lo, lo + window). */
  function OpenRight(grants: seq<real>, lo: real, window: real): set<nat> {
    set i: nat | i < |grants| && lo <= grants[i] < lo + window
  }

  /** Every half-open interval one window long holds at most maxCalls grants. */
  lemma SlidingWindow(maxCalls: nat, window: real, grants: seq<real>, lo: real)
    requires Sorted(grants) && Spaced(maxCalls, window, grants)
    ensures |OpenLeft(grants, lo, window)| <= maxCalls
    ensures |OpenRight(grants, lo, window)| <= maxCalls
  {
    var left, right := OpenLeft(grants, lo, window), OpenRight(grants, lo, window);
    forall i, j | i in left && j in left ensures j < i + maxCalls {
      CloseBy(maxCalls, window, grants, i, j);
    }
    forall i, j | i in right && j in right ensures j < i + maxCalls {
      CloseBy(maxCalls, window, grants, i, j);
    }
    SpanBoundsSize(left, maxCalls);
    SpanBoundsSize(right, maxCalls);
  }

  /** However often the deque was trimmed before, the grant is the one a single pass makes. */
  lemma GrantedAtOnce(maxCalls: int, window: real, start: Limiter, since: real, now: real, kept: seq<real>)
    requires maxCalls >= 1 && LimiterOk(maxCalls, window, start, since) && since <= now
    requires kept == After(start.grants, now - window) && |kept| < maxCalls
    ensures HasSlot(maxCalls, window, start, now)
    ensures Grant(window, start, now) == Limiter(kept + [now], start.log + [now], start.grants + [now])
  {
    WaitKeepsOk(maxCalls, window, start, since, now);
    TrimIsWindow(maxCalls, window, start, now);
  }

  // What follows some of the grants, each at most a lag later.

  /** Each of these instants lies at most `lag` after a grant of its own. */
  ghost predicate Follows(grants: seq<real>, chosen: seq<nat>, times: seq<real>, lag: real) {
    && |chosen| == |times|
    && (forall k :: 0 <= k < |times| ==>
          chosen[k] < |grants| && grants[chosen[k]] <= times[k] <= grants[chosen[k]] + lag)
    && (forall k, l :: 0 <= k < l < |chosen| ==> chosen[k] != chosen[l])
  }

  /** Delayed, reordered and thinned out, the grants are still spaced over the window less the lag. */
  lemma FollowersSpaced(maxCalls: nat, window: real, grants: seq<real>, chosen: seq<nat>, times: seq<real>, lag: real)
    requires Sorted(grants) && Spaced(maxCalls, window, grants) && Sorted(times)
    requires Follows(grants, chosen, times, lag)
    ensures Spaced(maxCalls, window - lag, times)
  {
    hide Sorted;
    forall i | 0 <= i && i + maxCalls < |times| ensures times[i + maxCalls] - times[i] >= window - lag {
      if times[i + maxCalls] - times[i] < window - lag {
        CloseFollowersFew(maxCalls, window, grants, chosen, times, lag, i, maxCalls + 1);
      }
    }
  }

  /** At most maxCalls of them lie closer together than the window less the lag. */
  lemma CloseFollowersFew(maxCalls: nat, window: real, grants: seq<real>, chosen: seq<nat>, times: seq<real>, lag: real,
                          i: nat, n: nat)
    requires Sorted(grants) && Spaced(maxCalls, window, grants) && Sorted(times)
    requires Follows(grants, chosen, times, lag)
    requires 0 < n && i + n <= |times| && times[i + n - 1] - times[i] < window - lag
    ensures n <= maxCalls
  {
    hide Sorted, Spaced;
    var slice := chosen[i..i + n];
    var used := Elements(slice);
    forall g, h | g in used && h in used ensures h < g + maxCalls {
      var k :| 0 <= k < |slice| && slice[k] == g;
      var l :| 0 <= l < |slice| && slice[l] == h;
      assert chosen[i + k] == g && chosen[i + l] == h;
      SortedAt(times, i, i + k);
      SortedAt(times, i + l, i + n - 1);
      CloseBy(maxCalls, window, grants, g, h);
    }
    SpanBoundsSize(used, maxCalls);
    forall k, l | 0 <= k < l < |slice| ensures slice[k] != slice[l] {
      assert chosen[i + k] != chosen[i + l];
    }
    DistinctSize(slice);
  }

  function Elements<T>(xs: seq<T>): set<T> {
    set x | x in xs
  }

  lemma {:induction false} DistinctSize<T>(xs: seq<T>)
    requires forall i, k :: 0 <= i < k < |xs| ==> xs[i] != xs[k]
    ensures |Elements(xs)| == |xs|
  {
    if xs != [] {
      var n := |xs| - 1;
      DistinctSize(xs[..n]);
      assert xs == xs[..n] + [xs[n]] && xs[n] !in xs[..n];
      assert Elements(xs) == Elements(xs[..n]) + {xs[n]};
    }
  }

  lemma CloseBy(maxCalls: nat, window: real, grants: seq<real>, i: nat, j: nat)
    requires Sorted(grants) && Spaced(maxCalls, window, grants)
    requires i < |grants| && j < |grants| && grants[j] - grants[i] < window
    ensures j < i + maxCalls
  {
    if i + maxCalls <= j {
      SortedAt(grants, i + maxCalls, j);
    }
  }

  /** A set of numbers that spans less than n has at most n members. */
  lemma {:induction false} SpanBoundsSize(s: set<nat>, n: nat)
    requires forall i, j :: i in s && j in s ==> j < i + n
    ensures |s| <= n
  {
    if s != {} {
      var low := Least(s);
      assert s <= Range(low, n);
      SubsetSize(s, Range(low, n));
    }
  }

  lemma {:induction false} Least(s: set<nat>) returns (low: nat)
    requires s != {}
    ensures low in s && forall k :: k in s ==> low <= k
  {
    low :| low in s;
    if s != {low} {
      var rest := Least(s - {low});
      assert s == (s - {low}) + {low};
      low := if rest < low then rest else low;
    }
  }

  function Range(low: nat, n: nat): (r: set<nat>)
    ensures |r| == n && forall k :: k in r <==> low <= k < low + n
  {
    if n == 0 then {} else Range(low, n - 1) + {low + n - 1}
  }

  lemma {:induction false} SubsetSize(a: set<nat>, b: set<nat>)
    requires a <= b
    ensures |a| <= |b|
  {
    if a != {} {
      var x :| x in a;
      SubsetSize(a - {x}, b - {x});
    }
  }

  // ----- The objects -----------------------------------------------------

  /** A sleep: when it began and how long it was to last. */
  datatype Nap = Nap(at: real, seconds: real)

  /** A monotone wall clock; a sleep lasts at least as long as asked. `naps` is a history. */
  class Clock {
    var now: real
    ghost var naps: seq<Nap>

    constructor (start: real)
      ensures now == start && naps == []
    {
      now, naps := start, [];
    }

    method Read() returns (t: real)
      modifies this`now
      ensures now >= old(now) && t == now
    {
      var passed: real :| passed >= 0.0;
      now := now + passed;
      t := now;
    }

    method Sleep(seconds: real)
      modifies this
      ensures now >= old(now) + seconds && now >= old(now)
      ensures naps == old(naps) + [Nap(old(now), seconds)]
    {
      naps := naps + [Nap(now, seconds)];
      var extra: real :| extra >= 0.0;
      now := now + (if seconds > 0.0 then seconds else 0.0) + extra;
    }
  }

  class SendAttemptStore {
    var rows: seq<real>

    constructor ()
      ensures rows == []
    {
      rows := [];
    }

    method LoadRecent(since: real) returns (r: seq<real>)
      ensures r == SortReals(NotBefore(rows, since))
    {
      r := SortReals(NotBefore(rows, since));
    }

    method Record(ts: real)
      modifies this
      ensures rows == old(rows) + [ts]
    {
      rows := rows + [ts];
    }

    method Prune(before: real)
      modifies this
      ensures rows == NotBefore(old(rows), before)
    {
      rows := NotBefore(rows, before);
    }
  }

  class RollingWindowRateLimiter {
    const maxCalls: int
    const window: real
    const safety: real
    const clock: Clock
    const store: SendAttemptStore
    var timestamps: seq<real>
    ghost var grants: seq<real>

    ghost function State(): Limiter
      reads this, store
    {
      Limiter(timestamps, store.rows, grants)
    }

    ghost predicate Valid()
      reads this, store, clock
    {
      maxCalls >= 1 && window > 0.0 && safety >= 0.0 && LimiterOk(maxCalls, window, State(), clock.now)
    }

    /** A new process over a store that holds the log of earlier ones: nothing is known
        until `LoadWindow` ran. */
    constructor (maxCalls: int, window: real, safety: real, clock: Clock, store: SendAttemptStore,
                 ghost past: seq<real>)
      ensures this.maxCalls == maxCalls && this.window == window && this.safety == safety
      ensures this.clock == clock && this.store == store && timestamps == [] && grants == past
    {
      this.maxCalls, this.window, this.safety := maxCalls, window, safety;
      this.clock, this.store := clock, store;
      timestamps, grants := [], past;
    }

    method TrimTo(now: real)
      modifies this`timestamps
      ensures timestamps == Trim(old(timestamps), now - window)
    {
      var horizon := now - window;
      while timestamps != [] && timestamps[0] <= horizon
        invariant Trim(timestamps, horizon) == Trim(old(timestamps), horizon)
        decreases |timestamps|
      {
        timestamps := timestamps[1..];
      }
    }

    method Seed(stamps: seq<real>)
      modifies this`timestamps, clock`now
      ensures clock.now >= old(clock.now)
      ensures timestamps == Trim(SortReals(stamps), clock.now - window)
    {
      timestamps := SortReals(stamps);
      var now := clock.Read();
      TrimTo(now);
    }

    /** `warm_start`: whatever the deque held, it ends as the past grants still in the window. */
    method LoadWindow()
      requires maxCalls >= 1 && window > 0.0 && safety >= 0.0
      requires LogOk(maxCalls, window, State(), clock.now)
      modifies this`timestamps, store, clock`now
      ensures Valid() && grants == old(grants) && clock.now >= old(clock.now)
      ensures timestamps == After(grants, clock.now - window)
      ensures exists since :: old(clock.now) - window <= since <= clock.now - window
                              && store.rows == NotBefore(old(store.rows), since)
    {
      hide Trim, SortReals, NotBefore, After, Sorted, Tail, Spaced;
      ghost var before := State();
      var now := clock.Read();
      var recent := store.LoadRecent(now - window);
      store.Prune(now - window);
      Seed(recent);
      LoadedOk(maxCalls, window, before, old(clock.now), now, clock.now, recent, store.rows, timestamps);
    }

    method AvailableNow() returns (free: int)
      requires Valid()
      modifies this`timestamps, clock`now
      ensures Valid() && grants == old(grants)
      ensures var used := |After(grants, clock.now - window)|;
              free == if used >= maxCalls then 0 else maxCalls - used
    {
      ghost var before := State();
      var now := clock.Read();
      TrimTo(now);
      PassKeepsOk(maxCalls, window, before, old(clock.now), now, timestamps);
      assert State() == before.(stamps := timestamps);
      free := if maxCalls - |timestamps| > 0 then maxCalls - |timestamps| else 0;
    }

    /** At the start of this sleep the window was full, and it was to last until the oldest
        grant in the window had left it, with the safety margin and not below 10 ms. */
    ghost predicate UntilSlot(past: seq<real>, nap: Nap) {
      var used := After(past, nap.at - window);
      && |used| >= maxCalls && used != []
      && var left := used[0] + window + safety - nap.at;
         nap.seconds == if left > 0.01 then left else 0.01
    }

    lemma FullUntil(past: seq<real>, now: real, kept: seq<real>)
      requires kept == After(past, now - window) && |kept| >= maxCalls >= 1
      ensures var left := kept[0] + window + safety - now;
              UntilSlot(past, Nap(now, if left > 0.01 then left else 0.01))
    {
      hide After;
    }

    /** `acquire`: the grant is made at the returned instant, is the newest one, and from n
        retained stamps at most n - maxCalls + 1 sleeps come first, each as long as needed. */
    method Acquire() returns (sleeps: nat)
      requires Valid()
      modifies this, store, clock
      ensures Valid() && clock.now >= old(clock.now)
      ensures grants == old(grants) + [clock.now] && store.rows == old(store.rows) + [clock.now]
      ensures timestamps == After(old(grants), clock.now - window) + [clock.now]
      ensures HasSlot(maxCalls, window, old(State()), clock.now) && State() == Grant(window, old(State()), clock.now)
      ensures sleeps <= if |old(timestamps)| < maxCalls then 0 else |old(timestamps)| - maxCalls + 1
      ensures |clock.naps| == |old(clock.naps)| + sleeps && old(clock.naps) <= clock.naps
      ensures forall i :: |old(clock.naps)| <= i < |clock.naps| ==> UntilSlot(old(grants), clock.naps[i])
    {
      hide LimiterOk, After, Trim, HasSlot, Grant, UntilSlot;
      sleeps := 0;
      while true
        invariant |clock.naps| == |old(clock.naps)| + sleeps && old(clock.naps) <= clock.naps
        invariant forall i :: |old(clock.naps)| <= i < |clock.naps| ==> UntilSlot(old(grants), clock.naps[i])
        invariant grants == old(grants) && store.rows == old(store.rows) && clock.now >= old(clock.now)
        invariant LimiterOk(maxCalls, window, Limiter(timestamps, old(store.rows), old(grants)), clock.now)
        invariant |timestamps| + sleeps <= |old(timestamps)| + (if sleeps > 0 then 1 else 0)
        invariant sleeps > 0 ==> |timestamps| >= maxCalls && timestamps[0] <= clock.now - window
        decreases |timestamps| + (if sleeps == 0 then 1 else 0)
      {
        ghost var before := Limiter(timestamps, old(store.rows), old(grants));
        ghost var seen := clock.now;
        var now := clock.Read();
        TrimTo(now);
        ghost var kept := timestamps;
        PassKeepsOk(maxCalls, window, before, seen, now, kept);
        if |timestamps| < maxCalls {
          timestamps := timestamps + [now];
          grants := grants + [now];
          Persist(now);
          assert State() == Limiter(kept + [now], before.log + [now], before.grants + [now]);
          GrantedAtOnce(maxCalls, window, old(State()), old(clock.now), now, kept);
          return;
        }
        var waitFor := timestamps[0] + window + safety - now;
        FullUntil(old(grants), now, kept);
        clock.Sleep(if waitFor > 0.01 then waitFor else 0.01);
        WaitKeepsOk(maxCalls, window, before.(stamps := kept), now, clock.now);
        sleeps := sleeps + 1;
      }
    }

    /** `penalise`: a pause the server asked for. */
    method Penalise(seconds: real)
      requires Valid()
      modifies clock
      ensures Valid() && clock.now >= old(clock.now) && clock.now >= old(clock.now) + seconds
      ensures clock.naps == old(clock.naps) + [Nap(old(clock.now), if seconds > 0.0 then seconds else 0.0)]
    {
      ghost var since := clock.now;
      clock.Sleep(if seconds > 0.0 then seconds else 0.0);
      WaitKeepsOk(maxCalls, window, State(), since, clock.now);
    }

    method Persist(ts: real)
      modifies store
      ensures store.rows == old(store.rows) + [ts]
    {
      store.Record(ts);
    }
  }
}
