/** Exponential backoff with jitter: `backoff_delay` of app/services/jobs.py. */
module Backoff {
  import opened Models

  function Min(x: real, y: real): real { if x <= y then x else y }

  function Max(x: real, y: real): real { if x >= y then x else y }

  function Pow2(n: nat): real {
    if n == 0 then 1.0 else 2.0 * Pow2(n - 1)
  }

  /** r * 2^max(0, n-1), by doubling; `DoublingIsPower` gives the closed form. */
  function Doubling(r: real, n: int): real
    decreases if n > 1 then n else 0
  {
    if n <= 1 then r else 2.0 * Doubling(r, n - 1)
  }

  /** The delay before jitter, for the n-th consecutive failure. */
  function Base(cfg: Settings, n: int): real {
    Min(Doubling(cfg.retryBase, n), cfg.retryCap)
  }

  function Jitter(cfg: Settings, n: int): real {
    Base(cfg, n) * cfg.retryJitter
  }

  /** `draw` is what `random.uniform(-jitter, jitter)` returned. */
  predicate IsDraw(cfg: Settings, n: int, draw: real) {
    -Jitter(cfg, n) <= draw <= Jitter(cfg, n)
  }

  function Delay(cfg: Settings, n: int, draw: real): real {
    Max(0.1, Base(cfg, n) + draw)
  }

  lemma {:induction false} DoublingIsPower(r: real, n: nat)
    ensures Doubling(r, n + 1) == r * Pow2(n)
  {
    if n > 0 {
      DoublingIsPower(r, n - 1);
    }
  }

  lemma {:induction false} DoublingGrows(r: real, n: int)
    requires r >= 0.0
    ensures 0.0 <= r <= Doubling(r, n)
    decreases if n > 1 then n else 0
  {
    if n > 1 {
      DoublingGrows(r, n - 1);
    }
  }

  lemma ProductNonNegative(x: real, y: real)
    requires x >= 0.0 && y >= 0.0
    ensures x * y >= 0.0
  {
  }

  lemma Expand(b: real, j: real)
    ensures b * (1.0 - j) == b - b * j
    ensures b * (1.0 + j) == b + b * j
  {
  }

  lemma JitterNonNegative(cfg: Settings, n: int)
    requires cfg.Sensible()
    ensures 0.0 <= Base(cfg, n) && 0.0 <= Jitter(cfg, n)
  {
    DoublingGrows(cfg.retryBase, n);
    ProductNonNegative(Base(cfg, n), cfg.retryJitter);
  }

  /** There is always a draw: no jitter. */
  lemma NoJitter(cfg: Settings, n: int)
    requires cfg.Sensible()
    ensures IsDraw(cfg, n, 0.0)
  {
    JitterNonNegative(cfg, n);
  }

  /** What the settings ask for after failure n + 1: retryBase * 2^n, at most the cap. */
  function AskedBase(cfg: Settings, n: nat): real {
    var up := cfg.retryBase * Pow2(n);
    if up <= cfg.retryCap then up else cfg.retryCap
  }

  lemma BaseIs(cfg: Settings, n: nat)
    ensures Base(cfg, n + 1) == AskedBase(cfg, n)
    ensures Jitter(cfg, n + 1) == AskedBase(cfg, n) * cfg.retryJitter
  {
    DoublingIsPower(cfg.retryBase, n);
    assert Base(cfg, n + 1) == AskedBase(cfg, n);
    hide Base, AskedBase;
  }

  /** After failure n + 1 every delay lies in the jittered band around retryBase * 2^n or the
      cap, floored at 0.1 s, and both ends of the band are reached. */
  lemma DelayBand(cfg: Settings, n: nat, draw: real)
    requires cfg.Sensible() && IsDraw(cfg, n + 1, draw)
    ensures var b, j := AskedBase(cfg, n), cfg.retryJitter;
            var low := if b * (1.0 - j) >= 0.1 then b * (1.0 - j) else 0.1;
            var high := if b * (1.0 + j) >= 0.1 then b * (1.0 + j) else 0.1;
            && low <= Delay(cfg, n + 1, draw) <= high
            && IsDraw(cfg, n + 1, -(b * j)) && Delay(cfg, n + 1, -(b * j)) == low
            && IsDraw(cfg, n + 1, b * j) && Delay(cfg, n + 1, b * j) == high
  {
    hide Base, Jitter, AskedBase, Delay, IsDraw;
    BaseIs(cfg, n);
    JitterNonNegative(cfg, n + 1);
    Expand(AskedBase(cfg, n), cfg.retryJitter);
    DelayEnds(cfg, n + 1, draw);
  }

  lemma DelayEnds(cfg: Settings, n: nat, draw: real)
    requires Jitter(cfg, n) >= 0.0 && IsDraw(cfg, n, draw)
    ensures var b, spread := Base(cfg, n), Jitter(cfg, n);
            && Max(0.1, b - spread) <= Delay(cfg, n, draw) <= Max(0.1, b + spread)
            && IsDraw(cfg, n, -spread) && Delay(cfg, n, -spread) == Max(0.1, b - spread)
            && IsDraw(cfg, n, spread) && Delay(cfg, n, spread) == Max(0.1, b + spread)
  {
    hide Base, Jitter;
  }

  /** A wait the settings allow after the n-th failure. */
  ghost predicate InBand(cfg: Settings, n: nat, delay: real) {
    && n >= 1
    && var b, j := AskedBase(cfg, n - 1), cfg.retryJitter;
       && delay >= 0.1 && delay >= b * (1.0 - j)
       && (delay <= b * (1.0 + j) || delay == 0.1)
  }

  /** The delays are exactly the waits the settings allow. */
  lemma IsDelayIff(cfg: Settings, n: nat, delay: real)
    requires cfg.Sensible() && n >= 1
    ensures IsDelay(cfg, n, delay) <==> InBand(cfg, n, delay)
  {
    hide Base, Jitter, AskedBase, IsDelay;
    BaseIs(cfg, n - 1);
    JitterNonNegative(cfg, n);
    Expand(AskedBase(cfg, n - 1), cfg.retryJitter);
    BandIff(cfg, n, delay);
  }

  lemma BandIff(cfg: Settings, n: nat, delay: real)
    requires Jitter(cfg, n) >= 0.0
    ensures IsDelay(cfg, n, delay)
            <==> && delay >= 0.1 && delay >= Base(cfg, n) - Jitter(cfg, n)
                 && (delay <= Base(cfg, n) + Jitter(cfg, n) || delay == 0.1)
  {
    hide Base, Jitter;
    var b, spread := Base(cfg, n), Jitter(cfg, n);
    if delay >= 0.1 && delay >= b - spread && (delay <= b + spread || delay == 0.1) {
      var draw := if delay <= b + spread then delay - b else spread;
      assert IsDraw(cfg, n, draw) && delay == Delay(cfg, n, draw);
    }
  }

  /** The delay after failure m is longer than the one after failure n, whatever is drawn. */
  ghost predicate AlwaysLonger(cfg: Settings, n: nat, m: nat) {
    forall d, d' :: IsDraw(cfg, n, d) && IsDraw(cfg, m, d') ==> Delay(cfg, n, d) < Delay(cfg, m, d')
  }

  /** Exactly when one delay is always longer than another, capped or not: when the two bands do
      not meet and the longer one lies above the floor. */
  lemma DelaysGrowIff(cfg: Settings, n: nat, m: nat)
    requires cfg.Sensible()
    ensures AlwaysLonger(cfg, n, m) <==> Base(cfg, m) - Jitter(cfg, m) > Max(0.1, Base(cfg, n) + Jitter(cfg, n))
  {
    hide Base, Jitter;
    JitterNonNegative(cfg, n);
    JitterNonNegative(cfg, m);
    var d, d' := Jitter(cfg, n), -Jitter(cfg, m);
    assert IsDraw(cfg, n, d) && IsDraw(cfg, m, d');
  }

  /** Consecutive uncapped delays always grow exactly when the jitter ratio is below one third
      and the longer one stays above the floor. */
  lemma UncappedDelaysGrow(cfg: Settings, n: nat)
    requires cfg.Sensible() && n >= 1 && cfg.retryBase * Pow2(n) <= cfg.retryCap
    ensures AlwaysLonger(cfg, n, n + 1)
            <==> cfg.retryJitter * 3.0 < 1.0 && AskedBase(cfg, n) * (1.0 - cfg.retryJitter) > 0.1
  {
    hide AlwaysLonger, Base, Jitter, Doubling, Pow2, AskedBase;
    DoublingIsPower(cfg.retryBase, n);
    BaseIs(cfg, n);
    DelaysGrowIff(cfg, n, n + 1);
    UncappedBand(cfg, n);
    Expand(AskedBase(cfg, n), cfg.retryJitter);
    BandsApartIff(Base(cfg, n), Jitter(cfg, n), cfg.retryJitter);
  }

  lemma UncappedBand(cfg: Settings, n: nat)
    requires cfg.Sensible() && n >= 1 && Doubling(cfg.retryBase, n + 1) <= cfg.retryCap
    ensures Base(cfg, n + 1) == 2.0 * Base(cfg, n) && Jitter(cfg, n + 1) == 2.0 * Jitter(cfg, n)
    ensures Base(cfg, n) >= 0.0 && Jitter(cfg, n) == Base(cfg, n) * cfg.retryJitter >= 0.0
    ensures Base(cfg, n + 1) * (1.0 - cfg.retryJitter) == 2.0 * Base(cfg, n) - 2.0 * Jitter(cfg, n)
  {
    JitterNonNegative(cfg, n);
    DoublingGrows(cfg.retryBase, n);
    assert Base(cfg, n + 1) == 2.0 * Base(cfg, n);
    Doubled(Base(cfg, n), cfg.retryJitter);
    Expand(Base(cfg, n + 1), cfg.retryJitter);
  }

  lemma BandsApartIff(b: real, spread: real, j: real)
    requires b >= 0.0 && spread == b * j >= 0.0
    ensures 2.0 * b - 2.0 * spread > Max(0.1, b + spread) <==> j * 3.0 < 1.0 && 2.0 * b - 2.0 * spread > 0.1
  {
    if 2.0 * b - 2.0 * spread > 0.1 {
      OneThird(b, j, spread);
    }
  }

  /** A delay at the cap does not always grow. */
  lemma CappedDelaysStay(cfg: Settings, n: nat)
    requires cfg.Sensible() && n >= 1 && cfg.retryBase * Pow2(n - 1) >= cfg.retryCap
    ensures !AlwaysLonger(cfg, n, n + 1)
  {
    hide AlwaysLonger, Base, Jitter, Doubling, Pow2;
    DoublingIsPower(cfg.retryBase, n - 1);
    DelaysGrowIff(cfg, n, n + 1);
    CapReached(cfg, n);
    JitterNonNegative(cfg, n);
  }

  lemma CapReached(cfg: Settings, n: nat)
    requires cfg.Sensible() && Doubling(cfg.retryBase, n) >= cfg.retryCap
    ensures Base(cfg, n + 1) == Base(cfg, n) && Jitter(cfg, n + 1) == Jitter(cfg, n)
  {
    hide Jitter;
    DoublingGrows(cfg.retryBase, n);
    assert Base(cfg, n + 1) == Base(cfg, n);
    JitterOf(cfg, n, n + 1);
  }

  lemma JitterOf(cfg: Settings, n: nat, m: nat)
    requires Base(cfg, n) == Base(cfg, m)
    ensures Jitter(cfg, n) == Jitter(cfg, m)
  {
    hide Base;
  }

  lemma Doubled(b: real, j: real)
    ensures (2.0 * b) * j == 2.0 * (b * j)
  {
  }

  lemma OneThird(b: real, j: real, spread: real)
    requires spread == b * j && 2.0 * b - 2.0 * spread > 0.1 && b >= 0.0 && spread >= 0.0
    ensures j * 3.0 < 1.0 <==> 3.0 * spread < b
  {
    if j * 3.0 < 1.0 {
      Positive(b, 1.0 - j * 3.0);
    } else {
      ProductNonNegative(b, j * 3.0 - 1.0);
    }
  }

  lemma Positive(x: real, y: real)
    requires x > 0.0 && y > 0.0
    ensures x * y > 0.0
  {
  }

  function Sum(xs: seq<real>): real {
    if xs == [] then 0.0 else Sum(xs[..|xs| - 1]) + xs[|xs| - 1]
  }

  /** `delays` are the waits after the first |delays| consecutive failures, for some draws. */
  ghost predicate AreDelays(cfg: Settings, delays: seq<real>) {
    forall i :: 0 <= i < |delays| ==> IsDelay(cfg, i + 1, delays[i])
  }

  ghost predicate IsDelay(cfg: Settings, n: nat, delay: real) {
    exists draw :: IsDraw(cfg, n, draw) && delay == Delay(cfg, n, draw)
  }

  function DoublingSum(r: real, n: nat): real {
    if n == 0 then 0.0 else DoublingSum(r, n - 1) + Doubling(r, n)
  }

  lemma {:induction false} GeometricSum(r: real, n: nat)
    ensures DoublingSum(r, n) == r * Pow2(n) - r
  {
    if n > 0 {
      GeometricSum(r, n - 1);
      DoublingIsPower(r, n - 1);
      assert r * (2.0 * Pow2(n - 1)) == 2.0 * (r * Pow2(n - 1));
    }
  }

  /** The whole wait before giving up after n + 1 consecutive failures is at most
      top * (2^n - 1) (`GeometricSum`) for top = base * (1 + jitter), capped or not. */
  lemma {:induction false} TotalDelayBound(cfg: Settings, delays: seq<real>, top: real)
    requires cfg.Sensible() && AreDelays(cfg, delays)
    requires top >= Floored(cfg) + Floored(cfg) * cfg.retryJitter
    ensures Sum(delays) <= DoublingSum(top, |delays|)
  {
    if delays != [] {
      var n := |delays|;
      TotalDelayBound(cfg, delays[..n - 1], top);
      LastIsDelay(cfg, delays);
      OneDelayBound(cfg, n, delays[n - 1], top);
    }
  }

  /** The base of the backoff, not below the shortest delay. */
  function Floored(cfg: Settings): real {
    Max(0.1, cfg.retryBase)
  }

  /** The longest first delay. */
  function Longest(cfg: Settings): real {
    Floored(cfg) * (1.0 + cfg.retryJitter)
  }

  lemma LongestIs(cfg: Settings)
    ensures Longest(cfg) == Floored(cfg) + Floored(cfg) * cfg.retryJitter
  {
    hide Floored;
    Expand(Floored(cfg), cfg.retryJitter);
  }

  lemma Factored(total: real, bound: real, x: real, y: real)
    requires total <= bound == x * y - x
    ensures total <= x * (y - 1.0)
  {
  }

  /** In closed form: the waits before a transient give-up add up to at most
      max(0.1, base) * (1 + jitter) * (2^(N-1) - 1), for N - 1 waits. */
  lemma WaitBeforeGivingUp(cfg: Settings, delays: seq<real>)
    requires cfg.Sensible() && AreDelays(cfg, delays)
    ensures Sum(delays) <= Longest(cfg) * (Pow2(|delays|) - 1.0)
  {
    hide Sum, DoublingSum, Pow2, AreDelays, Floored, Longest;
    LongestIs(cfg);
    TotalDelayBound(cfg, delays, Longest(cfg));
    GeometricSum(Longest(cfg), |delays|);
    Factored(Sum(delays), DoublingSum(Longest(cfg), |delays|), Longest(cfg), Pow2(|delays|));
  }

  lemma LastIsDelay(cfg: Settings, delays: seq<real>)
    requires AreDelays(cfg, delays) && delays != []
    ensures IsDelay(cfg, |delays|, delays[|delays| - 1])
  {
    assert IsDelay(cfg, |delays| - 1 + 1, delays[|delays| - 1]);
  }

  lemma OneDelayBound(cfg: Settings, n: nat, delay: real, top: real)
    requires cfg.Sensible() && n >= 1 && IsDelay(cfg, n, delay)
    requires top >= Floored(cfg) + Floored(cfg) * cfg.retryJitter
    ensures delay <= Doubling(top, n)
  {
    hide Doubling, Floored, Base, Jitter;
    var r := Floored(cfg);
    var u := Doubling(r, n);
    var spread := u * cfg.retryJitter;
    FlooredBase(cfg, n);
    Raised(r, cfg.retryJitter, top, n, u, spread);
    JitterUnder(Base(cfg, n), Jitter(cfg, n), u, cfg.retryJitter, spread);
  }

  lemma FlooredBase(cfg: Settings, n: nat)
    requires cfg.Sensible()
    ensures 0.1 <= Floored(cfg) <= Doubling(Floored(cfg), n)
    ensures Base(cfg, n) <= Doubling(Floored(cfg), n) && Jitter(cfg, n) == Base(cfg, n) * cfg.retryJitter
  {
    DoublingGrows(Floored(cfg), n);
    DoublingMonotone(cfg.retryBase, Floored(cfg), n);
  }

  lemma {:induction false} DoublingMonotone(r: real, r': real, n: nat)
    requires r <= r'
    ensures Doubling(r, n) <= Doubling(r', n)
  {
    if n > 1 {
      DoublingMonotone(r, r', n - 1);
    }
  }

  lemma JitterUnder(b: real, spread: real, u: real, j: real, spread': real)
    requires b <= u && j >= 0.0 && u >= 0.0 && spread == b * j && spread' == u * j
    ensures spread <= spread' && spread' >= 0.0
  {
    ProductNonNegative(u - b, j);
    ProductNonNegative(u, j);
    assert (u - b) * j == u * j - b * j;
  }

  lemma {:induction false} Raised(r: real, j: real, top: real, n: nat, u: real, spread: real)
    requires top >= r + r * j && u == Doubling(r, n) && spread == u * j && n >= 1
    ensures Doubling(top, n) >= u + spread
  {
    if n > 1 {
      var half := Doubling(r, n - 1);
      Doubled(half, j);
      Raised(r, j, top, n - 1, half, half * j);
    }
  }
}
