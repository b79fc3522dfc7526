/** The provider, as scripts/mock_pseudogram.py behaves, and why a limiter that spaces its
    grants is never answered 429. */
module PseudoGram {
  import opened Models
  import opened RateLimiter

  const WINDOW_SECONDS := 60.0
  const MAX_SENDS := 10
  const SETTLE_SECONDS := 3.0

  datatype DmStatus = DmQueued | DmDelivered | DmFailed

  datatype Dm = Dm(status: DmStatus, recipient: string, created: real, willFail: bool, key: Option<string>)

  datatype Provider = Provider(sendTimes: seq<real>, dms: map<string, Dm>, byKey: map<string, string>)

  const EMPTY := Provider([], map[], map[])

  /** The random draws of one request: a 500, the new DM's id, its fate. */
  datatype Draws = Draws(serverError: bool, dmId: string, willFail: bool)

  datatype Reply = Accepted202(dmId: string) | Limited429(retryAfter: real) | Invalid400 | Error500

  function StatusText(s: DmStatus): string {
    match s
    case DmQueued => "queued"
    case DmDelivered => "delivered"
    case DmFailed => "failed"
  }

  /** `POST /v1/dm/send`. */
  function SendDm(p: Provider, key: Option<string>, recipient: string, now: real, draws: Draws): (Provider, Reply) {
    if Present(key) && key.value in p.byKey then (p, Accepted202(p.byKey[key.value]))
    else
      var recent := After(p.sendTimes, now - WINDOW_SECONDS);
      if |recent| >= MAX_SENDS then
        (p.(sendTimes := recent), Limited429((WINDOW_SECONDS - (now - recent[0])).Floor as real + 1.0))
      else
        var timed := p.(sendTimes := recent + [now]);
        if recipient == "" then (timed, Invalid400)
        else if draws.serverError then (timed, Error500)
        else
          var dm := Dm(DmQueued, recipient, now, draws.willFail, key);
          (timed.(dms := timed.dms[draws.dmId := dm],
                  byKey := if Present(key) then timed.byKey[key.value := draws.dmId] else timed.byKey),
           Accepted202(draws.dmId))
  }

  /** `GET /v1/dm/{dm_id}`: reading a DM old enough settles it. */
  function GetDm(p: Provider, dmId: string, now: real): (Provider, Option<DmStatus>) {
    if dmId !in p.dms then (p, None)
    else
      var dm := p.dms[dmId];
      if dm.status == DmQueued && now - dm.created > SETTLE_SECONDS then
        var settled := if dm.willFail then DmFailed else DmDelivered;
        (p.(dms := p.dms[dmId := dm.(status := settled)]), Some(settled))
      else (p, Some(dm.status))
  }

  /** How `PseudoGramClient.send_dm` reads a reply. */
  function ToResult(reply: Reply): SendResult {
    match reply
    case Accepted202(dmId) => SendResult(OutAccepted, Some(dmId), None)
    case Limited429(wait) => SendResult(OutRateLimited, None, Some(wait))
    case Invalid400 => SendResult(OutInvalid, None, None)
    case Error500 => SendResult(OutServerError, None, None)
  }

  /** One request makes at most one DM, never under a key that has one already, and an
      accepted request's key maps to the DM it was answered with from then on. */
  lemma SendIsIdempotent(p: Provider, key: string, recipient: string, now: real, draws: Draws)
    requires key != ""
    ensures var (p', reply) := SendDm(p, Some(key), recipient, now, draws);
            && (key in p.byKey ==> p' == p && reply == Accepted202(p.byKey[key]))
            && (reply.Accepted202? ==> key in p'.byKey && p'.byKey[key] == reply.dmId)
            && (p'.dms != p.dms ==> key !in p.byKey && p'.dms.Keys == p.dms.Keys + {draws.dmId})
            && forall k :: k in p.byKey ==> k in p'.byKey && p'.byKey[k] == p.byKey[k]
  {
    var (p', reply) := SendDm(p, Some(key), recipient, now, draws);
    if p'.dms != p.dms {
      assert p'.dms.Keys == p.dms.Keys + {draws.dmId};
    }
  }

  /** A settled DM keeps its verdict, whoever reads it. */
  lemma VerdictIsFinal(p: Provider, dmId: string, other: string, now: real)
    requires dmId in p.dms && p.dms[dmId].status != DmQueued
    ensures dmId in GetDm(p, other, now).0.dms && GetDm(p, other, now).0.dms[dmId] == p.dms[dmId]
  {
  }

  /** What has become of a DM at an instant: a verdict stands; a queued DM older than the
      settling time meets its fate. */
  function Fate(dm: Dm, now: real): DmStatus {
    if dm.status == DmQueued && now > dm.created + 3.0 then (if dm.willFail then DmFailed else DmDelivered)
    else dm.status
  }

  /** A read reports the DM's fate, records it, and touches no other DM. */
  lemma ReadTellsFate(p: Provider, d: string, now: real)
    ensures var (p', status) := GetDm(p, d, now);
            && (status.Some? <==> d in p.dms)
            && (d in p.dms ==>
                  var fate := Fate(p.dms[d], now);
                  status == Some(fate) && p' == p.(dms := p.dms[d := p.dms[d].(status := fate)]))
            && (d !in p.dms ==> p' == p)
  {
    if d in p.dms {
      assert p.dms[d := p.dms[d].(status := p.dms[d].status)] == p.dms;
    }
  }

  /** Reading a DM early does not change what is read later. */
  lemma FateSettles(dm: Dm, t: real, now: real)
    requires t <= now
    ensures Fate(dm.(status := Fate(dm, t)), now) == Fate(dm, now)
  {
  }

  /** The requests counted at an instant: those of the last minute. */
  function Counting(ts: seq<real>, now: real): set<nat> {
    set i: nat | i < |ts| && ts[i] > now - 60.0
  }

  lemma {:induction false} AfterCounts(ts: seq<real>, h: real)
    ensures |After(ts, h)| == |set i: nat | i < |ts| && ts[i] > h|
  {
    if ts == [] {
      assert (set i: nat | i < |ts| && ts[i] > h) == {};
    } else {
      var n := |ts| - 1;
      AfterAppend(ts[..n], ts[n], h);
      assert ts == ts[..n] + [ts[n]];
      AfterCounts(ts[..n], h);
      assert (set i: nat | i < |ts| && ts[i] > h)
          == (set i: nat | i < |ts[..n]| && ts[..n][i] > h) + (if ts[n] > h then {n} else {});
    }
  }

  /** How the provider answers: a known key is replayed; else with ten requests in the last
      minute it throttles, and counts and judges every other request. */
  lemma SendOutcome(p: Provider, key: Option<string>, recipient: string, now: real, draws: Draws)
    ensures var (p', reply) := SendDm(p, key, recipient, now, draws);
            var replay := key.Some? && key.value != "" && key.value in p.byKey;
            var full := |Counting(p.sendTimes, now)| >= 10;
            && (replay ==> p' == p && reply == Accepted202(p.byKey[key.value]))
            && (reply.Limited429? <==> !replay && full)
            && (reply.Invalid400? <==> !replay && !full && recipient == "")
            && (reply.Error500? <==> !replay && !full && recipient != "" && draws.serverError)
            && (!replay ==> p'.sendTimes == After(p.sendTimes, now - 60.0) + (if full then [] else [now]))
            && (!replay && reply.Accepted202? ==>
                  && reply.dmId == draws.dmId
                  && p'.dms == p.dms[draws.dmId := Dm(DmQueued, recipient, now, draws.willFail, key)])
            && (!reply.Accepted202? ==> p'.dms == p.dms && p'.byKey == p.byKey)
  {
    AfterCounts(p.sendTimes, now - 60.0);
    assert Counting(p.sendTimes, now) == set i: nat | i < |p.sendTimes| && p.sendTimes[i] > now - 60.0;
  }

  /** A throttled client that waits as long as it is told, and not a second more than needed,
      finds the oldest counted request gone. */
  lemma RetryAfterFits(p: Provider, key: Option<string>, recipient: string, now: real, draws: Draws)
    ensures var reply := SendDm(p, key, recipient, now, draws).1;
            reply.Limited429? ==>
              var oldest := After(p.sendTimes, now - 60.0)[0];
              oldest <= now + reply.retryAfter - 60.0 <= oldest + 1.0
  {
  }

  // ----- Composition with the limiter -----------------------------------

  datatype Arrival = Arrival(time: real, key: Option<string>, recipient: string, draws: Draws)

  function Times(arrivals: seq<Arrival>): seq<real> {
    seq(|arrivals|, i requires 0 <= i < |arrivals| => arrivals[i].time)
  }

  /** The provider after the arrivals, starting from an empty window. */
  function Serve(p: Provider, arrivals: seq<Arrival>): Provider {
    if arrivals == [] then p
    else
      var last := arrivals[|arrivals| - 1];
      SendDm(Serve(p, arrivals[..|arrivals| - 1]), last.key, last.recipient, last.time, last.draws).0
  }

  function ReplyTo(p: Provider, arrivals: seq<Arrival>, i: nat): Reply
    requires i < |arrivals|
  {
    SendDm(Serve(p, arrivals[..i]), arrivals[i].key, arrivals[i].recipient, arrivals[i].time, arrivals[i].draws).1
  }

  lemma {:induction false} AfterAppend(ts: seq<real>, t: real, h: real)
    ensures After(ts + [t], h) == After(ts, h) + if t > h then [t] else []
  {
    if ts != [] {
      AfterAppend(ts[1..], t, h);
      assert (ts + [t])[1..] == ts[1..] + [t];
    }
  }

  lemma {:induction false} AfterTwice(ts: seq<real>, h: real, h': real)
    ensures |After(After(ts, h), h')| <= |After(ts, h')|
  {
    if ts != [] {
      AfterTwice(ts[1..], h, h');
      if ts[0] > h {
        assert After(ts, h)[1..] == After(ts[1..], h);
      } else {
        assert After(ts, h) == After(ts[1..], h);
      }
    }
  }

  /** With at least k stamps after the horizon, the k-th newest is one of them. */
  lemma {:induction false} KthNewest(ts: seq<real>, h: real, k: nat)
    requires Sorted(ts) && 1 <= k <= |After(ts, h)|
    ensures k <= |ts| && ts[|ts| - k] > h
  {
    AfterShorter(ts, h);
    if ts[0] > h {
      SortedAt(ts, 0, |ts| - k);
    } else {
      assert After(ts, h) == After(ts[1..], h);
      KthNewest(ts[1..], h, k);
    }
  }

  lemma {:induction false} AfterShorter(ts: seq<real>, h: real)
    ensures |After(ts, h)| <= |ts|
  {
    if ts != [] {
      AfterShorter(ts[1..], h);
    }
  }

  /** The provider never counts more sends since any instant than there were arrivals. */
  lemma {:induction false} CountsArrivals(arrivals: seq<Arrival>, p: Provider, h: real)
    requires p.sendTimes == []
    ensures |After(Serve(p, arrivals).sendTimes, h)| <= |After(Times(arrivals), h)|
    decreases |arrivals|
  {
    if arrivals != [] {
      var n := |arrivals| - 1;
      var before, last := Serve(p, arrivals[..n]), arrivals[n];
      CountsArrivals(arrivals[..n], p, h);
      assert Times(arrivals) == Times(arrivals[..n]) + [last.time];
      AfterAppend(Times(arrivals[..n]), last.time, h);
      var recent := After(before.sendTimes, last.time - WINDOW_SECONDS);
      AfterTwice(before.sendTimes, last.time - WINDOW_SECONDS, h);
      AfterAppend(recent, last.time, h);
    }
  }

  /** Requests that arrive at grant times of a limiter no laxer than the provider are never
      answered 429, replays included. */
  lemma NeverLimited(maxCalls: int, window: real, arrivals: seq<Arrival>, p: Provider, i: nat)
    requires 1 <= maxCalls <= MAX_SENDS && window >= WINDOW_SECONDS && p.sendTimes == []
    requires Sorted(Times(arrivals)) && Spaced(maxCalls, window, Times(arrivals))
    requires i < |arrivals|
    ensures !ReplyTo(p, arrivals, i).Limited429?
  {
    var times := Times(arrivals);
    var h := arrivals[i].time - WINDOW_SECONDS;
    CountsArrivals(arrivals[..i], p, h);
    assert Times(arrivals[..i]) == times[..i];
    assert i >= maxCalls ==> times[i - maxCalls + maxCalls] - times[i - maxCalls] >= window;
    if |After(times[..i], h)| >= maxCalls {
      SortedPrefix(times, i);
      KthNewest(times[..i], h, maxCalls);
    }
  }

  lemma {:induction false} SortedPrefix(ts: seq<real>, n: nat)
    requires Sorted(ts) && n <= |ts|
    ensures Sorted(ts[..n])
  {
    if n > 1 {
      SortedPrefix(ts[1..], n - 1);
      assert ts[..n][1..] == ts[1..][..n - 1];
    }
  }

  // ----- The server object ----------------------------------------------

  class MockPseudoGram {
    var sendTimes: seq<real>
    var dms: map<string, Dm>
    var byKey: map<string, string>

    function Value(): Provider
      reads this
    {
      Provider(sendTimes, dms, byKey)
    }

    constructor ()
      ensures Value() == EMPTY
    {
      sendTimes, dms, byKey := [], map[], map[];
    }

    method Send(key: Option<string>, recipient: string, now: real, draws: Draws) returns (reply: Reply)
      modifies this
      ensures (Value(), reply) == SendDm(old(Value()), key, recipient, now, draws)
    {
      if Present(key) && key.value in byKey {
        return Accepted202(byKey[key.value]);
      }
      sendTimes := After(sendTimes, now - WINDOW_SECONDS);
      if |sendTimes| >= MAX_SENDS {
        return Limited429((WINDOW_SECONDS - (now - sendTimes[0])).Floor as real + 1.0);
      }
      sendTimes := sendTimes + [now];
      if recipient == "" {
        return Invalid400;
      }
      if draws.serverError {
        return Error500;
      }
      dms := dms[draws.dmId := Dm(DmQueued, recipient, now, draws.willFail, key)];
      if Present(key) {
        byKey := byKey[key.value := draws.dmId];
      }
      return Accepted202(draws.dmId);
    }

    method Get(dmId: string, now: real) returns (status: Option<DmStatus>)
      modifies this
      ensures (Value(), status) == GetDm(old(Value()), dmId, now)
    {
      if dmId !in dms {
        return None;
      }
      if dms[dmId].status == DmQueued && now - dms[dmId].created > SETTLE_SECONDS {
        dms := dms[dmId := dms[dmId].(status := if dms[dmId].willFail then DmFailed else DmDelivered)];
      }
      return Some(dms[dmId].status);
    }
  }
}
