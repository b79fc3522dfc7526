/** The rows, statuses and settings of app/models.py, app/config.py and the result
    objects of app/services/pseudogram.py, with the idempotency key of a job. */
module Models {

  datatype Option<+T> = None | Some(value: T)

  /** Python truthiness of an optional string: neither missing nor empty. */
  predicate Present(o: Option<string>) {
    o.Some? && o.value != ""
  }

  datatype EventStatus = Received | Processing | Processed | Ignored

  datatype JobStatus = Queued | Sending | Accepted | Delivered | RetryWait | Failed | Cancelled

  datatype SendOutcome =
    | OutAccepted | OutRateLimited | OutServerError | OutInvalid | OutAuthError | OutTransportError | OutUnexpected

  datatype SendResult = SendResult(outcome: SendOutcome, dmId: Option<string>, retryAfter: Option<real>)

  /** Something that happened to a job: a send response, or a delivery status that was read. */
  datatype JobEvent = Response(result: SendResult) | Verdict(status: Option<string>)

  /** A row of `dm_jobs`. `trace` is a history variable, not a column: the responses and
      statuses applied to the row so far, oldest first. */
  datatype Job = Job(
    ruleId: string,
    userId: string,
    commentId: Option<string>,
    status: JobStatus,
    attempts: nat,
    transientFailures: nat,
    sendCycle: nat,
    dmId: Option<string>,
    nextRetryAt: Option<real>,
    updatedAt: real,
    trace: seq<JobEvent>)

  /** A row of `events`. `matched` is a history variable: how many rules the event matched
      when it was processed (0 until then). */
  datatype Event = Event(
    eventId: string,
    eventType: string,
    commentId: Option<string>,
    userId: Option<string>,
    text: Option<string>,
    status: EventStatus,
    matched: nat)

  const COMMENT_CREATED := "comment.created"
  const COMMENT_DELETED := "comment.deleted"

  datatype CounterKey = DuplicatesBlocked | DuplicateEvents | EventsReceived

  /** The settings the pipeline reads. `matches(rule, text)` says whether the keyword of a
      rule occurs in a comment text; case folding and substring search stay abstract. */
  datatype Settings = Settings(
    maxDmAttempts: int,
    maxDeliveryAttempts: int,
    retryBase: real,
    retryJitter: real,
    retryCap: real,
    authPause: real,
    staleSeconds: real,
    maxCalls: int,
    window: real,
    safety: real,
    batchSize: int,
    countRedeliveries: bool,
    matches: (string, string) -> bool)
  {
    predicate Sensible() {
      && maxDmAttempts >= 1 && maxDeliveryAttempts >= 1
      && retryBase >= 0.0 && retryJitter >= 0.0 && retryCap >= 0.0
      && staleSeconds >= 0.0
      && maxCalls >= 1 && window > 0.0 && safety >= 0.0
      && batchSize >= 1
    }
  }

  // ----- Idempotency key -------------------------------------------------

  const DIGITS := "0123456789"

  predicate IsDigit(c: char) {
    c in DIGITS
  }

  /** Decimal notation, as an f-string prints a non-negative int. */
  function Decimal(n: nat): (s: string)
    ensures |s| > 0 && forall i :: 0 <= i < |s| ==> IsDigit(s[i])
  {
    if n < 10 then [DIGITS[n]] else Decimal(n / 10) + [DIGITS[n % 10]]
  }

  const KEY_PREFIX := "dm-job-"

  function KeySuffix(cycle: nat): string {
    if cycle != 0 then "-r" + Decimal(cycle) else ""
  }

  function IdempotencyKey(id: nat, cycle: nat): string {
    KEY_PREFIX + (Decimal(id) + KeySuffix(cycle))
  }

  /** The number a string of digits stands for. */
  function Number(s: string): int {
    if s == "" then 0 else 10 * Number(s[..|s| - 1]) + (s[|s| - 1] as int - '0' as int)
  }

  /** Decimal notation reads back as the number. */
  lemma {:induction false} DecimalRoundTrip(n: nat)
    ensures Number(Decimal(n)) == n
  {
    var s := Decimal(n);
    DigitValue(n % 10);
    LastDigit(n);
    if n >= 10 {
      DecimalRoundTrip(n / 10);
    } else {
      assert s[..|s| - 1] == "";
    }
  }

  lemma DigitValue(n: nat)
    requires n < 10
    ensures DIGITS[n] as int - '0' as int == n
  {
  }

  lemma LastDigit(n: nat)
    ensures var s := Decimal(n);
            && s != [] && s[|s| - 1] == DIGITS[n % 10] && |DIGITS| == 10
            && (forall i, k :: 0 <= i < k < 10 ==> DIGITS[i] != DIGITS[k])
            && (n >= 10 ==> |s| > 1 && s[..|s| - 1] == Decimal(n / 10))
            && (n < 10 ==> |s| == 1)
  {
  }

  lemma {:induction false} DecimalInjective(m: nat, n: nat)
    requires Decimal(m) == Decimal(n)
    ensures m == n
  {
    LastDigit(m);
    LastDigit(n);
    if m >= 10 && n >= 10 {
      DecimalInjective(m / 10, n / 10);
    }
  }

  /** The documented form: "dm-job-" and the id, with "-r" and the cycle from the second cycle on. */
  lemma KeyForm(id: nat, cycle: nat)
    ensures IdempotencyKey(id, 0) == "dm-job-" + Decimal(id)
    ensures cycle > 0 ==> IdempotencyKey(id, cycle) == IdempotencyKey(id, 0) + "-r" + Decimal(cycle)
  {
  }

  /** Two jobs, or two send cycles of one job, never share an idempotency key. */
  lemma KeyInjective(id1: nat, cycle1: nat, id2: nat, cycle2: nat)
    requires IdempotencyKey(id1, cycle1) == IdempotencyKey(id2, cycle2)
    ensures id1 == id2 && cycle1 == cycle2
  {
    var body1 := Decimal(id1) + KeySuffix(cycle1);
    var body2 := Decimal(id2) + KeySuffix(cycle2);
    assert body1 == IdempotencyKey(id1, cycle1)[|KEY_PREFIX|..];
    assert body2 == IdempotencyKey(id2, cycle2)[|KEY_PREFIX|..];
    NoLongerNumber(Decimal(id1), KeySuffix(cycle1), Decimal(id2), KeySuffix(cycle2));
    NoLongerNumber(Decimal(id2), KeySuffix(cycle2), Decimal(id1), KeySuffix(cycle1));
    assert Decimal(id1) == body1[..|Decimal(id1)|];
    assert KeySuffix(cycle1) == body1[|Decimal(id1)|..] == KeySuffix(cycle2);
    DecimalInjective(id1, id2);
    if cycle1 != 0 && cycle2 != 0 {
      assert Decimal(cycle1) == KeySuffix(cycle1)[2..];
      assert Decimal(cycle2) == KeySuffix(cycle2)[2..];
      DecimalInjective(cycle1, cycle2);
    }
  }

  /** A run of digits ends where the key's `-r` suffix, or the key, ends. */
  lemma NoLongerNumber(d1: string, t1: string, d2: string, t2: string)
    requires d1 + t1 == d2 + t2
    requires forall i :: 0 <= i < |d2| ==> IsDigit(d2[i])
    requires t1 == "" || t1[0] == '-'
    ensures |d2| <= |d1|
  {
    assert forall k :: 0 <= k < |d2| ==> IsDigit((d2 + t2)[k]);
    if t1 != "" {
      assert (d1 + t1)[|d1|] == t1[0];
    }
  }
}
