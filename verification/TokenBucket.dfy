/** The token bucket kept in Redis, whose key disappears after a minute without calls. */
module TokenBucket {
  import opened Common

  /** Tokens left and the time they were counted, in seconds. */
  datatype Bucket = Bucket(tokens: real, ts: real)

  datatype Limits = Limits(rate: nat, burst: nat)

  const EXPIRY := 60.0

  function MinReal(a: real, b: real): real {
    if a < b then a else b
  }

  function MaxReal(a: real, b: real): real {
    if a < b then b else a
  }

  /** What a span of time adds, `span * rate`, as repeated addition. */
  function Gain(rate: nat, span: real): real {
    if rate == 0 then 0.0 else span + Gain(rate - 1, span)
  }

  lemma {:induction false} GainIsProduct(rate: nat, span: real)
    ensures Gain(rate, span) == span * rate as real
  {
    if rate > 0 {
      GainIsProduct(rate - 1, span);
    }
  }

  lemma {:induction false} GainAdds(rate: nat, a: real, b: real)
    ensures Gain(rate, a) + Gain(rate, b) == Gain(rate, a + b)
  {
    if rate > 0 {
      GainAdds(rate - 1, a, b);
    }
  }

  lemma {:induction false} GainGrows(rate: nat, a: real, b: real)
    requires a <= b
    ensures Gain(rate, a) <= Gain(rate, b)
  {
    if rate > 0 {
      GainGrows(rate - 1, a, b);
    }
  }

  lemma {:induction false} GainOfNothing(rate: nat)
    ensures Gain(rate, 0.0) == 0.0
  {
    if rate > 0 {
      GainOfNothing(rate - 1);
    }
  }

  lemma {:induction false} GainOfMinute(rate: nat)
    ensures Gain(rate, EXPIRY) == (60 * rate) as real
  {
    if rate > 0 {
      GainOfMinute(rate - 1);
    }
  }

  /** The tokens on hand at a time, before one is taken. */
  function Refilled(l: Limits, b: Option<Bucket>, now: real): real {
    var tokens := if b.Some? then b.value.tokens else l.burst as real;
    var ts := if b.Some? then b.value.ts else now;
    MinReal(l.burst as real, tokens + Gain(l.rate, MaxReal(0.0, now - ts)))
  }

  function Take(l: Limits, b: Option<Bucket>, now: real): (Bucket, bool) {
    var tokens := Refilled(l, b, now);
    if tokens >= 1.0 then (Bucket(tokens - 1.0, now), true) else (Bucket(tokens, now), false)
  }

  // ----- one call

  /** A call, and whether the key had expired just before it. */
  datatype Call = Call(at: real, expired: bool)

  function Seen(b: Option<Bucket>, c: Call): Option<Bucket> {
    if c.expired then None else b
  }

  /** One call: the bucket it leaves and whether it was granted. */
  ghost predicate Answers(l: Limits, before: Option<Bucket>, c: Call, after: Option<Bucket>, granted: bool) {
    after.Some? && (after.value, granted) == Take(l, Seen(before, c), c.at)
  }

  class TokenBucketLimiter {
    const limits: Limits
    var buckets: map<string, Bucket>

    constructor (limits: Limits)
      ensures this.limits == limits && buckets == map[]
    {
      this.limits, buckets := limits, map[];
    }

    function At(key: string): Option<Bucket>
      reads this
    {
      if key in buckets then Some(buckets[key]) else None
    }

    /** The script, after Redis has dropped the key if it had expired. */
    method Allow(key: string, c: Call) returns (allowed: bool)
      modifies this
      ensures Answers(limits, old(At(key)), c, At(key), allowed)
      ensures buckets - {key} == old(buckets) - {key}
    {
      if c.expired {
        buckets := buckets - {key};
      }
      var tokens, ts := limits.burst as real, c.at;
      if key in buckets {
        tokens, ts := buckets[key].tokens, buckets[key].ts;
      }
      var elapsed := MaxReal(0.0, c.at - ts);
      tokens := MinReal(limits.burst as real, tokens + Gain(limits.rate, elapsed));
      allowed := false;
      if tokens >= 1.0 {
        allowed := true;
        tokens := tokens - 1.0;
      }
      buckets := buckets[key := Bucket(tokens, c.at)];
    }
  }

  // ----- sequences of calls on one key

  /** The buckets between the calls, from no key on, and which calls were granted. */
  ghost predicate Run(l: Limits, calls: seq<Call>, buckets: seq<Option<Bucket>>, granted: seq<bool>) {
    && |buckets| == |calls| + 1 && |granted| == |calls| && buckets[0] == None
    && forall i, j | 0 <= i < j < |buckets| && j == i + 1 :: Answers(l, buckets[i], calls[i], buckets[j], granted[i])
  }

  /** Calls granted among positions i to j - 1. */
  function Count(granted: seq<bool>, i: nat, j: nat): nat
    requires i <= j <= |granted|
  {
    if i == j then 0 else Count(granted, i, j - 1) + if granted[j - 1] then 1 else 0
  }

  /** The key expires only after a minute's silence. */
  ghost predicate ExpiresLate(calls: seq<Call>) {
    forall i, j | 0 <= i < j < |calls| && j == i + 1 && calls[j].expired :: calls[j].at - calls[i].at >= EXPIRY
  }

  /** Moreover, time does not run backwards. */
  ghost predicate Legal(calls: seq<Call>) {
    ExpiresLate(calls) && forall i, j | 0 <= i < j < |calls| :: calls[i].at <= calls[j].at
  }

  ghost predicate InRange(l: Limits, b: Option<Bucket>) {
    b.Some? ==> 0.0 <= b.value.tokens <= l.burst as real
  }

  lemma TakeInRange(l: Limits, b: Option<Bucket>, now: real)
    requires InRange(l, b)
    ensures InRange(l, Some(Take(l, b, now).0))
  {
    var span := if b.Some? then MaxReal(0.0, now - b.value.ts) else MaxReal(0.0, now - now);
    GainOfNothing(l.rate);
    GainGrows(l.rate, 0.0, span);
  }

  /** Tokens stay between 0 and the burst, for times in any order. */
  lemma {:induction false} TokensInRange(l: Limits, calls: seq<Call>, buckets: seq<Option<Bucket>>, granted: seq<bool>, k: nat)
    requires Run(l, calls, buckets, granted) && k < |buckets|
    ensures InRange(l, buckets[k]) && (k > 0 ==> buckets[k].Some? && buckets[k].value.ts == calls[k - 1].at)
  {
    if k > 0 {
      TokensInRange(l, calls, buckets, granted, k - 1);
      assert Answers(l, buckets[k - 1], calls[k - 1], buckets[k], granted[k - 1]);
      TakeInRange(l, Seen(buckets[k - 1], calls[k - 1]), calls[k - 1].at);
    }
  }

  function One(granted: bool): real {
    if granted then 1.0 else 0.0
  }

  /** A call spends no more than a full bucket. */
  lemma FirstCall(l: Limits, before: Option<Bucket>, c: Call, after: Option<Bucket>, granted: bool)
    requires Answers(l, before, c, after, granted)
    ensures after.value.tokens + One(granted) <= l.burst as real
  {
  }

  /** A call spends no more than what was there plus what time added; an expiry is
      no exception if a silent minute fills the bucket anyway. */
  lemma LaterCall(l: Limits, before: Option<Bucket>, c: Call, after: Option<Bucket>, granted: bool)
    requires Answers(l, before, c, after, granted) && before.Some? && InRange(l, before) && before.value.ts <= c.at
    requires c.expired ==> c.at - before.value.ts >= EXPIRY && 60 * l.rate >= l.burst
    ensures after.value.tokens + One(granted) <= before.value.tokens + Gain(l.rate, c.at - before.value.ts)
  {
    var span := c.at - before.value.ts;
    if c.expired {
      FirstCall(l, before, c, after, granted);
      GainOfMinute(l.rate);
      GainGrows(l.rate, EXPIRY, span);
    } else {
      assert MaxReal(0.0, span) == span;
    }
  }

  /** Level and grants over a window, extended by one call. */
  lemma WindowStep(l: Limits, level: real, count: real, next: real, grant: real, t0: real, t1: real, t2: real)
    requires level + count <= l.burst as real + Gain(l.rate, t1 - t0)
    requires next + grant <= level + Gain(l.rate, t2 - t1)
    ensures next + (count + grant) <= l.burst as real + Gain(l.rate, t2 - t0)
  {
    GainAdds(l.rate, t1 - t0, t2 - t1);
  }

  lemma {:induction false} LevelPlusGranted(l: Limits, calls: seq<Call>, buckets: seq<Option<Bucket>>, granted: seq<bool>,
                                            i: nat, j: nat)
    requires Legal(calls) && Run(l, calls, buckets, granted) && 60 * l.rate >= l.burst && i < j <= |calls|
    ensures buckets[j].Some?
    ensures buckets[j].value.tokens + Count(granted, i, j) as real
              <= l.burst as real + Gain(l.rate, calls[j - 1].at - calls[i].at)
  {
    var k := j - 1;
    assert Answers(l, buckets[k], calls[k], buckets[j], granted[k]);
    if k == i {
      FirstCall(l, buckets[k], calls[k], buckets[j], granted[k]);
      GainOfNothing(l.rate);
      assert Count(granted, i, k) == 0;
    } else {
      LevelPlusGranted(l, calls, buckets, granted, i, k);
      TokensInRange(l, calls, buckets, granted, k);
      LaterCall(l, buckets[k], calls[k], buckets[j], granted[k]);
      WindowStep(l, buckets[k].value.tokens, Count(granted, i, k) as real, buckets[j].value.tokens, One(granted[k]),
                 calls[i].at, calls[k - 1].at, calls[k].at);
    }
  }

  /** Calls i to j - 1, however they are spread. */
  lemma SpanBound(l: Limits, calls: seq<Call>, buckets: seq<Option<Bucket>>, granted: seq<bool>, i: nat, j: nat, window: real)
    requires Legal(calls) && Run(l, calls, buckets, granted) && 60 * l.rate >= l.burst && i < j <= |calls|
    requires calls[j - 1].at - calls[i].at <= window
    ensures Count(granted, i, j) as real <= l.burst as real + Gain(l.rate, window)
  {
    LevelPlusGranted(l, calls, buckets, granted, i, j);
    TokensInRange(l, calls, buckets, granted, j);
    GainGrows(l.rate, calls[j - 1].at - calls[i].at, window);
  }

  predicate Within(c: Call, from: real, to: real) {
    from <= c.at <= to
  }

  /** Granted calls among the first n whose stamp lies in a window. */
  function CountIn(calls: seq<Call>, granted: seq<bool>, from: real, to: real, n: nat): nat
    requires n <= |calls| == |granted|
  {
    if n == 0 then 0
    else CountIn(calls, granted, from, to, n - 1) + if granted[n - 1] && Within(calls[n - 1], from, to) then 1 else 0
  }

  /** In no window are more calls granted than the burst plus what the window refills. */
  ghost predicate WindowBounded(l: Limits, calls: seq<Call>, granted: seq<bool>, from: real, to: real)
    requires |calls| == |granted|
  {
    from <= to ==> CountIn(calls, granted, from, to, |calls|) as real <= l.burst as real + Gain(l.rate, to - from)
  }

  lemma {:induction false} CountInSpan(calls: seq<Call>, granted: seq<bool>, from: real, to: real, i: nat, j: nat, n: nat)
    requires i <= j <= |calls| == |granted| && n <= |calls|
    requires forall k | 0 <= k < |calls| && Within(calls[k], from, to) :: i <= k < j
    ensures CountIn(calls, granted, from, to, n) <= if n <= i then 0 else Count(granted, i, if n < j then n else j)
  {
    if n > 0 {
      CountInSpan(calls, granted, from, to, i, j, n - 1);
    }
  }

  /** The first and the last call stamped within a window, if there is one. */
  lemma {:induction false} WindowSpan(calls: seq<Call>, from: real, to: real, n: nat) returns (i: nat, j: nat)
    requires n <= |calls|
    ensures i <= j <= n && forall k | 0 <= k < n && Within(calls[k], from, to) :: i <= k < j
    ensures i < j ==> Within(calls[i], from, to) && Within(calls[j - 1], from, to)
  {
    if n == 0 {
      i, j := 0, 0;
    } else {
      i, j := WindowSpan(calls, from, to, n - 1);
      if Within(calls[n - 1], from, to) {
        i, j := if i < j then i else n - 1, n;
      }
    }
  }

  lemma WindowBound(l: Limits, calls: seq<Call>, buckets: seq<Option<Bucket>>, granted: seq<bool>, from: real, to: real)
    requires Legal(calls) && Run(l, calls, buckets, granted) && 60 * l.rate >= l.burst
    ensures WindowBounded(l, calls, granted, from, to)
  {
    if from <= to {
      var i, j := WindowSpan(calls, from, to, |calls|);
      CountInSpan(calls, granted, from, to, i, j, |calls|);
      GainOfNothing(l.rate);
      GainGrows(l.rate, 0.0, to - from);
      if i < j {
        SpanBound(l, calls, buckets, granted, i, j, to - from);
      }
    }
  }

  ghost predicate AlwaysBounded(l: Limits) {
    forall calls, buckets, granted, from: real, to: real | Legal(calls) && Run(l, calls, buckets, granted) ::
      WindowBounded(l, calls, granted, from, to)
  }

  // ----- no call is refused without need

  /** The tokens a call found before it took one. */
  function Found(buckets: seq<Option<Bucket>>, granted: seq<bool>, j: nat): real
    requires j < |granted| && |buckets| == |granted| + 1 && buckets[j + 1].Some?
  {
    buckets[j + 1].value.tokens + One(granted[j])
  }

  /** What a full bucket at call i would have left for call j. */
  function LeftOver(l: Limits, calls: seq<Call>, granted: seq<bool>, i: nat, j: nat): real
    requires i <= j < |calls| == |granted|
  {
    l.burst as real + Gain(l.rate, calls[j].at - calls[i].at) - Count(granted, i, j) as real
  }

  /** A call finds a full bucket where there was none, and otherwise what was left and
      what time has added, up to the burst. It is granted if that is a token. */
  lemma CallFinds(l: Limits, calls: seq<Call>, buckets: seq<Option<Bucket>>, granted: seq<bool>, j: nat)
    requires Legal(calls) && Run(l, calls, buckets, granted) && j < |calls|
    ensures buckets[j + 1].Some? && (granted[j] <==> Found(buckets, granted, j) >= 1.0)
    ensures j == 0 || calls[j].expired ==> Found(buckets, granted, j) == l.burst as real
    ensures j > 0 && !calls[j].expired ==>
              && buckets[j].Some? && buckets[j].value.tokens >= 0.0
              && Found(buckets, granted, j) == MinReal(l.burst as real, buckets[j].value.tokens + Gain(l.rate, calls[j].at - calls[j - 1].at))
  {
    assert Answers(l, buckets[j], calls[j], buckets[j + 1], granted[j]);
    GainOfNothing(l.rate);
    TokensInRange(l, calls, buckets, granted, j);
    if j > 0 {
      assert calls[j - 1].at <= calls[j].at;
    }
  }

  /** The bucket was full at some call, and what was found since is exact. */
  lemma {:induction false} LastFull(l: Limits, calls: seq<Call>, buckets: seq<Option<Bucket>>, granted: seq<bool>, j: nat) returns (i: nat)
    requires Legal(calls) && Run(l, calls, buckets, granted) && j < |calls|
    ensures buckets[j + 1].Some? && i <= j
    ensures Found(buckets, granted, j) == LeftOver(l, calls, granted, i, j) && (granted[j] <==> Found(buckets, granted, j) >= 1.0)
  {
    CallFinds(l, calls, buckets, granted, j);
    GainOfNothing(l.rate);
    i := j;
    if j > 0 && !calls[j].expired {
      var k := j - 1;
      var span := calls[j].at - calls[k].at;
      if buckets[j].value.tokens + Gain(l.rate, span) < l.burst as real {
        i := LastFull(l, calls, buckets, granted, k);
        GainAdds(l.rate, calls[k].at - calls[i].at, span);
        assert Count(granted, i, j) == Count(granted, i, k) + if granted[k] then 1 else 0;
      }
    }
  }

  /** Granting the call keeps every stretch that ends with it within the bound. */
  ghost predicate Fits(l: Limits, calls: seq<Call>, granted: seq<bool>, j: nat)
    requires j < |calls| == |granted|
  {
    forall i: nat {:trigger Count(granted, i, j)} | i <= j ::
      (Count(granted, i, j) + 1) as real <= l.burst as real + Gain(l.rate, calls[j].at - calls[i].at)
  }

  /** A call that fits is granted, even where a silent minute does not fill the bucket. */
  lemma FittingGranted(l: Limits, calls: seq<Call>, buckets: seq<Option<Bucket>>, granted: seq<bool>, j: nat)
    requires Legal(calls) && Run(l, calls, buckets, granted) && j < |calls| && Fits(l, calls, granted, j)
    ensures granted[j]
  {
    var i := LastFull(l, calls, buckets, granted, j);
    assert (Count(granted, i, j) + 1) as real <= l.burst as real + Gain(l.rate, calls[j].at - calls[i].at);
  }

  /** The limiter grants as much as the bound allows, and no more: a call is granted if
      and only if that keeps every stretch that ends with it within the bound. */
  lemma GrantedIffFits(l: Limits, calls: seq<Call>, buckets: seq<Option<Bucket>>, granted: seq<bool>, j: nat)
    requires Legal(calls) && Run(l, calls, buckets, granted) && j < |calls| && 60 * l.rate >= l.burst
    ensures granted[j] <==> Fits(l, calls, granted, j)
  {
    if granted[j] {
      forall i: nat | i <= j
        ensures (Count(granted, i, j) + 1) as real <= l.burst as real + Gain(l.rate, calls[j].at - calls[i].at)
      {
        SpanBound(l, calls, buckets, granted, i, j + 1, calls[j].at - calls[i].at);
      }
    }
    if Fits(l, calls, granted, j) {
      FittingGranted(l, calls, buckets, granted, j);
    }
  }

  ghost predicate NotFull(l: Limits, buckets: seq<Option<Bucket>>, granted: seq<bool>, k: nat)
    requires k < |granted| && |buckets| == |granted| + 1
  {
    buckets[k + 1].Some? && Found(buckets, granted, k) < l.burst as real
  }

  ghost predicate NeverFull(l: Limits, buckets: seq<Option<Bucket>>, granted: seq<bool>, i: nat, j: nat)
    requires j < |granted| && |buckets| == |granted| + 1
  {
    forall k: nat | i < k <= j :: NotFull(l, buckets, granted, k)
  }

  /** While the bucket is not full, no token is lost or made: what is there at the end
      and what was granted is what was there at the start and what time has added. */
  lemma {:induction false} TokensConserved(l: Limits, calls: seq<Call>, buckets: seq<Option<Bucket>>, granted: seq<bool>, i: nat, j: nat)
    requires Legal(calls) && Run(l, calls, buckets, granted) && i <= j < |calls|
    requires NeverFull(l, buckets, granted, i, j)
    ensures buckets[i + 1].Some? && buckets[j + 1].Some?
    ensures buckets[j + 1].value.tokens + Count(granted, i + 1, j + 1) as real
            == buckets[i + 1].value.tokens + Gain(l.rate, calls[j].at - calls[i].at)
    decreases j
  {
    CallFinds(l, calls, buckets, granted, j);
    if i == j {
      GainOfNothing(l.rate);
    } else {
      TokensConserved(l, calls, buckets, granted, i, j - 1);
      assert NotFull(l, buckets, granted, j);
      GainAdds(l.rate, calls[j - 1].at - calls[i].at, calls[j].at - calls[j - 1].at);
    }
  }

  /** A refusal means that everything has been spent: the calls granted since call i
      exceed what was there and what time added, less one. */
  lemma RefusedMeansSpent(l: Limits, calls: seq<Call>, buckets: seq<Option<Bucket>>, granted: seq<bool>, i: nat, j: nat)
    requires Legal(calls) && Run(l, calls, buckets, granted) && i <= j < |calls| && !granted[j]
    requires NeverFull(l, buckets, granted, i, j)
    ensures buckets[i + 1].Some?
    ensures Count(granted, i + 1, j + 1) as real > buckets[i + 1].value.tokens + Gain(l.rate, calls[j].at - calls[i].at) - 1.0
  {
    TokensConserved(l, calls, buckets, granted, i, j);
    CallFinds(l, calls, buckets, granted, j);
  }

  /** Once a silence has refilled the whole burst, each call takes at most one token. */
  lemma {:induction false} FullSince(l: Limits, calls: seq<Call>, buckets: seq<Option<Bucket>>, granted: seq<bool>, i: nat, j: nat)
    requires Legal(calls) && Run(l, calls, buckets, granted) && i <= j < |calls|
    requires i > 0 ==> Gain(l.rate, calls[i].at - calls[i - 1].at) >= l.burst as real
    ensures buckets[j + 1].Some? && Found(buckets, granted, j) >= (l.burst - (j - i)) as real
    decreases j
  {
    CallFinds(l, calls, buckets, granted, j);
    if j > 0 && !calls[j].expired {
      if i < j {
        FullSince(l, calls, buckets, granted, i, j - 1);
        GainOfNothing(l.rate);
        GainGrows(l.rate, 0.0, calls[j].at - calls[j - 1].at);
      }
    }
  }

  /** After a silence that refills the whole burst, a whole burst of calls is granted. */
  lemma BurstAfterSilence(l: Limits, calls: seq<Call>, buckets: seq<Option<Bucket>>, granted: seq<bool>, i: nat, j: nat)
    requires Legal(calls) && Run(l, calls, buckets, granted) && i <= j < |calls| && j - i < l.burst
    requires i > 0 ==> (calls[i].at - calls[i - 1].at) * l.rate as real >= l.burst as real
    ensures granted[j]
  {
    if i > 0 {
      GainIsProduct(l.rate, calls[i].at - calls[i - 1].at);
    }
    FullSince(l, calls, buckets, granted, i, j);
    CallFinds(l, calls, buckets, granted, j);
  }

  // ----- when a silent minute does not fill the bucket

  /** A full burst, a minute's silence, another full burst. */
  function TwoBursts(burst: nat): seq<Call> {
    seq(2 * burst, i => if i < burst then Call(0.0, false) else Call(EXPIRY, i == burst))
  }

  function TwoBurstsLeave(burst: nat): seq<Option<Bucket>> {
    seq(2 * burst + 1, k => if k == 0 then None
                            else if k <= burst then Some(Bucket((burst - k) as real, 0.0))
                            else Some(Bucket((2 * burst - k) as real, EXPIRY)))
  }

  lemma TwoBurstsGranted(l: Limits)
    ensures Legal(TwoBursts(l.burst))
    ensures Run(l, TwoBursts(l.burst), TwoBurstsLeave(l.burst), seq(2 * l.burst, _ => true))
  {
    GainOfNothing(l.rate);
  }

  lemma {:induction false} CountAllIn(calls: seq<Call>, granted: seq<bool>, from: real, to: real, n: nat)
    requires n <= |calls| == |granted| && forall k | 0 <= k < n :: granted[k] && Within(calls[k], from, to)
    ensures CountIn(calls, granted, from, to, n) == n
  {
    if n > 0 {
      CountAllIn(calls, granted, from, to, n - 1);
    }
  }

  lemma TwoBurstsUnbounded(l: Limits) returns (calls: seq<Call>, buckets: seq<Option<Bucket>>, granted: seq<bool>)
    requires 60 * l.rate < l.burst
    ensures Legal(calls) && Run(l, calls, buckets, granted) && !WindowBounded(l, calls, granted, 0.0, EXPIRY)
  {
    calls, buckets := TwoBursts(l.burst), TwoBurstsLeave(l.burst);
    granted := seq(2 * l.burst, _ => true);
    TwoBurstsGranted(l);
    CountAllIn(calls, granted, 0.0, EXPIRY, 2 * l.burst);
    GainOfMinute(l.rate);
  }

  /** The bound holds for every sequence of calls exactly when a minute refills a full
      bucket. */
  lemma BoundIffMinuteFills(l: Limits)
    ensures AlwaysBounded(l) <==> 60 * l.rate >= l.burst
  {
    if 60 * l.rate >= l.burst {
      forall calls, buckets, granted, from: real, to: real | Legal(calls) && Run(l, calls, buckets, granted)
        ensures WindowBounded(l, calls, granted, from, to)
      {
        WindowBound(l, calls, buckets, granted, from, to);
      }
    } else {
      var calls, buckets, granted := TwoBurstsUnbounded(l);
    }
  }

  // ----- when clocks disagree

  /** A full burst at one second, a call stamped a second earlier, and one more. */
  function Rewound(burst: nat): seq<Call> {
    seq(burst + 2, i => Call(if i == burst then 0.0 else 1.0, false))
  }

  function RewoundLeave(l: Limits): seq<Option<Bucket>> {
    seq(l.burst + 3, k => if k == 0 then None
                          else if k <= l.burst then Some(Bucket((l.burst - k) as real, 1.0))
                          else if k == l.burst + 1 then Some(Bucket(0.0, 0.0))
                          else Some(Bucket(MinReal(l.burst as real, l.rate as real) - 1.0, 1.0)))
  }

  lemma {:induction false} GainOfSecond(rate: nat)
    ensures Gain(rate, 1.0) == rate as real
  {
    if rate > 0 {
      GainOfSecond(rate - 1);
    }
  }

  /** The call stamped earlier rewinds the bucket's time, and the same second refills it
      twice: one call more than the burst is granted at one instant. */
  lemma RewindRefillsTwice(l: Limits) returns (granted: seq<bool>)
    requires l.rate >= 1 && l.burst >= 1
    ensures Run(l, Rewound(l.burst), RewoundLeave(l), granted) && ExpiresLate(Rewound(l.burst))
    ensures |granted| == l.burst + 2 && CountIn(Rewound(l.burst), granted, 1.0, 1.0, l.burst + 2) == l.burst + 1
  {
    var calls := Rewound(l.burst);
    granted := seq(l.burst + 2, i => i != l.burst);
    GainOfNothing(l.rate);
    GainOfSecond(l.rate);
    CountAllIn(calls, granted, 1.0, 1.0, l.burst);
    assert CountIn(calls, granted, 1.0, 1.0, l.burst + 1) == l.burst;
  }

  ghost predicate AlwaysBoundedInAnyOrder(l: Limits) {
    forall calls, buckets, granted, from: real, to: real | ExpiresLate(calls) && Run(l, calls, buckets, granted) ::
      WindowBounded(l, calls, granted, from, to)
  }

  lemma {:induction false} NothingGranted(l: Limits, calls: seq<Call>, buckets: seq<Option<Bucket>>, granted: seq<bool>,
                                          from: real, to: real, n: nat)
    requires l.burst == 0 && Run(l, calls, buckets, granted) && n <= |calls|
    ensures CountIn(calls, granted, from, to, n) == 0
  {
    if n > 0 {
      NothingGranted(l, calls, buckets, granted, from, to, n - 1);
      assert Answers(l, buckets[n - 1], calls[n - 1], buckets[n], granted[n - 1]);
    }
  }

  /** If stamps may come in any order, the bound holds only of a bucket that never grants
      anything. */
  lemma AnyOrderBoundedIffEmpty(l: Limits)
    ensures AlwaysBoundedInAnyOrder(l) <==> l.burst == 0
  {
    if l.burst == 0 {
      forall calls, buckets, granted, from: real, to: real | ExpiresLate(calls) && Run(l, calls, buckets, granted)
        ensures WindowBounded(l, calls, granted, from, to)
      {
        NothingGranted(l, calls, buckets, granted, from, to, |calls|);
        GainOfNothing(l.rate);
        if from <= to {
          GainGrows(l.rate, 0.0, to - from);
        }
      }
    } else if l.rate == 0 {
      var calls, buckets, granted := TwoBurstsUnbounded(l);
    } else {
      var granted := RewindRefillsTwice(l);
      GainOfNothing(l.rate);
      assert !WindowBounded(l, Rewound(l.burst), granted, 1.0, 1.0);
    }
  }
}
