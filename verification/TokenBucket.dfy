/** The HTTP server's rate limiter, over exact time. */
module TokenBucket {
  datatype Bucket = Bucket(capacity: real, tokens: real)

  function Min(a: real, b: real): real {
    if b < a then b else a
  }

  // ---- One call

  /** The bucket when a call has topped it up by what flowed in since the call before. */
  function Filled(b: Bucket, gain: real): Bucket {
    b.(tokens := Min(b.capacity, b.tokens + gain))
  }

  predicate Granted(b: Bucket, gain: real) {
    Filled(b, gain).tokens >= 1.0
  }

  function Called(b: Bucket, gain: real): Bucket {
    var f := Filled(b, gain);
    if Granted(b, gain) then f.(tokens := f.tokens - 1.0) else f
  }

  /** What flows in between two times. */
  function Gain(refill: real, from: real, to: real): real {
    (to - from) * refill
  }

  class RateLimiter {
    const capacity: real
    const refill: real
    var tokens: real
    var last: real

    constructor (capacity: real, refill: real, now: real)
      ensures this.refill == refill && View() == Bucket(capacity, capacity) && last == now
    {
      this.capacity, this.refill, tokens, last := capacity, refill, capacity, now;
    }

    function View(): Bucket
      reads this
    {
      Bucket(capacity, tokens)
    }

    method Allow(now: real) returns (ok: bool)
      modifies this
      ensures ok == Granted(old(View()), Gain(refill, old(last), now))
      ensures View() == Called(old(View()), Gain(refill, old(last), now))
      ensures last == now
    {
      tokens := Min(capacity, tokens + Gain(refill, last, now));
      last := now;
      ok := tokens >= 1.0;
      if ok {
        tokens := tokens - 1.0;
      }
    }
  }

  // ---- Sequences of calls, by what flows in before each

  function After(b: Bucket, gains: seq<real>): Bucket {
    if gains == [] then b else Called(After(b, gains[..|gains| - 1]), gains[|gains| - 1])
  }

  function Grants(b: Bucket, gains: seq<real>): nat {
    if gains == [] then 0
    else
      var front := gains[..|gains| - 1];
      Grants(b, front) + if Granted(After(b, front), gains[|gains| - 1]) then 1 else 0
  }

  function Total(gains: seq<real>): real {
    if gains == [] then 0.0 else Total(gains[..|gains| - 1]) + gains[|gains| - 1]
  }

  predicate Inflow(gains: seq<real>) {
    gains == [] || (Inflow(gains[..|gains| - 1]) && 0.0 <= gains[|gains| - 1])
  }

  predicate Sane(b: Bucket) {
    0.0 <= b.tokens <= b.capacity
  }

  function One(granted: bool): real {
    if granted then 1.0 else 0.0
  }

  lemma CallKeepsSane(b: Bucket, gain: real)
    requires Sane(b) && 0.0 <= gain
    ensures Sane(Called(b, gain)) && Called(b, gain).capacity == b.capacity
    ensures Called(b, gain).tokens + One(Granted(b, gain)) <= b.tokens + gain
    ensures Called(b, gain).tokens + One(Granted(b, gain)) <= b.capacity
  {
  }

  lemma {:induction false} CallsKeepSane(b: Bucket, gains: seq<real>)
    requires Sane(b) && Inflow(gains)
    ensures Sane(After(b, gains)) && After(b, gains).capacity == b.capacity
    ensures After(b, gains).tokens + Grants(b, gains) as real <= b.tokens + Total(gains)
  {
    if gains != [] {
      CallsKeepSane(b, gains[..|gains| - 1]);
      CallKeepsSane(After(b, gains[..|gains| - 1]), gains[|gains| - 1]);
    }
  }

  lemma {:induction false} AfterConcat(b: Bucket, s: seq<real>, t: seq<real>)
    ensures After(b, s + t) == After(After(b, s), t)
    ensures Grants(b, s + t) == Grants(b, s) + Grants(After(b, s), t)
  {
    if t == [] {
      assert s + t == s;
    } else {
      AfterConcat(b, s, t[..|t| - 1]);
      assert (s + t)[..|s + t| - 1] == s + t[..|t| - 1];
    }
  }

  lemma CallOne(b: Bucket, gain: real)
    ensures After(b, [gain]) == Called(b, gain) && Grants(b, [gain]) == if Granted(b, gain) then 1 else 0
  {
    assert [gain][..0] == [];
  }

  /** The first call of a window finds at most a full bucket; the others share what flows in. */
  lemma GrantsAfterFull(b: Bucket, first: real, rest: seq<real>)
    requires Sane(b) && 0.0 <= first && Inflow(rest)
    ensures Grants(b, [first] + rest) as real <= b.capacity + Total(rest)
  {
    CallKeepsSane(b, first);
    CallOne(b, first);
    AfterConcat(b, [first], rest);
    CallsKeepSane(Called(b, first), rest);
  }

  // ---- Calls by their times

  function Last(start: real, times: seq<real>): real {
    if times == [] then start else times[|times| - 1]
  }

  function GainsOf(refill: real, start: real, times: seq<real>): seq<real> {
    if times == [] then []
    else
      var front := times[..|times| - 1];
      GainsOf(refill, start, front) + [Gain(refill, Last(start, front), times[|times| - 1])]
  }

  predicate NonDecreasing(start: real, times: seq<real>) {
    times == [] ||
    (var front := times[..|times| - 1];
     NonDecreasing(start, front) && Last(start, front) <= times[|times| - 1])
  }

  lemma Scaled(k: real, x: real, y: real)
    requires 0.0 <= k && x <= y
    ensures k * x <= k * y
  {
  }

  lemma GainSum(refill: real, x: real, y: real, z: real)
    ensures Gain(refill, x, y) + Gain(refill, y, z) == Gain(refill, x, z)
  {
  }

  lemma GainGrows(refill: real, x: real, y: real)
    requires 0.0 <= refill && x <= y
    ensures 0.0 <= Gain(refill, x, y)
  {
    Scaled(refill, 0.0, y - x);
  }

  lemma GainSnoc(gains: seq<real>, gain: real)
    ensures Total(gains + [gain]) == Total(gains) + gain
    ensures Inflow(gains) && 0.0 <= gain ==> Inflow(gains + [gain])
  {
    assert (gains + [gain])[..|gains + [gain]| - 1] == gains;
  }

  lemma {:induction false} GainsAddUp(refill: real, start: real, times: seq<real>)
    requires 0.0 <= refill && NonDecreasing(start, times)
    ensures Inflow(GainsOf(refill, start, times))
    ensures Total(GainsOf(refill, start, times)) == Gain(refill, start, Last(start, times))
  {
    if times != [] {
      var front := times[..|times| - 1];
      GainsAddUp(refill, start, front);
      GainSum(refill, start, Last(start, front), times[|times| - 1]);
      GainGrows(refill, Last(start, front), times[|times| - 1]);
      GainSnoc(GainsOf(refill, start, front), Gain(refill, Last(start, front), times[|times| - 1]));
    }
  }

  lemma {:induction false} GainsConcat(refill: real, start: real, s: seq<real>, t: seq<real>)
    ensures GainsOf(refill, start, s + t) == GainsOf(refill, start, s) + GainsOf(refill, Last(start, s), t)
  {
    if t == [] {
      assert s + t == s;
    } else {
      GainsConcat(refill, start, s, t[..|t| - 1]);
      assert (s + t)[..|s + t| - 1] == s + t[..|t| - 1];
      assert Last(start, s + t[..|t| - 1]) == Last(Last(start, s), t[..|t| - 1]);
    }
  }

  lemma {:induction false} NonDecreasingSplit(start: real, s: seq<real>, t: seq<real>)
    requires NonDecreasing(start, s + t)
    ensures NonDecreasing(start, s) && NonDecreasing(Last(start, s), t)
  {
    if t == [] {
      assert s + t == s;
    } else {
      assert (s + t)[..|s + t| - 1] == s + t[..|t| - 1];
      NonDecreasingSplit(start, s, t[..|t| - 1]);
    }
  }

  /** How many of the calls at the given times are granted. */
  function GrantsAt(b: Bucket, refill: real, start: real, times: seq<real>): nat {
    Grants(b, GainsOf(refill, start, times))
  }

  /** A window that starts with a call: its grants are at most the capacity and what flows in
      until its last call. */
  lemma WindowOfCalls(b: Bucket, refill: real, start: real, first: real, rest: seq<real>)
    requires Sane(b) && 0.0 <= refill && start <= first && NonDecreasing(first, rest)
    ensures GrantsAt(b, refill, start, [first] + rest) as real <= b.capacity + Gain(refill, first, Last(first, rest))
  {
    GainsConcat(refill, start, [first], rest);
    assert [first][..0] == [];
    assert GainsOf(refill, start, [first]) == [Gain(refill, start, first)];
    GainGrows(refill, start, first);
    GainsAddUp(refill, first, rest);
    GrantsAfterFull(b, Gain(refill, start, first), GainsOf(refill, first, rest));
  }

  /** In any run of calls, the grants to the calls that fall into a window of the given length are
      at most the capacity and what the bucket is refilled by in that time. */
  lemma WindowBound(b: Bucket, refill: real, start: real, before: seq<real>, window: seq<real>, length: real)
    requires Sane(b) && 0.0 <= refill && NonDecreasing(start, before + window) && 0.0 <= length
    requires window != [] ==> window[|window| - 1] - window[0] <= length
    ensures (GrantsAt(b, refill, start, before + window) - GrantsAt(b, refill, start, before)) as real
            <= b.capacity + refill * length
  {
    NonDecreasingSplit(start, before, window);
    GainsConcat(refill, start, before, window);
    GainsAddUp(refill, start, before);
    CallsKeepSane(b, GainsOf(refill, start, before));
    var here, since := After(b, GainsOf(refill, start, before)), Last(start, before);
    AfterConcat(b, GainsOf(refill, start, before), GainsOf(refill, since, window));
    WindowFrom(here, refill, since, window, length);
  }

  lemma GainWithin(refill: real, x: real, y: real, length: real)
    requires 0.0 <= refill && y - x <= length
    ensures Gain(refill, x, y) <= refill * length
  {
    Scaled(refill, y - x, length);
  }

  lemma WindowFrom(b: Bucket, refill: real, start: real, window: seq<real>, length: real)
    requires Sane(b) && 0.0 <= refill && NonDecreasing(start, window) && 0.0 <= length
    requires window != [] ==> window[|window| - 1] - window[0] <= length
    ensures GrantsAt(b, refill, start, window) as real <= b.capacity + refill * length
  {
    if window == [] {
      GainWithin(refill, 0.0, 0.0, length);
    } else {
      var first, rest := window[0], window[1..];
      assert window == [first] + rest;
      NonDecreasingSplit(start, [first], rest);
      FirstCall(start, first);
      WindowOfCalls(b, refill, start, first, rest);
      GainWithin(refill, first, Last(first, rest), length);
    }
  }

  lemma FirstCall(start: real, first: real)
    ensures NonDecreasing(start, [first]) <==> start <= first
  {
    assert [first][..0] == [];
  }

  /** A bucket that can hold a token always grants a call made at least the time of one token after
      the call before it, or after its own creation. */
  lemma PatientCallIsGranted(b: Bucket, refill: real, start: real, times: seq<real>, now: real)
    requires Sane(b) && 0.0 < refill && NonDecreasing(start, times) && 1.0 <= b.capacity
    requires now >= Last(start, times) + 1.0 / refill
    ensures Granted(After(b, GainsOf(refill, start, times)), Gain(refill, Last(start, times), now))
  {
    GainsAddUp(refill, start, times);
    CallsKeepSane(b, GainsOf(refill, start, times));
    OneTokenFlowsIn(refill, Last(start, times), now);
  }

  lemma OneTokenFlowsIn(refill: real, from: real, to: real)
    requires 0.0 < refill && to >= from + 1.0 / refill
    ensures Gain(refill, from, to) >= 1.0
  {
    Scaled(refill, 1.0 / refill, to - from);
    assert refill * (1.0 / refill) == 1.0;
  }

  /** The calls made at least the time of one token after the call before them are all granted. */
  ghost predicate GrantsThePatient(b: Bucket, refill: real)
    requires 0.0 < refill
  {
    forall start: real, times: seq<real>, now: real ::
      NonDecreasing(start, times) && now >= Last(start, times) + 1.0 / refill ==>
        Granted(After(b, GainsOf(refill, start, times)), Gain(refill, Last(start, times), now))
  }

  /** Patience is always rewarded exactly when the bucket can hold a token. */
  lemma PatienceIsRewardedExactly(b: Bucket, refill: real)
    requires Sane(b) && 0.0 < refill
    ensures GrantsThePatient(b, refill) <==> 1.0 <= b.capacity
  {
    if 1.0 <= b.capacity {
      forall start: real, times: seq<real>, now: real |
        NonDecreasing(start, times) && now >= Last(start, times) + 1.0 / refill
        ensures Granted(After(b, GainsOf(refill, start, times)), Gain(refill, Last(start, times), now))
      {
        PatientCallIsGranted(b, refill, start, times, now);
      }
    } else {
      var start, now := 0.0, 1.0 / refill;
      assert NonDecreasing(start, []) && Last(start, []) == start;
      assert After(b, GainsOf(refill, start, [])) == b;
      assert !Granted(After(b, GainsOf(refill, start, [])), Gain(refill, Last(start, []), now));
    }
  }

  /** n calls with nothing flowing in between. */
  function Burst(n: nat): seq<real> {
    if n == 0 then [] else Burst(n - 1) + [0.0]
  }

  /** The bound is reached: a new bucket grants a burst of as many calls as it holds tokens. */
  lemma {:induction false} BurstIsGranted(capacity: real, n: nat)
    requires n as real <= capacity
    ensures Grants(Bucket(capacity, capacity), Burst(n)) == n
    ensures After(Bucket(capacity, capacity), Burst(n)) == Bucket(capacity, capacity - n as real)
  {
    if n > 0 {
      BurstIsGranted(capacity, n - 1);
      assert Burst(n)[..n - 1] == Burst(n - 1) by { BurstLength(n); }
      BurstLength(n);
    }
  }

  lemma {:induction false} BurstLength(n: nat)
    ensures |Burst(n)| == n
  {
    if n > 0 {
      BurstLength(n - 1);
    }
  }
}
