/** When retries make the report of a dispense miss coins: exactly for which requests, settings and
    intervals, and how many coins can come out at most. Every case is given as sensor and clock
    streams that the controller can meet. */
module DispenseRetries {
  import opened Basics
  import opened Dispense

  // ---- Streams that show given attempts

  function LevelsOf(samples: seq<Sample>): (r: seq<bool>)
    ensures |r| == |samples|
  {
    if samples == [] then [] else LevelsOf(samples[..|samples| - 1]) + [samples[|samples| - 1].level]
  }

  function TimesOf(samples: seq<Sample>): (r: seq<nat>)
    ensures |r| == 2 * |samples|
  {
    if samples == [] then []
    else TimesOf(samples[..|samples| - 1]) + [samples[|samples| - 1].edgeAt, samples[|samples| - 1].now]
  }

  function AllReads(attempts: seq<Attempt>): (r: seq<bool>)
    ensures |r| == ReadsOf(attempts)
  {
    if attempts == [] then []
    else
      var a := attempts[|attempts| - 1];
      AllReads(attempts[..|attempts| - 1]) + ([a.level] + LevelsOf(a.samples))
  }

  function AllLooks(attempts: seq<Attempt>): (r: seq<nat>)
    ensures |r| == LooksOf(attempts)
  {
    if attempts == [] then []
    else
      var a := attempts[|attempts| - 1];
      AllLooks(attempts[..|attempts| - 1]) + ([a.begin] + TimesOf(a.samples))
  }

  lemma {:induction false} LevelsAt(samples: seq<Sample>, i: nat)
    requires i < |samples|
    ensures LevelsOf(samples)[i] == samples[i].level
  {
    if i < |samples| - 1 {
      LevelsAt(samples[..|samples| - 1], i);
    }
  }

  lemma {:induction false} TimesAt(samples: seq<Sample>, i: nat)
    requires i < |samples|
    ensures TimesOf(samples)[2 * i] == samples[i].edgeAt && TimesOf(samples)[2 * i + 1] == samples[i].now
  {
    if i < |samples| - 1 {
      TimesAt(samples[..|samples| - 1], i);
    }
  }

  /** The streams show the attempt from the given positions on, reading by reading. */
  predicate Carries(st: Streams, a: Attempt, read: nat, look: nat) {
    && st.level(read) == a.level && st.clock(look) == a.begin
    && (forall i :: 0 <= i < |a.samples| ==>
          a.samples[i] == Sample(st.level(read + 1 + i), st.clock(look + 1 + 2 * i), st.clock(look + 2 + 2 * i)))
  }

  lemma {:induction false} CarriedSamples(st: Streams, a: Attempt, read: nat, look: nat, n: nat)
    requires Carries(st, a, read, look) && n <= |a.samples|
    ensures Samples(st, read, look, n) == a.samples[..n]
  {
    if n > 0 {
      CarriedSamples(st, a, read, look, n - 1);
      assert a.samples[n - 1] ==
             Sample(st.level(read + 1 + (n - 1)), st.clock(look + 1 + 2 * (n - 1)), st.clock(look + 2 + 2 * (n - 1)));
    }
  }

  lemma {:induction false} CarriesIsView(st: Streams, a: Attempt, read: nat, look: nat)
    requires Carries(st, a, read, look)
    ensures IsView(st, a, read, look)
  {
    CarriedSamples(st, a, read, look, |a.samples|);
    assert a.samples[..|a.samples|] == a.samples;
  }

  /** The streams begin with the given readings, the clock's after one more look. */
  ghost predicate BeginsWith(st: Streams, levels: seq<bool>, looks: seq<nat>) {
    && (forall i :: 0 <= i < |levels| ==> st.level(i) == levels[i])
    && (forall i :: 0 <= i < |looks| ==> st.clock(i + 1) == looks[i])
  }

  lemma {:induction false} SampleCarried(st: Streams, r: seq<bool>, l: seq<nat>, a: Attempt, i: nat)
    requires BeginsWith(st, r + ([a.level] + LevelsOf(a.samples)), l + ([a.begin] + TimesOf(a.samples)))
    requires i < |a.samples|
    ensures a.samples[i] ==
            Sample(st.level(|r| + 1 + i), st.clock(1 + |l| + 1 + 2 * i), st.clock(1 + |l| + 2 + 2 * i))
  {
    LevelsAt(a.samples, i);
    TimesAt(a.samples, i);
    var levels, times := r + ([a.level] + LevelsOf(a.samples)), l + ([a.begin] + TimesOf(a.samples));
    assert levels[|r| + 1 + i] == LevelsOf(a.samples)[i];
    assert times[|l| + 1 + 2 * i] == TimesOf(a.samples)[2 * i];
    assert times[|l| + 2 + 2 * i] == TimesOf(a.samples)[2 * i + 1];
  }

  lemma {:induction false} AttemptCarried(st: Streams, r: seq<bool>, l: seq<nat>, a: Attempt)
    requires BeginsWith(st, r + ([a.level] + LevelsOf(a.samples)), l + ([a.begin] + TimesOf(a.samples)))
    ensures Carries(st, a, |r|, 1 + |l|)
  {
    assert (r + ([a.level] + LevelsOf(a.samples)))[|r|] == a.level;
    assert (l + ([a.begin] + TimesOf(a.samples)))[|l|] == a.begin;
    forall i | 0 <= i < |a.samples|
      ensures a.samples[i] ==
              Sample(st.level(|r| + 1 + i), st.clock(1 + |l| + 1 + 2 * i), st.clock(1 + |l| + 2 + 2 * i))
    {
      SampleCarried(st, r, l, a, i);
    }
  }

  lemma {:induction false} PrefixBegins(st: Streams, attempts: seq<Attempt>)
    requires attempts != [] && BeginsWith(st, AllReads(attempts), AllLooks(attempts))
    ensures BeginsWith(st, AllReads(attempts[..|attempts| - 1]), AllLooks(attempts[..|attempts| - 1]))
  {
    var r, l := AllReads(attempts[..|attempts| - 1]), AllLooks(attempts[..|attempts| - 1]);
    assert forall i :: 0 <= i < |r| ==> AllReads(attempts)[i] == r[i];
    assert forall i :: 0 <= i < |l| ==> AllLooks(attempts)[i] == l[i];
  }

  /** The streams show the attempts one after the other. */
  predicate CarriesAll(st: Streams, attempts: seq<Attempt>) {
    attempts == [] ||
    (var front := attempts[..|attempts| - 1];
     CarriesAll(st, front) && Carries(st, attempts[|attempts| - 1], ReadsOf(front), 1 + LooksOf(front)))
  }

  lemma {:induction false} CarriedFromStart(st: Streams, attempts: seq<Attempt>)
    requires BeginsWith(st, AllReads(attempts), AllLooks(attempts))
    ensures CarriesAll(st, attempts)
  {
    if attempts != [] {
      PrefixBegins(st, attempts);
      CarriedFromStart(st, attempts[..|attempts| - 1]);
      AttemptCarried(st, AllReads(attempts[..|attempts| - 1]), AllLooks(attempts[..|attempts| - 1]), attempts[|attempts| - 1]);
    }
  }

  lemma {:induction false} CarriedIsSeen(st: Streams, attempts: seq<Attempt>)
    requires CarriesAll(st, attempts)
    ensures Seen(st, attempts, 0, 1)
  {
    if attempts != [] {
      var front, a := attempts[..|attempts| - 1], attempts[|attempts| - 1];
      CarriedIsSeen(st, front);
      CarriesIsView(st, a, ReadsOf(front), 1 + LooksOf(front));
      SeenLast(st, attempts, 0, 1);
    }
  }

  lemma {:induction false} SeenLast(st: Streams, attempts: seq<Attempt>, read: nat, look: nat)
    requires attempts != [] && Seen(st, attempts[..|attempts| - 1], read, look)
    requires var front := attempts[..|attempts| - 1];
             IsView(st, attempts[|attempts| - 1], read + ReadsOf(front), look + LooksOf(front))
    ensures Seen(st, attempts, read, look)
  {
  }

  // ---- Clocks that do not go back

  ghost predicate Monotone(clock: nat -> nat) {
    forall i: nat, k: nat :: i <= k ==> clock(i) <= clock(k)
  }

  /** A clock that neither goes back nor stops. */
  ghost predicate Steady(clock: nat -> nat) {
    Monotone(clock) && Advances(clock)
  }

  predicate Sorted(times: seq<nat>) {
    forall i, k :: 0 <= i <= k < |times| ==> times[i] <= times[k]
  }

  /** The clock that shows the given times and then goes on by one at every look. */
  function ClockOf(times: seq<nat>, i: nat): nat
    requires times != []
  {
    if i < |times| then times[i] else times[|times| - 1] + (i - |times|)
  }

  function LevelOf(levels: seq<bool>, i: nat): bool {
    i < |levels| && levels[i]
  }

  lemma {:induction false} ClockAdvances(times: seq<nat>)
    requires times != [] && Sorted(times)
    ensures Steady((i: nat) => ClockOf(times, i))
  {
    var clock := (i: nat) => ClockOf(times, i);
    forall i: nat, k: nat | i <= k
      ensures clock(i) <= clock(k)
    {
    }
    forall t: nat
      ensures PassedForGood(clock, t)
    {
      assert Passed(clock, t, |times| + t);
    }
  }

  /** Attempts whose times are in order are what some sensor and some steady clock show. */
  lemma {:induction false} Realized(start: nat, attempts: seq<Attempt>) returns (st: Streams)
    requires Sorted([start] + AllLooks(attempts))
    ensures Steady(st.clock) && st.clock(0) == start && Seen(st, attempts, 0, 1)
  {
    var levels, times := AllReads(attempts), [start] + AllLooks(attempts);
    st := Streams((i: nat) => LevelOf(levels, i), (i: nat) => ClockOf(times, i));
    ClockAdvances(times);
    CarriedFromStart(st, attempts);
    CarriedIsSeen(st, attempts);
  }

  // ---- Attempts with given pulses

  /** The k-th time from t on, one interval apart. */
  function Tick(t: nat, threshold: nat, k: nat): nat {
    t + k * threshold
  }

  lemma {:induction false} NextTick(t: nat, threshold: nat, k: nat)
    ensures Tick(t, threshold, k + 1) == Tick(t, threshold, k) + threshold
    ensures Tick(t, threshold, 0) == t
  {
  }

  lemma {:induction false} TicksGrow(t: nat, threshold: nat, k: nat, n: nat)
    requires k <= n
    ensures t <= Tick(t, threshold, k) <= Tick(t, threshold, n)
  {
    MoreRetriesMoreCoins(k, n, threshold);
  }

  function At(level: bool, t: nat): Sample {
    Sample(level, t, t)
  }

  /** n pulses, one interval apart, each followed by a low reading at the same time. */
  function Train(threshold: nat, t: nat, n: nat): seq<Sample> {
    if n == 0 then []
    else
      var now := Tick(t, threshold, n - 1);
      Train(threshold, t, n - 1) + [At(true, now)] + [At(false, now)]
  }

  function Pulsing(threshold: nat, t: nat, n: nat): Attempt {
    Attempt(false, t, Train(threshold, t, n))
  }

  /** The time of the last pulse, or the beginning. */
  function TrainEnd(threshold: nat, t: nat, n: nat): nat {
    if n == 0 then t else Tick(t, threshold, n - 1)
  }

  /** The watch after a train. */
  function TrainWatch(threshold: nat, t: nat, n: nat): Watch {
    Watch(Counter(n, if n == 0 then 0 else TrainEnd(threshold, t, n), false), TrainEnd(threshold, t, n))
  }

  lemma {:induction false} CoinsGrow(ppc: int, m: nat, n: nat)
    requires m <= n
    ensures Coins(ppc, m) <= Coins(ppc, n)
    decreases n - m
  {
    if m < n {
      OnePulseOneCoin(ppc, m);
      CoinsGrow(ppc, m + 1, n);
    }
  }

  lemma {:induction false} InTimeIsGoing(j: Job, w: Watch, now: nat)
    requires Coins(j.pulsesPerCoin, w.counter.pulses) < j.coins && j.cfg.jamMs >= 1
    requires w.lastPulse == now && j.start <= now < Deadline(j)
    ensures Verdict(j, w, now) == Going
  {
  }

  /** The clock has run for the interval when the attempt begins. */
  predicate CanPulse(j: Job, t: nat) {
    j.cfg.jamMs >= 1 && j.threshold <= t && j.start <= t
  }

  /** One more pulse of a train keeps the attempt going. */
  lemma {:induction false} TrainStep(j: Job, t: nat, n: nat)
    requires CanPulse(j, t) && Tick(t, j.threshold, n) < Deadline(j) && Coins(j.pulsesPerCoin, n + 1) < j.coins
    requires StillGoing(j, Pulsing(j.threshold, t, n))
    requires After(j.threshold, Pulsing(j.threshold, t, n)) == TrainWatch(j.threshold, t, n)
    ensures StillGoing(j, Pulsing(j.threshold, t, n + 1))
    ensures After(j.threshold, Pulsing(j.threshold, t, n + 1)) == TrainWatch(j.threshold, t, n + 1)
  {
    var a, now := Pulsing(j.threshold, t, n), Tick(t, j.threshold, n);
    TicksGrow(t, j.threshold, 0, n);
    if n > 0 {
      NextTick(t, j.threshold, n - 1);
    }
    Extend(j, a, At(true, now));
    var high := Watch(Counter(n + 1, now, true), now);
    assert After(j.threshold, Add(a, At(true, now))) == high;
    InTimeIsGoing(j, high, now);
    Extend(j, Add(a, At(true, now)), At(false, now));
    var low := TrainWatch(j.threshold, t, n + 1);
    assert After(j.threshold, Add(Add(a, At(true, now)), At(false, now))) == low;
    InTimeIsGoing(j, low, now);
  }

  lemma {:induction false} TrainGoes(j: Job, t: nat, n: nat)
    requires CanPulse(j, t) && j.coins >= 1 && Coins(j.pulsesPerCoin, n) < j.coins
    requires n > 0 ==> Tick(t, j.threshold, n - 1) < Deadline(j)
    ensures StillGoing(j, Pulsing(j.threshold, t, n))
    ensures After(j.threshold, Pulsing(j.threshold, t, n)) == TrainWatch(j.threshold, t, n)
  {
    if n > 0 {
      CoinsGrow(j.pulsesPerCoin, n - 1, n);
      if n > 1 {
        TicksGrow(t, j.threshold, n - 2, n - 1);
      }
      TrainGoes(j, t, n - 1);
      TrainStep(j, t, n - 1);
    }
  }

  function JamNs(j: Job): nat {
    1_000_000 * Natural(j.cfg.jamMs)
  }

  /** Pulses, and then nothing until the hopper counts as jammed. */
  function JamAfter(j: Job, t: nat, n: nat): Attempt {
    Add(Pulsing(j.threshold, t, n), At(false, TrainEnd(j.threshold, t, n) + JamNs(j)))
  }

  lemma {:induction false} JamAfterJams(j: Job, t: nat, n: nat)
    requires CanPulse(j, t) && j.coins >= 1 && Coins(j.pulsesPerCoin, n) < j.coins
    requires n > 0 ==> Tick(t, j.threshold, n - 1) < Deadline(j)
    ensures EndsWith(j, JamAfter(j, t, n), Jammed) && CoinsIn(j, JamAfter(j, t, n)) == Coins(j.pulsesPerCoin, n)
  {
    TrainGoes(j, t, n);
    Extend(j, Pulsing(j.threshold, t, n), At(false, TrainEnd(j.threshold, t, n) + JamNs(j)));
  }

  /** Pulses, the last of which completes the request. */
  function FinishAfter(j: Job, t: nat, n: nat): Attempt
    requires n > 0
  {
    Add(Pulsing(j.threshold, t, n - 1), At(true, Tick(t, j.threshold, n - 1)))
  }

  lemma {:induction false} FinishAfterFinishes(j: Job, t: nat, n: nat)
    requires CanPulse(j, t) && j.coins >= 1 && n > 0
    requires Coins(j.pulsesPerCoin, n - 1) < j.coins <= Coins(j.pulsesPerCoin, n)
    requires Tick(t, j.threshold, n - 1) < Deadline(j)
    ensures EndsWith(j, FinishAfter(j, t, n), Finished)
  {
    if n > 1 {
      TicksGrow(t, j.threshold, n - 2, n - 1);
      NextTick(t, j.threshold, n - 2);
    }
    TrainGoes(j, t, n - 1);
    Extend(j, Pulsing(j.threshold, t, n - 1), At(true, Tick(t, j.threshold, n - 1)));
  }

  // ---- Their times are in order

  /** In order, and between two times. */
  predicate Rising(from: nat, times: seq<nat>, to: nat) {
    from <= to && Sorted(times) && forall i :: 0 <= i < |times| ==> from <= times[i] <= to
  }

  lemma {:induction false} RisingConcat(from: nat, a: seq<nat>, mid: nat, b: seq<nat>, to: nat)
    requires Rising(from, a, mid) && Rising(mid, b, to)
    ensures Rising(from, a + b, to)
  {
    forall i, k | 0 <= i <= k < |a + b|
      ensures (a + b)[i] <= (a + b)[k]
    {
    }
  }

  lemma {:induction false} TimesSnoc(samples: seq<Sample>, s: Sample)
    ensures TimesOf(samples + [s]) == TimesOf(samples) + [s.edgeAt, s.now]
  {
    assert (samples + [s])[..|samples + [s]| - 1] == samples;
  }

  lemma {:induction false} OneSampleRises(from: nat, samples: seq<Sample>, now: nat, level: bool)
    requires Rising(from, TimesOf(samples), now)
    ensures Rising(from, TimesOf(samples + [At(level, now)]), now)
  {
    TimesSnoc(samples, At(level, now));
    RisingConcat(from, TimesOf(samples), now, [now, now], now);
  }

  lemma {:induction false} RisingLonger(from: nat, times: seq<nat>, mid: nat, to: nat)
    requires Rising(from, times, mid) && mid <= to
    ensures Rising(from, times, to)
  {
  }

  lemma {:induction false} TrainRises(threshold: nat, t: nat, n: nat)
    ensures Rising(t, TimesOf(Train(threshold, t, n)), TrainEnd(threshold, t, n))
  {
    if n > 0 {
      var now, front := Tick(t, threshold, n - 1), Train(threshold, t, n - 1);
      TrainRises(threshold, t, n - 1);
      TicksGrow(t, threshold, if n > 1 then n - 2 else 0, n - 1);
      RisingLonger(t, TimesOf(front), TrainEnd(threshold, t, n - 1), now);
      OneSampleRises(t, front, now, true);
      OneSampleRises(t, front + [At(true, now)], now, false);
    }
  }

  lemma {:induction false} LooksSnoc(attempts: seq<Attempt>, a: Attempt)
    ensures AllLooks(attempts + [a]) == AllLooks(attempts) + ([a.begin] + TimesOf(a.samples))
  {
    assert (attempts + [a])[..|attempts + [a]| - 1] == attempts;
  }

  lemma {:induction false} AttemptRises(from: nat, attempts: seq<Attempt>, a: Attempt, to: nat)
    requires Rising(from, AllLooks(attempts), a.begin) && Rising(a.begin, TimesOf(a.samples), to)
    ensures Rising(from, AllLooks(attempts + [a]), to)
  {
    LooksSnoc(attempts, a);
    RisingConcat(a.begin, [a.begin], a.begin, TimesOf(a.samples), to);
    RisingConcat(from, AllLooks(attempts), a.begin, [a.begin] + TimesOf(a.samples), to);
  }

  lemma {:induction false} JamAfterRises(j: Job, t: nat, n: nat)
    ensures Rising(t, TimesOf(JamAfter(j, t, n).samples), TrainEnd(j.threshold, t, n) + JamNs(j))
  {
    var end := TrainEnd(j.threshold, t, n);
    TrainRises(j.threshold, t, n);
    RisingLonger(t, TimesOf(Train(j.threshold, t, n)), end, end + JamNs(j));
    OneSampleRises(t, Train(j.threshold, t, n), end + JamNs(j), false);
  }

  lemma {:induction false} FinishAfterRises(j: Job, t: nat, n: nat)
    requires n > 0
    ensures Rising(t, TimesOf(FinishAfter(j, t, n).samples), Tick(t, j.threshold, n - 1))
  {
    TrainRises(j.threshold, t, n - 1);
    TicksGrow(t, j.threshold, if n > 1 then n - 2 else 0, n - 1);
    RisingLonger(t, TimesOf(Train(j.threshold, t, n - 1)), TrainEnd(j.threshold, t, n - 1), Tick(t, j.threshold, n - 1));
    OneSampleRises(t, Train(j.threshold, t, n - 1), Tick(t, j.threshold, n - 1), true);
  }

  // ---- Retries after jams

  /** When the c-th attempt with n pulses each begins, if the first begins at t. */
  function Begins(j: Job, t: nat, n: nat, c: nat): nat {
    if c == 0 then t else TrainEnd(j.threshold, Begins(j, t, n, c - 1), n) + JamNs(j)
  }

  /** The attempts before, and c more that jam after n pulses each. */
  function Repeat(j: Job, before: seq<Attempt>, t: nat, n: nat, c: nat): seq<Attempt> {
    if c == 0 then before else Repeat(j, before, t, n, c - 1) + [JamAfter(j, Begins(j, t, n, c - 1), n)]
  }

  lemma {:induction false} RepeatCount(j: Job, before: seq<Attempt>, t: nat, n: nat, c: nat)
    ensures |Repeat(j, before, t, n, c)| == |before| + c
    ensures forall i :: 0 <= i < |before| ==> Repeat(j, before, t, n, c)[i] == before[i]
  {
    if c > 0 {
      RepeatCount(j, before, t, n, c - 1);
    }
  }

  lemma {:induction false} RepeatRises(j: Job, before: seq<Attempt>, from: nat, t: nat, n: nat, c: nat)
    requires Rising(from, AllLooks(before), t)
    ensures Rising(from, AllLooks(Repeat(j, before, t, n, c)), Begins(j, t, n, c))
  {
    if c > 0 {
      RepeatRises(j, before, from, t, n, c - 1);
      var b := Begins(j, t, n, c - 1);
      JamAfterRises(j, b, n);
      AttemptRises(from, Repeat(j, before, t, n, c - 1), JamAfter(j, b, n), Begins(j, t, n, c));
    }
  }

  lemma {:induction false} BeginsLater(j: Job, t: nat, n: nat, c: nat)
    ensures t <= Begins(j, t, n, c)
  {
    if c > 0 {
      BeginsLater(j, t, n, c - 1);
      if n > 0 {
        TicksGrow(Begins(j, t, n, c - 1), j.threshold, 0, n - 1);
      }
    }
  }

  /** An attempt without a pulse jams, whatever the limits are. */
  lemma {:induction false} IdleJams(j: Job, t: nat)
    requires j.coins >= 1
    ensures EndsWith(j, JamAfter(j, t, 0), Jammed) && CoinsIn(j, JamAfter(j, t, 0)) == 0
  {
    assert Train(j.threshold, t, 0) == [];
    Extend(j, Pulsing(j.threshold, t, 0), At(false, t + JamNs(j)));
  }

  lemma {:induction false} IdleRetriesJam(j: Job, before: seq<Attempt>, t: nat, c: nat)
    requires j.coins >= 1 && AllJammed(j, before)
    ensures AllJammed(j, Repeat(j, before, t, 0, c))
    ensures c > 0 ==> var all := Repeat(j, before, t, 0, c); |all| > 0 && CoinsIn(j, all[|all| - 1]) == 0
  {
    if c > 0 {
      IdleRetriesJam(j, before, t, c - 1);
      IdleJams(j, Begins(j, t, 0, c - 1));
      JammedMore(j, Repeat(j, before, t, 0, c - 1), JamAfter(j, Begins(j, t, 0, c - 1), 0));
    }
  }

  lemma {:induction false} AllJammedConducted(j: Job, attempts: seq<Attempt>)
    requires AllJammed(j, attempts) && |attempts| == j.cfg.maxRetries + 1 && attempts != []
    ensures Conducted(j, attempts, Jammed)
  {
  }

  // ---- Exactly when the report tells all

  /** What the controller meets: a sensor and a steady clock that show these attempts. */
  ghost predicate Met(j: Job, st: Streams, attempts: seq<Attempt>, exit: Exit) {
    Steady(st.clock) && st.clock(0) == j.start && Seen(st, attempts, 0, 1) && Conducted(j, attempts, exit)
  }

  /** Whatever the sensor and the clock show, the last attempt counted all the coins. */
  ghost predicate TellsAll(j: Job) {
    forall st: Streams, attempts: seq<Attempt>, exit: Exit ::
      Met(j, st, attempts, exit) && attempts != [] ==> TotalCoins(j, attempts) == CoinsIn(j, attempts[|attempts| - 1])
  }

  /** The earliest time at which a pulse can be counted. */
  function Earliest(j: Job): nat {
    Max(j.start, j.threshold)
  }

  /** A coin's pulses can be counted before the time is up; with no jam limit, in the first poll. */
  predicate CoinInTime(j: Job) {
    j.pulsesPerCoin >= 1 &&
    if j.cfg.jamMs <= 0 then j.pulsesPerCoin == 1
    else Tick(Earliest(j), j.threshold, j.pulsesPerCoin - 1) < Deadline(j)
  }

  /** An attempt that counts one coin and jams. */
  function CoinThenJam(j: Job): Attempt
    requires j.pulsesPerCoin >= 1
  {
    if j.cfg.jamMs <= 0 then Attempt(false, Earliest(j), [At(true, Earliest(j))])
    else JamAfter(j, Earliest(j), j.pulsesPerCoin)
  }

  lemma {:induction false} OneCoin(ppc: int)
    requires ppc >= 1
    ensures Coins(ppc, ppc) == 1
  {
  }

  lemma {:induction false} CoinThenJamJams(j: Job)
    requires j.coins >= 2 && CoinInTime(j)
    ensures EndsWith(j, CoinThenJam(j), Jammed) && CoinsIn(j, CoinThenJam(j)) == 1
  {
    OneCoin(j.pulsesPerCoin);
    if j.cfg.jamMs <= 0 {
      var a := Attempt(false, Earliest(j), []);
      Extend(j, a, At(true, Earliest(j)));
      assert Add(a, At(true, Earliest(j))) == CoinThenJam(j);
    } else {
      JamAfterJams(j, Earliest(j), j.pulsesPerCoin);
    }
  }

  function CoinThenJamEnd(j: Job): nat
    requires j.pulsesPerCoin >= 1
  {
    if j.cfg.jamMs <= 0 then Earliest(j) else TrainEnd(j.threshold, Earliest(j), j.pulsesPerCoin) + JamNs(j)
  }

  lemma {:induction false} CoinThenJamRises(j: Job)
    requires j.pulsesPerCoin >= 1
    ensures Rising(j.start, AllLooks([CoinThenJam(j)]), CoinThenJamEnd(j))
  {
    var t := Earliest(j);
    if j.cfg.jamMs <= 0 {
      OneSampleRises(t, [], t, true);
      assert [] + [At(true, t)] == [At(true, t)];
    } else {
      JamAfterRises(j, t, j.pulsesPerCoin);
    }
    AttemptRises(j.start, [], CoinThenJam(j), CoinThenJamEnd(j));
    assert [] + [CoinThenJam(j)] == [CoinThenJam(j)];
  }

  lemma {:induction false} StartFirst(start: nat, times: seq<nat>, to: nat)
    requires Rising(start, times, to)
    ensures Sorted([start] + times)
  {
  }

  /** With two coins requested or more, a retry allowed and time for a coin, some sensor and clock make
      the report miss a coin. */
  lemma {:induction false} RetryHidesCoin(j: Job) returns (st: Streams, attempts: seq<Attempt>)
    requires j.coins >= 2 && j.cfg.maxRetries >= 1 && CoinInTime(j)
    ensures Met(j, st, attempts, Jammed) && attempts != []
    ensures TotalCoins(j, attempts) != CoinsIn(j, attempts[|attempts| - 1])
  {
    var first := CoinThenJam(j);
    CoinThenJamJams(j);
    CoinThenJamRises(j);
    assert [first][..0] == [] && AllJammed(j, [first]);
    attempts := Repeat(j, [first], CoinThenJamEnd(j), 0, j.cfg.maxRetries);
    RepeatCount(j, [first], CoinThenJamEnd(j), 0, j.cfg.maxRetries);
    RepeatRises(j, [first], j.start, CoinThenJamEnd(j), 0, j.cfg.maxRetries);
    IdleRetriesJam(j, [first], CoinThenJamEnd(j), j.cfg.maxRetries);
    AllJammedConducted(j, attempts);
    StartFirst(j.start, AllLooks(attempts), Begins(j, CoinThenJamEnd(j), 0, j.cfg.maxRetries));
    st := Realized(j.start, attempts);
    ReportMissesEarlierAttempts(j, attempts);
    assert CoinsIn(j, attempts[0]) == 1;
  }

  // ---- The other half: no coin in time, no coin missed

  function LastTime(a: Attempt): nat {
    if a.samples == [] then a.begin else Last(a).now
  }

  /** The times of an attempt do not go back, and none is before the start. */
  predicate Timely(start: nat, a: Attempt)
    decreases |a.samples|
  {
    if a.samples == [] then start <= a.begin
    else Timely(start, Front(a)) && LastTime(Front(a)) <= Last(a).edgeAt <= Last(a).now
  }

  lemma {:induction false} ViewFront(st: Streams, read: nat, look: nat, n: nat)
    requires n > 0
    ensures Front(View(st, read, look, n)) == View(st, read, look, n - 1)
    ensures Last(View(st, read, look, n)) == Sample(st.level(read + n), st.clock(look + 2 * n - 1), st.clock(look + 2 * n))
  {
  }

  lemma {:induction false} ViewTimely(st: Streams, start: nat, read: nat, look: nat, n: nat)
    requires Monotone(st.clock) && start <= st.clock(look)
    ensures Timely(start, View(st, read, look, n)) && LastTime(View(st, read, look, n)) == st.clock(look + 2 * n)
  {
    if n > 0 {
      ViewTimely(st, start, read, look, n - 1);
      ViewFront(st, read, look, n);
      assert st.clock(look + 2 * (n - 1)) <= st.clock(look + 2 * n - 1) <= st.clock(look + 2 * n);
    }
  }

  lemma {:induction false} SeenTimely(st: Streams, attempts: seq<Attempt>, read: nat, look: nat, start: nat, i: nat)
    requires Monotone(st.clock) && st.clock(0) == start && Seen(st, attempts, read, look) && i < |attempts|
    ensures Timely(start, attempts[i])
  {
    var front, a := attempts[..|attempts| - 1], attempts[|attempts| - 1];
    if i < |attempts| - 1 {
      SeenTimely(st, front, read, look, start, i);
    } else {
      ViewTimely(st, start, read + ReadsOf(front), look + LooksOf(front), |a.samples|);
    }
  }

  /** What the registers say while an attempt goes on. */
  predicate PulsesKnown(j: Job, a: Attempt) {
    var c := After(j.threshold, a).counter;
    if c.pulses == 0 then c.lastEdge == 0
    else Tick(Earliest(j), j.threshold, c.pulses - 1) <= c.lastEdge < Deadline(j)
  }

  predicate PulseBefore(j: Job, a: Attempt) {
    After(j.threshold, a).lastPulse <= LastTime(a) && j.start <= LastTime(a)
  }

  lemma {:induction false} LastPulseBefore(j: Job, a: Attempt)
    requires Timely(j.start, a)
    ensures PulseBefore(j, a)
    decreases |a.samples|
  {
    if a.samples != [] {
      LastPulseBefore(j, Front(a));
    }
  }

  lemma {:induction false} PulseTimes(j: Job, a: Attempt)
    requires Timely(j.start, a) && StillGoing(j, a)
    ensures PulsesKnown(j, a)
    decreases |a.samples|
  {
    if a.samples != [] {
      var before := After(j.threshold, Front(a)).counter;
      PulseTimes(j, Front(a));
      LastPulseBefore(j, Front(a));
      GoingMeansTimeIsLeft(j, After(j.threshold, a), Last(a).now);
      NextTick(Earliest(j), j.threshold, if before.pulses > 0 then before.pulses - 1 else 0);
    }
  }

  lemma {:induction false} FewPulsesNoCoin(ppc: int, pulses: nat)
    requires ppc <= 0 || pulses < ppc
    ensures Coins(ppc, pulses) == 0
  {
  }

  /** Without a jam limit the first poll ends every attempt. */
  lemma {:induction false} NoLimitOnePoll(j: Job, a: Attempt)
    requires j.cfg.jamMs <= 0 && Timely(j.start, a) && StillGoing(j, a)
    ensures a.samples == []
  {
    LastPulseBefore(j, a);
  }

  /** If no coin can be counted in time, an attempt that jams has counted none. */
  lemma {:induction false} JammedCountsNothing(j: Job, a: Attempt)
    requires j.coins >= 2 && !CoinInTime(j) && Timely(j.start, a) && EndsWith(j, a, Jammed)
    ensures CoinsIn(j, a) == 0
  {
    var before, after := After(j.threshold, Front(a)).counter.pulses, After(j.threshold, a).counter.pulses;
    if j.pulsesPerCoin >= 1 {
      if j.cfg.jamMs <= 0 {
        NoLimitOnePoll(j, Front(a));
      } else {
        assert after == before;
        PulseTimes(j, Front(a));
        if after >= j.pulsesPerCoin {
          TicksGrow(Earliest(j), j.threshold, j.pulsesPerCoin - 1, after - 1);
        }
      }
    }
    FewPulsesNoCoin(j.pulsesPerCoin, after);
  }

  lemma {:induction false} JammedAt(j: Job, attempts: seq<Attempt>, i: nat)
    requires AllJammed(j, attempts) && i < |attempts|
    ensures EndsWith(j, attempts[i], Jammed)
  {
    if i < |attempts| - 1 {
      JammedAt(j, attempts[..|attempts| - 1], i);
    }
  }

  lemma {:induction false} EarlierCountNothing(j: Job, st: Streams, attempts: seq<Attempt>, exit: Exit, i: nat)
    requires Met(j, st, attempts, exit) && i < |attempts| - 1
    requires j.coins == 1 || (j.coins >= 2 && !CoinInTime(j))
    ensures CoinsIn(j, attempts[i]) == 0
  {
    JammedAt(j, attempts[..|attempts| - 1], i);
    if j.coins == 1 {
      AttemptNeverOvershoots(j, attempts[i], Jammed);
    } else {
      SeenTimely(st, attempts, 0, 1, j.start, i);
      JammedCountsNothing(j, attempts[i]);
    }
  }

  lemma {:induction false} OneAttemptTellsAll(j: Job, attempts: seq<Attempt>)
    requires |attempts| == 1
    ensures TotalCoins(j, attempts) == CoinsIn(j, attempts[0])
  {
    assert attempts[..0] == [];
  }

  lemma {:induction false} NothingMissed(j: Job, st: Streams, attempts: seq<Attempt>, exit: Exit)
    requires Met(j, st, attempts, exit) && attempts != []
    requires j.coins <= 1 || j.cfg.maxRetries <= 0 || !CoinInTime(j)
    ensures TotalCoins(j, attempts) == CoinsIn(j, attempts[|attempts| - 1])
  {
    if j.coins <= 0 {
      EmptyRequest(j, attempts, exit);
      OneAttemptTellsAll(j, attempts);
    } else if j.cfg.maxRetries <= 0 {
      OneAttemptTellsAll(j, attempts);
    } else {
      forall i | 0 <= i < |attempts| - 1
        ensures CoinsIn(j, attempts[i]) == 0
      {
        EarlierCountNothing(j, st, attempts, exit, i);
      }
      ReportMissesEarlierAttempts(j, attempts);
    }
  }

  /** The report counts all the coins, whatever the sensor and the clock show, exactly when at most one
      coin is requested, no retry is allowed, or the time allowed is too short to count a coin. */
  lemma TellsAllExactly(j: Job)
    ensures TellsAll(j) <==> j.coins <= 1 || j.cfg.maxRetries <= 0 || !CoinInTime(j)
  {
    if j.coins <= 1 || j.cfg.maxRetries <= 0 || !CoinInTime(j) {
      forall st: Streams, attempts: seq<Attempt>, exit: Exit | Met(j, st, attempts, exit) && attempts != []
        ensures TotalCoins(j, attempts) == CoinsIn(j, attempts[|attempts| - 1])
      {
        NothingMissed(j, st, attempts, exit);
      }
    } else {
      var st, attempts := RetryHidesCoin(j);
    }
  }

  // ---- The bound on all attempts together is reached

  lemma {:induction false} NextBegin(j: Job, t: nat, n: nat, c: nat)
    requires c > 0
    ensures Begins(j, t, n, c - 1) <= TrainEnd(j.threshold, Begins(j, t, n, c - 1), n) <= Begins(j, t, n, c)
  {
    if n > 0 {
      TicksGrow(Begins(j, t, n, c - 1), j.threshold, 0, n - 1);
    }
  }

  lemma {:induction false} OneOfJams(j: Job, t: nat, n: nat, c: nat)
    requires CanPulse(j, t) && j.coins >= 1 && Coins(j.pulsesPerCoin, n) < j.coins && c > 0
    requires Begins(j, t, n, c) < Deadline(j)
    ensures var a := JamAfter(j, Begins(j, t, n, c - 1), n);
            EndsWith(j, a, Jammed) && CoinsIn(j, a) == Coins(j.pulsesPerCoin, n)
  {
    BeginsLater(j, t, n, c - 1);
    NextBegin(j, t, n, c);
    JamAfterJams(j, Begins(j, t, n, c - 1), n);
  }

  lemma {:induction false} JamsJam(j: Job, t: nat, n: nat, c: nat)
    requires CanPulse(j, t) && j.coins >= 1 && Coins(j.pulsesPerCoin, n) < j.coins
    requires Begins(j, t, n, c) < Deadline(j)
    ensures AllJammed(j, Repeat(j, [], t, n, c))
  {
    if c > 0 {
      NextBegin(j, t, n, c);
      JamsJam(j, t, n, c - 1);
      OneOfJams(j, t, n, c);
      JammedMore(j, Repeat(j, [], t, n, c - 1), JamAfter(j, Begins(j, t, n, c - 1), n));
    }
  }

  function Times(c: nat, k: nat): nat {
    c * k
  }

  lemma {:induction false} JamsCount(j: Job, t: nat, n: nat, c: nat)
    requires CanPulse(j, t) && j.coins >= 1 && Coins(j.pulsesPerCoin, n) < j.coins
    requires Begins(j, t, n, c) < Deadline(j)
    ensures TotalCoins(j, Repeat(j, [], t, n, c)) == Times(c, Coins(j.pulsesPerCoin, n))
  {
    if c > 0 {
      NextBegin(j, t, n, c);
      JamsCount(j, t, n, c - 1);
      OneOfJams(j, t, n, c);
      TotalSnoc(j, Repeat(j, [], t, n, c - 1), JamAfter(j, Begins(j, t, n, c - 1), n));
      OneMore(c, Coins(j.pulsesPerCoin, n));
    }
  }

  lemma {:induction false} OneMore(c: nat, k: nat)
    requires c > 0
    ensures Times(c, k) == Times(c - 1, k) + k
  {
  }

  lemma {:induction false} TotalSnoc(j: Job, before: seq<Attempt>, a: Attempt)
    ensures TotalCoins(j, before + [a]) == TotalCoins(j, before) + CoinsIn(j, a)
  {
    assert (before + [a])[..|before + [a]| - 1] == before;
  }

  lemma {:induction false} DivideExact(q: nat, d: int)
    requires d >= 1
    ensures q * d / d == q
  {
    var k, m := q * d / d - q, q * d % d;
    assert k * d == -m;
    Scale(k, d);
    assert k == 1 ==> k * d == d;
  }

  lemma {:induction false} DivideLess(q: nat, d: int)
    requires d >= 1 && q >= 1
    ensures q * d >= 1 && (q * d - 1) / d < q
  {
    MoreRetriesMoreCoins(1, q, d);
    var k, m := q - (q * d - 1) / d, (q * d - 1) % d;
    assert k * d == m + 1;
    Scale(k, d);
    assert k == 0 ==> k * d == 0;
  }

  lemma {:induction false} WholeCoins(ppc: int, coins: nat)
    requires ppc >= 1
    ensures Coins(ppc, coins * ppc) == coins
  {
    DivideExact(coins, ppc);
  }

  lemma {:induction false} LastPulseCompletes(ppc: int, coins: nat)
    requires ppc >= 1 && coins >= 1
    ensures coins * ppc >= 1 && Coins(ppc, coins * ppc - 1) < coins
  {
    DivideLess(coins, ppc);
  }

  /** There is time for all retries to pay all but one coin each, and for the last to pay all. */
  predicate Roomy(j: Job) {
    j.pulsesPerCoin >= 1 && j.coins >= 1 && j.cfg.maxRetries >= 0 && j.cfg.jamMs >= 1 &&
    var last := Begins(j, Earliest(j), (j.coins - 1) * j.pulsesPerCoin, j.cfg.maxRetries);
    Tick(last, j.threshold, j.coins * j.pulsesPerCoin) < Deadline(j)
  }

  /** When the last attempt begins, and how many pulses the others and it count. */
  function LastBegin(j: Job): nat
    requires Roomy(j)
  {
    Begins(j, Earliest(j), (j.coins - 1) * j.pulsesPerCoin, j.cfg.maxRetries)
  }

  function ShortOfOne(j: Job): seq<Attempt>
    requires Roomy(j)
  {
    Repeat(j, [], Earliest(j), (j.coins - 1) * j.pulsesPerCoin, j.cfg.maxRetries)
  }

  lemma {:induction false} ShortOfOneJams(j: Job)
    requires Roomy(j)
    ensures AllJammed(j, ShortOfOne(j)) && |ShortOfOne(j)| == j.cfg.maxRetries
    ensures TotalCoins(j, ShortOfOne(j)) == j.cfg.maxRetries * (j.coins - 1)
    ensures Rising(j.start, AllLooks(ShortOfOne(j)), LastBegin(j))
  {
    var n := (j.coins - 1) * j.pulsesPerCoin;
    WholeCoins(j.pulsesPerCoin, j.coins - 1);
    TicksGrow(LastBegin(j), j.threshold, 0, j.coins * j.pulsesPerCoin);
    JamsJam(j, Earliest(j), n, j.cfg.maxRetries);
    JamsCount(j, Earliest(j), n, j.cfg.maxRetries);
    RepeatCount(j, [], Earliest(j), n, j.cfg.maxRetries);
    RepeatRises(j, [], j.start, Earliest(j), n, j.cfg.maxRetries);
  }

  lemma {:induction false} FullPayment(j: Job) returns (finish: Attempt)
    requires Roomy(j)
    ensures EndsWith(j, finish, Finished) && CoinsIn(j, finish) == j.coins && finish.begin == LastBegin(j)
    ensures exists to: nat :: Rising(finish.begin, TimesOf(finish.samples), to)
  {
    var all := j.coins * j.pulsesPerCoin;
    WholeCoins(j.pulsesPerCoin, j.coins);
    LastPulseCompletes(j.pulsesPerCoin, j.coins);
    BeginsLater(j, Earliest(j), (j.coins - 1) * j.pulsesPerCoin, j.cfg.maxRetries);
    TicksGrow(LastBegin(j), j.threshold, all - 1, all);
    FinishAfterFinishes(j, LastBegin(j), all);
    FinishAfterRises(j, LastBegin(j), all);
    finish := FinishAfter(j, LastBegin(j), all);
    AttemptNeverOvershoots(j, finish, Finished);
  }

  /** For every request and every number of retries, given the time, some sensor and clock make the
      hopper count exactly the bound, while the report says that all is well. */
  lemma {:induction false} TotalBoundIsReached(j: Job) returns (st: Streams, attempts: seq<Attempt>)
    requires Roomy(j)
    ensures Met(j, st, attempts, Finished)
    ensures TotalCoins(j, attempts) == j.coins + j.cfg.maxRetries * (j.coins - 1)
  {
    var jams := ShortOfOne(j);
    ShortOfOneJams(j);
    var finish := FullPayment(j);
    var to: nat :| Rising(finish.begin, TimesOf(finish.samples), to);
    attempts := jams + [finish];
    ConductedBy(j, jams, finish, Finished);
    TotalSnoc(j, jams, finish);
    AttemptRises(j.start, jams, finish, to);
    StartFirst(j.start, AllLooks(attempts), to);
    st := Realized(j.start, attempts);
  }

  /** Two coins requested, one retry, the other settings as shipped. */
  function Example(): Job {
    Job(Config(1, 600, 120, 300, 5000, 200), 1, 2_000_000, 2, 5000, 0)
  }

  /** Time enough for two coins, one pulse a coin, and one retry. */
  lemma {:induction false} RoomForTwo(j: Job)
    requires j.coins == 2 && j.pulsesPerCoin == 1 && j.cfg.maxRetries == 1 && j.cfg.jamMs >= 1
    requires Earliest(j) + JamNs(j) + 2 * j.threshold < Deadline(j)
    ensures Roomy(j)
  {
    var t := Earliest(j);
    NextTick(t, j.threshold, 0);
    assert Begins(j, t, 1, 0) == t;
    assert Begins(j, t, 1, 1) == t + JamNs(j);
    assert (j.coins - 1) * j.pulsesPerCoin == 1 && j.coins * j.pulsesPerCoin == 2;
    assert Tick(t + JamNs(j), j.threshold, 2) == t + JamNs(j) + 2 * j.threshold;
  }

  lemma {:induction false} LastIsFull(j: Job, attempts: seq<Attempt>)
    requires j.coins >= 1 && j.cfg.maxRetries >= 0 && Conducted(j, attempts, Finished)
    ensures attempts != [] && CoinsIn(j, attempts[|attempts| - 1]) == j.coins
  {
    AttemptNeverOvershoots(j, attempts[|attempts| - 1], Finished);
  }

  /** Then three coins can come out while the report says two and ok. */
  lemma RetryOverpays() returns (st: Streams, attempts: seq<Attempt>)
    ensures Met(Example(), st, attempts, Finished) && attempts != []
    ensures TotalCoins(Example(), attempts) == 3 && CoinsIn(Example(), attempts[|attempts| - 1]) == 2
  {
    RoomForTwo(Example());
    st, attempts := TotalBoundIsReached(Example());
    LastIsFull(Example(), attempts);
  }
}
