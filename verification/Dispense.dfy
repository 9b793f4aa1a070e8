/** The coin hopper and the controller that runs it: edge counting, retries and the time budget. */
module Dispense {
  import TxnEngine

  datatype Config = Config(
    maxRetries: int, jamMs: int, settleMs: int, maxMsPerCoin: int, hardTimeoutMs: int, pollUs: int)

  datatype Reason = Ok | Jam | Timeout | Partial | Abort

  datatype Report = Report(
    ok: bool, requested: int, dispensed: int, pulses: int, retries: int, reason: Reason, elapsedMs: int)

  // ---- Counting edges

  /** The registers of the hopper driver. */
  datatype Counter = Counter(pulses: nat, lastEdge: nat, lastLevel: bool)

  /** One poll: the sensor's level, the driver's clock reading and the controller's. */
  datatype Sample = Sample(level: bool, edgeAt: nat, now: nat)

  /** One attempt: the level at its start, the time it began, and its polls. */
  datatype Attempt = Attempt(level: bool, begin: nat, samples: seq<Sample>)

  /** The driver's interval in nanoseconds, in 64-bit unsigned arithmetic. */
  function Threshold(minIntervalUs: int): (r: nat)
    ensures 0 <= minIntervalUs < 0x8000_0000 ==> r == 1000 * minIntervalUs
  {
    minIntervalUs % 0x1_0000_0000_0000_0000 * 1000 % 0x1_0000_0000_0000_0000
  }

  function Polled(threshold: nat, c: Counter, level: bool, edgeAt: nat): Counter {
    if level && !c.lastLevel && edgeAt - c.lastEdge >= threshold then Counter(c.pulses + 1, edgeAt, level)
    else c.(lastLevel := level)
  }

  /** The registers, and when the count last rose. */
  datatype Watch = Watch(counter: Counter, lastPulse: nat)

  function Observe(threshold: nat, w: Watch, s: Sample): Watch {
    var c := Polled(threshold, w.counter, s.level, s.edgeAt);
    Watch(c, if c.pulses != w.counter.pulses then s.now else w.lastPulse)
  }

  function Front(a: Attempt): Attempt
    requires a.samples != []
  {
    a.(samples := a.samples[..|a.samples| - 1])
  }

  function Last(a: Attempt): Sample
    requires a.samples != []
  {
    a.samples[|a.samples| - 1]
  }

  /** The watch after the polls of an attempt. */
  function After(threshold: nat, a: Attempt): Watch
    decreases |a.samples|
  {
    if a.samples == [] then Watch(Counter(0, 0, a.level), a.begin)
    else Observe(threshold, After(threshold, Front(a)), Last(a))
  }

  /** The times of the counted edges. */
  function Edges(threshold: nat, a: Attempt): seq<nat>
    decreases |a.samples|
  {
    if a.samples == [] then []
    else
      Edges(threshold, Front(a)) +
      (if After(threshold, a).counter.pulses > After(threshold, Front(a)).counter.pulses then [Last(a).edgeAt] else [])
  }

  function Coins(pulsesPerCoin: int, pulses: nat): (r: nat)
    ensures pulsesPerCoin == 1 ==> r == pulses
  {
    if pulsesPerCoin > 0 then pulses / pulsesPerCoin else 0
  }

  /** One pulse more is at most one coin more. */
  lemma OnePulseOneCoin(pulsesPerCoin: int, pulses: nat)
    ensures Coins(pulsesPerCoin, pulses) <= Coins(pulsesPerCoin, pulses + 1) <= Coins(pulsesPerCoin, pulses) + 1
  {
    if pulsesPerCoin > 0 {
      var q, m := pulses / pulsesPerCoin, pulses % pulsesPerCoin;
      assert pulses + 1 == q * pulsesPerCoin + (m + 1);
      DivideBetween(pulses + 1, pulsesPerCoin, q, m + 1);
    }
  }

  lemma DivideBetween(n: nat, d: int, q: nat, m: nat)
    requires d > 0 && n == q * d + m && m <= d
    ensures q <= n / d <= q + 1
  {
    var q', m' := n / d, n % d;
    assert (q' - q) * d == m - m';
    Scale(q' - q, d);
  }

  lemma Scale(k: int, d: int)
    requires d > 0
    ensures k >= 2 ==> k * d >= 2 * d
    ensures k <= -1 ==> k * d <= -d
  {
  }

  // ---- When an attempt ends

  datatype Exit = Going | Finished | Jammed | OutOfTime

  /** One call of the controller: its settings, the hopper's, the request, the time allowed and the start. */
  datatype Job = Job(cfg: Config, pulsesPerCoin: int, threshold: nat, coins: int, budgetMs: int, start: nat)

  /** The controller's decision after a poll. */
  function Verdict(j: Job, w: Watch, now: nat): Exit {
    if Coins(j.pulsesPerCoin, w.counter.pulses) >= j.coins then Finished
    else if ElapsedMs(w.lastPulse, now) >= j.cfg.jamMs then Jammed
    else if ElapsedMs(j.start, now) >= j.budgetMs then OutOfTime
    else Going
  }

  function Budget(cfg: Config, coins: int): int {
    var byCoins := coins * cfg.maxMsPerCoin + 500;
    if cfg.hardTimeoutMs > byCoins then cfg.hardTimeoutMs else byCoins
  }

  /** Whole milliseconds, truncated toward zero as a duration cast does. */
  function ElapsedMs(since: nat, now: nat): int {
    if now >= since then (now - since) / 1_000_000 else -((since - now) / 1_000_000)
  }

  /** No poll so far ended the attempt. */
  predicate StillGoing(j: Job, a: Attempt)
    decreases |a.samples|
  {
    a.samples == [] || (StillGoing(j, Front(a)) && Verdict(j, After(j.threshold, a), Last(a).now) == Going)
  }

  /** The attempt went on until its last poll, which ended it. */
  predicate EndsWith(j: Job, a: Attempt, exit: Exit) {
    && a.samples != [] && exit != Going
    && StillGoing(j, Front(a)) && Verdict(j, After(j.threshold, a), Last(a).now) == exit
  }

  predicate AllJammed(j: Job, attempts: seq<Attempt>) {
    attempts == [] ||
    (AllJammed(j, attempts[..|attempts| - 1]) && EndsWith(j, attempts[|attempts| - 1], Jammed))
  }

  /** The attempts of one call: all but the last jammed, and the last ended the call. */
  predicate Conducted(j: Job, attempts: seq<Attempt>, exit: Exit) {
    if j.cfg.maxRetries < 0 then attempts == [] && exit == Going
    else
      && 1 <= |attempts| <= j.cfg.maxRetries + 1
      && AllJammed(j, attempts[..|attempts| - 1])
      && EndsWith(j, attempts[|attempts| - 1], exit)
      && (exit == Jammed ==> |attempts| == j.cfg.maxRetries + 1)
  }

  function CoinsIn(j: Job, a: Attempt): nat {
    Coins(j.pulsesPerCoin, After(j.threshold, a).counter.pulses)
  }

  /** Coins counted in all attempts together. */
  function TotalCoins(j: Job, attempts: seq<Attempt>): nat {
    if attempts == [] then 0
    else TotalCoins(j, attempts[..|attempts| - 1]) + CoinsIn(j, attempts[|attempts| - 1])
  }

  function ReasonFor(exit: Exit, coins: int, dispensed: nat): Reason {
    match exit
    case Finished => Ok
    case OutOfTime => if dispensed > 0 then Partial else Timeout
    case Jammed => if 0 < dispensed < coins then Partial else Jam
    case Going => Abort
  }

  /** The report of a call whose registers ended with the given count. */
  function ReportFor(j: Job, pulses: nat, attempts: nat, exit: Exit, elapsedMs: int): Report {
    var dispensed := Coins(j.pulsesPerCoin, pulses);
    Report(exit == Finished, j.coins, dispensed, pulses, if attempts == 0 then 0 else attempts - 1,
           ReasonFor(exit, j.coins, dispensed), elapsedMs)
  }

  // ---- Properties of one attempt

  /** An attempt that ends never counts more coins than requested, and counts that many
      exactly when it finished. */
  lemma AttemptNeverOvershoots(j: Job, a: Attempt, exit: Exit)
    requires j.coins >= 1 && EndsWith(j, a, exit)
    ensures CoinsIn(j, a) <= j.coins
    ensures exit == Finished <==> CoinsIn(j, a) == j.coins
  {
    OnePulseOneCoin(j.pulsesPerCoin, After(j.threshold, Front(a)).counter.pulses);
  }

  lemma {:induction false} EdgesCountPulses(threshold: nat, a: Attempt)
    ensures |Edges(threshold, a)| == After(threshold, a).counter.pulses
    ensures var edges := Edges(threshold, a);
            After(threshold, a).counter.lastEdge == if edges == [] then 0 else edges[|edges| - 1]
    decreases |a.samples|
  {
    if a.samples != [] {
      EdgesCountPulses(threshold, Front(a));
    }
  }

  /** Counted edges are at least the interval apart. */
  lemma {:induction false} CountedEdgesAreApart(threshold: nat, a: Attempt, i: nat)
    requires 0 < i < |Edges(threshold, a)|
    ensures Edges(threshold, a)[i] - Edges(threshold, a)[i - 1] >= threshold
    decreases |a.samples|
  {
    EdgesCountPulses(threshold, Front(a));
    if i < |Edges(threshold, Front(a))| {
      CountedEdgesAreApart(threshold, Front(a), i);
    }
  }

  // ---- Properties of a whole call

  lemma {:induction false} JammedTotal(j: Job, attempts: seq<Attempt>)
    requires j.coins >= 1 && AllJammed(j, attempts)
    ensures TotalCoins(j, attempts) <= |attempts| * (j.coins - 1)
  {
    if attempts != [] {
      JammedTotal(j, attempts[..|attempts| - 1]);
      AttemptNeverOvershoots(j, attempts[|attempts| - 1], Jammed);
      assert |attempts| * (j.coins - 1) == (|attempts| - 1) * (j.coins - 1) + (j.coins - 1);
    }
  }

  /** The request plus, for every retry, one coin less than the request. */
  predicate WithinBound(j: Job, total: int) {
    total <= j.coins + j.cfg.maxRetries * (j.coins - 1)
  }

  /** Over all attempts a call counts no more coins than the bound. */
  lemma TotalIsBounded(j: Job, attempts: seq<Attempt>, exit: Exit)
    requires j.coins >= 1 && j.cfg.maxRetries >= 0 && Conducted(j, attempts, exit)
    ensures WithinBound(j, TotalCoins(j, attempts))
  {
    JammedTotal(j, attempts[..|attempts| - 1]);
    AttemptNeverOvershoots(j, attempts[|attempts| - 1], exit);
    MoreRetriesMoreCoins(|attempts| - 1, j.cfg.maxRetries, j.coins - 1);
  }

  lemma MoreRetriesMoreCoins(a: nat, b: nat, c: nat)
    requires a <= b
    ensures a * c <= b * c
  {
  }

  /** What a report says about the request, and about the edges of the last attempt. */
  predicate Exact(j: Job, last: Attempt, r: Report) {
    && 0 <= r.dispensed <= r.requested == j.coins
    && (r.ok <==> r.dispensed == r.requested)
    && (r.ok <==> r.reason == Ok)
    && (r.reason == Partial <==> 0 < r.dispensed < r.requested)
    && (r.reason == Jam || r.reason == Timeout <==> r.dispensed == 0)
    && (r.reason == Jam ==> r.retries == j.cfg.maxRetries)
    && r.pulses == |Edges(j.threshold, last)|
  }

  /** The report is exact for every request of at least one coin. */
  lemma ReportIsExact(j: Job, attempts: seq<Attempt>, exit: Exit, ms: int)
    requires j.coins >= 1 && j.cfg.maxRetries >= 0 && Conducted(j, attempts, exit)
    ensures var last := attempts[|attempts| - 1];
            Exact(j, last, ReportFor(j, After(j.threshold, last).counter.pulses, |attempts|, exit, ms))
  {
    var last := attempts[|attempts| - 1];
    AttemptNeverOvershoots(j, last, exit);
    EdgesCountPulses(j.threshold, last);
  }

  /** What a call promises for a request of at least one coin. */
  predicate Contract(j: Job, attempts: seq<Attempt>, r: Report) {
    j.coins >= 1 && j.cfg.maxRetries >= 0 ==>
      && attempts != [] && Exact(j, attempts[|attempts| - 1], r) && WithinBound(j, TotalCoins(j, attempts))
  }

  lemma ContractKept(j: Job, attempts: seq<Attempt>, exit: Exit, pulses: nat, ms: int)
    requires Conducted(j, attempts, exit)
    requires attempts != [] ==> pulses == After(j.threshold, attempts[|attempts| - 1]).counter.pulses
    ensures Contract(j, attempts, ReportFor(j, pulses, |attempts|, exit, ms))
    ensures j.cfg.maxRetries >= 0 ==> Underway(j, attempts)
  {
    if j.cfg.maxRetries >= 0 {
      ConductedIsUnderway(j, attempts, exit);
    }
    if j.coins >= 1 && j.cfg.maxRetries >= 0 {
      ReportIsExact(j, attempts, exit, ms);
      TotalIsBounded(j, attempts, exit);
    }
  }

  /** The report covers the last attempt only: it tells the whole truth exactly when no earlier
      attempt counted a coin. */
  lemma ReportMissesEarlierAttempts(j: Job, attempts: seq<Attempt>)
    requires attempts != []
    ensures TotalCoins(j, attempts) == CoinsIn(j, attempts[|attempts| - 1])
            <==> (forall i :: 0 <= i < |attempts| - 1 ==> CoinsIn(j, attempts[i]) == 0)
  {
    NoCoins(j, attempts[..|attempts| - 1]);
  }

  lemma {:induction false} NoCoins(j: Job, attempts: seq<Attempt>)
    ensures TotalCoins(j, attempts) == 0 <==> (forall i :: 0 <= i < |attempts| ==> CoinsIn(j, attempts[i]) == 0)
  {
    if attempts != [] {
      NoCoins(j, attempts[..|attempts| - 1]);
    }
  }

  /** A request for no coins, or fewer, succeeds at the first poll, which may still count one:
      the report exceeds the request unless that poll counted none and none was requested. */
  lemma EmptyRequest(j: Job, attempts: seq<Attempt>, exit: Exit)
    requires j.coins <= 0 && j.cfg.maxRetries >= 0 && Conducted(j, attempts, exit)
    ensures exit == Finished && |attempts| == 1 && |attempts[0].samples| == 1
    ensures CoinsIn(j, attempts[0]) <= j.coins <==> j.coins == 0 && CoinsIn(j, attempts[0]) == 0
  {
    NeverJams(j, attempts[..|attempts| - 1]);
    NeverGoes(j, Front(attempts[0]));
  }

  lemma NeverJams(j: Job, attempts: seq<Attempt>)
    requires j.coins <= 0 && AllJammed(j, attempts)
    ensures attempts == []
  {
  }

  lemma NeverGoes(j: Job, a: Attempt)
    requires j.coins <= 0 && StillGoing(j, a)
    ensures a.samples == []
  {
  }

  function Add(a: Attempt, s: Sample): Attempt {
    a.(samples := a.samples + [s])
  }

  /** One poll more. */
  lemma Extend(j: Job, a: Attempt, s: Sample)
    requires StillGoing(j, a)
    ensures var w := After(j.threshold, Add(a, s));
            && w == Observe(j.threshold, After(j.threshold, a), s)
            && var exit := Verdict(j, w, s.now);
            (if exit == Going then StillGoing(j, Add(a, s)) else EndsWith(j, Add(a, s), exit))
  {
    assert Front(Add(a, s)) == a;
  }

  /** A call up to any poll of its last attempt: it may have ended there, or a crash may have cut it. */
  predicate Underway(j: Job, attempts: seq<Attempt>) {
    && 1 <= |attempts| <= j.cfg.maxRetries + 1
    && AllJammed(j, attempts[..|attempts| - 1])
    && var last := attempts[|attempts| - 1];
    last.samples == [] || StillGoing(j, Front(last))
  }

  lemma ConductedIsUnderway(j: Job, attempts: seq<Attempt>, exit: Exit)
    requires Conducted(j, attempts, exit) && j.cfg.maxRetries >= 0
    ensures Underway(j, attempts)
  {
  }

  /** Wherever it is cut, an attempt has counted at most the coins requested. */
  lemma CutNeverOvershoots(j: Job, a: Attempt)
    requires j.coins >= 1 && (a.samples == [] || StillGoing(j, Front(a)))
    ensures CoinsIn(j, a) <= j.coins
  {
    if a.samples != [] {
      OnePulseOneCoin(j.pulsesPerCoin, After(j.threshold, Front(a)).counter.pulses);
    }
  }

  /** The controller is a dispenser as the transaction engine needs one: with the count of its last
      attempt as the answer, the dispenser pays between nothing and what is still due, even if a
      crash cuts the call. */
  lemma ControllerSuitsEngine(t: TxnEngine.Txn, hw: TxnEngine.Hardware, j: Job, attempts: seq<Attempt>)
    requires t.dispensed < t.quarters ==>
               && j.coins == t.quarters - t.dispensed && Underway(j, attempts)
               && hw.paid == CoinsIn(j, attempts[|attempts| - 1])
    ensures TxnEngine.Pays(t, hw)
  {
    if t.dispensed < t.quarters {
      CutNeverOvershoots(j, attempts[|attempts| - 1]);
    }
  }

  /** The dispenser's answer is the count of some call of the controller for what is still due. */
  ghost predicate AnsweredByController(t: TxnEngine.Txn, hw: TxnEngine.Hardware) {
    t.dispensed < t.quarters ==>
      exists j: Job, attempts: seq<Attempt> ::
        && Underway(j, attempts) && j.coins == t.quarters - t.dispensed
        && hw.paid == CoinsIn(j, attempts[|attempts| - 1])
  }

  /** In every boot of a purchase the controller is the dispenser. */
  ghost predicate ControllerBoots(id: string, price: int, deposit: int, cap: int, boots: seq<TxnEngine.Boot>) {
    boots == [] ||
    var boot := boots[|boots| - 1];
    if |boots| == 1 then AnsweredByController(TxnEngine.NewTxn(id, price, deposit, cap), boot.hw)
    else
      var last := TxnEngine.Tally(TxnEngine.Blank, TxnEngine.History(id, price, deposit, cap, boots[..|boots| - 1])).last;
      && ControllerBoots(id, price, deposit, cap, boots[..|boots| - 1])
      && (last.Some? ==> AnsweredByController(last.value, boot.hw))
  }

  lemma AnswerSuitsEngine(t: TxnEngine.Txn, hw: TxnEngine.Hardware)
    requires AnsweredByController(t, hw)
    ensures TxnEngine.Pays(t, hw)
  {
    if t.dispensed < t.quarters {
      var j: Job, attempts: seq<Attempt> :|
        && Underway(j, attempts) && j.coins == t.quarters - t.dispensed
        && hw.paid == CoinsIn(j, attempts[|attempts| - 1]);
      ControllerSuitsEngine(t, hw, j, attempts);
    }
  }

  /** What the transaction engine assumes of its dispenser holds of the controller, over any number
      of boots. */
  lemma {:induction false} ControllerIsHonest(
    id: string, price: int, deposit: int, cap: int, boots: seq<TxnEngine.Boot>)
    requires ControllerBoots(id, price, deposit, cap, boots)
    ensures TxnEngine.DispenserHonest(id, price, deposit, cap, boots)
  {
    if |boots| == 1 {
      AnswerSuitsEngine(TxnEngine.NewTxn(id, price, deposit, cap), boots[0].hw);
    } else if |boots| > 1 {
      var front, boot := boots[..|boots| - 1], boots[|boots| - 1];
      ControllerIsHonest(id, price, deposit, cap, front);
      var last := TxnEngine.Tally(TxnEngine.Blank, TxnEngine.History(id, price, deposit, cap, front)).last;
      if last.Some? {
        AnswerSuitsEngine(last.value, boot.hw);
      }
    }
  }

  // ---- What is counted and what ends an attempt, in the sensor's and the clock's own terms

  /** The attempt as it was after its first i polls. */
  function Until(a: Attempt, i: nat): Attempt
    requires i <= |a.samples|
  {
    a.(samples := a.samples[..i])
  }

  /** The sensor is high at poll i and was low at the one before, or at the start. */
  predicate Rises(a: Attempt, i: nat)
    requires i < |a.samples|
  {
    a.samples[i].level && !(if i == 0 then a.level else a.samples[i - 1].level)
  }

  lemma LevelIsKept(threshold: nat, a: Attempt)
    ensures After(threshold, a).counter.lastLevel == if a.samples == [] then a.level else Last(a).level
  {
  }

  /** A poll counts exactly when the level rises at least the interval after the last counted edge. */
  lemma CountsExactly(threshold: nat, a: Attempt, i: nat)
    requires i < |a.samples|
    ensures var before := Edges(threshold, Until(a, i));
            var last := if before == [] then 0 else before[|before| - 1];
            Edges(threshold, Until(a, i + 1)) ==
            before + if Rises(a, i) && a.samples[i].edgeAt - last >= threshold then [a.samples[i].edgeAt] else []
  {
    var now, was := Until(a, i + 1), Until(a, i);
    assert Front(now) == was && Last(now) == a.samples[i];
    LevelIsKept(threshold, was);
    EdgesCountPulses(threshold, was);
  }

  /** The watch moves its last pulse at a poll that counts, and at no other. */
  lemma PulseMoves(threshold: nat, a: Attempt)
    requires a.samples != []
    ensures |Edges(threshold, Front(a))| <= |Edges(threshold, a)|
    ensures After(threshold, a).lastPulse ==
            if |Edges(threshold, Front(a))| < |Edges(threshold, a)| then Last(a).now else After(threshold, Front(a)).lastPulse
  {
    EdgesCountPulses(threshold, a);
    EdgesCountPulses(threshold, Front(a));
  }

  /** While nothing was counted, the last pulse is the start. */
  lemma {:induction false} NoPulseYet(threshold: nat, a: Attempt)
    requires Edges(threshold, a) == []
    ensures After(threshold, a).lastPulse == a.begin
    decreases |a.samples|
  {
    if a.samples != [] {
      PulseMoves(threshold, a);
      NoPulseYet(threshold, Front(a));
    }
  }

  /** Otherwise it is the poll that counted last. */
  lemma {:induction false} LastPulseExactly(threshold: nat, a: Attempt, i: nat)
    requires i < |a.samples|
    requires |Edges(threshold, Until(a, i))| < |Edges(threshold, Until(a, i + 1))| == |Edges(threshold, a)|
    ensures After(threshold, a).lastPulse == a.samples[i].now
    decreases |a.samples|
  {
    var n := |a.samples| - 1;
    PulseMoves(threshold, a);
    if i < n {
      var f := Front(a);
      assert Until(f, i) == Until(a, i) && Until(f, i + 1) == Until(a, i + 1);
      EdgesOnlyGrow(threshold, f, i + 1);
      LastPulseExactly(threshold, f, i);
    } else {
      assert Front(a) == Until(a, n);
    }
  }

  lemma {:induction false} EdgesOnlyGrow(threshold: nat, a: Attempt, i: nat)
    requires i <= |a.samples|
    ensures |Edges(threshold, Until(a, i))| <= |Edges(threshold, a)|
    decreases |a.samples|
  {
    if i < |a.samples| {
      assert Until(Front(a), i) == Until(a, i);
      EdgesOnlyGrow(threshold, Front(a), i);
    } else {
      assert Until(a, i) == a;
    }
  }

  /** So many milliseconds have gone by; a span that is not positive has as soon as what is left of it is
      less than a millisecond. */
  predicate GoneBy(since: nat, now: nat, ms: int) {
    if ms > 0 then now - since >= 1_000_000 * ms else now - since > 1_000_000 * (ms - 1)
  }

  lemma ElapsedExactly(since: nat, now: nat, ms: int)
    ensures ElapsedMs(since, now) >= ms <==> GoneBy(since, now, ms)
  {
  }

  predicate CoinsAreOut(pulsesPerCoin: int, pulses: nat, coins: int) {
    coins <= 0 || (pulsesPerCoin > 0 && coins * pulsesPerCoin <= pulses)
  }

  lemma CoinsExactly(pulsesPerCoin: int, pulses: nat, coins: int)
    ensures Coins(pulsesPerCoin, pulses) >= coins <==> CoinsAreOut(pulsesPerCoin, pulses, coins)
  {
    if pulsesPerCoin > 0 && coins > 0 {
      var q, m := pulses / pulsesPerCoin, pulses % pulsesPerCoin;
      assert (coins - q) * pulsesPerCoin == coins * pulsesPerCoin - pulses + m;
      if coins > q {
        MoreRetriesMoreCoins(1, coins - q, pulsesPerCoin);
      } else {
        MoreRetriesMoreCoins(coins, q, pulsesPerCoin);
      }
    }
  }

  /** A job with the time the controller allows it. */
  predicate Allowed(j: Job) {
    j.budgetMs == Budget(j.cfg, j.coins)
  }

  /** A poll ends the attempt as finished when the coins are out; failing that as jammed when the jam time has
      gone by since the last pulse; failing that as out of time when both the hard limit and the time for the
      coins, with half a second to spare, have gone by since the start of the call. */
  lemma PollDecides(j: Job, w: Watch, now: nat)
    requires Allowed(j)
    ensures var out, jam := CoinsAreOut(j.pulsesPerCoin, w.counter.pulses, j.coins), GoneBy(w.lastPulse, now, j.cfg.jamMs);
            && (Verdict(j, w, now) == Finished <==> out)
            && (Verdict(j, w, now) == Jammed <==> !out && jam)
            && (Verdict(j, w, now) == OutOfTime <==>
                  && !out && !jam && GoneBy(j.start, now, j.cfg.hardTimeoutMs)
                  && GoneBy(j.start, now, j.coins * j.cfg.maxMsPerCoin + 500))
  {
    CoinsExactly(j.pulsesPerCoin, w.counter.pulses, j.coins);
    ElapsedExactly(w.lastPulse, now, j.cfg.jamMs);
    ElapsedExactly(j.start, now, j.cfg.hardTimeoutMs);
    ElapsedExactly(j.start, now, j.coins * j.cfg.maxMsPerCoin + 500);
  }

  /** The report's reason tells how the last attempt ended: a timeout or a jam when it gave nothing, a partial
      payout when it gave some of the coins, an abort when there was no attempt. */
  lemma ReasonExactly(j: Job, attempts: seq<Attempt>, exit: Exit, pulses: nat, ms: int)
    requires j.coins >= 1 && Conducted(j, attempts, exit)
    requires attempts != [] ==> pulses == After(j.threshold, attempts[|attempts| - 1]).counter.pulses
    ensures var r := ReportFor(j, pulses, |attempts|, exit, ms);
            && (r.reason == Abort <==> j.cfg.maxRetries < 0)
            && (r.reason == Timeout <==> exit == OutOfTime && r.dispensed == 0)
            && (r.reason == Jam <==> exit == Jammed && r.dispensed == 0)
            && (r.reason == Partial <==> (exit == Jammed || exit == OutOfTime) && r.dispensed > 0)
            && (attempts == [] <==> j.cfg.maxRetries < 0) && r.retries == (if attempts == [] then 0 else |attempts| - 1)
            && r.elapsedMs == ms
  {
    if j.cfg.maxRetries >= 0 {
      AttemptNeverOvershoots(j, attempts[|attempts| - 1], exit);
    }
  }

  // ---- The sensor and the clock as streams

  datatype Streams = Streams(level: nat -> bool, clock: nat -> nat)

  /** The n polls that the streams show from the given positions on. */
  function Samples(st: Streams, read: nat, look: nat, n: nat): (r: seq<Sample>)
    ensures |r| == n
  {
    if n == 0 then []
    else Samples(st, read, look, n - 1) +
         [Sample(st.level(read + n), st.clock(look + 2 * n - 1), st.clock(look + 2 * n))]
  }

  function View(st: Streams, read: nat, look: nat, n: nat): Attempt {
    Attempt(st.level(read), st.clock(look), Samples(st, read, look, n))
  }

  /** The attempt is what the streams show from the given positions on. */
  predicate IsView(st: Streams, a: Attempt, read: nat, look: nat) {
    a == View(st, read, look, |a.samples|)
  }

  function ReadsOf(attempts: seq<Attempt>): nat {
    if attempts == [] then 0
    else ReadsOf(attempts[..|attempts| - 1]) + 1 + |attempts[|attempts| - 1].samples|
  }

  function LooksOf(attempts: seq<Attempt>): nat {
    if attempts == [] then 0
    else LooksOf(attempts[..|attempts| - 1]) + 1 + 2 * |attempts[|attempts| - 1].samples|
  }

  /** The attempts are what the streams show, one after the other. */
  predicate Seen(st: Streams, attempts: seq<Attempt>, read: nat, look: nat) {
    attempts == [] ||
    (var front, a := attempts[..|attempts| - 1], attempts[|attempts| - 1];
     && Seen(st, front, read, look)
     && IsView(st, a, read + ReadsOf(front), look + LooksOf(front)))
  }

  /** One poll more. */
  lemma ViewMore(st: Streams, a: Attempt, read: nat, look: nat, thisRead: nat, thisLook: nat)
    requires IsView(st, a, read, look)
    requires thisRead == read + |a.samples| + 1 && thisLook == look + 2 * |a.samples| + 1
    ensures IsView(st, Add(a, Sample(st.level(thisRead), st.clock(thisLook), st.clock(thisLook + 1))), read, look)
  {
  }

  /** One attempt more. */
  lemma SeenMore(st: Streams, before: seq<Attempt>, a: Attempt, read: nat, look: nat, thisRead: nat, thisLook: nat)
    requires Seen(st, before, read, look)
    requires thisRead == read + ReadsOf(before) && thisLook == look + LooksOf(before)
    requires IsView(st, a, thisRead, thisLook)
    ensures Seen(st, before + [a], read, look)
  {
    assert (before + [a])[..|before + [a]| - 1] == before;
  }

  lemma PlacesMore(before: seq<Attempt>, a: Attempt)
    ensures ReadsOf(before + [a]) == ReadsOf(before) + 1 + |a.samples|
    ensures LooksOf(before + [a]) == LooksOf(before) + 1 + 2 * |a.samples|
  {
    assert (before + [a])[..|before + [a]| - 1] == before;
  }

  lemma JammedMore(j: Job, before: seq<Attempt>, a: Attempt)
    requires AllJammed(j, before) && EndsWith(j, a, Jammed)
    ensures AllJammed(j, before + [a])
  {
    assert (before + [a])[..|before + [a]| - 1] == before;
  }

  lemma ConductedBy(j: Job, before: seq<Attempt>, a: Attempt, exit: Exit)
    requires |before| <= j.cfg.maxRetries && AllJammed(j, before) && EndsWith(j, a, exit)
    requires exit == Jammed ==> |before| == j.cfg.maxRetries
    ensures Conducted(j, before + [a], exit)
  {
    assert (before + [a])[..|before + [a]| - 1] == before;
  }

  /** From the given look on, the clock shows at least the given time. */
  ghost predicate Passed(clock: nat -> nat, t: nat, look: nat) {
    forall k: nat :: look <= k ==> t <= clock(k)
  }

  ghost predicate PassedForGood(clock: nat -> nat, t: nat) {
    exists look: nat :: Passed(clock, t, look)
  }

  /** Time does not stop: every time is passed for good. */
  ghost predicate Advances(clock: nat -> nat) {
    forall t: nat :: PassedForGood(clock, t)
  }

  lemma TimeRunsOut(clock: nat -> nat, t: nat) returns (stop: nat)
    requires Advances(clock)
    ensures Passed(clock, t, stop)
  {
    assert PassedForGood(clock, t);
    stop :| Passed(clock, t, stop);
  }

  function Natural(n: int): nat {
    if n < 0 then 0 else n
  }

  /** The time at which the budget of a job is spent. */
  function Deadline(j: Job): nat {
    j.start + 1_000_000 * Natural(j.budgetMs)
  }

  lemma GoingMeansTimeIsLeft(j: Job, w: Watch, now: nat)
    requires Verdict(j, w, now) == Going
    ensures now < Deadline(j)
  {
  }

  // ---- The driver and the controller

  class World {
    const st: Streams
    var readCount: nat
    var lookCount: nat

    constructor (st: Streams)
      ensures this.st == st && readCount == 0 && lookCount == 0
    {
      this.st, readCount, lookCount := st, 0, 0;
    }

    method Read() returns (b: bool)
      modifies this`readCount
      ensures b == st.level(old(readCount)) && readCount == old(readCount) + 1
    {
      b := st.level(readCount);
      readCount := readCount + 1;
    }

    method Now() returns (t: nat)
      modifies this`lookCount
      ensures t == st.clock(old(lookCount)) && lookCount == old(lookCount) + 1
    {
      t := st.clock(lookCount);
      lookCount := lookCount + 1;
    }
  }

  class Hopper {
    const world: World
    const pulsesPerCoin: int
    const minIntervalUs: int
    var pulses: nat
    var lastEdge: nat
    var lastLevel: bool
    var motorOn: bool

    constructor (world: World, pulsesPerCoin: int, minIntervalUs: int)
      modifies world`readCount
      ensures this.world == world && this.pulsesPerCoin == pulsesPerCoin && this.minIntervalUs == minIntervalUs
      ensures !motorOn && Registers() == Counter(0, 0, world.st.level(old(world.readCount)))
      ensures world.readCount == old(world.readCount) + 1
    {
      this.world, this.pulsesPerCoin, this.minIntervalUs := world, pulsesPerCoin, minIntervalUs;
      pulses, lastEdge, motorOn := 0, 0, false;
      new;
      lastLevel := world.Read();
    }

    function Registers(): Counter
      reads this
    {
      Counter(pulses, lastEdge, lastLevel)
    }

    method ResetCounters()
      modifies this`pulses, this`lastEdge, this`lastLevel, world`readCount
      ensures Registers() == Counter(0, 0, world.st.level(old(world.readCount)))
      ensures world.readCount == old(world.readCount) + 1
    {
      pulses := 0;
      lastEdge := 0;
      lastLevel := world.Read();
    }

    method PollOnce()
      modifies this`pulses, this`lastEdge, this`lastLevel, world`readCount, world`lookCount
      ensures Registers() == Polled(Threshold(minIntervalUs), old(Registers()),
                                    world.st.level(old(world.readCount)), world.st.clock(old(world.lookCount)))
      ensures world.readCount == old(world.readCount) + 1 && world.lookCount == old(world.lookCount) + 1
    {
      var level := world.Read();
      var now := world.Now();
      if level && !lastLevel {
        if now - lastEdge >= Threshold(minIntervalUs) {
          pulses := pulses + 1;
          lastEdge := now;
        }
      }
      lastLevel := level;
    }
  }

  class Controller {
    const hopper: Hopper
    const cfg: Config

    constructor (hopper: Hopper, cfg: Config)
      ensures this.hopper == hopper && this.cfg == cfg
    {
      this.hopper, this.cfg := hopper, cfg;
    }

    function JobFor(coins: int, start: nat): Job {
      Job(cfg, hopper.pulsesPerCoin, Threshold(hopper.minIntervalUs), coins, Budget(cfg, coins), start)
    }

    /** The job is one for this hopper with these settings. */
    predicate Fits(j: Job) {
      j.cfg == cfg && j.pulsesPerCoin == hopper.pulsesPerCoin && j.threshold == Threshold(hopper.minIntervalUs)
    }

    /** The poll, with the controller's own note of the last pulse. */
    method Poll(lastPulses: nat, lastPulseTime: nat, ghost w: Watch)
      returns (pulses: nat, pulseTime: nat, now: nat, ghost s: Sample)
      requires w == Watch(hopper.Registers(), lastPulseTime) && lastPulses == hopper.pulses
      modifies hopper`pulses, hopper`lastEdge, hopper`lastLevel, hopper.world
      ensures Watch(hopper.Registers(), pulseTime) == Observe(Threshold(hopper.minIntervalUs), w, s)
      ensures pulses == hopper.pulses && now == s.now
      ensures hopper.world.readCount == old(hopper.world.readCount) + 1
      ensures hopper.world.lookCount == old(hopper.world.lookCount) + 2
      ensures var st, look := hopper.world.st, old(hopper.world.lookCount);
              s == Sample(st.level(old(hopper.world.readCount)), st.clock(look), st.clock(look + 1))
    {
      ghost var st, read, look := hopper.world.st, hopper.world.readCount, hopper.world.lookCount;
      hopper.PollOnce();
      now := hopper.world.Now();
      pulses, pulseTime := hopper.pulses, lastPulseTime;
      if pulses != lastPulses {
        pulseTime := now;
      }
      s := Sample(st.level(read), st.clock(look), now);
    }

    /** Whether the attempt goes on; the motor stops when it does not. */
    method Decide(j: Job, lastPulseTime: nat, now: nat) returns (exit: Exit)
      requires Fits(j)
      modifies hopper`motorOn
      ensures exit == Verdict(j, Watch(hopper.Registers(), lastPulseTime), now)
      ensures hopper.motorOn == (exit == Going && old(hopper.motorOn))
    {
      if Coins(hopper.pulsesPerCoin, hopper.pulses) >= j.coins {
        hopper.motorOn := false;
        return Finished;
      }
      if ElapsedMs(lastPulseTime, now) >= cfg.jamMs {
        hopper.motorOn := false;
        return Jammed;
      }
      if ElapsedMs(j.start, now) >= j.budgetMs {
        hopper.motorOn := false;
        return OutOfTime;
      }
      exit := Going;
    }

    /** The object stands where the attempt so far has led it. */
    ghost predicate Tracks(a: Attempt, read: nat, look: nat, lastPulseTime: nat)
      reads hopper, hopper.world
    {
      && Watch(hopper.Registers(), lastPulseTime) == After(Threshold(hopper.minIntervalUs), a)
      && IsView(hopper.world.st, a, read, look)
      && hopper.world.readCount == read + 1 + |a.samples|
      && hopper.world.lookCount == look + 1 + 2 * |a.samples|
    }

    /** One poll of an attempt and the decision on it. */
    method PollOn(j: Job, lastPulses: nat, lastPulseTime: nat, ghost a: Attempt, ghost read: nat, ghost look: nat)
      returns (exit: Exit, pulses: nat, pulseTime: nat, ghost more: Attempt)
      requires Fits(j) && StillGoing(j, a) && Tracks(a, read, look, lastPulseTime) && lastPulses == hopper.pulses
      modifies hopper, hopper.world
      ensures Tracks(more, read, look, pulseTime) && pulses == hopper.pulses && |more.samples| == |a.samples| + 1
      ensures if exit == Going then StillGoing(j, more) else EndsWith(j, more, exit)
      ensures exit == Going ==> hopper.world.st.clock(hopper.world.lookCount - 1) < Deadline(j)
      ensures hopper.motorOn == (exit == Going && old(hopper.motorOn))
    {
      ViewMore(hopper.world.st, a, read, look, hopper.world.readCount, hopper.world.lookCount);
      var now;
      ghost var s;
      pulses, pulseTime, now, s := Poll(lastPulses, lastPulseTime, After(j.threshold, a));
      Extend(j, a, s);
      more := Add(a, s);
      exit := Decide(j, pulseTime, now);
      if exit == Going {
        GoingMeansTimeIsLeft(j, After(j.threshold, more), now);
      }
    }

    /** One attempt: start the motor and poll until the coins are out, the hopper jams or the
        time is up. */
    method RunAttempt(j: Job, ghost stop: nat) returns (exit: Exit, ghost a: Attempt)
      requires Fits(j) && Passed(hopper.world.st.clock, Deadline(j), stop)
      modifies hopper, hopper.world
      ensures EndsWith(j, a, exit)
      ensures IsView(hopper.world.st, a, old(hopper.world.readCount), old(hopper.world.lookCount))
      ensures hopper.world.readCount == old(hopper.world.readCount) + 1 + |a.samples|
      ensures hopper.world.lookCount == old(hopper.world.lookCount) + 1 + 2 * |a.samples|
      ensures hopper.Registers() == After(j.threshold, a).counter
      ensures !hopper.motorOn
    {
      ghost var read, look := hopper.world.readCount, hopper.world.lookCount;
      hopper.ResetCounters();
      hopper.motorOn := true;
      var lastPulses := hopper.pulses;
      var lastPulseTime := hopper.world.Now();
      a := View(hopper.world.st, read, look, 0);
      while true
        invariant StillGoing(j, a) && Tracks(a, read, look, lastPulseTime) && lastPulses == hopper.pulses
        decreases stop - hopper.world.lookCount
      {
        exit, lastPulses, lastPulseTime, a := PollOn(j, lastPulses, lastPulseTime, a, read, look);
        if exit != Going {
          break;
        }
      }
    }

    /** The attempts of one call, up to the first that does not call for a retry. */
    method RunAttempts(j: Job, ghost stop: nat)
      returns (ok: bool, reason: Reason, attempt: nat, ghost attempts: seq<Attempt>, ghost exit: Exit)
      requires Fits(j) && Passed(hopper.world.st.clock, Deadline(j), stop)
      modifies hopper, hopper.world
      ensures Conducted(j, attempts, exit)
      ensures Seen(hopper.world.st, attempts, old(hopper.world.readCount), old(hopper.world.lookCount))
      ensures hopper.world.readCount == old(hopper.world.readCount) + ReadsOf(attempts)
      ensures hopper.world.lookCount == old(hopper.world.lookCount) + LooksOf(attempts)
      ensures hopper.Registers() ==
              if attempts == [] then old(hopper.Registers())
              else After(j.threshold, attempts[|attempts| - 1]).counter
      ensures hopper.motorOn == (attempts == [] && old(hopper.motorOn))
      ensures ok == (exit == Finished) && attempt == (if attempts == [] then 0 else |attempts| - 1)
      ensures reason == if exit == Jammed then Jam else ReasonFor(exit, j.coins, Coins(j.pulsesPerCoin, hopper.pulses))
    {
      var world := hopper.world;
      ghost var st, read, look := world.st, world.readCount, world.lookCount;
      ok, reason, attempt, attempts, exit := false, Abort, 0, [], Going;
      while attempt <= cfg.maxRetries
        invariant |attempts| == attempt && exit == Going
        invariant if attempts == [] then
                    !ok && reason == Abort && hopper.Registers() == old(hopper.Registers()) &&
                    hopper.motorOn == old(hopper.motorOn)
                  else attempt <= cfg.maxRetries
        invariant AllJammed(j, attempts) && Seen(st, attempts, read, look)
        invariant world.readCount == read + ReadsOf(attempts)
        invariant world.lookCount == look + LooksOf(attempts)
        decreases cfg.maxRetries - attempt
      {
        var end;
        ghost var a;
        ghost var thisRead, thisLook := world.readCount, world.lookCount;
        end, a := RunAttempt(j, stop);
        SeenMore(st, attempts, a, read, look, thisRead, thisLook);
        PlacesMore(attempts, a);
        ok := end == Finished;
        reason := match end
          case Finished => Ok
          case OutOfTime => if Coins(hopper.pulsesPerCoin, hopper.pulses) > 0 then Partial else Timeout
          case _ => Jam;
        if end != Jammed || attempt == cfg.maxRetries {
          ConductedBy(j, attempts, a, end);
          attempts, exit := attempts + [a], end;
          break;
        }
        JammedMore(j, attempts, a);
        attempts, attempt := attempts + [a], attempt + 1;
      }
    }

    /** The report, once the attempts are over. */
    method Conclude(j: Job, ok: bool, reason: Reason, attempt: nat, ghost attempts: seq<Attempt>, ghost exit: Exit)
      returns (res: Report)
      requires Fits(j) && ok == (exit == Finished) && attempt == if attempts == [] then 0 else |attempts| - 1
      requires reason == if exit == Jammed then Jam else ReasonFor(exit, j.coins, Coins(j.pulsesPerCoin, hopper.pulses))
      modifies hopper.world`lookCount
      ensures hopper.world.lookCount == old(hopper.world.lookCount) + 1
      ensures res == ReportFor(j, hopper.pulses, |attempts|, exit,
                               ElapsedMs(j.start, hopper.world.st.clock(old(hopper.world.lookCount))))
    {
      var dispensed := Coins(hopper.pulsesPerCoin, hopper.pulses);
      var finish := hopper.world.Now();
      res := Report(ok, j.coins, dispensed, hopper.pulses, attempt, reason, ElapsedMs(j.start, finish));
      if !res.ok && res.reason == Jam && res.dispensed > 0 && res.dispensed < res.requested {
        res := res.(reason := Partial);
      }
    }

    /** The whole job, from its start time on. */
    method CarryOut(j: Job) returns (res: Report, ghost attempts: seq<Attempt>, ghost exit: Exit)
      requires Fits(j) && Advances(hopper.world.st.clock)
      modifies hopper, hopper.world
      ensures Conducted(j, attempts, exit)
      ensures Seen(hopper.world.st, attempts, old(hopper.world.readCount), old(hopper.world.lookCount))
      ensures hopper.world.readCount == old(hopper.world.readCount) + ReadsOf(attempts)
      ensures hopper.world.lookCount == old(hopper.world.lookCount) + LooksOf(attempts) + 1
      ensures hopper.Registers() == if attempts == [] then old(hopper.Registers())
                                    else After(j.threshold, attempts[|attempts| - 1]).counter
      ensures res == ReportFor(j, hopper.pulses, |attempts|, exit,
                               ElapsedMs(j.start, hopper.world.st.clock(hopper.world.lookCount - 1)))
      ensures hopper.motorOn == (attempts == [] && old(hopper.motorOn))
    {
      ghost var stop := TimeRunsOut(hopper.world.st.clock, Deadline(j));
      var ok, reason, attempt;
      ok, reason, attempt, attempts, exit := RunAttempts(j, stop);
      res := Conclude(j, ok, reason, attempt, attempts, exit);
    }

    /** Dispense coins, retrying after a jam: the attempts start at the next look at the clock.
        ContractKept says what the report then promises. */
    method DispenseCoins(coins: int)
      returns (res: Report, ghost j: Job, ghost look: nat, ghost attempts: seq<Attempt>, ghost exit: Exit)
      requires Advances(hopper.world.st.clock)
      modifies hopper, hopper.world
      ensures j == JobFor(coins, hopper.world.st.clock(old(hopper.world.lookCount)))
      ensures look == old(hopper.world.lookCount) + 1
      ensures Conducted(j, attempts, exit)
      ensures Seen(hopper.world.st, attempts, old(hopper.world.readCount), look)
      ensures hopper.world.readCount == old(hopper.world.readCount) + ReadsOf(attempts)
      ensures hopper.world.lookCount == look + LooksOf(attempts) + 1
      ensures hopper.Registers() == if attempts == [] then old(hopper.Registers())
                                    else After(j.threshold, attempts[|attempts| - 1]).counter
      ensures res == ReportFor(j, hopper.pulses, |attempts|, exit,
                               ElapsedMs(j.start, hopper.world.st.clock(hopper.world.lookCount - 1)))
      ensures hopper.motorOn == (attempts == [] && old(hopper.motorOn))
    {
      var start := hopper.world.Now();
      look := hopper.world.lookCount;
      var job := JobFor(coins, start);
      j := job;
      res, attempts, exit := CarryOut(job);
    }
  }
}
