/** What making change answers, on the stock's and the drivers' own terms. */
module ChangeAnswers {
  import opened Basics
  import opened Change

  // ---- The plan

  /** A plan may empty a hopper that holds more than its threshold, and may not touch any other. */
  predicate MayUse(m: Stocks, d: Denom, n: int) {
    n == if d in m && m[d].count > 0 && m[d].count > m[d].lowThreshold then m[d].count else 0
  }

  lemma UsableExactly(m: Stocks, d: Denom)
    ensures MayUse(m, d, Usable(m, d))
  {
  }

  /** No coin of the kind is left to use, or none fits any more. */
  predicate TakesMost(taken: int, usable: int, worth: int, left: int) {
    0 <= taken <= usable && left >= 0 && (taken == usable || left < worth)
  }

  /** Kind by kind, from the largest down, the plan takes all the coins that are there and fit. */
  ghost predicate TakesLargestFirst(m: Stocks, change: int, x: Purse, left: int) {
    exists uq, ud, un, up ::
      && MayUse(m, Quarter, uq) && MayUse(m, Dime, ud) && MayUse(m, Nickel, un) && MayUse(m, Penny, up)
      && TakesMost(x.q, uq, 25, change - 25 * x.q)
      && TakesMost(x.d, ud, 10, change - 25 * x.q - 10 * x.d)
      && TakesMost(x.n, un, 5, change - 25 * x.q - 10 * x.d - 5 * x.n)
      && TakesMost(x.p, up, 1, change - 25 * x.q - 10 * x.d - 5 * x.n - x.p)
      && left == change - 25 * x.q - 10 * x.d - 5 * x.n - x.p
  }

  lemma FittingTakesMost(v: nat, u: nat)
    ensures TakesMost(Min(v / 25, u), u, 25, v - 25 * Min(v / 25, u))
    ensures TakesMost(Min(v / 10, u), u, 10, v - 10 * Min(v / 10, u))
    ensures TakesMost(Min(v / 5, u), u, 5, v - 5 * Min(v / 5, u))
    ensures TakesMost(Min(v, u), u, 1, v - Min(v, u))
  {
  }

  lemma PaidTakesMost(m: Stocks, v: nat, u: Purse, left: int)
    requires MayUse(m, Quarter, u.q) && MayUse(m, Dime, u.d) && MayUse(m, Nickel, u.n) && MayUse(m, Penny, u.p)
    requires Payable(u) && left == v - Worth(Paid(v, u.q, u.d, u.n, u.p))
    ensures TakesLargestFirst(m, v, Paid(v, u.q, u.d, u.n, u.p), left)
  {
    var x := Paid(v, u.q, u.d, u.n, u.p);
    FittingTakesMost(v, u.q);
    var l1: nat := v - 25 * x.q;
    FittingTakesMost(l1, u.d);
    var l2: nat := l1 - 10 * x.d;
    FittingTakesMost(l2, u.n);
    FittingTakesMost(l2 - 5 * x.n, u.p);
  }

  /** Of the purses, only one takes the largest first: this fixes the plan. */
  lemma LargestFirstIsUnique(m: Stocks, change: int, x: Purse, y: Purse, a: int, b: int)
    requires TakesLargestFirst(m, change, x, a) && TakesLargestFirst(m, change, y, b)
    ensures x == y && a == b
  {
    assert x.q == y.q;
    assert x.d == y.d;
    assert x.n == y.n;
  }

  lemma PlanTakesLargestFirst(m: Stocks, change: nat)
    ensures TakesLargestFirst(m, change, PurseOf(PlanFor(m, change).plan), PlanFor(m, change).left)
  {
    PlanPays(m, change);
    PlanConservesValue(m, change);
    UsableExactly(m, Quarter);
    UsableExactly(m, Dime);
    UsableExactly(m, Nickel);
    UsableExactly(m, Penny);
    PaidTakesMost(m, change, UsablePurse(m), PlanFor(m, change).left);
  }

  lemma NothingDueNothingPlanned(m: Stocks, change: int)
    requires change <= 0
    ensures PlanFor(m, change) == Planned([], change)
  {
    GreedyUnrolled(m, change);
  }

  // ---- Paying it out

  predicate ShortAt(attached: set<Denom>, plan: seq<PlanItem>, answers: seq<Answer>, i: nat)
    requires i < |plan| == |answers|
  {
    plan[i].denom !in attached || answers[i].dispensed < plan[i].count || !answers[i].ok
  }

  /** What a short item is reported as. */
  function Told(attached: set<Denom>, item: PlanItem, a: Answer): Reason {
    if item.denom !in attached then NoHopper else if a.reason == Blank then Partial else a.reason
  }

  function PulsesSeen(attached: set<Denom>, plan: seq<PlanItem>, answers: seq<Answer>): int
    requires |answers| == |plan|
  {
    if plan == [] then 0
    else
      var n := |plan| - 1;
      PulsesSeen(attached, plan[..n], answers[..n]) + if plan[n].denom in attached then answers[n].pulses else 0
  }

  /** Paying never changes which denominations are known. */
  lemma {:induction false} KnownStays(m: Stocks, attached: set<Denom>, plan: seq<PlanItem>, answers: seq<Answer>)
    requires |answers| == |plan|
    ensures PayAll(m, attached, plan, answers).stocks.Keys == m.Keys
  {
    if plan != [] {
      KnownStays(m, attached, plan[..|plan| - 1], answers[..|plan| - 1]);
    }
  }

  /** The lookup throws exactly when an attached hopper's denomination is not in the stock. */
  lemma {:induction false} ThrowsExactly(m: Stocks, attached: set<Denom>, plan: seq<PlanItem>, answers: seq<Answer>)
    requires |answers| == |plan|
    ensures PayAll(m, attached, plan, answers).stats.None?
            <==> exists i :: 0 <= i < |plan| && plan[i].denom in attached && plan[i].denom !in m
  {
    if plan != [] {
      var n := |plan| - 1;
      ThrowsExactly(m, attached, plan[..n], answers[..n]);
      KnownStays(m, attached, plan[..n], answers[..n]);
      assert forall i :: 0 <= i < n ==> plan[..n][i] == plan[i];
    }
  }

  /** What is reported of item i, and of all together. */
  lemma {:induction false} FulfilledExactly(
    m: Stocks, attached: set<Denom>, plan: seq<PlanItem>, answers: seq<Answer>, i: nat)
    requires i < |plan| == |answers| && PayAll(m, attached, plan, answers).stats.Some?
    ensures var st := PayAll(m, attached, plan, answers).stats.value;
            && |st.fulfilled| == |plan|
            && st.fulfilled[i] == PlanItem(plan[i].denom, if plan[i].denom in attached then answers[i].dispensed else 0)
            && st.pulses == PulsesSeen(attached, plan, answers)
  {
    var n := |plan| - 1;
    if i < n {
      FulfilledExactly(m, attached, plan[..n], answers[..n], i);
    } else if n > 0 {
      FulfilledExactly(m, attached, plan[..n], answers[..n], 0);
    }
  }

  /** The reason given is that of the last item that fell short. */
  lemma {:induction false} LastShortfallIsTold(
    m: Stocks, attached: set<Denom>, plan: seq<PlanItem>, answers: seq<Answer>, i: nat)
    requires i < |plan| == |answers| && PayAll(m, attached, plan, answers).stats.Some?
    requires ShortAt(attached, plan, answers, i)
    requires forall j :: i < j < |plan| ==> !ShortAt(attached, plan, answers, j)
    ensures var st := Closing(PayAll(m, attached, plan, answers).stats.value);
            !st.ok && st.reason == Told(attached, plan[i], answers[i])
  {
    var n := |plan| - 1;
    if i < n {
      assert !ShortAt(attached, plan, answers, n);
      forall j | i < j < n
        ensures !ShortAt(attached, plan[..n], answers[..n], j)
      {
        assert !ShortAt(attached, plan, answers, j);
      }
      LastShortfallIsTold(m, attached, plan[..n], answers[..n], i);
    }
  }

  lemma {:induction false} NoShortfallIsOk(m: Stocks, attached: set<Denom>, plan: seq<PlanItem>, answers: seq<Answer>)
    requires |plan| == |answers| && PayAll(m, attached, plan, answers).stats.Some?
    requires forall j :: 0 <= j < |plan| ==> !ShortAt(attached, plan, answers, j)
    ensures var st := Closing(PayAll(m, attached, plan, answers).stats.value);
            st.ok && st.reason == Ok
  {
    if plan != [] {
      var n := |plan| - 1;
      assert !ShortAt(attached, plan, answers, n);
      forall j | 0 <= j < n
        ensures !ShortAt(attached, plan[..n], answers[..n], j)
      {
        assert !ShortAt(attached, plan, answers, j);
      }
      NoShortfallIsOk(m, attached, plan[..n], answers[..n]);
    }
  }
}
