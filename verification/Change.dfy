/** Making change: the greedy plan over the hopper stock, and paying it out. */
module Change {
  import opened Basics

  datatype Denom = Quarter | Dime | Nickel | Penny

  function ItemValue(item: PlanItem): int {
    match item.denom
    case Quarter => 25 * item.count
    case Dime => 10 * item.count
    case Nickel => 5 * item.count
    case Penny => item.count
  }

  const Order: seq<Denom> := [Quarter, Dime, Nickel, Penny]

  datatype Stock = Stock(count: int, lowThreshold: int)

  type Stocks = map<Denom, Stock>

  datatype PlanItem = PlanItem(denom: Denom, count: int)

  // ---- Stock

  predicate Low(m: Stocks, d: Denom) {
    d !in m || m[d].count <= m[d].lowThreshold
  }

  function Count(m: Stocks, d: Denom): int {
    if d in m then m[d].count else 0
  }

  /** The coins a plan may use. */
  function Usable(m: Stocks, d: Denom): nat {
    if d !in m || m[d].count <= 0 then 0
    else if Low(m, d) then Max(0, m[d].count - m[d].lowThreshold)
    else m[d].count
  }

  function Take(s: Stock, n: int): Stock {
    s.(count := s.count - Min(n, s.count))
  }

  // ---- The greedy plan

  datatype Planned = Planned(plan: seq<PlanItem>, left: int)

  /** How many coins of a denomination fit into what is left. */
  function Need(d: Denom, left: int): int {
    match d
    case Quarter => left / 25
    case Dime => left / 10
    case Nickel => left / 5
    case Penny => left
  }

  /** How many coins of a denomination the plan takes when so much is left. */
  function Use(m: Stocks, d: Denom, left: int): int {
    if left <= 0 then 0 else Min(Need(d, left), Usable(m, d))
  }

  function PlanStep(m: Stocks, p: Planned, d: Denom): Planned {
    var use := Use(m, d, p.left);
    if use <= 0 then p else Planned(p.plan + [PlanItem(d, use)], p.left - ItemValue(PlanItem(d, use)))
  }

  /** The plan after the given denominations. */
  function Greedy(m: Stocks, change: int, order: seq<Denom>): Planned {
    if order == [] then Planned([], change)
    else PlanStep(m, Greedy(m, change, order[..|order| - 1]), order[|order| - 1])
  }

  function PlanFor(m: Stocks, change: int): Planned {
    Greedy(m, change, Order)
  }

  /** Coins of each kind. */
  datatype Purse = Purse(q: int, d: int, n: int, p: int)

  predicate Payable(x: Purse) {
    x.q >= 0 && x.d >= 0 && x.n >= 0 && x.p >= 0
  }

  function Worth(x: Purse): int {
    25 * x.q + 10 * x.d + 5 * x.n + x.p
  }

  function Size(x: Purse): int {
    x.q + x.d + x.n + x.p
  }

  function Add(x: Purse, item: PlanItem): Purse {
    match item.denom
    case Quarter => x.(q := x.q + item.count)
    case Dime => x.(d := x.d + item.count)
    case Nickel => x.(n := x.n + item.count)
    case Penny => x.(p := x.p + item.count)
  }

  function PurseOf(plan: seq<PlanItem>): Purse {
    if plan == [] then Purse(0, 0, 0, 0) else Add(PurseOf(plan[..|plan| - 1]), plan[|plan| - 1])
  }

  function Value(plan: seq<PlanItem>): int {
    Worth(PurseOf(plan))
  }

  function Coins(plan: seq<PlanItem>): int {
    Size(PurseOf(plan))
  }

  lemma AddWorth(x: Purse, item: PlanItem)
    ensures Worth(Add(x, item)) == Worth(x) + ItemValue(item)
    ensures Size(Add(x, item)) == Size(x) + item.count
  {
  }

  lemma Snoc(plan: seq<PlanItem>, item: PlanItem)
    ensures (plan + [item])[..|plan + [item]| - 1] == plan
    ensures Value(plan + [item]) == Value(plan) + ItemValue(item)
    ensures PurseOf(plan + [item]) == Add(PurseOf(plan), item)
  {
    assert (plan + [item])[..|plan + [item]| - 1] == plan;
    AddWorth(PurseOf(plan), item);
  }

  /** A plan the stock can pay: one item a denomination, none more than is there. */
  predicate Covered(m: Stocks, plan: seq<PlanItem>) {
    plan == [] ||
    (var front, item := plan[..|plan| - 1], plan[|plan| - 1];
     && Covered(m, front) && item.denom in m && 0 < item.count <= m[item.denom].count
     && !Mentions(front, item.denom))
  }

  predicate Mentions(plan: seq<PlanItem>, d: Denom) {
    plan != [] && (plan[|plan| - 1].denom == d || Mentions(plan[..|plan| - 1], d))
  }

  lemma UseFits(m: Stocks, d: Denom, left: int)
    ensures Use(m, d, left) > 0 ==> d in m && Use(m, d, left) <= m[d].count && !Low(m, d)
  {
  }

  lemma SnocCovered(m: Stocks, plan: seq<PlanItem>, item: PlanItem)
    requires Covered(m, plan) && !Mentions(plan, item.denom)
    requires item.denom in m && 0 < item.count <= m[item.denom].count
    ensures Covered(m, plan + [item])
  {
    assert (plan + [item])[..|plan + [item]| - 1] == plan;
  }

  lemma StepCovered(m: Stocks, p: Planned, d: Denom)
    requires Covered(m, p.plan) && !Mentions(p.plan, d)
    ensures Covered(m, PlanStep(m, p, d).plan)
  {
    UseFits(m, d, p.left);
    if Use(m, d, p.left) > 0 {
      SnocCovered(m, p.plan, PlanItem(d, Use(m, d, p.left)));
    }
  }

  lemma StepConserves(m: Stocks, p: Planned, d: Denom)
    ensures Value(PlanStep(m, p, d).plan) + PlanStep(m, p, d).left == Value(p.plan) + p.left
    ensures 0 <= p.left ==> 0 <= PlanStep(m, p, d).left
  {
    var use := Use(m, d, p.left);
    if use > 0 {
      Snoc(p.plan, PlanItem(d, use));
      NeedFits(p.left, d, use);
    }
  }

  lemma StepMentions(m: Stocks, p: Planned, d: Denom, e: Denom)
    ensures Mentions(PlanStep(m, p, d).plan, e) ==> Mentions(p.plan, e) || e == d
  {
    var use := Use(m, d, p.left);
    if use > 0 {
      Snoc(p.plan, PlanItem(d, use));
    }
  }

  predicate Distinct(order: seq<Denom>) {
    order == [] || (Distinct(order[..|order| - 1]) && order[|order| - 1] !in order[..|order| - 1])
  }

  lemma {:induction false} GreedyMentions(m: Stocks, change: int, order: seq<Denom>, d: Denom)
    ensures Mentions(Greedy(m, change, order).plan, d) ==> d in order
  {
    if order != [] {
      GreedyMentions(m, change, order[..|order| - 1], d);
      StepMentions(m, Greedy(m, change, order[..|order| - 1]), order[|order| - 1], d);
    }
  }

  lemma {:induction false} GreedyCovered(m: Stocks, change: int, order: seq<Denom>)
    requires Distinct(order)
    ensures Covered(m, Greedy(m, change, order).plan)
  {
    if order != [] {
      GreedyCovered(m, change, order[..|order| - 1]);
      GreedyMentions(m, change, order[..|order| - 1], order[|order| - 1]);
      StepCovered(m, Greedy(m, change, order[..|order| - 1]), order[|order| - 1]);
    }
  }

  lemma {:induction false} GreedyConserves(m: Stocks, change: int, order: seq<Denom>)
    ensures Value(Greedy(m, change, order).plan) + Greedy(m, change, order).left == change
    ensures 0 <= change ==> 0 <= Greedy(m, change, order).left
  {
    if order != [] {
      GreedyConserves(m, change, order[..|order| - 1]);
      StepConserves(m, Greedy(m, change, order[..|order| - 1]), order[|order| - 1]);
    }
  }

  /** A low hopper, or a missing one, contributes nothing. */
  lemma {:induction false} LowHoppersAreSpared(m: Stocks, change: int, order: seq<Denom>, d: Denom)
    requires d !in m || m[d].count <= m[d].lowThreshold
    ensures !Mentions(Greedy(m, change, order).plan, d)
  {
    if order != [] {
      LowHoppersAreSpared(m, change, order[..|order| - 1], d);
      StepMentions(m, Greedy(m, change, order[..|order| - 1]), order[|order| - 1], d);
    }
  }

  lemma NeedFits(left: int, d: Denom, use: int)
    requires 0 <= use <= Need(d, left)
    ensures 0 <= ItemValue(PlanItem(d, use)) <= left
  {
  }

  /** The plan is worth the change less what is left, and it never asks for more coins of a kind
      than the stock has. */
  lemma PlanConservesValue(m: Stocks, change: int)
    ensures Value(PlanFor(m, change).plan) + PlanFor(m, change).left == change
    ensures 0 <= change ==> 0 <= PlanFor(m, change).left
    ensures Covered(m, PlanFor(m, change).plan)
  {
    OrderPrefixes();
    GreedyCovered(m, change, Order);
    GreedyConserves(m, change, Order);
  }

  // ---- Fewest coins

  /** The greedy needs of an amount. */
  function Canon(v: nat): Purse {
    var q := v / 25;
    var l1 := v - 25 * q;
    var d := l1 / 10;
    var l2 := l1 - 10 * d;
    var n := l2 / 5;
    Purse(q, d, n, l2 - 5 * n)
  }

  /** A purse whose small coins cannot be exchanged for a larger one. */
  predicate Settled(x: Purse) {
    Payable(x) && x.p <= 4 && x.n <= 1 && x.d <= 2 && !(x.d == 2 && x.n == 1)
  }

  /** The settled purses of one worth are the same, and they are the greedy needs. */
  lemma SettledIsCanon(x: Purse, v: nat)
    requires Worth(x) == v
    ensures Settled(x) <==> x == Canon(v)
  {
    CanonSettled(v);
    SettledUnique(x, Canon(v));
  }

  lemma CanonSettled(v: nat)
    ensures Settled(Canon(v)) && Worth(Canon(v)) == v
  {
  }

  lemma SettledUnique(x: Purse, y: Purse)
    requires Worth(x) == Worth(y) && Settled(y)
    ensures Settled(x) ==> x == y
  {
  }

  /** The purse y is worth as much as x in no more coins, and in fewer unless it is x. */
  predicate Improves(x: Purse, y: Purse) {
    Payable(y) && Worth(y) == Worth(x) && Size(y) <= Size(x) && (Size(y) == Size(x) ==> y == x)
  }

  lemma ExchangePennies(x: Purse) returns (y: Purse)
    requires Payable(x)
    ensures Improves(x, y) && y.p <= 4
  {
    var a := x.p / 5;
    y := Purse(x.q, x.d, x.n + a, x.p - 5 * a);
  }

  lemma ExchangeNickels(x: Purse) returns (y: Purse)
    requires Payable(x)
    ensures Improves(x, y) && y.p == x.p && y.n <= 1
  {
    var a := x.n / 2;
    y := Purse(x.q, x.d + a, x.n - 2 * a, x.p);
  }

  lemma ExchangeFiveDimes(x: Purse) returns (y: Purse)
    requires Payable(x)
    ensures Improves(x, y) && y.p == x.p && y.n == x.n && y.d <= 4
  {
    var a := x.d / 5;
    y := Purse(x.q + 2 * a, x.d - 5 * a, x.n, x.p);
  }

  lemma ExchangeDimes(x: Purse) returns (y: Purse)
    requires Payable(x) && x.n <= 1 && x.d <= 4
    ensures Improves(x, y) && y.p == x.p && y.n <= 1 && y.d <= 2 && !(y.d == 2 && y.n == 1)
  {
    y := if x.d < 2 || (x.d == 2 && x.n == 0) then x
         else if x.n == 1 then Purse(x.q + 1, x.d - 2, 0, x.p)
         else Purse(x.q + 1, x.d - 3, 1, x.p);
  }

  /** Exchanging small coins for large ones of the same worth ends in a settled purse. */
  lemma Exchange(x: Purse) returns (y: Purse)
    requires Payable(x)
    ensures Improves(x, y) && Settled(y)
  {
    var x1 := ExchangePennies(x);
    var x2 := ExchangeNickels(x1);
    var x3 := ExchangeFiveDimes(x2);
    y := ExchangeDimes(x3);
  }

  /** No purse is smaller than a settled one of the same worth. */
  lemma SettledIsFewest(x: Purse, y: Purse)
    requires Payable(x) && Settled(y) && Worth(x) == Worth(y)
    ensures Size(y) <= Size(x)
  {
    var z := Exchange(x);
    SettledUnique(z, y);
  }

  /** The stock holds, for each denomination, what the greedy needs ask for. */
  predicate Stocked(m: Stocks, change: nat) {
    var need := Canon(change);
    need.q <= Usable(m, Quarter) && need.d <= Usable(m, Dime) && need.n <= Usable(m, Nickel) && need.p <= Usable(m, Penny)
  }

  lemma {:induction false} PursePayable(m: Stocks, plan: seq<PlanItem>)
    requires Covered(m, plan)
    ensures Payable(PurseOf(plan))
  {
    if plan != [] {
      PursePayable(m, plan[..|plan| - 1]);
    }
  }

  lemma StepUses(m: Stocks, p: Planned, d: Denom)
    requires p.left >= 0
    ensures var s := PlanStep(m, p, d);
            && s.left == p.left - ItemValue(PlanItem(d, Use(m, d, p.left))) && s.left >= 0
            && PurseOf(s.plan) == Add(PurseOf(p.plan), PlanItem(d, Use(m, d, p.left)))
  {
    var use := Use(m, d, p.left);
    if use > 0 {
      Snoc(p.plan, PlanItem(d, use));
      NeedFits(p.left, d, use);
    } else {
      assert use == 0;
    }
  }

  /** The coins of the plan, denomination by denomination. */
  lemma GreedyUses(m: Stocks, change: nat) returns (l1: nat, l2: nat, l3: nat)
    ensures l1 == change - 25 * Use(m, Quarter, change)
    ensures l2 == l1 - 10 * Use(m, Dime, l1)
    ensures l3 == l2 - 5 * Use(m, Nickel, l2)
    ensures PurseOf(PlanFor(m, change).plan)
            == Purse(Use(m, Quarter, change), Use(m, Dime, l1), Use(m, Nickel, l2), Use(m, Penny, l3))
    ensures PlanFor(m, change).left == l3 - Use(m, Penny, l3)
  {
    var g0 := Planned([], change);
    var g1 := PlanStep(m, g0, Quarter);
    var g2 := PlanStep(m, g1, Dime);
    var g3 := PlanStep(m, g2, Nickel);
    StepUses(m, g0, Quarter);
    StepUses(m, g1, Dime);
    StepUses(m, g2, Nickel);
    StepUses(m, g3, Penny);
    l1, l2, l3 := g1.left, g2.left, g3.left;
    GreedyUnrolled(m, change);
  }

  lemma OrderPrefixes()
    ensures Order[..3] == [Quarter, Dime, Nickel] && Order[..3][..2] == [Quarter, Dime]
    ensures Order[..3][..2][..1] == [Quarter] && Order[..3][..2][..1][..0] == []
    ensures Distinct(Order)
  {
    assert [Quarter, Dime, Nickel, Penny][..3] == [Quarter, Dime, Nickel];
    assert [Quarter, Dime, Nickel][..2] == [Quarter, Dime];
    assert [Quarter, Dime][..1] == [Quarter];
    assert Distinct([Quarter]);
    assert Distinct([Quarter, Dime]);
    assert Distinct([Quarter, Dime, Nickel]);
  }

  lemma GreedyUnrolled(m: Stocks, change: int)
    ensures PlanFor(m, change) ==
            PlanStep(m, PlanStep(m, PlanStep(m, PlanStep(m, Planned([], change), Quarter), Dime), Nickel), Penny)
  {
    OrderPrefixes();
    assert Greedy(m, change, []) == Planned([], change);
    assert Greedy(m, change, [Quarter]) == PlanStep(m, Greedy(m, change, []), Quarter);
    assert Greedy(m, change, [Quarter, Dime]) == PlanStep(m, Greedy(m, change, [Quarter]), Dime);
    assert Greedy(m, change, [Quarter, Dime, Nickel]) == PlanStep(m, Greedy(m, change, [Quarter, Dime]), Nickel);
  }

  /** The coins paid out of so many usable ones, denomination by denomination. */
  function Paid(v: nat, uq: nat, ud: nat, un: nat, up: nat): Purse {
    var q := Min(v / 25, uq);
    var l1 := v - 25 * q;
    var d := Min(l1 / 10, ud);
    var l2 := l1 - 10 * d;
    var n := Min(l2 / 5, un);
    Purse(q, d, n, Min(l2 - 5 * n, up))
  }

  lemma PaidIsCanon(v: nat, uq: nat, ud: nat, un: nat, up: nat)
    ensures Paid(v, uq, ud, un, up) == Canon(v) <==>
            Canon(v).q <= uq && Canon(v).d <= ud && Canon(v).n <= un && Canon(v).p <= up
  {
  }

  lemma PlanPays(m: Stocks, change: nat)
    ensures PurseOf(PlanFor(m, change).plan)
            == Paid(change, Usable(m, Quarter), Usable(m, Dime), Usable(m, Nickel), Usable(m, Penny))
  {
    var l1, l2, l3 := GreedyUses(m, change);
  }

  /** The plan is the greedy purse exactly when the stock holds the greedy needs. */
  lemma StockedMeetsNeeds(m: Stocks, change: nat)
    ensures PurseOf(PlanFor(m, change).plan) == Canon(change) <==> Stocked(m, change)
  {
    PlanPays(m, change);
    PaidIsCanon(change, Usable(m, Quarter), Usable(m, Dime), Usable(m, Nickel), Usable(m, Penny));
  }

  /** All of the change is paid, and no way to pay it takes fewer coins. */
  ghost predicate PaysWithFewest(change: nat, coins: int, left: int) {
    left == 0 && forall x: Purse :: Payable(x) && Worth(x) == change ==> coins <= Size(x)
  }

  /** A purse pays an amount with the fewest coins exactly when it is settled. */
  lemma FewestIsSettled(change: nat, x: Purse, left: int)
    requires Payable(x) && Worth(x) + left == change && left >= 0
    ensures PaysWithFewest(change, Size(x), left) <==> left == 0 && Settled(x)
  {
    if Settled(x) && left == 0 {
      forall y: Purse | Payable(y) && Worth(y) == change
        ensures Size(x) <= Size(y)
      {
        SettledIsFewest(y, x);
      }
    }
    if PaysWithFewest(change, Size(x), left) {
      var y := Exchange(x);
      assert Size(x) <= Size(y);
    }
  }

  lemma CanonLeavesNothing(change: nat, x: Purse, left: int)
    requires Worth(x) + left == change
    ensures left == 0 && Settled(x) <==> x == Canon(change)
  {
    CanonSettled(change);
    if left == 0 {
      SettledIsCanon(x, change);
    }
  }

  lemma FewestPlan(m: Stocks, change: nat, p: Planned)
    requires Covered(m, p.plan) && Worth(PurseOf(p.plan)) + p.left == change && p.left >= 0
    ensures PaysWithFewest(change, Coins(p.plan), p.left) <==> PurseOf(p.plan) == Canon(change)
  {
    PursePayable(m, p.plan);
    FewestIsSettled(change, PurseOf(p.plan), p.left);
    CanonLeavesNothing(change, PurseOf(p.plan), p.left);
  }

  /** The plan pays the whole change with the fewest coins exactly when every hopper that the
      greedy needs call on holds enough usable coins. */
  lemma FewestCoinsExactlyWhenStocked(m: Stocks, change: nat)
    ensures var p := PlanFor(m, change);
            PaysWithFewest(change, Coins(p.plan), p.left) <==> Stocked(m, change)
  {
    PlanConservesValue(m, change);
    StockedMeetsNeeds(m, change);
    FewestPlan(m, change, PlanFor(m, change));
  }

  // ---- Amounts that are payable but left unpaid

  /** The coins are there. */
  predicate Within(x: Purse, u: Purse) {
    0 <= x.q <= u.q && 0 <= x.d <= u.d && 0 <= x.n <= u.n && 0 <= x.p <= u.p
  }

  function UsablePurse(m: Stocks): Purse {
    Purse(Usable(m, Quarter), Usable(m, Dime), Usable(m, Nickel), Usable(m, Penny))
  }

  /** Some choice of usable coins is worth the amount. */
  ghost predicate Affordable(u: Purse, v: int) {
    exists x: Purse :: Within(x, u) && Worth(x) == v
  }

  /** What the greedy choice among the usable coins leaves. */
  function Left(v: nat, u: Purse): int
    requires Payable(u)
  {
    v - Worth(Paid(v, u.q, u.d, u.n, u.p))
  }

  /** What the greedy choice of dimes, nickels and pennies leaves. */
  function SmallLeft(r: nat, u: Purse): int
    requires Payable(u)
  {
    var d := Min(r / 10, u.d);
    var l := r - 10 * d;
    var n := Min(l / 5, u.n);
    l - 5 * n - Min(l - 5 * n, u.p)
  }

  lemma LeftIsSmallLeft(v: nat, u: Purse)
    requires Payable(u)
    ensures var q := Min(v / 25, u.q); 0 <= v - 25 * q && Left(v, u) == SmallLeft(v - 25 * q, u)
  {
  }

  lemma NickelsAndPennies(l: nat, u: Purse, n: int, p: int)
    requires 0 <= n <= u.n && 0 <= p <= u.p && 5 * n + p >= l && (5 * n + p - l) % 5 == 0
    ensures l - 5 * Min(l / 5, u.n) <= u.p
  {
    if l / 5 <= u.n {
      assert l - 5 * (l / 5) == l % 5 == p % 5;
    }
  }

  /** Among dimes, nickels and pennies each divides the next, so the greedy choice pays whatever
      can be paid. */
  lemma SmallGreedyPays(r: nat, u: Purse, x: Purse)
    requires Payable(u) && Within(x, u) && 10 * x.d + 5 * x.n + x.p == r
    ensures SmallLeft(r, u) == 0
  {
    var d := Min(r / 10, u.d);
    var l := r - 10 * d;
    assert x.d <= d;
    assert 5 * x.n + x.p - l == 5 * (2 * (d - x.d));
    NickelsAndPennies(l, u, x.n, x.p);
  }

  /** Half a dollar of small coins can always be put together and replaced by two quarters. */
  lemma TwoMoreQuarters(x: Purse, u: Purse) returns (y: Purse)
    requires Within(x, u) && x.q + 2 <= u.q && 10 * x.d + 5 * x.n + x.p >= 50
    ensures Within(y, u) && Worth(y) == Worth(x) && y.q == x.q + 2
  {
    var d := Min(x.d, 5);
    var n := Min(x.n, (50 - 10 * d) / 5);
    y := Purse(x.q + 2, x.d - d, x.n - n, x.p - (50 - 10 * d - 5 * n));
  }

  /** Whatever is payable is payable with as many quarters as the greedy choice takes, or one less. */
  lemma {:induction false} EnoughQuarters(v: nat, u: Purse, x: Purse) returns (y: Purse)
    requires Within(x, u) && Worth(x) == v
    ensures Within(y, u) && Worth(y) == v && Min(v / 25, u.q) - 1 <= y.q <= Min(v / 25, u.q)
    decreases u.q - x.q
  {
    if x.q + 2 <= Min(v / 25, u.q) {
      y := TwoMoreQuarters(x, u);
      y := EnoughQuarters(v, u, y);
    } else {
      y := x;
    }
  }

  lemma PaidIsWithin(v: nat, u: Purse)
    requires Payable(u)
    ensures Within(Paid(v, u.q, u.d, u.n, u.p), u)
  {
  }

  lemma QuartersPaid(v: nat, u: Purse)
    requires Payable(u)
    ensures Paid(v, u.q, u.d, u.n, u.p).q == Min(v / 25, u.q)
  {
  }

  /** The usable coins can pay an amount exactly when the greedy choice leaves nothing, or would
      leave nothing if it had one quarter less than it takes. */
  lemma AffordableExactly(v: nat, u: Purse)
    requires Payable(u)
    ensures var q := Min(v / 25, u.q);
            Affordable(u, v) <==> Left(v, u) == 0 || (q >= 1 && Left(v, u.(q := q - 1)) == 0)
  {
    var q := Min(v / 25, u.q);
    if Affordable(u, v) {
      var x: Purse :| Within(x, u) && Worth(x) == v;
      var y := EnoughQuarters(v, u, x);
      FollowsQuarters(v, u, y);
    }
    PaidIsWithin(v, u);
    if Left(v, u) == 0 {
      assert Worth(Paid(v, u.q, u.d, u.n, u.p)) == v;
    }
    if q >= 1 {
      var fewer := u.(q := q - 1);
      PaidIsWithin(v, fewer);
      if Left(v, fewer) == 0 {
        assert Within(Paid(v, fewer.q, fewer.d, fewer.n, fewer.p), u);
      }
    }
  }

  lemma FollowsQuarters(v: nat, u: Purse, y: Purse)
    requires Payable(u) && Within(y, u) && Worth(y) == v
    requires Min(v / 25, u.q) - 1 <= y.q <= Min(v / 25, u.q)
    ensures var q := Min(v / 25, u.q);
            Left(v, u) == 0 || (q >= 1 && Left(v, u.(q := q - 1)) == 0)
  {
    var q := Min(v / 25, u.q);
    if y.q == q {
      LeftIsSmallLeft(v, u);
      SmallGreedyPays(v - 25 * q, u, y);
    } else {
      var fewer := u.(q := q - 1);
      LeftIsSmallLeft(v, fewer);
      SmallGreedyPays(v - 25 * (q - 1), fewer, y);
    }
  }

  /** The quarters the plan takes. */
  function QuartersTaken(m: Stocks, change: nat): nat {
    Min(change / 25, Usable(m, Quarter))
  }

  lemma PlanTakesQuarters(m: Stocks, change: nat)
    ensures PurseOf(PlanFor(m, change).plan).q == QuartersTaken(m, change)
  {
    PlanPays(m, change);
    QuartersPaid(change, UsablePurse(m));
  }

  lemma PlanLeaves(m: Stocks, change: nat)
    ensures PlanFor(m, change).left == Left(change, UsablePurse(m))
  {
    PlanConservesValue(m, change);
    PlanPays(m, change);
  }

  /** The stock with just so many usable quarters. */
  function WithQuarters(m: Stocks, q: nat): Stocks {
    m[Quarter := Stock(q, 0)]
  }

  lemma FewerQuarters(m: Stocks, change: nat, q: nat)
    ensures PlanFor(WithQuarters(m, q), change).left == Left(change, UsablePurse(m).(q := q))
  {
    PlanLeaves(WithQuarters(m, q), change);
    assert UsablePurse(WithQuarters(m, q)) == UsablePurse(m).(q := q);
  }

  /** The plan leaves something that the usable coins could pay. */
  ghost predicate Strands(m: Stocks, change: nat) {
    PlanFor(m, change).left != 0 && Affordable(UsablePurse(m), change)
  }

  /** An amount is stranded exactly when the plan leaves something, takes a quarter, and would
      leave nothing with one quarter less. */
  lemma StrandsExactly(m: Stocks, change: nat)
    ensures Strands(m, change) <==>
            && PlanFor(m, change).left != 0 && QuartersTaken(m, change) >= 1
            && PlanFor(WithQuarters(m, QuartersTaken(m, change) - 1), change).left == 0
    ensures PurseOf(PlanFor(m, change).plan).q == QuartersTaken(m, change)
  {
    PlanTakesQuarters(m, change);
    PlanLeaves(m, change);
    AffordableExactly(change, UsablePurse(m));
    if QuartersTaken(m, change) >= 1 {
      FewerQuarters(m, change, QuartersTaken(m, change) - 1);
    }
  }

  /** With one quarter and three dimes usable, thirty cents could be paid, but the plan takes the
      quarter and leaves five cents. */
  lemma GreedyCanStrand()
    ensures var m := map[Quarter := Stock(1, 0), Dime := Stock(3, 0)];
            PlanFor(m, 30).left == 5 && Strands(m, 30)
  {
    var m := map[Quarter := Stock(1, 0), Dime := Stock(3, 0)];
    var l1, l2, l3 := GreedyUses(m, 30);
    var dimes := Purse(0, 3, 0, 0);
    assert Within(dimes, UsablePurse(m)) && Worth(dimes) == 30;
  }

  // ---- Paying a plan out

  /** A driver's answer to one plan item. */
  datatype Answer = Answer(ok: bool, dispensed: int, pulses: int, reason: Reason)

  /** The words a run may end with; a driver may also leave its reason blank. */
  datatype Reason = Ok | Blank | NoHopper | Partial | Other(code: int)

  datatype Stats = Stats(ok: bool, reason: Reason, pulses: int, coins: int, fulfilled: seq<PlanItem>)

  /** The stock and the statistics so far; None once the stock lookup has thrown. */
  datatype Payout = Payout(stocks: Stocks, stats: Option<Stats>)

  function Missing(st: Stats, item: PlanItem): Stats {
    st.(ok := false, reason := NoHopper, fulfilled := st.fulfilled + [PlanItem(item.denom, 0)])
  }

  function ShortReason(item: PlanItem, a: Answer): Reason {
    if a.reason != Blank then a.reason else if a.dispensed < item.count then Partial else Blank
  }

  function Dispensed(st: Stats, item: PlanItem, a: Answer): Stats {
    var short := a.dispensed < item.count || !a.ok;
    Stats(st.ok && !short, if short then ShortReason(item, a) else st.reason,
          st.pulses + a.pulses, st.coins + a.dispensed, st.fulfilled + [PlanItem(item.denom, a.dispensed)])
  }

  /** One item: its hopper may be missing, and the stock must know its denomination. */
  function PayItem(p: Payout, attached: set<Denom>, item: PlanItem, a: Answer): Payout {
    if p.stats.None? then p
    else if item.denom !in attached then p.(stats := Some(Missing(p.stats.value, item)))
    else if item.denom !in p.stocks then p.(stats := None)
    else Payout(p.stocks[item.denom := Take(p.stocks[item.denom], a.dispensed)],
                Some(Dispensed(p.stats.value, item, a)))
  }

  function PayAll(m: Stocks, attached: set<Denom>, plan: seq<PlanItem>, answers: seq<Answer>): Payout
    requires |answers| == |plan|
  {
    if plan == [] then Payout(m, Some(Stats(true, Ok, 0, 0, [])))
    else
      var n := |plan| - 1;
      PayItem(PayAll(m, attached, plan[..n], answers[..n]), attached, plan[n], answers[n])
  }

  function Closing(st: Stats): Stats {
    if st.ok then st.(reason := Ok) else if st.reason == Blank then st.(reason := Partial) else st
  }

  /** Every driver pays between nothing and what it is asked for. */
  predicate Honest(plan: seq<PlanItem>, answers: seq<Answer>)
    requires |answers| == |plan|
  {
    plan == [] ||
    var n := |plan| - 1;
    Honest(plan[..n], answers[..n]) && 0 <= answers[n].dispensed <= plan[n].count
  }

  /** What the hoppers hold, in cents. */
  function StockValue(m: Stocks): int {
    25 * Count(m, Quarter) + 10 * Count(m, Dime) + 5 * Count(m, Nickel) + Count(m, Penny)
  }

  predicate NonNegative(m: Stocks) {
    Count(m, Quarter) >= 0 && Count(m, Dime) >= 0 && Count(m, Nickel) >= 0 && Count(m, Penny) >= 0
  }

  lemma TakeValue(m: Stocks, d: Denom, n: int)
    requires d in m && 0 <= n <= m[d].count && NonNegative(m)
    ensures var after := m[d := Take(m[d], n)];
            NonNegative(after) && StockValue(m) == StockValue(after) + ItemValue(PlanItem(d, n))
  {
  }

  /** Hoppers the plan does not mention keep their stock. */
  lemma {:induction false} UnmentionedKept(
    m: Stocks, attached: set<Denom>, plan: seq<PlanItem>, answers: seq<Answer>, d: Denom)
    requires |answers| == |plan| && !Mentions(plan, d)
    ensures Spares(m, PayAll(m, attached, plan, answers), d)
  {
    if plan != [] {
      UnmentionedKept(m, attached, plan[..|plan| - 1], answers[..|plan| - 1], d);
    }
  }

  /** The lookup has not thrown and no count is negative. */
  predicate Solvent(p: Payout) {
    p.stats.Some? && NonNegative(p.stocks)
  }

  /** The stock lost exactly the value that was fulfilled. */
  predicate Balanced(m: Stocks, p: Payout) {
    p.stats.Some? && StockValue(m) == StockValue(p.stocks) + Value(p.stats.value.fulfilled)
  }

  /** The coins reported are those fulfilled. */
  predicate Counted(p: Payout) {
    p.stats.Some? && p.stats.value.coins == Coins(p.stats.value.fulfilled)
  }

  /** The hopper is as it was. */
  predicate Spares(m: Stocks, p: Payout, d: Denom) {
    (d in p.stocks <==> d in m) && (d in m ==> p.stocks[d] == m[d])
  }

  /** What paying one item does to the stock and to the statistics. */
  lemma PayItemMoves(p: Payout, attached: set<Denom>, item: PlanItem, a: Answer) returns (paid: PlanItem)
    requires Solvent(p)
    requires item.denom in p.stocks && item.count <= p.stocks[item.denom].count && 0 <= a.dispensed <= item.count
    ensures Solvent(PayItem(p, attached, item, a))
    ensures StockValue(p.stocks) == StockValue(PayItem(p, attached, item, a).stocks) + ItemValue(paid)
    ensures PayItem(p, attached, item, a).stats.value.fulfilled == p.stats.value.fulfilled + [paid]
    ensures PayItem(p, attached, item, a).stats.value.coins == p.stats.value.coins + paid.count
  {
    if item.denom in attached {
      paid := PlanItem(item.denom, a.dispensed);
      TakeValue(p.stocks, item.denom, a.dispensed);
    } else {
      paid := PlanItem(item.denom, 0);
      ItemValueOfNone(item.denom);
    }
  }

  lemma StaysBalanced(m: Stocks, p: Payout, after: Payout, paid: PlanItem)
    requires Balanced(m, p) && after.stats.Some?
    requires StockValue(p.stocks) == StockValue(after.stocks) + ItemValue(paid)
    requires after.stats.value.fulfilled == p.stats.value.fulfilled + [paid]
    ensures Balanced(m, after)
  {
    SnocWorth(p.stats.value.fulfilled, paid);
  }

  lemma StaysCounted(p: Payout, after: Payout, paid: PlanItem)
    requires Counted(p) && after.stats.Some?
    requires after.stats.value.fulfilled == p.stats.value.fulfilled + [paid]
    requires after.stats.value.coins == p.stats.value.coins + paid.count
    ensures Counted(after)
  {
    SnocWorth(p.stats.value.fulfilled, paid);
  }

  /** For a plan the stock can pay and drivers that pay no more than they are asked for, paying
      conserves value, keeps every count non-negative and does not throw. */
  lemma {:induction false} PayoutConserves(
    m: Stocks, attached: set<Denom>, plan: seq<PlanItem>, answers: seq<Answer>)
    requires |answers| == |plan| && NonNegative(m) && Covered(m, plan) && Honest(plan, answers)
    ensures Solvent(PayAll(m, attached, plan, answers))
    ensures Balanced(m, PayAll(m, attached, plan, answers))
    ensures Counted(PayAll(m, attached, plan, answers))
  {
    if plan != [] {
      var n := |plan| - 1;
      PayoutConserves(m, attached, plan[..n], answers[..n]);
      UnmentionedKept(m, attached, plan[..n], answers[..n], plan[n].denom);
      var before, after := PayAll(m, attached, plan[..n], answers[..n]), PayAll(m, attached, plan, answers);
      var paid := PayItemMoves(before, attached, plan[n], answers[n]);
      StaysBalanced(m, before, after, paid);
      StaysCounted(before, after, paid);
    }
  }

  lemma ItemValueOfNone(d: Denom)
    ensures ItemValue(PlanItem(d, 0)) == 0
  {
  }

  lemma SnocWorth(plan: seq<PlanItem>, item: PlanItem)
    ensures Value(plan + [item]) == Value(plan) + ItemValue(item)
    ensures Coins(plan + [item]) == Coins(plan) + item.count
  {
    Snoc(plan, item);
    AddWorth(PurseOf(plan), item);
  }

  /** Every driver is there, says it succeeded and paid what it was asked for. */
  predicate AllPaid(attached: set<Denom>, plan: seq<PlanItem>, answers: seq<Answer>)
    requires |answers| == |plan|
  {
    plan == [] ||
    var n := |plan| - 1;
    && AllPaid(attached, plan[..n], answers[..n])
    && plan[n].denom in attached && answers[n].ok && answers[n].dispensed == plan[n].count
  }

  /** The payout reports success exactly when every driver paid in full, and then what was
      fulfilled is the plan. */
  lemma {:induction false} SuccessMeansFulfilled(
    m: Stocks, attached: set<Denom>, plan: seq<PlanItem>, answers: seq<Answer>)
    requires |answers| == |plan| && Honest(plan, answers) && PayAll(m, attached, plan, answers).stats.Some?
    ensures var st := PayAll(m, attached, plan, answers).stats.value;
            && (st.ok <==> AllPaid(attached, plan, answers))
            && (st.ok ==> st.fulfilled == plan)
            && |st.fulfilled| == |plan|
  {
    if plan != [] {
      var n := |plan| - 1;
      SuccessMeansFulfilled(m, attached, plan[..n], answers[..n]);
      assert plan == plan[..n] + [plan[n]];
    }
  }

  /** Planning the change and paying the plan out. */
  function PlanAndPay(m: Stocks, change: int, attached: set<Denom>, answers: seq<Answer>): Payout
    requires |answers| == |PlanFor(m, change).plan|
  {
    PayAll(m, attached, PlanFor(m, change).plan, answers)
  }

  lemma PlanAndPayBalances(m: Stocks, change: int, attached: set<Denom>, answers: seq<Answer>)
    requires NonNegative(m) && |answers| == |PlanFor(m, change).plan| && Honest(PlanFor(m, change).plan, answers)
    ensures Balanced(m, PlanAndPay(m, change, attached, answers)) && Solvent(PlanAndPay(m, change, attached, answers))
  {
    PlanConservesValue(m, change);
    PayoutConserves(m, attached, PlanFor(m, change).plan, answers);
  }

  lemma PlanAndPaySpares(m: Stocks, change: int, attached: set<Denom>, answers: seq<Answer>, d: Denom)
    requires |answers| == |PlanFor(m, change).plan| && Low(m, d)
    ensures Spares(m, PlanAndPay(m, change, attached, answers), d)
  {
    LowHoppersAreSpared(m, change, Order, d);
    UnmentionedKept(m, attached, PlanFor(m, change).plan, answers, d);
  }

  /** Plan, then pay: the change is the plan and what is left, the stock loses exactly what was
      paid, low hoppers are untouched, and no count goes negative. */
  lemma PlanThenPayConserves(m: Stocks, change: int, attached: set<Denom>, answers: seq<Answer>)
    requires NonNegative(m) && |answers| == |PlanFor(m, change).plan| && Honest(PlanFor(m, change).plan, answers)
    ensures change == Value(PlanFor(m, change).plan) + PlanFor(m, change).left
    ensures Balanced(m, PlanAndPay(m, change, attached, answers)) && Solvent(PlanAndPay(m, change, attached, answers))
    ensures forall d :: Low(m, d) ==> Spares(m, PlanAndPay(m, change, attached, answers), d)
  {
    PlanConservesValue(m, change);
    PlanAndPayBalances(m, change, attached, answers);
    forall d | Low(m, d)
      ensures Spares(m, PlanAndPay(m, change, attached, answers), d)
    {
      PlanAndPaySpares(m, change, attached, answers, d);
    }
  }

  // ---- The objects

  class Inventory {
    var m: Stocks

    constructor ()
      ensures m == map[]
    {
      m := map[];
    }

    method Upsert(d: Denom, s: Stock)
      modifies this
      ensures m == old(m)[d := s]
    {
      m := m[d := s];
    }

    /** Takes at most what is there; None when the denomination is unknown. */
    method TakeCoins(d: Denom, n: int) returns (taken: Option<int>)
      modifies this
      ensures d !in old(m) ==> taken == None && m == old(m)
      ensures d in old(m) ==> taken == Some(Min(n, old(m)[d].count)) && m == old(m)[d := Take(old(m)[d], n)]
    {
      if d !in m {
        return None;
      }
      var dec := n;
      if dec > m[d].count {
        dec := m[d].count;
      }
      m := m[d := m[d].(count := m[d].count - dec)];
      return Some(dec);
    }

    method GiveBack(d: Denom, n: int) returns (ok: bool)
      modifies this
      ensures ok == (d in old(m))
      ensures m == if ok then old(m)[d := old(m)[d].(count := old(m)[d].count + n)] else old(m)
    {
      ok := d in m;
      if ok {
        m := m[d := m[d].(count := m[d].count + n)];
      }
    }

    method MakePlan(change: int) returns (plan: seq<PlanItem>, left: int)
      ensures Planned(plan, left) == PlanFor(m, change)
    {
      plan, left := [], change;
      OrderPrefixes();
      var i := 0;
      while i < |Order|
        invariant 0 <= i <= |Order|
        invariant Planned(plan, left) == Greedy(m, change, Order[..i])
      {
        if left <= 0 {
          StopsEarly(m, change, i);
          return;
        }
        var d := Order[i];
        assert Order[..i + 1][..i] == Order[..i];
        i := i + 1;
        if d !in m {
          continue;
        }
        var avail := m[d].count;
        if avail <= 0 {
          continue;
        }
        var usable := avail;
        if Low(m, d) {
          usable := Max(0, avail - m[d].lowThreshold);
        }
        if usable <= 0 {
          continue;
        }
        var need := Need(d, left);
        if need <= 0 {
          continue;
        }
        var use := Min(need, usable);
        plan := plan + [PlanItem(d, use)];
        left := left - ItemValue(PlanItem(d, use));
      }
      assert Order[..|Order|] == Order;
    }
  }

  lemma {:induction false} StopsEarly(m: Stocks, change: int, i: nat)
    requires i <= |Order| && Greedy(m, change, Order[..i]).left <= 0
    ensures Greedy(m, change, Order[..i]) == PlanFor(m, change)
    decreases |Order| - i
  {
    if i < |Order| {
      assert Order[..i + 1][..i] == Order[..i];
      StopsEarly(m, change, i + 1);
    } else {
      assert Order[..i] == Order;
    }
  }

  class MultiDispenser {
    const inventory: Inventory
    var attached: set<Denom>

    constructor (inventory: Inventory)
      ensures this.inventory == inventory && attached == {}
    {
      this.inventory, attached := inventory, {};
    }

    method Attach(d: Denom)
      modifies this
      ensures attached == old(attached) + {d}
    {
      attached := attached + {d};
    }

    /** Pays a plan; answers[i] is what the driver of item i says if it is asked. */
    method Execute(plan: seq<PlanItem>, answers: seq<Answer>) returns (result: Option<Stats>)
      requires |answers| == |plan|
      modifies inventory
      ensures var p := PayAll(old(inventory.m), attached, plan, answers);
              && inventory.m == p.stocks
              && result == if p.stats.None? then None else Some(Closing(p.stats.value))
    {
      var st := Stats(true, Ok, 0, 0, []);
      ghost var before := inventory.m;
      var i := 0;
      while i < |plan|
        invariant 0 <= i <= |plan|
        invariant PayAll(before, attached, plan[..i], answers[..i]) == Payout(inventory.m, Some(st))
      {
        var item := plan[i];
        PayOne(before, attached, plan, answers, i);
        i := i + 1;
        if item.denom !in attached {
          st := st.(ok := false, reason := NoHopper, fulfilled := st.fulfilled + [PlanItem(item.denom, 0)]);
          continue;
        }
        var res := answers[i - 1];
        var taken := inventory.TakeCoins(item.denom, res.dispensed);
        if taken.None? {
          StaysThrown(before, attached, plan, answers, i);
          return None;
        }
        st := st.(pulses := st.pulses + res.pulses, coins := st.coins + res.dispensed,
          fulfilled := st.fulfilled + [PlanItem(item.denom, res.dispensed)]);
        if res.dispensed < item.count || !res.ok {
          st := st.(ok := false, reason := ShortReason(item, res));
        }
      }
      assert plan[..|plan|] == plan && answers[..|plan|] == answers;
      if st.ok {
        st := st.(reason := Ok);
      } else if st.reason == Blank {
        st := st.(reason := Partial);
      }
      return Some(st);
    }
  }

  lemma PayOne(m: Stocks, attached: set<Denom>, plan: seq<PlanItem>, answers: seq<Answer>, i: nat)
    requires |answers| == |plan| && i < |plan|
    ensures PayAll(m, attached, plan[..i + 1], answers[..i + 1]) ==
            PayItem(PayAll(m, attached, plan[..i], answers[..i]), attached, plan[i], answers[i])
  {
    assert plan[..i + 1][..i] == plan[..i] && answers[..i + 1][..i] == answers[..i];
  }

  lemma {:induction false} StaysThrown(
    m: Stocks, attached: set<Denom>, plan: seq<PlanItem>, answers: seq<Answer>, i: nat)
    requires |answers| == |plan| && i <= |plan| && PayAll(m, attached, plan[..i], answers[..i]).stats.None?
    ensures PayAll(m, attached, plan, answers) == PayAll(m, attached, plan[..i], answers[..i])
    decreases |plan| - i
  {
    if i < |plan| {
      PayOne(m, attached, plan, answers, i);
      StaysThrown(m, attached, plan, answers, i + 1);
    } else {
      assert plan[..i] == plan && answers[..i] == answers;
    }
  }
}
