/** The money bound in coins that the hopper's sensor counted, with the dispense controller under the
    transaction engine: what crashes can cost and what retries can cost. */
module CashBound {
  import opened Basics
  import opened TxnEngine
  import D = Dispense

  /** A dispense was carried out by the controller, to its end or to the poll at which a crash cut it:
      its last attempt counted the coins paid, and its sensor c in all attempts together. */
  ghost predicate CountedBy(e: Effect, c: nat, retries: nat) {
    e.Dispensed? ==>
      exists j: D.Job, attempts: seq<D.Attempt> ::
        && D.Underway(j, attempts) && j.coins == e.requested && j.cfg.maxRetries == retries
        && e.paid == D.CoinsIn(j, attempts[|attempts| - 1]) && c == D.TotalCoins(j, attempts)
  }

  /** So was every dispense of the history; counted(i) is what the sensor counted in effect i. */
  ghost predicate AllCountedBy(history: seq<Effect>, counted: nat -> nat, retries: nat) {
    history == [] ||
    (var n := |history| - 1;
     AllCountedBy(history[..n], counted, retries) && CountedBy(history[n], counted(n), retries))
  }

  /** All coins the sensor counted. */
  function SensorTotal(history: seq<Effect>, counted: nat -> nat): nat {
    if history == [] then 0
    else
      var n := |history| - 1;
      SensorTotal(history[..n], counted) + if history[n].Dispensed? then counted(n) else 0
  }

  function Dispenses(history: seq<Effect>): nat {
    if history == [] then 0
    else Dispenses(history[..|history| - 1]) + if history[|history| - 1].Dispensed? then 1 else 0
  }

  /** One call, complete or cut, counts at most what its last attempt does plus, for every retry, one
      coin less than the request. */
  lemma {:induction false} OneCall(j: D.Job, attempts: seq<D.Attempt>)
    requires j.coins >= 1 && D.Underway(j, attempts)
    ensures D.TotalCoins(j, attempts) <= D.CoinsIn(j, attempts[|attempts| - 1]) + j.cfg.maxRetries * (j.coins - 1)
  {
    D.JammedTotal(j, attempts[..|attempts| - 1]);
    D.MoreRetriesMoreCoins(|attempts| - 1, j.cfg.maxRetries, j.coins - 1);
  }

  /** What the retries of one call can add, for a purchase of so many quarters. */
  function RetryCost(retries: nat, quarters: int): int {
    retries * (quarters - 1)
  }

  lemma {:induction false} OneDispense(first: Txn, l: Ledger, e: Effect, c: nat, retries: nat)
    requires e.Dispensed? && Allowed(first, l, e) && 0 <= CountedOf(l) && CountedBy(e, c, retries)
    ensures c <= e.paid + RetryCost(retries, first.quarters)
  {
    var j: D.Job, attempts: seq<D.Attempt> :|
      && D.Underway(j, attempts) && j.coins == e.requested && j.cfg.maxRetries == retries
      && e.paid == D.CoinsIn(j, attempts[|attempts| - 1]) && c == D.TotalCoins(j, attempts);
    OneCall(j, attempts);
    Scaled(retries, j.coins - 1, first.quarters - 1);
  }

  lemma {:induction false} Scaled(k: nat, x: int, y: int)
    requires x <= y
    ensures k * x <= k * y
  {
  }

  /** The sensor's total is at most what was paid by the reports plus the retries' cost of every call. */
  lemma {:induction false} TotalOfHistory(first: Txn, history: seq<Effect>, counted: nat -> nat, retries: nat)
    requires Behaves(first, Blank, history) && Balanced(first, Blank) && AllCountedBy(history, counted, retries)
    ensures SensorTotal(history, counted)
            <= Tally(Blank, history).paid + Dispenses(history) * RetryCost(retries, first.quarters)
  {
    if history != [] {
      var n := |history| - 1;
      var front, cost := history[..n], RetryCost(retries, first.quarters);
      TotalOfHistory(first, front, counted, retries);
      TallyBalanced(first, Blank, front);
      assert (Dispenses(front) + 1) * cost == Dispenses(front) * cost + cost;
      if history[n].Dispensed? {
        OneDispense(first, Tally(Blank, front), history[n], counted(n), retries);
      }
    }
  }

  /** The quarters due times one plus the crashes that lost a journal line, plus for every dispense call
      and every retry allowed one coin less than the quarters. */
  predicate WithinSensorBound(quarters: int, retries: nat, l: Ledger, dispenses: nat, total: int) {
    total <= quarters * (1 + l.lostCrashes) + dispenses * RetryCost(retries, quarters)
  }

  lemma {:induction false} BoundOfHistory(first: Txn, history: seq<Effect>, counted: nat -> nat, retries: nat)
    requires Behaves(first, Blank, history) && Balanced(first, Blank) && AllCountedBy(history, counted, retries)
    requires PaidWithinBound(first.quarters, Tally(Blank, history))
    ensures WithinSensorBound(first.quarters, retries, Tally(Blank, history), Dispenses(history),
                              SensorTotal(history, counted))
  {
    TotalOfHistory(first, history, counted, retries);
  }

  lemma {:induction false} BlankBalances(id: string, price: int, deposit: int, cap: int)
    requires 0 <= cap
    ensures Balanced(NewTxn(id, price, deposit, cap), Blank)
  {
    NewTxnBelongs(id, price, deposit, cap);
  }

  /** For any number of crashes and resumes of a purchase with the controller as dispenser, whether or
      not a crash cuts a dispense, the coins that the sensor counted are within that bound. */
  lemma SensorCoinsAreBounded(
    id: string, price: int, deposit: int, cap: int, boots: seq<Boot>, counted: nat -> nat, retries: nat)
    requires 0 <= cap && DispenserHonest(id, price, deposit, cap, boots)
    requires AllCountedBy(History(id, price, deposit, cap, boots), counted, retries)
    ensures var history := History(id, price, deposit, cap, boots);
            WithinSensorBound(NewTxn(id, price, deposit, cap).quarters, retries, Tally(Blank, history),
                              Dispenses(history), SensorTotal(history, counted))
  {
    BlankBalances(id, price, deposit, cap);
    HistoryBehaves(id, price, deposit, cap, boots);
    CoinsPaidAreBounded(id, price, deposit, cap, boots);
    BoundOfHistory(NewTxn(id, price, deposit, cap), History(id, price, deposit, cap, boots), counted, retries);
  }
}
