/** The transaction engine: one purchase, its journal, and any number of crashes and resumes. */
module TxnEngine {
  import opened Basics

  datatype Phase = Pending | Dispensing | Presenting | Closed | Done | Void

  datatype Txn = Txn(
    id: string, price: int, deposit: int, change: int, quarters: int, dispensed: int, phase: Phase, reason: string)

  /** What the process does to the outside world, in order; Crash marks its death. */
  datatype Effect =
    | Journaled(record: Txn)
    | Dispensed(requested: int, paid: int)
    | OpenedShutter(ok: bool)
    | ClosedShutter(ok: bool)
    | Crash

  /** The answers of the hardware and the fault manager to one run of the engine. */
  datatype Hardware = Hardware(
    mayDispense: bool, paid: int, dispenseOk: bool, dispenseReason: string,
    mayOpen: bool, opens: bool, openReason: string,
    mayClose: bool, closes: bool, closeReason: string)

  // ---- The engine's programs as effect sequences

  function VoidFor(t: Txn, reason: string): Effect {
    Journaled(t.(phase := Void, reason := reason))
  }

  function CloseUp(t: Txn, hw: Hardware): seq<Effect> {
    [ClosedShutter(hw.closes)] +
    (if hw.closes then [Journaled(t.(phase := Closed))] + [Journaled(t.(phase := Done))]
     else [VoidFor(t, hw.closeReason)])
  }

  function AfterOpening(t: Txn, hw: Hardware): seq<Effect> {
    if !hw.opens then [VoidFor(t, hw.openReason)]
    else [Journaled(t.(phase := Presenting))] + (if !hw.mayClose then [VoidFor(t, "FAULT")] else CloseUp(t, hw))
  }

  function Present(t: Txn, hw: Hardware): seq<Effect> {
    if !hw.mayOpen then [VoidFor(t, "FAULT")] else [OpenedShutter(hw.opens)] + AfterOpening(t, hw)
  }

  /** The record after a dispense. */
  function Counted(t: Txn, hw: Hardware): Txn {
    t.(dispensed := t.dispensed + hw.paid, phase := Dispensing, reason := hw.dispenseReason)
  }

  function ShortReason(t: Txn, hw: Hardware): string {
    if t.reason != "" then t.reason else if hw.dispenseOk then "PARTIAL" else hw.dispenseReason
  }

  function Continue(t: Txn, hw: Hardware): seq<Effect> {
    var remaining := t.quarters - t.dispensed;
    if remaining > 0 then
      if !hw.mayDispense then [VoidFor(t, "FAULT")]
      else
        var t1 := Counted(t, hw);
        [Dispensed(remaining, hw.paid)] + ([Journaled(t1)] +
          (if !hw.dispenseOk || t1.dispensed < t1.quarters then [VoidFor(t1, ShortReason(t1, hw))]
           else Present(t1, hw)))
    else Present(t, hw)
  }

  function NewTxn(id: string, price: int, deposit: int, cap: int): Txn {
    var change := Max(0, deposit - price);
    Txn(id, price, deposit, change, Min(cap, change / 25), 0, Pending, "")
  }

  function RunPurchase(id: string, price: int, deposit: int, cap: int, hw: Hardware): seq<Effect> {
    var t := NewTxn(id, price, deposit, cap);
    [Journaled(t)] + Continue(t, hw)
  }

  /** What a restarted engine does, given the last journal record. */
  function Resume(last: Option<Txn>, hw: Hardware): seq<Effect> {
    if last.None? then []
    else
      var t := last.value;
      match t.phase
      case Pending => Continue(t, hw)
      case Dispensing => Continue(t, hw)
      case Presenting => CloseUp(t, hw)
      case _ => []
  }

  // ---- The engine as an object that acts step by step

  class Engine {
    const cap: int
    var log: seq<Effect>

    constructor (cap: int, log: seq<Effect>)
      ensures this.cap == cap && this.log == log
    {
      this.cap, this.log := cap, log;
    }

    method Append(t: Txn)
      modifies this`log
      ensures log == old(log) + [Journaled(t)]
    {
      log := log + [Journaled(t)];
    }

    method ContinueTxn(txn: Txn, hw: Hardware) returns (t: Txn)
      modifies this`log
      ensures log == old(log) + Continue(txn, hw)
      ensures log[|log| - 1] == Journaled(t)
    {
      t := txn;
      var remaining := t.quarters - t.dispensed;
      if remaining > 0 {
        if !hw.mayDispense {
          t := t.(phase := Void, reason := "FAULT");
          Append(t);
          return;
        }
        log := log + [Dispensed(remaining, hw.paid)];
        t := t.(dispensed := t.dispensed + hw.paid);
        t := t.(phase := Dispensing, reason := hw.dispenseReason);
        Append(t);
        if !hw.dispenseOk || t.dispensed < t.quarters {
          t := t.(phase := Void);
          if t.reason == "" {
            t := t.(reason := if hw.dispenseOk then "PARTIAL" else hw.dispenseReason);
          }
          Append(t);
          return;
        }
      }
      ghost var before := log;
      ghost var t0 := t;
      t := PresentTxn(t, hw);
      assert log == before + Present(t0, hw);
    }

    method PresentTxn(txn: Txn, hw: Hardware) returns (t: Txn)
      modifies this`log
      ensures log == old(log) + Present(txn, hw)
      ensures log[|log| - 1] == Journaled(t)
    {
      t := txn;
      if !hw.mayOpen {
        t := t.(phase := Void, reason := "FAULT");
        Append(t);
        return;
      }
      log := log + [OpenedShutter(hw.opens)];
      if !hw.opens {
        t := t.(reason := hw.openReason, phase := Void);
        Append(t);
        return;
      }
      t := t.(phase := Presenting);
      Append(t);
      if !hw.mayClose {
        t := t.(phase := Void, reason := "FAULT");
        Append(t);
        return;
      }
      t := CloseTxn(t, hw);
    }

    method CloseTxn(txn: Txn, hw: Hardware) returns (t: Txn)
      modifies this`log
      ensures log == old(log) + CloseUp(txn, hw)
      ensures log[|log| - 1] == Journaled(t)
    {
      t := txn;
      log := log + [ClosedShutter(hw.closes)];
      if !hw.closes {
        t := t.(reason := hw.closeReason, phase := Void);
        Append(t);
        return;
      }
      t := t.(phase := Closed);
      Append(t);
      t := t.(phase := Done);
      Append(t);
    }

    method Purchase(id: string, price: int, deposit: int, hw: Hardware) returns (t: Txn)
      modifies this`log
      ensures log == old(log) + RunPurchase(id, price, deposit, cap, hw)
      ensures log[|log| - 1] == Journaled(t)
    {
      var change := Max(0, deposit - price);
      t := Txn(id, price, deposit, change, Min(cap, change / 25), 0, Pending, "");
      Append(t);
      t := ContinueTxn(t, hw);
    }

    method ResumeIfNeeded(last: Option<Txn>, hw: Hardware) returns (result: Option<Txn>)
      modifies this`log
      ensures log == old(log) + Resume(last, hw)
      ensures if Resume(last, hw) == [] then result == last
              else result.Some? && log[|log| - 1] == Journaled(result.value)
    {
      if last.None? {
        return None;
      }
      var t := last.value;
      ProgramsEndJournaled(t, hw);
      if t.phase == Pending || t.phase == Dispensing {
        t := ContinueTxn(t, hw);
      } else if t.phase == Presenting {
        t := CloseTxn(t, hw);
      }
      return Some(t);
    }
  }

  // ---- The ledger of a history

  /** last: the last journal record; loose: coins paid since it; lost: coins whose journal line
      a crash prevented; lostCrashes: how many crashes did so; paid: all coins paid. */
  datatype Ledger = Ledger(last: Option<Txn>, loose: int, lost: int, lostCrashes: nat, paid: int)

  const Blank := Ledger(None, 0, 0, 0, 0)

  function Note(l: Ledger, e: Effect): Ledger {
    match e
    case Journaled(r) => l.(last := Some(r), loose := 0)
    case Dispensed(_, paid) => l.(loose := l.loose + paid, paid := l.paid + paid)
    case Crash => if l.loose > 0 then l.(loose := 0, lost := l.lost + l.loose, lostCrashes := l.lostCrashes + 1) else l
    case _ => l
  }

  function Tally(l: Ledger, history: seq<Effect>): Ledger {
    if history == [] then l else Note(Tally(l, history[..|history| - 1]), history[|history| - 1])
  }

  function CountedOf(l: Ledger): int {
    if l.last.Some? then l.last.value.dispensed else 0
  }

  /** A record of this purchase: the amounts are the purchase's own. */
  predicate Belongs(first: Txn, r: Txn) {
    && r.id == first.id && r.price == first.price && r.deposit == first.deposit && r.change == first.change
    && r.quarters == first.quarters && 0 <= r.dispensed <= r.quarters
  }

  /** The effects that may follow a history with this ledger. */
  predicate Allowed(first: Txn, l: Ledger, e: Effect) {
    match e
    case Journaled(r) => Belongs(first, r) && r.dispensed == CountedOf(l) + l.loose
    case Dispensed(requested, paid) =>
      l.loose == 0 && 0 < requested == first.quarters - CountedOf(l) && 0 <= paid <= requested
    case OpenedShutter(_) => l.loose == 0 && CountedOf(l) == first.quarters
    case _ => true
  }

  predicate Behaves(first: Txn, l: Ledger, effects: seq<Effect>) {
    effects == [] ||
    (&& Behaves(first, l, effects[..|effects| - 1])
     && Allowed(first, Tally(l, effects[..|effects| - 1]), effects[|effects| - 1]))
  }

  lemma {:induction false} TallyConcat(l: Ledger, a: seq<Effect>, b: seq<Effect>)
    ensures Tally(l, a + b) == Tally(Tally(l, a), b)
  {
    if b == [] {
      assert a + b == a;
    } else {
      TallyConcat(l, a, b[..|b| - 1]);
      assert (a + b)[..|a + b| - 1] == a + b[..|b| - 1];
    }
  }

  lemma {:induction false} BehavesConcat(first: Txn, l: Ledger, a: seq<Effect>, b: seq<Effect>)
    ensures Behaves(first, l, a + b) <==> Behaves(first, l, a) && Behaves(first, Tally(l, a), b)
  {
    if b == [] {
      assert a + b == a;
    } else {
      BehavesConcat(first, l, a, b[..|b| - 1]);
      TallyConcat(l, a, b[..|b| - 1]);
      assert (a + b)[..|a + b| - 1] == a + b[..|b| - 1];
    }
  }

  lemma TallyOne(l: Ledger, e: Effect)
    ensures Tally(l, [e]) == Note(l, e)
  {
    assert [e][..0] == [];
  }

  /** Behaviour can be checked from the front, one effect at a time. */
  lemma BehavesCons(first: Txn, l: Ledger, e: Effect, rest: seq<Effect>)
    requires Allowed(first, l, e) && Behaves(first, Note(l, e), rest)
    ensures Behaves(first, l, [e] + rest)
  {
    assert [e][..0] == [];
    TallyOne(l, e);
    BehavesConcat(first, l, [e], rest);
  }

  lemma BehavesOne(first: Txn, l: Ledger, e: Effect)
    requires Allowed(first, l, e)
    ensures Behaves(first, l, [e])
  {
    assert [e][..0] == [];
  }

  /** Whatever a behaving program does, a crash may cut it anywhere. */
  lemma {:induction false} PrefixBehaves(first: Txn, l: Ledger, effects: seq<Effect>, n: nat)
    requires Behaves(first, l, effects) && n <= |effects|
    ensures Behaves(first, l, effects[..n])
  {
    if n < |effects| {
      PrefixBehaves(first, l, effects[..|effects| - 1], n);
      assert effects[..|effects| - 1][..n] == effects[..n];
    } else {
      assert effects[..n] == effects;
    }
  }

  /** The ledger stands at record t, with nothing loose. */
  predicate Stands(first: Txn, l: Ledger, t: Txn) {
    l.loose == 0 && Belongs(first, t) && CountedOf(l) == t.dispensed
  }

  lemma CloseBehaves(first: Txn, l: Ledger, t: Txn, hw: Hardware)
    requires Stands(first, l, t)
    ensures Behaves(first, l, CloseUp(t, hw))
  {
    if hw.closes {
      var l1 := Note(l, Journaled(t.(phase := Closed)));
      BehavesOne(first, l1, Journaled(t.(phase := Done)));
      BehavesCons(first, l, Journaled(t.(phase := Closed)), [Journaled(t.(phase := Done))]);
      BehavesCons(first, l, ClosedShutter(true), [Journaled(t.(phase := Closed))] + [Journaled(t.(phase := Done))]);
    } else {
      BehavesOne(first, l, VoidFor(t, hw.closeReason));
      BehavesCons(first, l, ClosedShutter(false), [VoidFor(t, hw.closeReason)]);
    }
  }

  lemma PresentBehaves(first: Txn, l: Ledger, t: Txn, hw: Hardware)
    requires Stands(first, l, t) && t.dispensed == t.quarters
    ensures Behaves(first, l, Present(t, hw))
  {
    BehavesOne(first, l, VoidFor(t, "FAULT"));
    if hw.mayOpen {
      if !hw.opens {
        BehavesOne(first, l, VoidFor(t, hw.openReason));
        BehavesCons(first, l, OpenedShutter(false), [VoidFor(t, hw.openReason)]);
      } else {
        var presenting := Journaled(t.(phase := Presenting));
        var l1 := Note(l, presenting);
        BehavesOne(first, l1, VoidFor(t, "FAULT"));
        CloseBehaves(first, l1, t, hw);
        var rest := if !hw.mayClose then [VoidFor(t, "FAULT")] else CloseUp(t, hw);
        BehavesCons(first, l, presenting, rest);
        BehavesCons(first, l, OpenedShutter(true), [presenting] + rest);
      }
    }
  }

  /** The dispenser pays between nothing and what it was asked for. */
  predicate Pays(t: Txn, hw: Hardware) {
    t.dispensed < t.quarters ==> 0 <= hw.paid <= t.quarters - t.dispensed
  }

  lemma ContinueBehaves(first: Txn, l: Ledger, t: Txn, hw: Hardware)
    requires Stands(first, l, t) && Pays(t, hw)
    ensures Behaves(first, l, Continue(t, hw))
  {
    if t.quarters - t.dispensed > 0 {
      BehavesOne(first, l, VoidFor(t, "FAULT"));
      if hw.mayDispense {
        var t1 := Counted(t, hw);
        var pay := Dispensed(t.quarters - t.dispensed, hw.paid);
        var l1 := Note(l, pay);
        var l2 := Note(l1, Journaled(t1));
        BehavesOne(first, l2, VoidFor(t1, ShortReason(t1, hw)));
        if t1.dispensed == t1.quarters {
          PresentBehaves(first, l2, t1, hw);
        }
        var rest := if !hw.dispenseOk || t1.dispensed < t1.quarters then [VoidFor(t1, ShortReason(t1, hw))]
                    else Present(t1, hw);
        BehavesCons(first, l1, Journaled(t1), rest);
        BehavesCons(first, l, pay, [Journaled(t1)] + rest);
      }
    } else {
      PresentBehaves(first, l, t, hw);
    }
  }

  // ---- Crashes and resumes

  /** One start of the process: the hardware's answers, and after how many effects it dies. */
  datatype Boot = Boot(hw: Hardware, effects: nat)

  /** The effects carried out before the crash, or all of them. */
  function Cut(effects: seq<Effect>, n: nat): seq<Effect> {
    if n < |effects| then effects[..n] + [Crash] else effects
  }

  /** The history of one purchase: the first boot runs it, the others resume it. */
  function History(id: string, price: int, deposit: int, cap: int, boots: seq<Boot>): seq<Effect> {
    if boots == [] then []
    else
      var boot := boots[|boots| - 1];
      if |boots| == 1 then Cut(RunPurchase(id, price, deposit, cap, boot.hw), boot.effects)
      else
        var before := History(id, price, deposit, cap, boots[..|boots| - 1]);
        before + Cut(Resume(Tally(Blank, before).last, boot.hw), boot.effects)
  }

  /** In every boot the dispenser pays between nothing and what it was asked for. */
  predicate DispenserHonest(id: string, price: int, deposit: int, cap: int, boots: seq<Boot>) {
    boots == [] ||
    var boot := boots[|boots| - 1];
    if |boots| == 1 then Pays(NewTxn(id, price, deposit, cap), boot.hw)
    else
      var last := Tally(Blank, History(id, price, deposit, cap, boots[..|boots| - 1])).last;
      && DispenserHonest(id, price, deposit, cap, boots[..|boots| - 1])
      && (last.Some? ==> Pays(last.value, boot.hw))
  }

  /** What the ledger of every history satisfies. */
  predicate Balanced(first: Txn, l: Ledger) {
    && l.paid == CountedOf(l) + l.loose + l.lost
    && 0 <= l.loose && 0 <= l.lost <= first.quarters * l.lostCrashes
    && 0 <= CountedOf(l) && CountedOf(l) + l.loose <= first.quarters
    && (l.last.Some? ==> Belongs(first, l.last.value))
  }

  lemma NoteBalanced(first: Txn, l: Ledger, e: Effect)
    requires Balanced(first, l) && Allowed(first, l, e)
    ensures Balanced(first, Note(l, e))
  {
    if e.Crash? && l.loose > 0 {
      assert first.quarters * (l.lostCrashes + 1) == first.quarters * l.lostCrashes + first.quarters;
    }
  }

  lemma {:induction false} TallyBalanced(first: Txn, l: Ledger, effects: seq<Effect>)
    requires Balanced(first, l) && Behaves(first, l, effects)
    ensures Balanced(first, Tally(l, effects))
  {
    if effects != [] {
      TallyBalanced(first, l, effects[..|effects| - 1]);
      NoteBalanced(first, Tally(l, effects[..|effects| - 1]), effects[|effects| - 1]);
    }
  }

  predicate EndsJournaled(effects: seq<Effect>) {
    effects == [] || effects[|effects| - 1].Journaled?
  }

  lemma ProgramsEndJournaled(t: Txn, hw: Hardware)
    ensures EndsJournaled(CloseUp(t, hw)) && EndsJournaled(Present(t, hw)) && EndsJournaled(Continue(t, hw))
    ensures CloseUp(t, hw) != [] && Present(t, hw) != [] && Continue(t, hw) != []
  {
    assert EndsJournaled(CloseUp(t, hw)) && CloseUp(t, hw) != [];
    assert EndsJournaled(Present(t, hw)) && Present(t, hw) != [];
    var t1 := Counted(t, hw);
    assert EndsJournaled(CloseUp(t1, hw)) && CloseUp(t1, hw) != [];
    assert EndsJournaled(Present(t1, hw)) && Present(t1, hw) != [];
  }

  /** After a boot, complete or cut short, nothing is loose. */
  lemma CutBehaves(first: Txn, l: Ledger, effects: seq<Effect>, n: nat)
    requires Balanced(first, l) && l.loose == 0
    requires Behaves(first, l, effects) && EndsJournaled(effects)
    ensures Behaves(first, l, Cut(effects, n))
    ensures Balanced(first, Tally(l, Cut(effects, n))) && Tally(l, Cut(effects, n)).loose == 0
  {
    if n < |effects| {
      var front := effects[..n];
      PrefixBehaves(first, l, effects, n);
      TallyBalanced(first, l, front);
      BehavesOne(first, Tally(l, front), Crash);
      BehavesConcat(first, l, front, [Crash]);
      TallyConcat(l, front, [Crash]);
      TallyOne(Tally(l, front), Crash);
      NoteBalanced(first, Tally(l, front), Crash);
    } else {
      TallyBalanced(first, l, effects);
    }
  }

  lemma NewTxnBelongs(id: string, price: int, deposit: int, cap: int)
    requires 0 <= cap
    ensures var t := NewTxn(id, price, deposit, cap);
            Belongs(t, t) && t.dispensed == 0 && 25 * t.quarters <= t.change == Max(0, deposit - price)
  {
  }

  lemma RunBehaves(id: string, price: int, deposit: int, cap: int, hw: Hardware)
    requires 0 <= cap && Pays(NewTxn(id, price, deposit, cap), hw)
    ensures var first := NewTxn(id, price, deposit, cap);
            var effects := RunPurchase(id, price, deposit, cap, hw);
            Behaves(first, Blank, effects) && EndsJournaled(effects)
  {
    var first := NewTxn(id, price, deposit, cap);
    NewTxnBelongs(id, price, deposit, cap);
    ContinueBehaves(first, Note(Blank, Journaled(first)), first, hw);
    BehavesCons(first, Blank, Journaled(first), Continue(first, hw));
    ProgramsEndJournaled(first, hw);
  }

  lemma ResumeBehaves(first: Txn, l: Ledger, hw: Hardware)
    requires Balanced(first, l) && l.loose == 0 && (l.last.Some? ==> Pays(l.last.value, hw))
    ensures Behaves(first, l, Resume(l.last, hw)) && EndsJournaled(Resume(l.last, hw))
  {
    if l.last.Some? {
      var t := l.last.value;
      ProgramsEndJournaled(t, hw);
      ContinueBehaves(first, l, t, hw);
      CloseBehaves(first, l, t, hw);
    }
  }

  lemma {:induction false} HistoryBehaves(id: string, price: int, deposit: int, cap: int, boots: seq<Boot>)
    requires 0 <= cap && DispenserHonest(id, price, deposit, cap, boots)
    ensures var first := NewTxn(id, price, deposit, cap);
            var history := History(id, price, deposit, cap, boots);
            && Behaves(first, Blank, history)
            && Balanced(first, Tally(Blank, history)) && Tally(Blank, history).loose == 0
  {
    var first := NewTxn(id, price, deposit, cap);
    NewTxnBelongs(id, price, deposit, cap);
    assert Balanced(first, Blank);
    if |boots| == 1 {
      RunBehaves(id, price, deposit, cap, boots[0].hw);
      CutBehaves(first, Blank, RunPurchase(id, price, deposit, cap, boots[0].hw), boots[0].effects);
    } else if |boots| > 1 {
      var boot := boots[|boots| - 1];
      var before := History(id, price, deposit, cap, boots[..|boots| - 1]);
      HistoryBehaves(id, price, deposit, cap, boots[..|boots| - 1]);
      var l := Tally(Blank, before);
      ResumeBehaves(first, l, boot.hw);
      CutBehaves(first, l, Resume(l.last, boot.hw), boot.effects);
      BehavesConcat(first, Blank, before, Cut(Resume(l.last, boot.hw), boot.effects));
      TallyConcat(Blank, before, Cut(Resume(l.last, boot.hw), boot.effects));
    }
  }

  /** Every coin paid is in the last journal record or was lost to a crash, and no more coins
      were paid than the quarters due times one plus the crashes that lost some. */
  predicate PaidWithinBound(quarters: int, l: Ledger) {
    l.paid == CountedOf(l) + l.lost && l.paid <= quarters * (1 + l.lostCrashes)
  }

  lemma BalancedBound(first: Txn, l: Ledger)
    requires Balanced(first, l) && l.loose == 0
    ensures PaidWithinBound(first.quarters, l)
  {
    assert first.quarters * (1 + l.lostCrashes) == first.quarters + first.quarters * l.lostCrashes;
  }

  /** For any number of crashes and resumes, the coins paid out are at most the quarters due
      times one plus the number of crashes that fell between a dispense and its journal line. */
  lemma CoinsPaidAreBounded(id: string, price: int, deposit: int, cap: int, boots: seq<Boot>)
    requires 0 <= cap && DispenserHonest(id, price, deposit, cap, boots)
    ensures PaidWithinBound(
              NewTxn(id, price, deposit, cap).quarters, Tally(Blank, History(id, price, deposit, cap, boots)))
  {
    HistoryBehaves(id, price, deposit, cap, boots);
    BalancedBound(NewTxn(id, price, deposit, cap), Tally(Blank, History(id, price, deposit, cap, boots)));
  }

  // ---- The bound is reached

  /** Hardware on which everything works and the dispenser pays all it is asked for. */
  function Perfect(coins: int): Hardware {
    Hardware(true, coins, true, "OK", true, true, "", true, true, "")
  }

  /** n boots that each die right after the dispense. */
  function DyingBoots(coins: int, n: nat): seq<Boot> {
    if n == 0 then [] else DyingBoots(coins, n - 1) + [Boot(Perfect(coins), if n == 1 then 2 else 1)]
  }

  lemma {:induction false} DyingCount(coins: int, n: nat)
    ensures |DyingBoots(coins, n)| == n
  {
    if n > 0 {
      DyingCount(coins, n - 1);
    }
  }

  /** The ledger after n such boots. */
  function DeadLedger(first: Txn, n: nat): Ledger {
    Ledger(Some(first), 0, first.quarters * n, n, first.quarters * n)
  }

  lemma PerfectStart(t: Txn)
    requires t.quarters > 0 && t.dispensed == 0
    ensures var c := Continue(t, Perfect(t.quarters));
            && |c| > 2 && c[0] == Dispensed(t.quarters, t.quarters)
            && c[1] == Journaled(Counted(t, Perfect(t.quarters)))
  {
  }

  lemma DieAfterPaying(l: Ledger, pay: Effect)
    requires pay.Dispensed?
    ensures Tally(l, [pay] + [Crash]) == Note(Note(l, pay), Crash)
  {
    TallyOne(l, pay);
    TallyConcat(l, [pay], [Crash]);
    TallyOne(Note(l, pay), Crash);
  }

  lemma DyingAgain(first: Txn, n: nat)
    requires first.quarters > 0
    ensures Note(Note(DeadLedger(first, n), Dispensed(first.quarters, first.quarters)), Crash) == DeadLedger(first, n + 1)
  {
    assert first.quarters * (n + 1) == first.quarters * n + first.quarters;
  }

  lemma FirstDeath(id: string, price: int, deposit: int, cap: int)
    requires 0 <= cap && NewTxn(id, price, deposit, cap).quarters > 0
    ensures var first := NewTxn(id, price, deposit, cap);
            Tally(Blank, Cut(RunPurchase(id, price, deposit, cap, Perfect(first.quarters)), 2)) == DeadLedger(first, 1)
  {
    var first := NewTxn(id, price, deposit, cap);
    var pay := Dispensed(first.quarters, first.quarters);
    PerfectStart(first);
    var run := RunPurchase(id, price, deposit, cap, Perfect(first.quarters));
    assert run[..2] == [Journaled(first)] + [pay];
    assert Cut(run, 2) == [Journaled(first)] + ([pay] + [Crash]);
    TallyConcat(Blank, [Journaled(first)], [pay] + [Crash]);
    TallyOne(Blank, Journaled(first));
    DieAfterPaying(DeadLedger(first, 0), pay);
    DyingAgain(first, 0);
  }

  lemma LaterDeath(first: Txn, n: nat)
    requires first.quarters > 0 && first.dispensed == 0 && first.phase.Pending?
    ensures Tally(DeadLedger(first, n), Cut(Resume(Some(first), Perfect(first.quarters)), 1)) == DeadLedger(first, n + 1)
  {
    var pay := Dispensed(first.quarters, first.quarters);
    PerfectStart(first);
    var c := Continue(first, Perfect(first.quarters));
    assert c[..1] == [pay];
    DieAfterPaying(DeadLedger(first, n), pay);
    DyingAgain(first, n);
  }

  /** History and dispenser honesty of one boot more. */
  lemma OneMoreBoot(id: string, price: int, deposit: int, cap: int, boots: seq<Boot>, boot: Boot, l: Ledger)
    requires boots != [] && DispenserHonest(id, price, deposit, cap, boots)
    requires l == Tally(Blank, History(id, price, deposit, cap, boots))
    requires l.last.Some? && Pays(l.last.value, boot.hw)
    ensures DispenserHonest(id, price, deposit, cap, boots + [boot])
    ensures Tally(Blank, History(id, price, deposit, cap, boots + [boot]))
            == Tally(l, Cut(Resume(l.last, boot.hw), boot.effects))
  {
    assert (boots + [boot])[..|boots + [boot]| - 1] == boots;
    TallyConcat(Blank, History(id, price, deposit, cap, boots), Cut(Resume(l.last, boot.hw), boot.effects));
  }

  lemma {:induction false} DyingLedger(id: string, price: int, deposit: int, cap: int, n: nat)
    requires 0 <= cap && n > 0 && NewTxn(id, price, deposit, cap).quarters > 0
    ensures var first := NewTxn(id, price, deposit, cap);
            var boots := DyingBoots(first.quarters, n);
            && DispenserHonest(id, price, deposit, cap, boots)
            && Tally(Blank, History(id, price, deposit, cap, boots)) == DeadLedger(first, n)
  {
    var first := NewTxn(id, price, deposit, cap);
    var hw := Perfect(first.quarters);
    if n == 1 {
      assert DyingBoots(first.quarters, 0) == [];
      assert DyingBoots(first.quarters, 1) == [Boot(hw, 2)];
      FirstDeath(id, price, deposit, cap);
    } else {
      DyingLedger(id, price, deposit, cap, n - 1);
      DyingCount(first.quarters, n - 1);
      OneMoreBoot(id, price, deposit, cap, DyingBoots(first.quarters, n - 1), Boot(hw, 1), DeadLedger(first, n - 1));
      LaterDeath(first, n - 1);
    }
  }

  /** After n crashes that lost coins, exactly the bound has been paid. */
  predicate PaidTheBound(quarters: int, n: nat, l: Ledger) {
    l.lostCrashes == n && l.paid == quarters * (1 + n)
  }

  lemma PayAndRecord(first: Txn, n: nat)
    requires first.quarters > 0 && first.dispensed == 0 && first.phase.Pending?
    ensures PaidTheBound(first.quarters, n,
                         Tally(DeadLedger(first, n), Cut(Resume(Some(first), Perfect(first.quarters)), 2)))
  {
    var l := DeadLedger(first, n);
    assert first.quarters * (1 + n) == first.quarters * n + first.quarters;
    PerfectStart(first);
    var c := Continue(first, Perfect(first.quarters));
    var pay, record := c[0], c[1];
    assert c[..2] == [pay] + [record];
    TallyConcat(l, [pay] + [record], [Crash]);
    TallyConcat(l, [pay], [record]);
    TallyOne(l, pay);
    TallyOne(Note(l, pay), record);
    TallyOne(Note(Note(l, pay), record), Crash);
  }

  /** For every number of such crashes some history pays exactly the bound. */
  lemma BoundIsReached(id: string, price: int, deposit: int, cap: int, n: nat) returns (boots: seq<Boot>)
    requires 0 <= cap && n > 0 && NewTxn(id, price, deposit, cap).quarters > 0
    ensures DispenserHonest(id, price, deposit, cap, boots)
    ensures PaidTheBound(NewTxn(id, price, deposit, cap).quarters, n,
                         Tally(Blank, History(id, price, deposit, cap, boots)))
  {
    var first := NewTxn(id, price, deposit, cap);
    var hw := Perfect(first.quarters);
    var dying := DyingBoots(first.quarters, n);
    DyingLedger(id, price, deposit, cap, n);
    DyingCount(first.quarters, n);
    boots := dying + [Boot(hw, 2)];
    OneMoreBoot(id, price, deposit, cap, dying, Boot(hw, 2), DeadLedger(first, n));
    PayAndRecord(first, n);
  }

  lemma {:induction false} BehavesAt(first: Txn, l: Ledger, effects: seq<Effect>, i: nat)
    requires Behaves(first, l, effects) && i < |effects|
    ensures Allowed(first, Tally(l, effects[..i]), effects[i])
  {
    if i < |effects| - 1 {
      BehavesAt(first, l, effects[..|effects| - 1], i);
      assert effects[..|effects| - 1][..i] == effects[..i];
    }
  }

  /** Every journal record counts between nothing and the quarters due, which are worth at most
      the change owed; and the shutter opens only when the last record before it counts all. */
  lemma EveryRecordAndOpening(id: string, price: int, deposit: int, cap: int, boots: seq<Boot>, i: nat)
    requires 0 <= cap && DispenserHonest(id, price, deposit, cap, boots)
    requires i < |History(id, price, deposit, cap, boots)|
    ensures var history := History(id, price, deposit, cap, boots);
            && (history[i].Journaled? ==>
                  var r := history[i].record;
                  0 <= r.dispensed <= r.quarters && 25 * r.quarters <= Max(0, deposit - price))
            && (history[i].OpenedShutter? ==>
                  var l := Tally(Blank, history[..i]);
                  CountedOf(l) == NewTxn(id, price, deposit, cap).quarters)
  {
    var history := History(id, price, deposit, cap, boots);
    HistoryBehaves(id, price, deposit, cap, boots);
    NewTxnBelongs(id, price, deposit, cap);
    BehavesAt(NewTxn(id, price, deposit, cap), Blank, history, i);
  }

  /** After a run that was not cut short, a resume does nothing at all. */
  lemma CompletedRunNeedsNoResume(id: string, price: int, deposit: int, cap: int, hw: Hardware, again: Hardware)
    ensures Resume(Tally(Blank, RunPurchase(id, price, deposit, cap, hw)).last, again) == []
  {
    var effects := RunPurchase(id, price, deposit, cap, hw);
    ProgramsFinish(NewTxn(id, price, deposit, cap), hw);
    assert effects[|effects| - 1] == Continue(NewTxn(id, price, deposit, cap), hw)[|effects| - 2];
  }

  /** Likewise after a resume that was not cut short, for any last record. */
  lemma CompletedResumeNeedsNoResume(l: Ledger, hw: Hardware, again: Hardware)
    ensures Resume(Tally(l, Resume(l.last, hw)).last, again) == []
  {
    if l.last.Some? {
      ProgramsFinish(l.last.value, hw);
    }
  }

  predicate Finishes(effects: seq<Effect>) {
    effects != [] && effects[|effects| - 1].Journaled? &&
    (effects[|effects| - 1].record.phase.Done? || effects[|effects| - 1].record.phase.Void?)
  }

  /** Every program of the engine ends by journaling a done or void record. */
  lemma ProgramsFinish(t: Txn, hw: Hardware)
    ensures Finishes(CloseUp(t, hw)) && Finishes(Continue(t, hw))
  {
    PresentFinishes(t, hw);
    PresentFinishes(Counted(t, hw), hw);
  }

  lemma PresentFinishes(t: Txn, hw: Hardware)
    ensures Finishes(CloseUp(t, hw)) && Finishes(Present(t, hw))
  {
    assert Finishes(CloseUp(t, hw));
  }

  // ---- What a customer gets

  /** The first record: the change is what was overpaid, and the quarters due are as many as fit into it
      and the cap allows, so that less than a quarter is kept back unless the cap says so. */
  lemma QuartersDue(id: string, price: int, deposit: int, cap: int)
    requires 0 <= cap
    ensures var t := NewTxn(id, price, deposit, cap);
            && t.id == id && t.price == price && t.deposit == deposit
            && t.change == (if deposit > price then deposit - price else 0)
            && t.dispensed == 0 && t.phase == Pending && t.reason == ""
            && 0 <= t.quarters <= cap
            && ((t.quarters == cap && 25 * cap <= t.change) || 0 <= t.change - 25 * t.quarters <= 24)
  {
  }

  /** Everything works and nobody objects. */
  predicate Works(hw: Hardware, due: int) {
    hw.mayDispense && hw.dispenseOk && hw.paid == due && hw.mayOpen && hw.opens && hw.mayClose && hw.closes
  }

  /** The effects of a presentation that goes well. */
  function Presented(t: Txn): seq<Effect> {
    [OpenedShutter(true), Journaled(t.(phase := Presenting)), ClosedShutter(true),
     Journaled(t.(phase := Closed)), Journaled(t.(phase := Done))]
  }

  /** A purchase on such hardware pays exactly the quarters due, then opens and closes the shutter, and
      its last record is done with all of them counted. */
  lemma WorkingPurchasePays(id: string, price: int, deposit: int, cap: int, hw: Hardware)
    requires 0 <= cap && Works(hw, NewTxn(id, price, deposit, cap).quarters)
    ensures var t := NewTxn(id, price, deposit, cap);
            var paid := t.(dispensed := t.quarters, reason := hw.dispenseReason);
            RunPurchase(id, price, deposit, cap, hw) ==
            if t.quarters == 0 then [Journaled(t)] + Presented(t)
            else [Journaled(t), Dispensed(t.quarters, t.quarters), Journaled(paid.(phase := Dispensing))] + Presented(paid)
  {
    var t := NewTxn(id, price, deposit, cap);
    QuartersDue(id, price, deposit, cap);
    PresentsWell(t, hw);
    PresentsWell(Counted(t, hw), hw);
  }

  lemma PresentsWell(t: Txn, hw: Hardware)
    requires hw.mayOpen && hw.opens && hw.mayClose && hw.closes
    ensures Present(t, hw) == Presented(t)
  {
  }

  /** Nothing moves that the fault manager blocks: no coin, no opening and, during a presentation, no
      closing; and the shutter is closed only after it was opened. */
  lemma BlockedMovesNothing(t: Txn, hw: Hardware, e: Effect)
    requires e in Continue(t, hw)
    ensures e.Dispensed? ==> hw.mayDispense && t.dispensed < t.quarters && e.requested == t.quarters - t.dispensed
    ensures e.OpenedShutter? ==> hw.mayOpen && e.ok == hw.opens
    ensures e.ClosedShutter? ==> hw.mayOpen && hw.opens && hw.mayClose && e.ok == hw.closes
    ensures !e.Crash?
  {
    if e in Present(t, hw) || e in Present(Counted(t, hw), hw) {
      PresentMoves(t, hw, e);
      PresentMoves(Counted(t, hw), hw, e);
    }
  }

  lemma PresentMoves(t: Txn, hw: Hardware, e: Effect)
    ensures e in Present(t, hw) ==> !e.Dispensed? && !e.Crash?
    ensures e in Present(t, hw) && e.OpenedShutter? ==> hw.mayOpen && e.ok == hw.opens
    ensures e in Present(t, hw) && e.ClosedShutter? ==> hw.mayOpen && hw.opens && hw.mayClose && e.ok == hw.closes
  {
    CloseMoves(t, hw, e);
  }

  lemma CloseMoves(t: Txn, hw: Hardware, e: Effect)
    ensures e in CloseUp(t, hw) ==> !e.Dispensed? && !e.Crash? && !e.OpenedShutter? && (e.ClosedShutter? ==> e.ok == hw.closes)
  {
  }

  function LastRecord(effects: seq<Effect>): Option<Txn> {
    if effects != [] && effects[|effects| - 1].Journaled? then Some(effects[|effects| - 1].record) else None
  }

  /** The coins still due are paid, or none are. */
  predicate PaidUp(t: Txn, hw: Hardware) {
    t.dispensed < t.quarters ==> hw.mayDispense && hw.dispenseOk && hw.paid >= t.quarters - t.dispensed
  }

  /** A run ends done exactly when the coins are paid and the shutter may and does open and close;
      otherwise it ends void, for the reason of the first thing that went wrong. */
  lemma EndsDoneExactly(t: Txn, hw: Hardware)
    ensures var last := LastRecord(Continue(t, hw));
            && last.Some? && last.value.id == t.id
            && (last.value.phase == Done <==>
                  PaidUp(t, hw) && hw.mayOpen && hw.opens && hw.mayClose && hw.closes)
            && (last.value.phase != Done ==> last.value.phase == Void)
            && last.value.dispensed == t.dispensed + (if t.dispensed < t.quarters && hw.mayDispense then hw.paid else 0)
            && (t.dispensed < t.quarters && !hw.mayDispense ==> last.value.reason == "FAULT")
            && (PaidUp(t, hw) && !hw.mayOpen ==> last.value.reason == "FAULT")
            && (PaidUp(t, hw) && hw.mayOpen && !hw.opens ==> last.value.reason == hw.openReason)
            && (PaidUp(t, hw) && hw.mayOpen && hw.opens && !hw.mayClose ==> last.value.reason == "FAULT")
            && (PaidUp(t, hw) && hw.mayOpen && hw.opens && hw.mayClose && !hw.closes ==> last.value.reason == hw.closeReason)
            && (t.dispensed < t.quarters && hw.mayDispense && !PaidUp(t, hw) ==>
                  last.value.reason == (if hw.dispenseReason != "" then hw.dispenseReason
                                        else if hw.dispenseOk then "PARTIAL" else ""))
  {
    PresentEnds(t, hw);
    PresentEnds(Counted(t, hw), hw);
  }

  lemma PresentEnds(t: Txn, hw: Hardware)
    ensures Present(t, hw) != []
    ensures LastRecord(Present(t, hw)) ==
            Some(if !hw.mayOpen then t.(phase := Void, reason := "FAULT")
                 else if !hw.opens then t.(phase := Void, reason := hw.openReason)
                 else if !hw.mayClose then t.(phase := Void, reason := "FAULT")
                 else if !hw.closes then t.(phase := Void, reason := hw.closeReason)
                 else t.(phase := Done))
  {
  }

  /** A restarted engine goes on with a purchase that is pending or dispensing, closes the shutter of one
      that is presenting, and leaves any other alone. */
  lemma ResumesExactly(t: Txn, hw: Hardware)
    ensures t.phase in {Pending, Dispensing} ==> Resume(Some(t), hw) == Continue(t, hw)
    ensures t.phase == Presenting ==>
              Resume(Some(t), hw) ==
              [ClosedShutter(hw.closes)] +
              (if hw.closes then [Journaled(t.(phase := Closed)), Journaled(t.(phase := Done))]
               else [Journaled(t.(phase := Void, reason := hw.closeReason))])
    ensures t.phase in {Closed, Done, Void} ==> Resume(Some(t), hw) == []
  {
  }
}
