/** The transaction engine over its journal file: what a restarted engine reads is the last record
    of the history, so resuming from the file is resuming from the ledger. */
module CashRecovery {
  import opened Basics
  import TxnEngine
  import Journal

  function PhaseWord(p: TxnEngine.Phase): string {
    match p
    case Pending => "PENDING"
    case Dispensing => "DISPENSING"
    case Presenting => "PRESENTING"
    case Closed => "CLOSED"
    case Done => "DONE"
    case Void => "VOID"
  }

  lemma {:induction false} WordClean(s: string)
    requires forall i :: 0 <= i < |s| ==> 'A' <= s[i] <= 'Z'
    ensures Journal.Clean(s)
  {
    if s != "" {
      WordClean(s[1..]);
    }
  }

  lemma PhaseWordClean(p: TxnEngine.Phase)
    ensures Journal.Clean(PhaseWord(p))
  {
    WordClean(PhaseWord(p));
  }

  predicate Fits(t: TxnEngine.Txn) {
    Fits32(t.price) && Fits32(t.deposit) && Fits32(t.change) && Fits32(t.quarters) && Fits32(t.dispensed)
  }

  function Encode(t: TxnEngine.Txn): Journal.Txn
    requires Fits(t)
  {
    Journal.Txn(t.id, t.price, t.deposit, t.change, t.quarters, t.dispensed, PhaseWord(t.phase), t.reason)
  }

  function PhaseOf(word: string): Option<TxnEngine.Phase> {
    if word == "PENDING" then Some(TxnEngine.Pending)
    else if word == "DISPENSING" then Some(TxnEngine.Dispensing)
    else if word == "PRESENTING" then Some(TxnEngine.Presenting)
    else if word == "CLOSED" then Some(TxnEngine.Closed)
    else if word == "DONE" then Some(TxnEngine.Done)
    else if word == "VOID" then Some(TxnEngine.Void)
    else None
  }

  lemma PhaseOfWord(p: TxnEngine.Phase)
    ensures PhaseOf(PhaseWord(p)) == Some(p)
  {
    match p
    case Pending =>
    case Dispensing =>
    case Presenting =>
    case Closed =>
    case Done =>
    case Void =>
  }

  /** The engine's view of a record read from the file; a phase it does not know needs no resuming,
      as a void one does not. */
  function Decode(t: Journal.Txn): TxnEngine.Txn {
    var p := PhaseOf(t.phase);
    TxnEngine.Txn(t.id, t.price, t.deposit, t.change, t.quarters, t.dispensed,
                  if p.None? then TxnEngine.Void else p.value, t.reason)
  }

  lemma DecodeEncode(t: TxnEngine.Txn)
    requires Fits(t)
    ensures Decode(Encode(t)) == t
  {
    PhaseOfWord(t.phase);
  }

  predicate AllFit(history: seq<TxnEngine.Effect>) {
    history == [] ||
    (AllFit(history[..|history| - 1]) &&
     (history[|history| - 1].Journaled? ==> Fits(history[|history| - 1].record)))
  }

  /** The journal entries of a history; times and hosts are as the machine shows them. */
  function Entries(history: seq<TxnEngine.Effect>, ts: nat -> string, host: nat -> string): seq<Journal.Entry>
    requires AllFit(history)
  {
    if history == [] then []
    else
      var n := |history| - 1;
      var front := Entries(history[..n], ts, host);
      if history[n].Journaled? then front + [Journal.Entry(Encode(history[n].record), ts(n), host(n))] else front
  }

  ghost predicate CleanStamps(ts: nat -> string, host: nat -> string) {
    forall n: nat :: Journal.Clean(ts(n)) && Journal.Clean(host(n))
  }

  /** What a restarted engine makes of a journal file; None when reading it throws. */
  function ResumeFrom(file: string, hw: TxnEngine.Hardware): Option<seq<TxnEngine.Effect>> {
    match Journal.LoadLast(file)
    case Missing => Some([])
    case Threw => None
    case Found(t) => Some(TxnEngine.Resume(Some(Decode(t)), hw))
  }

  /** The last record of the ledger is the last entry of the file. */
  lemma {:induction false} LastEntry(history: seq<TxnEngine.Effect>, ts: nat -> string, host: nat -> string)
    requires AllFit(history)
    ensures var last, entries := TxnEngine.Tally(TxnEngine.Blank, history).last, Entries(history, ts, host);
            if last.None? then entries == []
            else
              Fits(last.value) && entries != [] &&
              exists n: nat :: entries[|entries| - 1] == Journal.Entry(Encode(last.value), ts(n), host(n))
  {
    if history != [] {
      var n := |history| - 1;
      LastEntry(history[..n], ts, host);
      NoteLast(TxnEngine.Tally(TxnEngine.Blank, history[..n]), history[n]);
    }
  }

  lemma NoteLast(l: TxnEngine.Ledger, e: TxnEngine.Effect)
    ensures TxnEngine.Note(l, e).last == if e.Journaled? then Some(e.record) else l.last
  {
  }

  /** Resuming from the file is resuming from the last record of the history, provided that record's
      id and reason contain no quote and no line break. */
  lemma FileResumesLikeLedger(
    history: seq<TxnEngine.Effect>, ts: nat -> string, host: nat -> string, hw: TxnEngine.Hardware)
    requires AllFit(history) && CleanStamps(ts, host)
    requires var last := TxnEngine.Tally(TxnEngine.Blank, history).last;
             last.Some? ==> Journal.Clean(last.value.id) && Journal.Clean(last.value.reason)
    ensures ResumeFrom(Journal.Contents(Entries(history, ts, host)), hw)
            == Some(TxnEngine.Resume(TxnEngine.Tally(TxnEngine.Blank, history).last, hw))
  {
    LastEntry(history, ts, host);
    var last, entries := TxnEngine.Tally(TxnEngine.Blank, history).last, Entries(history, ts, host);
    if last.Some? {
      var n: nat :| entries[|entries| - 1] == Journal.Entry(Encode(last.value), ts(n), host(n));
      EncodeClean(last.value);
      Journal.LastRecordIsReadExactly(entries);
      DecodeEncode(last.value);
    }
  }

  lemma EncodeClean(t: TxnEngine.Txn)
    requires Fits(t) && Journal.Clean(t.id) && Journal.Clean(t.reason)
    ensures Journal.CleanTxn(Encode(t))
  {
    PhaseWordClean(t.phase);
  }
}
