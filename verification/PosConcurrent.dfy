/** Any number of purchase handlers running at once over one store and one busy flag.  Each
    atomic piece of the router and the store is one step: the locked look-up, the exchange of
    the flag, each locked map write, each file append, and the engine call. */
module PosConcurrent {
  import opened Basics
  import opened PosStore

  /** Where a handler stands. */
  datatype Stage =
    | Arrived            // before the store check
    | Passed             // the check said NEW
    | Holding            // won the busy flag
    | PendingStored      // pending record in the map, its line not yet in the file
    | InEngine           // inside run_purchase
    | EngineDone         // run_purchase returned, flag still set
    | Released           // flag cleared
    | DoneStored         // done record in the map, its line not yet in the file
    | Returned(status: int)

  datatype Handler = Handler(key: string, hash: string, body: string, stage: Stage, line: Record)

  /** started lists the handlers that entered run_purchase, in order. */
  datatype System = System(
    handlers: map<nat, Handler>, records: map<string, Record>, file: seq<Line>, busy: bool, started: seq<nat>)

  datatype Action =
    | Arrive(id: nat, key: string, hash: string, body: string)
    | CheckStore(id: nat)
    | TryBusy(id: nat)
    | StorePending(id: nat, now: nat)
    | AppendPending(id: nat)
    | FinishEngine(id: nat)
    | ReleaseBusy(id: nat)
    | StoreDone(id: nat, now: nat)
    | AppendDone(id: nat)

  predicate At(s: System, id: nat, stage: Stage) {
    id in s.handlers && s.handlers[id].stage == stage
  }

  predicate Enabled(s: System, a: Action) {
    match a
    case Arrive(id, _, _, _) => id !in s.handlers
    case CheckStore(id) => At(s, id, Arrived)
    case TryBusy(id) => At(s, id, Passed)
    case StorePending(id, _) => At(s, id, Holding)
    case AppendPending(id) => At(s, id, PendingStored)
    case FinishEngine(id) => At(s, id, InEngine)
    case ReleaseBusy(id) => At(s, id, EngineDone)
    case StoreDone(id, _) => At(s, id, Released)
    case AppendDone(id) => At(s, id, DoneStored)
  }

  function Move(s: System, id: nat, stage: Stage): System
    requires id in s.handlers
  {
    s.(handlers := s.handlers[id := s.handlers[id].(stage := stage)])
  }

  function MoveWith(s: System, id: nat, stage: Stage, line: Record): System
    requires id in s.handlers
  {
    s.(handlers := s.handlers[id := s.handlers[id].(stage := stage, line := line)])
  }

  const NoLine := Record("", "", "", Pending, 0, 0)

  function Next(s: System, a: Action): System
    requires Enabled(s, a)
  {
    match a
    case Arrive(id, key, hash, body) => s.(handlers := s.handlers[id := Handler(key, hash, body, Arrived, NoLine)])
    case CheckStore(id) =>
      var h := s.handlers[id];
      (match Check(s.records, h.key, h.hash)
       case New => Move(s, id, Passed)
       case Mismatch => Move(s, id, Returned(409))
       case IsPending => Move(s, id, Returned(202))
       case MatchDone => Move(s, id, Returned(200)))
    case TryBusy(id) =>
      if s.busy then Move(s, id, Returned(409)) else Move(s, id, Holding).(busy := true)
    case StorePending(id, now) =>
      var h := s.handlers[id];
      var r := PendingRecord(h.key, h.hash, now);
      MoveWith(s, id, PendingStored, r).(records := s.records[h.key := r])
    case AppendPending(id) =>
      Move(s, id, InEngine).(file := s.file + [Entry(s.handlers[id].line)], started := s.started + [id])
    case FinishEngine(id) => Move(s, id, EngineDone)
    case ReleaseBusy(id) => Move(s, id, Released).(busy := false)
    case StoreDone(id, now) =>
      var h := s.handlers[id];
      var r := DoneRecord(s.records, h.key, h.hash, h.body, now);
      MoveWith(s, id, DoneStored, r).(records := s.records[h.key := r])
    case AppendDone(id) =>
      Move(s, id, Returned(200)).(file := s.file + [Entry(s.handlers[id].line)])
  }

  /** The state after a schedule, if every step of it is possible. */
  function Exec(s: System, schedule: seq<Action>): Option<System> {
    if schedule == [] then Some(s)
    else
      var before := Exec(s, schedule[..|schedule| - 1]);
      if before.Some? && Enabled(before.value, schedule[|schedule| - 1])
      then Some(Next(before.value, schedule[|schedule| - 1])) else None
  }

  // ---- What every schedule keeps

  predicate Holds(stage: Stage) {
    stage.Holding? || stage.PendingStored? || stage.InEngine? || stage.EngineDone?
  }

  /** Has written the pending record to the map but not the done record. */
  predicate OwesRecord(stage: Stage) {
    stage.PendingStored? || stage.InEngine? || stage.EngineDone? || stage.Released?
  }

  /** Has appended its pending line but not its done line. */
  predicate OwesLine(stage: Stage) {
    stage.InEngine? || stage.EngineDone? || stage.Released? || stage.DoneStored?
  }

  predicate Exclusive(s: System) {
    && (forall a, b :: a in s.handlers && b in s.handlers && Holds(s.handlers[a].stage) && Holds(s.handlers[b].stage)
          ==> a == b)
    && (forall a :: a in s.handlers && Holds(s.handlers[a].stage) ==> s.busy)
  }

  predicate Settled(stage: Stage) {
    stage.Arrived? || stage.Returned?
  }

  predicate Owed(s: System, key: string) {
    exists id :: id in s.handlers && s.handlers[id].key == key && OwesRecord(s.handlers[id].stage)
  }

  predicate LineOwed(s: System, key: string) {
    exists id :: id in s.handlers && s.handlers[id].key == key && OwesLine(s.handlers[id].stage)
  }

  /** The last record of a key in the file. */
  function LastLine(file: seq<Line>, key: string): Option<Record> {
    if file == [] then None
    else
      var line := file[|file| - 1];
      if line.Entry? && line.record.key == key then Some(line.record) else LastLine(file[..|file| - 1], key)
  }

  predicate PendingLine(file: seq<Line>, key: string) {
    LastLine(file, key).Some? && LastLine(file, key).value.status.Pending?
  }

  /** What a handler remembers to append is the record it stored. */
  predicate LineKnown(h: Handler) {
    && (h.stage.PendingStored? ==> h.line.key == h.key && h.line.status.Pending?)
    && (h.stage.DoneStored? ==> h.line.key == h.key && h.line.status.Done?)
  }

  /** The store as the process found it: only pending and done records. */
  predicate Tidy(records: map<string, Record>) {
    forall k :: k in records ==> records[k].key == k && !records[k].status.OtherStatus?
  }

  predicate LinesKnown(s: System) {
    forall id :: id in s.handlers ==> LineKnown(s.handlers[id])
  }

  /** Records found at the start are never touched: only other keys get past the check. */
  predicate Anchored(start: System, s: System) {
    && (forall k :: k in start.records ==> k in s.records && s.records[k] == start.records[k])
    && (forall id :: id in s.handlers && !Settled(s.handlers[id].stage) ==> s.handlers[id].key !in start.records)
  }

  /** What holds in every state reached from start. */
  ghost predicate Reached(start: System, s: System) {
    && Exclusive(s) && Tidy(s.records)
    && Anchored(start, s) && LinesKnown(s)
    && (forall k :: k in s.records && s.records[k].status.Pending? ==> k in start.records || Owed(s, k))
    && (forall k :: PendingLine(s.file, k) ==> PendingLine(start.file, k) || LineOwed(s, k))
  }

  predicate Fresh(start: System) {
    start.handlers == map[] && !start.busy && start.started == [] && Tidy(start.records)
  }

  lemma ExclusiveStep(s: System, a: Action)
    requires Exclusive(s) && Enabled(s, a)
    ensures Exclusive(Next(s, a))
  {
  }

  lemma OwedStays(s: System, a: Action, k: string)
    requires Enabled(s, a) && Owed(s, k) && !a.StoreDone?
    ensures Owed(Next(s, a), k)
  {
    var id :| id in s.handlers && s.handlers[id].key == k && OwesRecord(s.handlers[id].stage);
    assert Next(s, a).handlers[id].key == k && OwesRecord(Next(s, a).handlers[id].stage);
  }

  lemma OwedStep(start: System, s: System, a: Action, k: string)
    requires Enabled(s, a)
    requires k in s.records && s.records[k].status.Pending? ==> k in start.records || Owed(s, k)
    requires k in Next(s, a).records && Next(s, a).records[k].status.Pending?
    ensures k in start.records || Owed(Next(s, a), k)
  {
    var s' := Next(s, a);
    if a.StorePending? && s.handlers[a.id].key == k {
      assert s'.handlers[a.id].key == k && OwesRecord(s'.handlers[a.id].stage);
    } else if k !in start.records {
      assert k in s.records && s.records[k].status.Pending?;
      if a.StoreDone? {
        assert s.handlers[a.id].key != k;
        var id :| id in s.handlers && s.handlers[id].key == k && OwesRecord(s.handlers[id].stage);
        assert id != a.id;
        assert s'.handlers[id].key == k && OwesRecord(s'.handlers[id].stage);
      } else {
        OwedStays(s, a, k);
      }
    }
  }

  lemma LastLineSnoc(file: seq<Line>, r: Record, k: string)
    ensures LastLine(file + [Entry(r)], k) == if r.key == k then Some(r) else LastLine(file, k)
  {
    assert (file + [Entry(r)])[..|file|] == file;
  }

  lemma LineOwedStays(s: System, a: Action, k: string)
    requires Enabled(s, a) && LineOwed(s, k)
    requires a.AppendDone? ==> s.handlers[a.id].key != k
    ensures LineOwed(Next(s, a), k)
  {
    var id :| id in s.handlers && s.handlers[id].key == k && OwesLine(s.handlers[id].stage);
    assert Next(s, a).handlers[id].key == k && OwesLine(Next(s, a).handlers[id].stage);
  }

  lemma LineStep(start: System, s: System, a: Action, k: string)
    requires Enabled(s, a)
    requires LinesKnown(s)
    requires PendingLine(s.file, k) ==> PendingLine(start.file, k) || LineOwed(s, k)
    requires PendingLine(Next(s, a).file, k)
    ensures PendingLine(start.file, k) || LineOwed(Next(s, a), k)
  {
    var s' := Next(s, a);
    if a.AppendPending? || a.AppendDone? {
      LastLineSnoc(s.file, s.handlers[a.id].line, k);
    }
    if a.AppendPending? && s.handlers[a.id].key == k {
      assert s'.handlers[a.id].key == k && OwesLine(s'.handlers[a.id].stage);
    } else if !PendingLine(start.file, k) {
      assert PendingLine(s.file, k);
      LineOwedStays(s, a, k);
    }
  }

  lemma TidyStep(s: System, a: Action)
    requires Enabled(s, a) && Tidy(s.records)
    ensures Tidy(Next(s, a).records)
  {
  }

  lemma AnchoredStep(start: System, s: System, a: Action)
    requires Enabled(s, a) && Anchored(start, s) && Tidy(start.records)
    ensures Anchored(start, Next(s, a))
  {
  }

  lemma LinesKnownStep(s: System, a: Action)
    requires Enabled(s, a) && LinesKnown(s)
    ensures LinesKnown(Next(s, a))
  {
  }

  lemma StepStaysReached(start: System, s: System, a: Action)
    requires Reached(start, s) && Tidy(start.records) && Enabled(s, a)
    ensures Reached(start, Next(s, a))
  {
    var s' := Next(s, a);
    ExclusiveStep(s, a);
    TidyStep(s, a);
    AnchoredStep(start, s, a);
    LinesKnownStep(s, a);
    forall k | k in s'.records && s'.records[k].status.Pending?
      ensures k in start.records || Owed(s', k)
    {
      OwedStep(start, s, a, k);
    }
    forall k | PendingLine(s'.file, k)
      ensures PendingLine(start.file, k) || LineOwed(s', k)
    {
      LineStep(start, s, a, k);
    }
  }

  lemma {:induction false} SchedulesStayReached(start: System, schedule: seq<Action>)
    requires Fresh(start) && Exec(start, schedule).Some?
    ensures Reached(start, Exec(start, schedule).value)
  {
    if schedule != [] {
      SchedulesStayReached(start, schedule[..|schedule| - 1]);
      StepStaysReached(start, Exec(start, schedule[..|schedule| - 1]).value, schedule[|schedule| - 1]);
    }
  }

  /** In every interleaving at most one handler is inside run_purchase. */
  lemma AtMostOneInEngine(start: System, schedule: seq<Action>, a: nat, b: nat)
    requires Fresh(start) && Exec(start, schedule).Some?
    requires var s := Exec(start, schedule).value; At(s, a, InEngine) && At(s, b, InEngine)
    ensures a == b
  {
    SchedulesStayReached(start, schedule);
  }

  /** Once all handlers have returned, a key is pending exactly if it was pending when the
      process started; and a pending last line in the file was there at the start too. */
  lemma QuiescenceLeavesNothingPending(start: System, schedule: seq<Action>, key: string)
    requires Fresh(start) && Exec(start, schedule).Some?
    requires var s := Exec(start, schedule).value; forall id :: id in s.handlers ==> s.handlers[id].stage.Returned?
    ensures var s := Exec(start, schedule).value;
            && (key in s.records && s.records[key].status.Pending?
                <==> key in start.records && start.records[key].status.Pending?)
            && (PendingLine(s.file, key) ==> PendingLine(start.file, key))
  {
    SchedulesStayReached(start, schedule);
    var s := Exec(start, schedule).value;
    assert !Owed(s, key);
    assert !LineOwed(s, key);
  }

  // ---- When the check happens decides

  /** The key is recorded, and the handler (if it is there and uses the key) has not got past
      the check. */
  predicate Late(s: System, id: nat, key: string) {
    && key in s.records && Tidy(s.records)
    && (id in s.handlers && s.handlers[id].key == key ==> Settled(s.handlers[id].stage))
  }

  lemma LateStep(s: System, a: Action, id: nat, key: string)
    requires Late(s, id, key) && Enabled(s, a)
    ensures Late(Next(s, a), id, key)
  {
    TidyStep(s, a);
  }

  /** A handler whose store check happens after its key was first recorded never reaches
      run_purchase, in any continuation. */
  lemma {:induction false} LateCheckNeverRuns(s: System, schedule: seq<Action>, id: nat, key: string)
    requires Late(s, id, key) && Exec(s, schedule).Some?
    ensures Late(Exec(s, schedule).value, id, key)
    ensures var s' := Exec(s, schedule).value;
            id in s'.handlers && s'.handlers[id].key == key ==> !s'.handlers[id].stage.InEngine?
  {
    if schedule != [] {
      LateCheckNeverRuns(s, schedule[..|schedule| - 1], id, key);
      LateStep(Exec(s, schedule[..|schedule| - 1]).value, schedule[|schedule| - 1], id, key);
    }
  }

  // ---- Two early checks can both run

  lemma {:induction false} ExecConcat(s: System, a: seq<Action>, b: seq<Action>)
    requires Exec(s, a).Some?
    ensures Exec(s, a + b) == Exec(Exec(s, a).value, b)
  {
    if b == [] {
      assert a + b == a;
    } else {
      ExecConcat(s, a, b[..|b| - 1]);
      assert (a + b)[..|a + b| - 1] == a + b[..|b| - 1];
    }
  }

  lemma ExecOne(s: System, a: Action)
    requires Enabled(s, a)
    ensures Exec(s, [a]) == Some(Next(s, a))
  {
    assert [a][..0] == [];
  }

  lemma ExecSnoc(s: System, schedule: seq<Action>, a: Action)
    requires Exec(s, schedule).Some? && Enabled(Exec(s, schedule).value, a)
    ensures Exec(s, schedule + [a]) == Some(Next(Exec(s, schedule).value, a))
  {
    ExecConcat(s, schedule, [a]);
    ExecOne(Exec(s, schedule).value, a);
  }

  /** The steps of one handler from the exchange of the flag to its release. */
  function Purchase(id: nat): seq<Action> {
    [TryBusy(id)] + [StorePending(id, 1)] + [AppendPending(id)] + [FinishEngine(id)] + [ReleaseBusy(id)]
  }

  predicate SameRequest(h: Handler, h': Handler) {
    h'.key == h.key && h'.hash == h.hash && h'.body == h.body
  }

  lemma PurchaseRuns(s: System, id: nat)
    requires At(s, id, Passed) && !s.busy
    ensures Exec(s, Purchase(id)).Some?
    ensures var s' := Exec(s, Purchase(id)).value;
            && s'.started == s.started + [id] && !s'.busy
            && id in s'.handlers && SameRequest(s.handlers[id], s'.handlers[id]) && At(s', id, Released)
            && (forall k :: k in s.handlers && k != id ==> k in s'.handlers && s'.handlers[k] == s.handlers[k])
  {
    ExecOne(s, TryBusy(id));
    ExecSnoc(s, [TryBusy(id)], StorePending(id, 1));
    ExecSnoc(s, [TryBusy(id)] + [StorePending(id, 1)], AppendPending(id));
    ExecSnoc(s, [TryBusy(id)] + [StorePending(id, 1)] + [AppendPending(id)], FinishEngine(id));
    ExecSnoc(s, [TryBusy(id)] + [StorePending(id, 1)] + [AppendPending(id)] + [FinishEngine(id)], ReleaseBusy(id));
  }

  /** Two requests arrive and consult the store before either takes the flag. */
  function BothPass(key: string, hash: string, first: string, second: string): seq<Action> {
    [Arrive(0, key, hash, first)] + [Arrive(1, key, hash, second)] + [CheckStore(0)] + [CheckStore(1)]
  }

  /** Such a state is reached from any store without the key by two requests with the same key. */
  lemma SameKeyCanPassTwice(start: System, key: string, hash: string, first: string, second: string)
    requires Fresh(start) && key !in start.records
    ensures Exec(start, BothPass(key, hash, first, second)).Some?
    ensures var s := Exec(start, BothPass(key, hash, first, second)).value;
            && s.handlers.Keys == {0, 1} && !s.busy && s.started == []
            && s.handlers[0] == Handler(key, hash, first, Passed, NoLine)
            && s.handlers[1] == Handler(key, hash, second, Passed, NoLine)
  {
    var a, b := Arrive(0, key, hash, first), Arrive(1, key, hash, second);
    ExecOne(start, a);
    ExecSnoc(start, [a], b);
    ExecSnoc(start, [a] + [b], CheckStore(0));
    ExecSnoc(start, [a] + [b] + [CheckStore(0)], CheckStore(1));
  }
}
