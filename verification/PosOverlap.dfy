/** When requests with one key overlap: exactly which of them can still run the engine, what rules a
    second run out, and when the file and the map agree. */
module PosOverlap {
  import opened Basics
  import opened PosStore
  import opened PosConcurrent
  import Router = PosRouter

  // ---- What every schedule keeps about the flag and the starts

  predicate BusyIsHeld(s: System) {
    s.busy ==> exists id :: id in s.handlers && Holds(s.handlers[id].stage)
  }

  /** Past the start of the engine. */
  predicate Begun(stage: Stage) {
    stage.InEngine? || stage.EngineDone? || stage.Released? || stage.DoneStored?
  }

  /** Not yet at the start of the engine, but on the way there. */
  predicate OnTheWay(stage: Stage) {
    stage.Passed? || stage.Holding? || stage.PendingStored?
  }

  predicate StartKnown(s: System, id: nat)
    requires id in s.handlers
  {
    var h := s.handlers[id];
    && (Begun(h.stage) ==> id in s.started)
    && (h.stage.Arrived? || OnTheWay(h.stage) ==> id !in s.started)
    && (id in s.started || h.stage.PendingStored? ==> h.key in s.records)
  }

  predicate StartsKnown(s: System) {
    && (forall id :: id in s.started ==> id in s.handlers)
    && (forall id :: id in s.handlers ==> StartKnown(s, id))
  }

  /** What holds in every reached state beyond Reached. */
  predicate Flagged(s: System) {
    Exclusive(s) && Tidy(s.records) && BusyIsHeld(s) && StartsKnown(s)
  }

  lemma BusyStep(s: System, a: Action)
    requires Enabled(s, a) && BusyIsHeld(s) && Exclusive(s)
    ensures BusyIsHeld(Next(s, a))
  {
    var s' := Next(s, a);
    if s'.busy {
      if a.TryBusy? && !s.busy {
        assert Holds(s'.handlers[a.id].stage);
      } else {
        var id :| id in s.handlers && Holds(s.handlers[id].stage);
        assert id in s'.handlers && Holds(s'.handlers[id].stage);
      }
    }
  }

  /** A step moves one handler; the others stay, and the records and starts only grow. */
  lemma OthersStay(s: System, a: Action, id: nat)
    requires Enabled(s, a) && id != a.id
    ensures id in Next(s, a).handlers <==> id in s.handlers
    ensures id in s.handlers ==> Next(s, a).handlers[id] == s.handlers[id]
    ensures id in Next(s, a).started <==> id in s.started
  {
  }

  lemma RecordsGrow(s: System, a: Action)
    requires Enabled(s, a)
    ensures forall k :: k in s.records ==> k in Next(s, a).records
  {
  }

  lemma MoverStartKnown(s: System, a: Action)
    requires Enabled(s, a) && StartsKnown(s)
    ensures a.id in Next(s, a).handlers && StartKnown(Next(s, a), a.id)
  {
    if a.id in s.handlers {
      assert StartKnown(s, a.id);
    }
  }

  lemma StartsStep(s: System, a: Action)
    requires Enabled(s, a) && StartsKnown(s)
    ensures StartsKnown(Next(s, a))
  {
    var s' := Next(s, a);
    MoverStartKnown(s, a);
    RecordsGrow(s, a);
    forall id | id in s'.started
      ensures id in s'.handlers
    {
      if id != a.id {
        OthersStay(s, a, id);
      }
    }
    forall id | id in s'.handlers
      ensures StartKnown(s', id)
    {
      if id != a.id {
        OthersStay(s, a, id);
        assert StartKnown(s, id);
      }
    }
  }

  lemma FlaggedStep(s: System, a: Action)
    requires Enabled(s, a) && Flagged(s)
    ensures Flagged(Next(s, a))
  {
    ExclusiveStep(s, a);
    TidyStep(s, a);
    BusyStep(s, a);
    StartsStep(s, a);
  }

  lemma {:induction false} SchedulesStayFlagged(start: System, schedule: seq<Action>)
    requires Fresh(start) && Exec(start, schedule).Some?
    ensures Flagged(Exec(start, schedule).value)
  {
    if schedule != [] {
      SchedulesStayFlagged(start, schedule[..|schedule| - 1]);
      FlaggedStep(Exec(start, schedule[..|schedule| - 1]).value, schedule[|schedule| - 1]);
    }
  }

  // ---- Which handlers can still run the engine

  /** Some continuation takes the handler into run_purchase. */
  ghost predicate CanRun(s: System, id: nat) {
    exists schedule :: Exec(s, schedule).Some? && id in Exec(s, schedule).value.started
  }

  /** The steps that take the holder of the flag to its release. */
  function Rest(s: System, id: nat): seq<Action>
    requires id in s.handlers && Holds(s.handlers[id].stage)
  {
    match s.handlers[id].stage
    case Holding => [StorePending(id, 1)] + [AppendPending(id)] + [FinishEngine(id)] + [ReleaseBusy(id)]
    case PendingStored => [AppendPending(id)] + [FinishEngine(id)] + [ReleaseBusy(id)]
    case InEngine => [FinishEngine(id)] + [ReleaseBusy(id)]
    case _ => [ReleaseBusy(id)]
  }

  /** The flag is free again and no other handler has moved. */
  predicate Freed(s: System, s': System, id: nat) {
    !s'.busy && forall k :: k in s.handlers && k != id ==> k in s'.handlers && s'.handlers[k] == s.handlers[k]
  }

  lemma HolderCanFinish(s: System, id: nat)
    requires id in s.handlers && Holds(s.handlers[id].stage)
    ensures Exec(s, Rest(s, id)).Some? && Freed(s, Exec(s, Rest(s, id)).value, id)
    ensures id !in s.started && OnTheWay(s.handlers[id].stage) ==> id in Exec(s, Rest(s, id)).value.started
  {
    var a, b, c, d := StorePending(id, 1), AppendPending(id), FinishEngine(id), ReleaseBusy(id);
    match s.handlers[id].stage
    case Holding =>
      ExecOne(s, a);
      ExecSnoc(s, [a], b);
      ExecSnoc(s, [a] + [b], c);
      ExecSnoc(s, [a] + [b] + [c], d);
    case PendingStored =>
      ExecOne(s, b);
      ExecSnoc(s, [b], c);
      ExecSnoc(s, [b] + [c], d);
    case InEngine =>
      ExecOne(s, c);
      ExecSnoc(s, [c], d);
    case EngineDone =>
      ExecOne(s, d);
  }

  /** A handler that has passed the check can run even while another one holds the flag. */
  lemma PassedCanRun(s: System, id: nat)
    requires BusyIsHeld(s) && At(s, id, Passed)
    ensures CanRun(s, id)
  {
    if s.busy {
      var h :| h in s.handlers && Holds(s.handlers[h].stage);
      HolderCanFinish(s, h);
      var mid := Exec(s, Rest(s, h)).value;
      PurchaseRuns(mid, id);
      ExecConcat(s, Rest(s, h), Purchase(id));
      assert id in Exec(s, Rest(s, h) + Purchase(id)).value.started;
    } else {
      PurchaseRuns(s, id);
      assert id in Exec(s, Purchase(id)).value.started;
    }
  }

  /** Once its key is recorded and it has not got past the check, a handler never starts. */
  lemma {:induction false} LateNeverStarts(s: System, schedule: seq<Action>, id: nat, key: string)
    requires Late(s, id, key) && id in s.handlers && s.handlers[id].key == key && id !in s.started
    requires Exec(s, schedule).Some?
    ensures var s' := Exec(s, schedule).value;
            Late(s', id, key) && id in s'.handlers && s'.handlers[id].key == key && id !in s'.started
  {
    if schedule != [] {
      LateNeverStarts(s, schedule[..|schedule| - 1], id, key);
      LateStep(Exec(s, schedule[..|schedule| - 1]).value, schedule[|schedule| - 1], id, key);
    }
  }

  /** In every reached state in which its key is recorded, a handler that has not run the engine can
      still do so exactly if it has passed the check and is not turned away yet: the check alone
      decides, whoever holds the flag. */
  lemma CanRunExactly(start: System, schedule: seq<Action>, id: nat)
    requires Fresh(start) && Exec(start, schedule).Some?
    requires var s := Exec(start, schedule).value;
             id in s.handlers && s.handlers[id].key in s.records && id !in s.started
    ensures var s := Exec(start, schedule).value;
            CanRun(s, id) <==> OnTheWay(s.handlers[id].stage)
  {
    var s := Exec(start, schedule).value;
    SchedulesStayFlagged(start, schedule);
    if At(s, id, Passed) {
      PassedCanRun(s, id);
    } else if OnTheWay(s.handlers[id].stage) {
      HolderCanFinish(s, id);
      assert id in Exec(s, Rest(s, id)).value.started;
    } else {
      forall more | Exec(s, more).Some?
        ensures id !in Exec(s, more).value.started
      {
        LateNeverStarts(s, more, id, s.handlers[id].key);
      }
    }
  }

  // ---- Requests that do not overlap

  /** All handlers of the key have returned. */
  predicate AllReturned(s: System, key: string) {
    forall id :: id in s.handlers && s.handlers[id].key == key ==> s.handlers[id].stage.Returned?
  }

  /** Every request with the key arrives only after all others with it have returned. */
  predicate Apart(start: System, schedule: seq<Action>, key: string)
    requires Exec(start, schedule).Some?
  {
    schedule == [] ||
    (var front, a := schedule[..|schedule| - 1], schedule[|schedule| - 1];
     Apart(start, front, key) && (a.Arrive? && a.key == key ==> AllReturned(Exec(start, front).value, key)))
  }

  /** Of two handlers of one key one has returned; and if one has started, the other is settled and
      has not. */
  predicate Ordered(s: System, a: nat, b: nat)
    requires a in s.handlers && b in s.handlers
  {
    && (s.handlers[a].stage.Returned? || s.handlers[b].stage.Returned?)
    && (a in s.started ==> Settled(s.handlers[b].stage) && b !in s.started)
  }

  predicate Has(s: System, id: nat, key: string) {
    id in s.handlers && s.handlers[id].key == key
  }

  ghost predicate OneAtATime(s: System, key: string) {
    forall a, b :: Has(s, a, key) && Has(s, b, key) && a != b ==> Ordered(s, a, b)
  }

  /** The mover and another handler of its key. */
  lemma MoverOrdered(s: System, a: Action, key: string, other: nat)
    requires Flagged(s) && Enabled(s, a) && OneAtATime(s, key)
    requires a.Arrive? && a.key == key ==> AllReturned(s, key)
    requires other != a.id && Has(s, other, key) && Has(Next(s, a), a.id, key)
    ensures other in Next(s, a).handlers
    ensures Ordered(Next(s, a), a.id, other) && Ordered(Next(s, a), other, a.id)
  {
    OthersStay(s, a, other);
    assert StartKnown(s, other);
    if a.Arrive? {
      assert s.handlers[other].stage.Returned?;
    } else {
      assert Ordered(s, a.id, other) && Ordered(s, other, a.id) && StartKnown(s, a.id);
    }
  }

  lemma OneAtATimeStep(s: System, a: Action, key: string)
    requires Flagged(s) && Enabled(s, a) && OneAtATime(s, key)
    requires a.Arrive? && a.key == key ==> AllReturned(s, key)
    ensures OneAtATime(Next(s, a), key)
  {
    var s' := Next(s, a);
    forall x, y | Has(s', x, key) && Has(s', y, key) && x != y
      ensures Ordered(s', x, y)
    {
      if x == a.id {
        OthersStay(s, a, y);
        MoverOrdered(s, a, key, y);
      } else if y == a.id {
        OthersStay(s, a, x);
        MoverOrdered(s, a, key, x);
      } else {
        OthersStay(s, a, x);
        OthersStay(s, a, y);
        assert Ordered(s, x, y);
      }
    }
  }

  lemma {:induction false} ApartRunsOneAtATime(start: System, schedule: seq<Action>, key: string)
    requires Fresh(start) && Exec(start, schedule).Some? && Apart(start, schedule, key)
    ensures OneAtATime(Exec(start, schedule).value, key)
  {
    if schedule != [] {
      var front := schedule[..|schedule| - 1];
      ApartRunsOneAtATime(start, front, key);
      SchedulesStayFlagged(start, front);
      OneAtATimeStep(Exec(start, front).value, schedule[|schedule| - 1], key);
    }
  }

  /** If requests with a key do not overlap, at most one of them runs the engine. */
  lemma ApartRunsOnce(start: System, schedule: seq<Action>, key: string, a: nat, b: nat)
    requires Fresh(start) && Exec(start, schedule).Some? && Apart(start, schedule, key)
    requires var s := Exec(start, schedule).value;
             a in s.started && b in s.started && Has(s, a, key) && Has(s, b, key)
    ensures a == b
  {
    ApartRunsOneAtATime(start, schedule, key);
    var s := Exec(start, schedule).value;
    assert a != b ==> Ordered(s, a, b);
  }

  // ---- The file and the map

  /** Has stored a record of the key. */
  predicate Writer(s: System, id: nat, key: string) {
    Has(s, id, key) && (id in s.started || s.handlers[id].stage.PendingStored?)
  }

  ghost predicate OneWriter(s: System, key: string) {
    forall a, b :: Writer(s, a, key) && Writer(s, b, key) ==> a == b
  }

  /** The file's last line of the key is the record, unless the handler is about to append it. */
  predicate InStep(s: System, id: nat)
    requires id in s.handlers && s.handlers[id].key in s.records
  {
    var h := s.handlers[id];
    if h.stage.PendingStored? || h.stage.DoneStored? then s.records[h.key] == h.line
    else LastLine(s.file, h.key) == Some(s.records[h.key])
  }

  ghost predicate Agrees(s: System, key: string) {
    OneWriter(s, key) ==>
      forall id :: Writer(s, id, key) ==> s.handlers[id].key in s.records && InStep(s, id)
  }

  lemma WriterStays(s: System, a: Action, id: nat, key: string)
    requires Enabled(s, a) && Writer(s, id, key) && StartsKnown(s)
    ensures Writer(Next(s, a), id, key)
  {
    if id != a.id {
      OthersStay(s, a, id);
    } else {
      assert StartKnown(s, id);
    }
  }

  /** A step of a handler that is no writer of the key leaves the key's record and lines alone. */
  lemma KeyUntouched(s: System, a: Action, key: string)
    requires Enabled(s, a) && StartsKnown(s) && LinesKnown(s) && !Writer(Next(s, a), a.id, key)
    ensures key in s.records ==> key in Next(s, a).records && Next(s, a).records[key] == s.records[key]
    ensures LastLine(Next(s, a).file, key) == LastLine(s.file, key)
  {
    if a.AppendPending? || a.AppendDone? {
      assert StartKnown(s, a.id) && LineKnown(s.handlers[a.id]);
      LastLineSnoc(s.file, s.handlers[a.id].line, key);
    } else if a.StoreDone? {
      assert StartKnown(s, a.id);
    }
  }

  lemma WriterStep(s: System, a: Action, key: string)
    requires Enabled(s, a) && StartsKnown(s) && LinesKnown(s) && Writer(Next(s, a), a.id, key)
    requires Writer(s, a.id, key) ==> s.handlers[a.id].key in s.records && InStep(s, a.id)
    ensures Next(s, a).handlers[a.id].key in Next(s, a).records && InStep(Next(s, a), a.id)
  {
    assert a.id in s.handlers ==> StartKnown(s, a.id) && LineKnown(s.handlers[a.id]);
    if a.AppendPending? || a.AppendDone? {
      LastLineSnoc(s.file, s.handlers[a.id].line, key);
    }
  }

  lemma AgreesStep(s: System, a: Action, key: string)
    requires Enabled(s, a) && StartsKnown(s) && LinesKnown(s) && Agrees(s, key)
    ensures Agrees(Next(s, a), key)
  {
    var s' := Next(s, a);
    if OneWriter(s', key) {
      forall x, y | Writer(s, x, key) && Writer(s, y, key)
        ensures x == y
      {
        WriterStays(s, a, x, key);
        WriterStays(s, a, y, key);
      }
      assert OneWriter(s, key);
      forall id | Writer(s', id, key)
        ensures s'.handlers[id].key in s'.records && InStep(s', id)
      {
        if id == a.id {
          WriterStep(s, a, key);
        } else {
          OthersStay(s, a, id);
          assert Writer(s, id, key);
          assert !Writer(s', a.id, key);
          KeyUntouched(s, a, key);
        }
      }
    }
  }

  lemma {:induction false} SchedulesAgree(start: System, schedule: seq<Action>, key: string)
    requires Fresh(start) && Exec(start, schedule).Some?
    ensures Agrees(Exec(start, schedule).value, key)
  {
    if schedule != [] {
      var front := schedule[..|schedule| - 1];
      SchedulesAgree(start, front, key);
      SchedulesStayFlagged(start, front);
      SchedulesStayReached(start, front);
      AgreesStep(Exec(start, front).value, schedule[|schedule| - 1], key);
    }
  }

  /** Once all handlers have returned, the file's last line of a key that ran the engine once is its
      record, so a restart answers as this process would. */
  lemma FileAgreesAfterOneRun(start: System, schedule: seq<Action>, id: nat)
    requires Fresh(start) && Exec(start, schedule).Some?
    requires var s := Exec(start, schedule).value;
             && (forall k :: k in s.handlers ==> s.handlers[k].stage.Returned?)
             && id in s.started && id in s.handlers
             && (forall k :: k in s.started && Has(s, k, s.handlers[id].key) ==> k == id)
    ensures var s := Exec(start, schedule).value;
            var key := s.handlers[id].key;
            key in s.records && LastLine(s.file, key) == Some(s.records[key])
  {
    var s := Exec(start, schedule).value;
    SchedulesAgree(start, schedule, s.handlers[id].key);
    assert Writer(s, id, s.handlers[id].key);
    assert OneWriter(s, s.handlers[id].key);
  }

  // ---- Two runs of one key

  /** Both have run the engine; the first stores its result first and appends it last. */
  function Crossed(key: string, hash: string, first: string, second: string): seq<Action> {
    BothPass(key, hash, first, second) + (Purchase(0) + Purchase(1)) + LastSteps()
  }

  function LastSteps(): seq<Action> {
    [StoreDone(0, 1)] + [StoreDone(1, 1)] + [AppendDone(1)] + [AppendDone(0)]
  }

  lemma LastStepsDiffer(s: System, key: string, hash: string, first: string, second: string)
    requires At(s, 0, Released) && At(s, 1, Released)
    requires SameRequest(Handler(key, hash, first, Passed, NoLine), s.handlers[0])
    requires SameRequest(Handler(key, hash, second, Passed, NoLine), s.handlers[1])
    ensures Exec(s, LastSteps()).Some?
    ensures var s' := Exec(s, LastSteps()).value;
            && s'.started == s.started && key in s'.records && s'.records[key].result == second
            && LastLine(s'.file, key).Some? && LastLine(s'.file, key).value.result == first
  {
    var a, b, c, d := StoreDone(0, 1), StoreDone(1, 1), AppendDone(1), AppendDone(0);
    ExecOne(s, a);
    ExecSnoc(s, [a], b);
    ExecSnoc(s, [a] + [b], c);
    ExecSnoc(s, [a] + [b] + [c], d);
    var s3 := Exec(s, [a] + [b] + [c]).value;
    LastLineSnoc(s3.file, s3.handlers[0].line, key);
  }

  /** Two overlapping requests with one key can both run the engine, and the file can then disagree
      with the map: this process answers with the second body, a restarted one with the first. */
  lemma TwoRunsCanCross(start: System, key: string, hash: string, first: string, second: string)
    requires Fresh(start) && key !in start.records
    ensures Exec(start, Crossed(key, hash, first, second)).Some?
    ensures var s := Exec(start, Crossed(key, hash, first, second)).value;
            && s.started == [0, 1] && key in s.records && s.records[key].result == second
            && LastLine(s.file, key).Some? && LastLine(s.file, key).value.result == first
  {
    SameKeyCanPassTwice(start, key, hash, first, second);
    var s := Exec(start, BothPass(key, hash, first, second)).value;
    PurchaseRuns(s, 0);
    var mid := Exec(s, Purchase(0)).value;
    PurchaseRuns(mid, 1);
    ExecConcat(s, Purchase(0), Purchase(1));
    ExecConcat(start, BothPass(key, hash, first, second), Purchase(0) + Purchase(1));
    var ran := Exec(mid, Purchase(1)).value;
    LastStepsDiffer(ran, key, hash, first, second);
    ExecConcat(start, BothPass(key, hash, first, second) + (Purchase(0) + Purchase(1)), LastSteps());
  }

  // ---- A handler that runs alone

  /** The steps of a handler whose check says NEW. */
  function RunSteps(id: nat, started: nat, finished: nat): seq<Action> {
    [TryBusy(id)] + [StorePending(id, started)] + [AppendPending(id)] + [FinishEngine(id)] + [ReleaseBusy(id)] +
    [StoreDone(id, finished)] + [AppendDone(id)]
  }

  /** The answer and the store that the steps lead to. */
  predicate EndsAs(s': System, id: nat, served: Router.Served) {
    && At(s', id, Returned(served.status)) && !s'.busy
    && s'.records == served.store.records && s'.file == served.store.file
  }

  /** A request that no other interferes with is served as the router's sequential rule says: the small
      steps refine it. */
  lemma AloneIsSequential(s: System, id: nat, req: Router.Request, body: string, started: nat, finished: nat)
    requires id !in s.handlers && !s.busy
    ensures var hash := Router.PayloadHash(req.price, req.deposit);
            var served := Router.Handle(State(s.records, s.file, 0), req, body, started, finished);
            var check := [Arrive(id, req.key, hash, body)] + [CheckStore(id)];
            && Exec(s, check).Some?
            && if served.ran then
                 Exec(s, check + RunSteps(id, started, finished)).Some? &&
                 EndsAs(Exec(s, check + RunSteps(id, started, finished)).value, id, served)
               else EndsAs(Exec(s, check).value, id, served)
  {
    var hash := Router.PayloadHash(req.price, req.deposit);
    var arrive := Arrive(id, req.key, hash, body);
    ExecOne(s, arrive);
    ExecSnoc(s, [arrive], CheckStore(id));
    var checked := Exec(s, [arrive] + [CheckStore(id)]).value;
    if Check(s.records, req.key, hash).New? {
      RunStepsRun(checked, id, started, finished);
      ExecConcat(s, [arrive] + [CheckStore(id)], RunSteps(id, started, finished));
    }
  }

  lemma RunStepsRun(s: System, id: nat, started: nat, finished: nat)
    requires At(s, id, Passed) && !s.busy
    ensures Exec(s, RunSteps(id, started, finished)).Some?
    ensures var h, s' := s.handlers[id], Exec(s, RunSteps(id, started, finished)).value;
            var pending := PutPending(State(s.records, s.file, 0), h.key, h.hash, started);
            var done := PutDone(pending, h.key, h.hash, h.body, finished);
            At(s', id, Returned(200)) && !s'.busy && s'.records == done.records && s'.file == done.file
  {
    var a, b, c, d := TryBusy(id), StorePending(id, started), AppendPending(id), FinishEngine(id);
    var e, f, g := ReleaseBusy(id), StoreDone(id, finished), AppendDone(id);
    ExecOne(s, a);
    ExecSnoc(s, [a], b);
    ExecSnoc(s, [a] + [b], c);
    ExecSnoc(s, [a] + [b] + [c], d);
    ExecSnoc(s, [a] + [b] + [c] + [d], e);
    ExecSnoc(s, [a] + [b] + [c] + [d] + [e], f);
    ExecSnoc(s, [a] + [b] + [c] + [d] + [e] + [f], g);
  }

  /** One that finds the flag set is told so, and nothing is stored. */
  lemma BusyIsAnswered(s: System, id: nat)
    requires At(s, id, Passed) && s.busy
    ensures var s' := Next(s, TryBusy(id));
            At(s', id, Returned(409)) && s'.records == s.records && s'.file == s.file && s'.started == s.started
  {
  }
}
