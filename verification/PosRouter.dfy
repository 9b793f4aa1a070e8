/** The purchase router over the idempotency store, one request at a time. */
module PosRouter {
  import opened Basics
  import opened PosStore
  import Decimal

  datatype Request = Request(price: int, deposit: int, key: string)

  datatype Reply = Body(json: string) | MismatchReply | PendingReply | BusyReply

  /** What a request leads to: the store afterwards, the status and reply, and whether the
      engine ran. */
  datatype Served = Served(store: State, status: int, reply: Reply, ran: bool)

  function PayloadHash(price: int, deposit: int): string {
    Decimal.Render(price) + ":" + Decimal.Render(deposit)
  }

  /** The position of the first colon, or the length if there is none. */
  function FirstColon(s: string): nat {
    if s == "" || s[0] == ':' then 0 else 1 + FirstColon(s[1..])
  }

  lemma {:induction false} ColonAfter(a: string, b: string)
    requires ':' !in a
    ensures FirstColon(a + ":" + b) == |a|
  {
    if a != "" {
      assert (a + ":" + b)[1..] == a[1..] + ":" + b;
      ColonAfter(a[1..], b);
    }
  }

  /** A colon-free part before a colon can be read back. */
  lemma SplitAtColon(a: string, b: string, c: string, d: string)
    requires ':' !in a && ':' !in c
    requires a + ":" + b == c + ":" + d
    ensures a == c && b == d
  {
    ColonAfter(a, b);
    ColonAfter(c, d);
    var s := a + ":" + b;
    assert a == s[..|a|] && b == s[|a| + 1..];
    assert c == (c + ":" + d)[..|c|] && d == (c + ":" + d)[|c| + 1..];
  }

  /** Two requests have the same hash exactly when price and deposit agree. */
  lemma PayloadHashInjective(p: int, d: int, p': int, d': int)
    ensures PayloadHash(p, d) == PayloadHash(p', d') <==> p == p' && d == d'
  {
    if PayloadHash(p, d) == PayloadHash(p', d') {
      SplitAtColon(Decimal.Render(p), Decimal.Render(d), Decimal.Render(p'), Decimal.Render(d'));
      Decimal.RenderInjective(p, p');
      Decimal.RenderInjective(d, d');
    }
  }

  /** A request handled alone; body is what the engine's transaction renders to if it runs. */
  function Handle(s: State, req: Request, body: string, started: nat, finished: nat): Served {
    var hash := PayloadHash(req.price, req.deposit);
    match Check(s.records, req.key, hash)
    case Mismatch => Served(s, 409, MismatchReply, false)
    case IsPending => Served(s, 202, PendingReply, false)
    case MatchDone => Served(s, 200, Body(s.records[req.key].result), false)
    case New =>
      Served(PutDone(PutPending(s, req.key, hash, started), req.key, hash, body, finished), 200, Body(body), true)
  }

  /** A request runs the engine exactly when nothing is recorded under its key, or only a record with the
      same hash that is neither pending nor done. Then it is answered with its body, its two lines are
      appended, and its record is done; otherwise the store stays as it is, and the record decides the answer. */
  lemma AnsweredExactly(s: State, req: Request, body: string, started: nat, finished: nat)
    ensures var served, hash := Handle(s, req, body, started, finished), PayloadHash(req.price, req.deposit);
            if req.key !in s.records then served.ran && RanAs(s, served, req.key, hash, body, started, finished)
            else
              var r := s.records[req.key];
              if r.hash != hash then served == Served(s, 409, MismatchReply, false)
              else if r.status == Pending then served == Served(s, 202, PendingReply, false)
              else if r.status == Done then served == Served(s, 200, Body(r.result), false)
              else served.ran && RanAs(s, served, req.key, hash, body, started, finished)
  {
    if Check(s.records, req.key, PayloadHash(req.price, req.deposit)).New? {
      var pending := Entry(Record(req.key, PayloadHash(req.price, req.deposit), "", Pending, started, started));
      assert s.file + [pending] == PutPending(s, req.key, PayloadHash(req.price, req.deposit), started).file;
    }
  }

  /** What a request leaves that ran the engine between two times. */
  predicate RanAs(s: State, served: Served, key: string, hash: string, body: string, started: nat, finished: nat) {
    var done := Record(key, hash, body, Done, if started != 0 then started else finished, finished);
    && served.status == 200 && served.reply == Body(body)
    && served.store.records == s.records[key := done]
    && served.store.file == s.file + [Entry(Record(key, hash, "", Pending, started, started))] + [Entry(done)]
  }

  class Router {
    const store: IdempotencyStore
    var busy: bool

    constructor (store: IdempotencyStore)
      ensures this.store == store && !busy
    {
      this.store := store;
      busy := false;
    }

    method HandleRequest(req: Request, body: string, started: nat, finished: nat)
      returns (status: int, reply: Reply, ran: bool)
      modifies this`busy, store
      ensures !old(busy) ==>
                var served := Handle(State(old(store.records), old(store.file), 0), req, body, started, finished);
                && store.records == served.store.records && store.file == served.store.file
                && status == served.status && reply == served.reply && ran == served.ran
      ensures old(busy) ==> !ran && store.records == old(store.records) && store.file == old(store.file)
      ensures old(busy) ==>
                if Check(old(store.records), req.key, PayloadHash(req.price, req.deposit)).New?
                then status == 409 && reply == BusyReply
                else
                  var served := Handle(State(old(store.records), old(store.file), 0), req, body, started, finished);
                  status == served.status && reply == served.reply
      ensures busy == old(busy)
    {
      var hash := PayloadHash(req.price, req.deposit);
      var check, rec := store.CheckKey(req.key, hash);
      match check {
        case Mismatch => return 409, MismatchReply, false;
        case IsPending => return 202, PendingReply, false;
        case MatchDone => return 200, Body(rec.value.result), false;
        case New =>
      }
      var wasBusy := busy;
      busy := true;
      if wasBusy {
        return 409, BusyReply, false;
      }
      store.PutPending(req.key, hash, started);
      ran := true;
      busy := false;
      store.PutDone(req.key, hash, body, finished);
      return 200, Body(body), ran;
    }
  }

  // ---- Whole runs of one process after another

  /** A request served to the end, a request during which the process dies after recording the
      pending line, or a restart. */
  datatype Event =
    | Serve(req: Request, body: string, started: nat, finished: nat)
    | DieInEngine(req: Request, started: nat)
    | Restart(openedAt: int, sweptAt: int)

  function After(ttl: int, s: State, e: Event): State {
    match e
    case Serve(req, body, started, finished) => Handle(s, req, body, started, finished).store
    case DieInEngine(req, started) =>
      var hash := PayloadHash(req.price, req.deposit);
      if Check(s.records, req.key, hash).New? then PutPending(s, req.key, hash, started) else s
    case Restart(now, later) => Reopen(ttl, s, now, later)
  }

  function AfterAll(ttl: int, s: State, events: seq<Event>): State {
    if events == [] then s else After(ttl, AfterAll(ttl, s, events[..|events| - 1]), events[|events| - 1])
  }

  /** Whether serving this event runs the engine for the key. */
  predicate RunsEngine(s: State, e: Event, key: string) {
    match e
    case Serve(req, body, started, finished) => req.key == key && Handle(s, req, body, started, finished).ran
    case DieInEngine(req, _) => req.key == key && Check(s.records, key, PayloadHash(req.price, req.deposit)).New?
    case Restart(_, _) => false
  }

  predicate Tracked(s: State, key: string) {
    key in s.records && !s.records[key].status.OtherStatus?
  }

  /** No restart among the events finds the record expired. */
  predicate Outlives(ttl: int, r: Record, events: seq<Event>) {
    forall i :: 0 <= i < |events| && events[i].Restart? ==>
      !Expired(ttl, r, events[i].openedAt) && !Expired(ttl, r, events[i].sweptAt)
  }

  /** The times in a run do not go back. */
  predicate InOrder(ttl: int, s: State, events: seq<Event>) {
    events == [] ||
    var before := AfterAll(ttl, s, events[..|events| - 1]);
    && InOrder(ttl, s, events[..|events| - 1])
    && match events[|events| - 1]
       case Serve(_, _, started, finished) => before.clock <= started <= finished
       case DieInEngine(_, started) => before.clock <= started
       case Restart(now, later) => before.clock <= now <= later
  }

  lemma ServeKeepsMirror(ttl: int, s: State, req: Request, body: string, started: nat, finished: nat)
    requires Mirrored(ttl, s) && s.clock <= started <= finished
    ensures Mirrored(ttl, Handle(s, req, body, started, finished).store)
  {
    var hash := PayloadHash(req.price, req.deposit);
    if Check(s.records, req.key, hash).New? {
      PutKeepsMirror(ttl, s, PendingRecord(req.key, hash, started));
      var s1 := PutPending(s, req.key, hash, started);
      PutKeepsMirror(ttl, s1, DoneRecord(s1.records, req.key, hash, body, finished));
    }
  }

  lemma EventKeepsMirror(ttl: int, s: State, e: Event)
    requires Mirrored(ttl, s)
    requires match e
             case Serve(_, _, started, finished) => s.clock <= started <= finished
             case DieInEngine(_, started) => s.clock <= started
             case Restart(now, later) => s.clock <= now <= later
    ensures Mirrored(ttl, After(ttl, s, e))
  {
    match e
    case Serve(req, body, started, finished) => ServeKeepsMirror(ttl, s, req, body, started, finished);
    case DieInEngine(req, started) =>
      PutKeepsMirror(ttl, s, PendingRecord(req.key, PayloadHash(req.price, req.deposit), started));
    case Restart(now, later) => ReopenKeepsMirror(ttl, s, now, later);
  }

  /** A tracked record survives every event that does not find it expired, and no such event
      runs the engine for its key. */
  lemma EventKeepsRecord(ttl: int, s: State, e: Event, key: string)
    requires Mirrored(ttl, s) && Tracked(s, key)
    requires e.Restart? ==> s.clock <= e.openedAt <= e.sweptAt && !Expired(ttl, s.records[key], e.sweptAt)
    ensures !RunsEngine(s, e, key)
    ensures var s' := After(ttl, s, e); key in s'.records && s'.records[key] == s.records[key]
  {
    if e.Restart? {
      ReopenKeepsMirror(ttl, s, e.openedAt, e.sweptAt);
    }
  }

  /** No event of the run runs the engine for the key. */
  predicate NeverRuns(ttl: int, s: State, events: seq<Event>, key: string) {
    events == [] ||
    (&& NeverRuns(ttl, s, events[..|events| - 1], key)
     && !RunsEngine(AfterAll(ttl, s, events[..|events| - 1]), events[|events| - 1], key))
  }

  lemma {:induction false} RecordSurvives(ttl: int, s: State, events: seq<Event>, key: string)
    requires Mirrored(ttl, s) && Tracked(s, key)
    requires InOrder(ttl, s, events) && Outlives(ttl, s.records[key], events)
    ensures var s' := AfterAll(ttl, s, events);
            Mirrored(ttl, s') && key in s'.records && s'.records[key] == s.records[key]
    ensures NeverRuns(ttl, s, events, key)
  {
    if events != [] {
      var n := |events| - 1;
      var mid := AfterAll(ttl, s, events[..n]);
      RecordSurvives(ttl, s, events[..n], key);
      EventKeepsMirror(ttl, mid, events[n]);
      EventKeepsRecord(ttl, mid, events[n], key);
    }
  }

  /** Once a request has run the engine, its key never runs it again while its record has not
      expired at a restart: the same amounts get the first body with 200, any others get 409. */
  lemma FirstRunDecides(ttl: int, s: State, req: Request, body: string, started: nat, finished: nat,
                        events: seq<Event>, again: Request, body': string, started': nat, finished': nat)
    requires Mirrored(ttl, s) && s.clock <= started <= finished
    requires Handle(s, req, body, started, finished).ran
    requires var s1 := Handle(s, req, body, started, finished).store;
             InOrder(ttl, s1, events) && Outlives(ttl, s1.records[req.key], events)
    requires again.key == req.key
    ensures var s1 := Handle(s, req, body, started, finished).store;
            && NeverRuns(ttl, s1, events, req.key)
            && var served := Handle(AfterAll(ttl, s1, events), again, body', started', finished');
               && !served.ran
               && Handle(s, req, body, started, finished).status == 200
               && Handle(s, req, body, started, finished).reply == Body(body)
               && (again.price == req.price && again.deposit == req.deposit ==>
                     served.status == 200 && served.reply == Handle(s, req, body, started, finished).reply)
               && (again.price != req.price || again.deposit != req.deposit ==>
                     served.status == 409 && served.reply == MismatchReply)
  {
    var s1 := Handle(s, req, body, started, finished).store;
    ServeKeepsMirror(ttl, s, req, body, started, finished);
    RecordSurvives(ttl, s1, events, req.key);
    PayloadHashInjective(req.price, req.deposit, again.price, again.deposit);
  }

  /** If the process died inside the engine, the key stays pending: it never runs again while
      the record has not expired, and the same amounts get 202. */
  lemma DeathLeavesPending(ttl: int, s: State, req: Request, started: nat, events: seq<Event>,
                           again: Request, body': string, started': nat, finished': nat)
    requires Mirrored(ttl, s) && s.clock <= started
    requires RunsEngine(s, DieInEngine(req, started), req.key)
    requires var s1 := After(ttl, s, DieInEngine(req, started));
             InOrder(ttl, s1, events) && Outlives(ttl, s1.records[req.key], events)
    requires again.key == req.key
    ensures var s1 := After(ttl, s, DieInEngine(req, started));
            && NeverRuns(ttl, s1, events, req.key)
            && var served := Handle(AfterAll(ttl, s1, events), again, body', started', finished');
               && !served.ran
               && served.status == (if again.price == req.price && again.deposit == req.deposit then 202 else 409)
  {
    var s1 := After(ttl, s, DieInEngine(req, started));
    EventKeepsMirror(ttl, s, DieInEngine(req, started));
    RecordSurvives(ttl, s1, events, req.key);
    PayloadHashInjective(req.price, req.deposit, again.price, again.deposit);
  }
}
