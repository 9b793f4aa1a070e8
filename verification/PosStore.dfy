/** The idempotency store: a map of records kept beside an append-only file of lines. */
module PosStore {
  import opened Basics

  datatype Status = Pending | Done | OtherStatus(word: string)

  datatype Record = Record(key: string, hash: string, result: string, status: Status, firstNs: nat, lastNs: nat)

  /** A line of the file: one record, or text that open skips. */
  datatype Line = Skipped(text: string) | Entry(record: Record)

  datatype CheckResult = New | IsPending | MatchDone | Mismatch

  /** The constructor multiplies the number of hours by 10^9, so a "24 hour" limit is 24
      seconds in nanoseconds. */
  function TtlNs(ttlHours: int): int {
    ttlHours * 1_000_000_000
  }

  predicate Expired(ttl: int, r: Record, now: int) {
    ttl > 0 && now - r.lastNs > ttl
  }

  function Unexpired(ttl: int, records: map<string, Record>, now: int): map<string, Record> {
    map k | k in records && !Expired(ttl, records[k], now) :: records[k]
  }

  function LoadLine(ttl: int, records: map<string, Record>, line: Line, now: int): map<string, Record> {
    if line.Skipped? || Expired(ttl, line.record, now) then records
    else records[line.record.key := line.record]
  }

  /** What reading a file at time now adds to a map of records. */
  function Load(ttl: int, records: map<string, Record>, file: seq<Line>, now: int): map<string, Record> {
    if file == [] then records
    else LoadLine(ttl, Load(ttl, records, file[..|file| - 1], now), file[|file| - 1], now)
  }

  /** The store's state: its map, its file, and the latest time it has seen. */
  datatype State = State(records: map<string, Record>, file: seq<Line>, clock: int)

  function PendingRecord(key: string, hash: string, now: nat): Record {
    Record(key, hash, "", Pending, now, now)
  }

  function DoneRecord(records: map<string, Record>, key: string, hash: string, result: string, now: nat): Record {
    Record(key, hash, result, Done,
           if key in records && records[key].firstNs != 0 then records[key].firstNs else now, now)
  }

  function Put(s: State, r: Record): State {
    State(s.records[r.key := r], s.file + [Entry(r)], r.lastNs)
  }

  function PutPending(s: State, key: string, hash: string, now: nat): State {
    Put(s, PendingRecord(key, hash, now))
  }

  function PutDone(s: State, key: string, hash: string, result: string, now: nat): State {
    Put(s, DoneRecord(s.records, key, hash, result, now))
  }

  /** A new process opens the same file at time now and sweeps at a later time. */
  function Reopen(ttl: int, s: State, now: int, later: int): State {
    State(Unexpired(ttl, Load(ttl, map[], s.file, now), later), s.file, later)
  }

  function Check(records: map<string, Record>, key: string, hash: string): CheckResult {
    if key !in records then New
    else if records[key].hash != hash then Mismatch
    else match records[key].status
      case Pending => IsPending
      case Done => MatchDone
      case OtherStatus(_) => New
  }

  class IdempotencyStore {
    const ttl: int
    var records: map<string, Record>
    var file: seq<Line>

    constructor (ttlHours: int, file: seq<Line>)
      ensures ttl == TtlNs(ttlHours) && records == map[] && this.file == file
    {
      ttl := TtlNs(ttlHours);
      records := map[];
      this.file := file;
    }

    method Open(now: int, later: int)
      modifies this`records
      ensures records == Unexpired(ttl, Load(ttl, old(records), file, now), later)
    {
      var i := 0;
      while i < |file|
        invariant 0 <= i <= |file|
        invariant records == Load(ttl, old(records), file[..i], now)
      {
        assert file[..i + 1][..i] == file[..i];
        var line := file[i];
        i := i + 1;
        if line.Skipped? {
          continue;
        }
        var r := line.record;
        if ttl > 0 && now - r.lastNs > ttl {
          continue;
        }
        records := records[r.key := r];
      }
      assert file[..i] == file;
      SweepExpired(later);
    }

    method SweepExpired(now: int)
      modifies this`records
      ensures records == Unexpired(ttl, old(records), now)
    {
      if ttl <= 0 {
        assert records == Unexpired(ttl, old(records), now);
        return;
      }
      var rest := records.Keys;
      while rest != {}
        invariant rest <= old(records).Keys
        invariant rest <= records.Keys <= old(records).Keys
        invariant forall k :: k in records ==> records[k] == old(records)[k]
        invariant forall k :: k in old(records) && k !in rest ==>
                    (k in records <==> !Expired(ttl, old(records)[k], now))
      {
        var k :| k in rest;
        if now - records[k].lastNs > ttl {
          records := records - {k};
        }
        rest := rest - {k};
      }
    }

    method CheckKey(key: string, hash: string) returns (c: CheckResult, found: Option<Record>)
      ensures c == Check(records, key, hash)
      ensures found == if key in records then Some(records[key]) else None
    {
      if key !in records {
        return New, None;
      }
      found := Some(records[key]);
      if records[key].hash != hash {
        return Mismatch, found;
      }
      if records[key].status == Pending {
        return IsPending, found;
      }
      if records[key].status == Done {
        return MatchDone, found;
      }
      return New, found;
    }

    method PutPending(key: string, hash: string, now: nat)
      modifies this
      ensures records == old(records)[key := PendingRecord(key, hash, now)]
      ensures file == old(file) + [Entry(PendingRecord(key, hash, now))]
    {
      var r := Record(key, hash, "", Pending, now, now);
      records := records[key := r];
      file := file + [Entry(r)];
    }

    method PutDone(key: string, hash: string, result: string, now: nat)
      modifies this
      ensures records == old(records)[key := DoneRecord(old(records), key, hash, result, now)]
      ensures file == old(file) + [Entry(DoneRecord(old(records), key, hash, result, now))]
    {
      var r := Record(key, hash, result, Done, now, now);
      if key in records && records[key].firstNs != 0 {
        r := r.(firstNs := records[key].firstNs);
      }
      records := records[key := r];
      file := file + [Entry(r)];
    }
  }

  // ---- Reopening rebuilds the live map

  /** Records sit under their keys and none is newer than the clock. */
  predicate Timely(s: State) {
    forall k :: k in s.records ==> s.records[k].key == k && s.records[k].lastNs <= s.clock
  }

  /** Whenever the file is read from now on, it gives exactly the live records that have not
      expired by then. */
  ghost predicate Mirrored(ttl: int, s: State) {
    && Timely(s)
    && forall t :: t >= s.clock ==> Load(ttl, map[], s.file, t) == Unexpired(ttl, s.records, t)
  }

  lemma PutKeepsMirror(ttl: int, s: State, r: Record)
    requires Mirrored(ttl, s) && s.clock <= r.lastNs
    ensures Mirrored(ttl, Put(s, r))
  {
    var s' := Put(s, r);
    forall t | t >= s'.clock
      ensures Load(ttl, map[], s'.file, t) == Unexpired(ttl, s'.records, t)
    {
      assert s'.file[..|s.file|] == s.file;
      assert Load(ttl, map[], s.file, t) == Unexpired(ttl, s.records, t);
      if !Expired(ttl, r, t) {
        assert Unexpired(ttl, s.records, t)[r.key := r] == Unexpired(ttl, s'.records, t);
      } else {
        assert Unexpired(ttl, s.records, t) == Unexpired(ttl, s'.records, t);
      }
    }
  }

  lemma ReopenKeepsMirror(ttl: int, s: State, now: int, later: int)
    requires Mirrored(ttl, s) && s.clock <= now <= later
    ensures Mirrored(ttl, Reopen(ttl, s, now, later))
    ensures Reopen(ttl, s, now, later).records == Unexpired(ttl, s.records, later)
  {
    var s' := Reopen(ttl, s, now, later);
    assert s'.records == Unexpired(ttl, s.records, later);
    forall t | t >= s'.clock
      ensures Load(ttl, map[], s'.file, t) == Unexpired(ttl, s'.records, t)
    {
      assert Unexpired(ttl, s.records, t) == Unexpired(ttl, s'.records, t);
    }
  }

  datatype Step =
    | DoPending(key: string, hash: string, now: nat)
    | DoDone(key: string, hash: string, result: string, now: nat)
    | DoReopen(openedAt: int, sweptAt: int)

  function Apply(ttl: int, s: State, step: Step): State {
    match step
    case DoPending(key, hash, now) => PutPending(s, key, hash, now)
    case DoDone(key, hash, result, now) => PutDone(s, key, hash, result, now)
    case DoReopen(now, later) => Reopen(ttl, s, now, later)
  }

  function Run(ttl: int, s: State, steps: seq<Step>): State {
    if steps == [] then s else Apply(ttl, Run(ttl, s, steps[..|steps| - 1]), steps[|steps| - 1])
  }

  /** Each step's times are not before the clock it starts from. */
  predicate InTime(ttl: int, s: State, steps: seq<Step>) {
    steps == [] ||
    var before := Run(ttl, s, steps[..|steps| - 1]);
    && InTime(ttl, s, steps[..|steps| - 1])
    && match steps[|steps| - 1]
       case DoPending(_, _, now) => before.clock <= now
       case DoDone(_, _, _, now) => before.clock <= now
       case DoReopen(now, later) => before.clock <= now <= later
  }

  const EmptyStore := State(map[], [], 0)

  /** With a clock that does not go back, after any sequence of writes and restarts, reopening
      the store gives exactly the live records that are not expired. */
  lemma {:induction false} ReopeningRebuildsLiveMap(ttl: int, steps: seq<Step>, now: int, later: int)
    requires InTime(ttl, EmptyStore, steps)
    requires Run(ttl, EmptyStore, steps).clock <= now <= later
    ensures var s := Run(ttl, EmptyStore, steps);
            Reopen(ttl, s, now, later).records == Unexpired(ttl, s.records, later)
  {
    RunsStayMirrored(ttl, steps);
    ReopenKeepsMirror(ttl, Run(ttl, EmptyStore, steps), now, later);
  }

  lemma {:induction false} RunsStayMirrored(ttl: int, steps: seq<Step>)
    requires InTime(ttl, EmptyStore, steps)
    ensures Mirrored(ttl, Run(ttl, EmptyStore, steps))
  {
    if steps == [] {
      assert forall t :: Unexpired(ttl, map[], t) == map[];
    } else {
      var s := Run(ttl, EmptyStore, steps[..|steps| - 1]);
      RunsStayMirrored(ttl, steps[..|steps| - 1]);
      match steps[|steps| - 1]
      case DoPending(key, hash, now) => PutKeepsMirror(ttl, s, PendingRecord(key, hash, now));
      case DoDone(key, hash, result, now) => PutKeepsMirror(ttl, s, DoneRecord(s.records, key, hash, result, now));
      case DoReopen(now, later) => ReopenKeepsMirror(ttl, s, now, later);
    }
  }

  // ---- How long a record lasts

  /** A record written at one time is there after a restart exactly when no limit is set or no more than
      as many seconds as the limit says hours have passed. */
  lemma LastsExactly(ttlHours: int, s: State, r: Record, now: int, later: int)
    requires Mirrored(TtlNs(ttlHours), s) && s.clock <= r.lastNs <= now <= later
    ensures var after := Reopen(TtlNs(ttlHours), Put(s, r), now, later).records;
            && (r.key in after <==> ttlHours <= 0 || later <= r.lastNs + ttlHours * 1_000_000_000)
            && (r.key in after ==> after[r.key] == r)
  {
    PutKeepsMirror(TtlNs(ttlHours), s, r);
    ReopenKeepsMirror(TtlNs(ttlHours), Put(s, r), now, later);
  }
}
