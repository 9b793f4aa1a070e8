/** Device twins: the revision-guarded server, and clients that queue what they could not push. */
module Twin {
  import opened Basics

  datatype SyncStatus = Synced | Disabled | Local(word: string)

  datatype DrawerTwin = DrawerTwin(
    drawerId: string, deviceId: string, revision: int, remoteRevision: int, disabled: bool, sync: SyncStatus, content: string)

  type Table = map<string, DrawerTwin>

  // ---- The server

  datatype Code = Accepted | Malformed | Unauthorized | Conflict | Locked

  /** The answer to a push of a twin to a drawer's path. */
  function Judge(t: Table, path: string, twin: DrawerTwin): Code {
    if twin.disabled || (path in t && t[path].disabled) then Locked
    else if path in t && twin.revision <= t[path].revision then Conflict
    else Accepted
  }

  function Stored(twin: DrawerTwin): DrawerTwin {
    twin.(remoteRevision := twin.revision, sync := Synced)
  }

  function Posted(t: Table, path: string, twin: DrawerTwin): Table {
    if Judge(t, path, twin) == Accepted then t[twin.drawerId := Stored(twin)] else t
  }

  function Switched(twin: DrawerTwin, device: string): DrawerTwin {
    if twin.deviceId == device then twin.(disabled := true, sync := Disabled) else twin
  }

  function DisabledAll(t: Table, device: string): Table {
    map d | d in t :: Switched(t[d], device)
  }

  class Server {
    var twins: Table

    constructor ()
      ensures twins == map[]
    {
      twins := map[];
    }

    /** A request body that is no twin is None. */
    method Post(authorized: bool, path: string, body: Option<DrawerTwin>) returns (code: Code)
      modifies this
      ensures code == if !authorized then Unauthorized else if body.None? then Malformed else Judge(old(twins), path, body.value)
      ensures twins == if authorized && body.Some? then Posted(old(twins), path, body.value) else old(twins)
    {
      if !authorized {
        return Unauthorized;
      }
      if body.None? {
        return Malformed;
      }
      var incoming := body.value;
      if incoming.disabled || (path in twins && twins[path].disabled) {
        return Locked;
      }
      if path in twins && incoming.revision <= twins[path].revision {
        return Conflict;
      }
      incoming := incoming.(remoteRevision := incoming.revision, sync := Synced);
      twins := twins[incoming.drawerId := incoming];
      return Accepted;
    }

    method DisableDevice(device: string)
      modifies this
      ensures twins == DisabledAll(old(twins), device)
    {
      ghost var before := twins;
      var todo := twins.Keys;
      while todo != {}
        invariant todo <= before.Keys == twins.Keys
        invariant forall d :: d in todo ==> twins[d] == before[d]
        invariant forall d :: d in twins && d !in todo ==> twins[d] == Switched(before[d], device)
        decreases |todo|
      {
        var d :| d in todo;
        if twins[d].deviceId == device {
          twins := twins[d := twins[d].(disabled := true, sync := Disabled)];
        }
        todo := todo - {d};
      }
      assert twins == DisabledAll(before, device);
    }
  }

  // ---- Histories of the server

  datatype Event = Push(path: string, twin: DrawerTwin) | Disable(device: string)

  function Apply(t: Table, e: Event): Table {
    match e
    case Push(path, twin) => Posted(t, path, twin)
    case Disable(device) => DisabledAll(t, device)
  }

  function Serve(t: Table, events: seq<Event>): Table {
    if events == [] then t else Apply(Serve(t, events[..|events| - 1]), events[|events| - 1])
  }

  /** Every push goes to its own drawer's path. */
  predicate Addressed(events: seq<Event>) {
    events == [] ||
    (var e := events[|events| - 1];
     Addressed(events[..|events| - 1]) && (e.Push? ==> e.path == e.twin.drawerId))
  }

  /** One step never forgets a drawer, lowers its revision or switches a disabled one back. */
  predicate Advances(before: Table, after: Table, d: string) {
    d in before ==> d in after && before[d].revision <= after[d].revision && (before[d].disabled ==> after[d].disabled)
  }

  lemma ApplyAdvances(t: Table, e: Event, d: string)
    requires e.Push? ==> e.path == e.twin.drawerId
    ensures Advances(t, Apply(t, e), d)
  {
  }

  lemma {:induction false} RevisionsOnlyRise(t: Table, events: seq<Event>, d: string)
    requires Addressed(events)
    ensures Advances(t, Serve(t, events), d)
  {
    if events != [] {
      RevisionsOnlyRise(t, events[..|events| - 1], d);
      ApplyAdvances(Serve(t, events[..|events| - 1]), events[|events| - 1], d);
    }
  }

  // ---- What the record of a drawer is

  /** What it takes to be accepted: a twin that is not disabled, and on its path no record, or one that
      is not disabled and has a lower revision. */
  predicate Taken(t: Table, path: string, twin: DrawerTwin) {
    !twin.disabled && (path in t ==> !t[path].disabled && t[path].revision < twin.revision)
  }

  /** Locked comes first: a disabled twin, or a disabled record, is told so whatever the revisions. */
  lemma JudgedExactly(t: Table, path: string, twin: DrawerTwin)
    ensures Judge(t, path, twin) == Accepted <==> Taken(t, path, twin)
    ensures Judge(t, path, twin) == Locked <==> twin.disabled || (path in t && t[path].disabled)
    ensures Judge(t, path, twin) == Conflict <==>
            !twin.disabled && path in t && !t[path].disabled && twin.revision <= t[path].revision
  {
  }

  /** A push in the history that was accepted for the drawer. */
  predicate AcceptedAt(t: Table, events: seq<Event>, d: string, i: nat)
    requires i < |events|
  {
    events[i].Push? && events[i].twin.drawerId == d && Taken(Serve(t, events[..i]), events[i].path, events[i].twin)
  }

  predicate DisabledSince(events: seq<Event>, i: nat, device: string)
    requires i <= |events|
  {
    exists j :: i <= j < |events| && events[j] == Disable(device)
  }

  /** What is kept of a push: what it said, its revision as the remote one too, and whether its device has
      been disabled since. */
  predicate KeptOf(push: DrawerTwin, record: DrawerTwin, off: bool) {
    && record.drawerId == push.drawerId && record.deviceId == push.deviceId
    && record.revision == push.revision && record.content == push.content
    && record.remoteRevision == push.revision
    && record.disabled == off && record.sync == (if off then Disabled else Synced)
  }

  lemma {:induction false} DisabledSincePrefix(events: seq<Event>, i: nat, device: string)
    requires i < |events|
    ensures var n := |events| - 1;
            DisabledSince(events, i, device) <==> DisabledSince(events[..n], i, device) || events[n] == Disable(device)
  {
    var n := |events| - 1;
    assert forall j :: 0 <= j < n ==> events[..n][j] == events[j];
  }

  lemma {:induction false} AcceptedAtPrefix(t: Table, events: seq<Event>, d: string, i: nat)
    requires i < |events| - 1
    ensures AcceptedAt(t, events[..|events| - 1], d, i) <==> AcceptedAt(t, events, d, i)
  {
    assert events[..|events| - 1][..i] == events[..i];
  }

  /** In every history, whatever the paths, a drawer's record is the last push accepted for it. */
  lemma {:induction false} RecordIsLastAccepted(t: Table, events: seq<Event>, d: string, i: nat)
    requires i < |events| && AcceptedAt(t, events, d, i)
    requires forall j :: i < j < |events| ==> !AcceptedAt(t, events, d, j)
    ensures d in Serve(t, events)
    ensures KeptOf(events[i].twin, Serve(t, events)[d], DisabledSince(events, i + 1, events[i].twin.deviceId))
  {
    var n := |events| - 1;
    var front := events[..n];
    if i < n {
      forall j | 0 <= j < n
        ensures AcceptedAt(t, front, d, j) <==> AcceptedAt(t, events, d, j)
      {
        AcceptedAtPrefix(t, events, d, j);
      }
      RecordIsLastAccepted(t, front, d, i);
      DisabledSincePrefix(events, i + 1, events[i].twin.deviceId);
      assert !AcceptedAt(t, events, d, n);
    }
  }

  /** A drawer for which no push was accepted keeps its record, but for being disabled. */
  lemma {:induction false} UnpushedRecordStays(t: Table, events: seq<Event>, d: string)
    requires forall j :: 0 <= j < |events| ==> !AcceptedAt(t, events, d, j)
    ensures d in Serve(t, events) <==> d in t
    ensures d in t ==>
              Serve(t, events)[d] == if DisabledSince(events, 0, t[d].deviceId) then t[d].(disabled := true, sync := Disabled) else t[d]
  {
    if events != [] {
      var n := |events| - 1;
      forall j | 0 <= j < n
        ensures !AcceptedAt(t, events[..n], d, j)
      {
        AcceptedAtPrefix(t, events, d, j);
      }
      UnpushedRecordStays(t, events[..n], d);
      assert !AcceptedAt(t, events, d, n);
      if d in t {
        DisabledSincePrefix(events, 0, t[d].deviceId);
      }
    }
  }

  /** With addressed pushes, each push accepted for a drawer has a higher revision than those before. */
  lemma {:induction false} AcceptedRevisionsRise(t: Table, events: seq<Event>, d: string, i: nat, k: nat)
    requires Addressed(events) && i < k < |events| && AcceptedAt(t, events, d, i) && AcceptedAt(t, events, d, k)
    ensures events[i].twin.revision < events[k].twin.revision
  {
    AddressedPrefix(events, k);
    AddressedAt(events, k);
    assert events[..k][..i] == events[..i];
    RevisionReached(t, events[..k], d, i);
  }

  lemma {:induction false} AddressedAt(events: seq<Event>, k: nat)
    requires Addressed(events) && k < |events|
    ensures events[k].Push? ==> events[k].path == events[k].twin.drawerId
  {
    if k < |events| - 1 {
      AddressedAt(events[..|events| - 1], k);
    }
  }

  lemma {:induction false} AddressedPrefix(events: seq<Event>, n: nat)
    requires Addressed(events) && n <= |events|
    ensures Addressed(events[..n])
  {
    if n < |events| {
      AddressedPrefix(events[..|events| - 1], n);
      assert events[..|events| - 1][..n] == events[..n];
    } else {
      assert events[..n] == events;
    }
  }

  lemma {:induction false} RevisionReached(t: Table, events: seq<Event>, d: string, i: nat)
    requires Addressed(events) && i < |events| && AcceptedAt(t, events, d, i)
    ensures d in Serve(t, events) && events[i].twin.revision <= Serve(t, events)[d].revision
  {
    var n := |events| - 1;
    if i < n {
      AcceptedAtPrefix(t, events, d, i);
      RevisionReached(t, events[..n], d, i);
      ApplyAdvances(Serve(t, events[..n]), events[n], d);
    }
  }

  /** The push at k is the last one accepted, and the one of highest revision. */
  predicate HighestAccepted(t: Table, events: seq<Event>, d: string, k: nat)
    requires k < |events|
  {
    && AcceptedAt(t, events, d, k)
    && forall j :: 0 <= j < |events| && j != k && AcceptedAt(t, events, d, j) ==>
         j < k && events[j].twin.revision < events[k].twin.revision
  }

  lemma {:induction false} SomeAcceptedIsLast(t: Table, events: seq<Event>, d: string, i: nat) returns (k: nat)
    requires i < |events| && AcceptedAt(t, events, d, i)
    ensures i <= k < |events| && AcceptedAt(t, events, d, k)
    ensures forall j :: k < j < |events| ==> !AcceptedAt(t, events, d, j)
    decreases |events| - i
  {
    if j :| i < j < |events| && AcceptedAt(t, events, d, j) {
      k := SomeAcceptedIsLast(t, events, d, j);
    } else {
      k := i;
    }
  }

  /** In every history of addressed pushes, once a push for a drawer was accepted its record is the accepted
      push of highest revision, disabled exactly when its device was disabled after it. */
  lemma {:induction false} RecordIsHighestAccepted(t: Table, events: seq<Event>, d: string, i: nat)
    requires Addressed(events) && i < |events| && AcceptedAt(t, events, d, i)
    ensures d in Serve(t, events)
    ensures exists k :: 0 <= k < |events| && HighestAccepted(t, events, d, k) &&
                        KeptOf(events[k].twin, Serve(t, events)[d], DisabledSince(events, k + 1, events[k].twin.deviceId))
  {
    var k := SomeAcceptedIsLast(t, events, d, i);
    RecordIsLastAccepted(t, events, d, k);
    forall j | 0 <= j < |events| && j != k && AcceptedAt(t, events, d, j)
      ensures j < k && events[j].twin.revision < events[k].twin.revision
    {
      AcceptedRevisionsRise(t, events, d, j, k);
    }
  }

  /** A disabled record is the same after any addressed push. */
  lemma DisabledIsNeverPushed(t: Table, path: string, twin: DrawerTwin, d: string)
    requires d in t && t[d].disabled && path == twin.drawerId
    ensures d in Posted(t, path, twin) && Posted(t, path, twin)[d] == t[d]
  {
  }

  /** The server checks the drawer of the path and writes the drawer of the body, so a push keeps
      all records' guarantees for every table exactly when the two are the same. */
  lemma GuardedExactlyWhenAddressed(path: string, twin: DrawerTwin)
    requires !twin.disabled
    ensures (forall t: Table :: Advances(t, Posted(t, path, twin), twin.drawerId)) <==> path == twin.drawerId
  {
    if path == twin.drawerId {
      forall t: Table
        ensures Advances(t, Posted(t, path, twin), twin.drawerId)
      {
        ApplyAdvances(t, Push(path, twin), twin.drawerId);
      }
    } else {
      var t: Table := map[twin.drawerId := twin.(revision := twin.revision + 1)];
      assert !Advances(t, Posted(t, path, twin), twin.drawerId);
    }
  }

  /** The twin can never be accepted any more. */
  predicate Superseded(t: Table, twin: DrawerTwin) {
    twin.drawerId in t && (t[twin.drawerId].disabled || twin.revision <= t[twin.drawerId].revision)
  }

  lemma SupersededStays(t: Table, e: Event, twin: DrawerTwin)
    requires Superseded(t, twin) && (e.Push? ==> e.path == e.twin.drawerId)
    ensures Superseded(Apply(t, e), twin)
  {
    ApplyAdvances(t, e, twin.drawerId);
  }

  lemma AcceptedIsSuperseded(t: Table, twin: DrawerTwin)
    ensures Superseded(t, twin) ==> Judge(t, twin.drawerId, twin) != Accepted
    ensures Judge(t, twin.drawerId, twin) == Accepted ==> Superseded(Posted(t, twin.drawerId, twin), twin)
  {
  }
}
