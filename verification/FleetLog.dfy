/** The tables of the fleet service are a fold of its event log. */
module FleetLog {
  import opened Basics
  import opened FleetTypes
  import opened FleetModel

  /** The part of the tables that the log determines. */
  datatype View = View(commandStates: map<string, CommandState>, lifecycles: map<string, Lifecycle>)

  function ViewOf(t: Tables): View {
    View(map id | id in t.commands :: t.commands[id].state,
         map id | id in t.devices :: t.devices[id].lifecycle)
  }

  function PutState(v: View, id: string, state: CommandState): View {
    v.(commandStates := v.commandStates[id := state])
  }

  function PutLifecycle(v: View, id: string, state: Lifecycle): View {
    v.(lifecycles := v.lifecycles[id := state])
  }

  /** The meaning of one logged event. */
  function ApplyEntry(v: View, e: Entry): View {
    match e.kind
    case DeviceEnrolled(_, _, initial) => PutLifecycle(v, e.deviceId, initial)
    case LifecycleChanged(_, after) => PutLifecycle(v, e.deviceId, after)
    case DeviceRetired(_) => PutLifecycle(v, e.deviceId, Retired)
    case DeviceQuarantined(_) => PutLifecycle(v, e.deviceId, Quarantined)
    case DeviceRecovered(_, _) => PutLifecycle(v, e.deviceId, Active)
    case CommandQueued(id, _) => PutState(v, id, PolicyChecking)
    case CommandApproved(id, _) => PutState(v, id, Approved)
    case CommandDispatched(id) => PutState(v, id, Dispatched)
    case CommandAcknowledged(id) => PutState(v, id, Acknowledged)
    case CommandCancelled(id) => PutState(v, id, Cancelled)
    case CommandCompleted(id, _) => PutState(v, id, Completed)
    case CommandFailedResult(id, _) => PutState(v, id, Failed)
    case CommandFailedReason(id, reason) => PutState(v, id, if reason.ExpiredReason? then Expired else Failed)
    case CommandDenied(id, reason) => if reason.DuplicateCommandId? then v else PutState(v, id, Failed)
    case HeartbeatWhileQuarantined => v
    case HeartbeatReceived(_, _) => v
    case RiskChanged(_, _, _, _, _) => v
  }

  function ApplyEntries(v: View, entries: seq<Entry>): View {
    if entries == [] then v
    else ApplyEntry(ApplyEntries(v, entries[..|entries| - 1]), entries[|entries| - 1])
  }

  /** The view that the log alone gives. */
  function Rebuild(events: seq<Event>): View {
    if events == [] then View(map[], map[])
    else ApplyEntry(Rebuild(events[..|events| - 1]), EntryOf(events[|events| - 1]))
  }

  lemma ApplyOne(v: View, e: Entry)
    ensures ApplyEntries(v, [e]) == ApplyEntry(v, e)
  {
    assert [e][..0] == [];
  }

  lemma {:induction false} ApplyConcat(v: View, a: seq<Entry>, b: seq<Entry>)
    ensures ApplyEntries(v, a + b) == ApplyEntries(ApplyEntries(v, a), b)
  {
    if b == [] {
      assert a + b == a;
    } else {
      ApplyConcat(v, a, b[..|b| - 1]);
      assert (a + b)[..|a + b| - 1] == a + b[..|b| - 1];
    }
  }

  lemma {:induction false} RebuildAppendAll(sha: Sha, events: seq<Event>, entries: seq<Entry>, now: int)
    ensures Rebuild(AppendAll(sha, events, entries, now)) == ApplyEntries(Rebuild(events), entries)
  {
    if entries != [] {
      var front := AppendAll(sha, events, entries[..|entries| - 1], now);
      var e := entries[|entries| - 1];
      RebuildAppendAll(sha, events, entries[..|entries| - 1], now);
      assert Append(sha, front, e, now)[..|front|] == front;
    }
  }

  /** Devices and commands are stored under their own ids. */
  predicate Keyed(t: Tables) {
    && (forall id :: id in t.devices ==> t.devices[id].deviceId == id)
    && (forall id :: id in t.commands ==> t.commands[id].commandId == id)
  }

  /** The logged entries tell exactly what the effect does to the view. */
  predicate Tells(t: Tables, effect: Effect) {
    Keyed(effect.tables) && ApplyEntries(ViewOf(t), effect.entries) == ViewOf(effect.tables)
  }

  lemma ViewSetDevice(t: Tables, id: string, d: Device)
    ensures ViewOf(SetDevice(t, id, d)) == PutLifecycle(ViewOf(t), id, d.lifecycle)
  {
    assert ViewOf(SetDevice(t, id, d)).lifecycles == ViewOf(t).lifecycles[id := d.lifecycle];
  }

  lemma ViewSetCommand(t: Tables, id: string, c: Command)
    ensures ViewOf(SetCommand(t, id, c)) == PutState(ViewOf(t), id, c.state)
  {
    assert ViewOf(SetCommand(t, id, c)).commandStates == ViewOf(t).commandStates[id := c.state];
  }

  lemma TellsDevice(t: Tables, id: string, d: Device, e: Entry, error: Option<Error>)
    requires Keyed(t) && d.deviceId == id
    requires ApplyEntry(ViewOf(t), e) == PutLifecycle(ViewOf(t), id, d.lifecycle)
    ensures Tells(t, Effect(SetDevice(t, id, d), [e], error))
  {
    ApplyOne(ViewOf(t), e);
    ViewSetDevice(t, id, d);
  }

  lemma TellsCommand(t: Tables, id: string, c: Command, e: Entry, error: Option<Error>)
    requires Keyed(t) && c.commandId == id
    requires ApplyEntry(ViewOf(t), e) == PutState(ViewOf(t), id, c.state)
    ensures Tells(t, Effect(SetCommand(t, id, c), [e], error))
  {
    ApplyOne(ViewOf(t), e);
    ViewSetCommand(t, id, c);
  }

  lemma TellsThen(t: Tables, first: Effect, second: Effect)
    requires Tells(t, first) && Tells(first.tables, second)
    ensures Tells(t, Then(first, second))
  {
    ApplyConcat(ViewOf(t), first.entries, second.entries);
  }

  lemma TellsQuarantined(t: Tables, id: string, why: Cause)
    requires Keyed(t) && id in t.devices
    ensures Tells(t, PutInQuarantine(t, id, why))
  {
    var d := t.devices[id];
    if !d.retired {
      TellsDevice(t, id, d.(lifecycle := Quarantined, quarantineReason := why),
                  Entry(d.tenantId, d.deviceId, DeviceQuarantined(why)), None);
    }
  }

  // ---- A new command: its queued event is logged before it is stored

  /** Starting one command ahead of the tables, the entries lead to the effect's view. */
  predicate TellsQueued(t: Tables, id: string, effect: Effect) {
    Keyed(effect.tables) && ApplyEntries(PutState(ViewOf(t), id, PolicyChecking), effect.entries) == ViewOf(effect.tables)
  }

  lemma TellsFail(t: Tables, c: Command, reason: Reason, denied: bool)
    requires Keyed(t) && !reason.ExpiredReason? && !reason.DuplicateCommandId?
    ensures TellsQueued(t, c.commandId, FailCommand(t, c, reason, denied))
  {
    var v := PutState(ViewOf(t), c.commandId, PolicyChecking);
    ApplyOne(v, Entry(c.tenantId, c.deviceId,
                      if denied then CommandDenied(c.commandId, reason) else CommandFailedReason(c.commandId, reason)));
    ViewSetCommand(t, c.commandId, c.(state := Failed, failureReason := reason));
    assert v.commandStates[c.commandId := Failed] == ViewOf(t).commandStates[c.commandId := Failed];
  }

  /** Quarantining a device commutes with a command being one step ahead. */
  lemma TellsDeny(t: Tables, c: Command)
    requires Keyed(t) && c.deviceId in t.devices
    ensures TellsQueued(t, c.commandId, DenyCommand(t, c))
  {
    var t1 := CountViolation(t, c.deviceId);
    var q := PutInQuarantine(t1, c.deviceId, FailedVeilTrustCheck);
    var f := FailCommand(q.tables, c, PolicyDenied, true);
    var v := PutState(ViewOf(t), c.commandId, PolicyChecking);
    TellsQuarantined(t1, c.deviceId, FailedVeilTrustCheck);
    TellsFail(q.tables, c, PolicyDenied, true);
    assert ApplyEntries(v, q.entries) == PutState(ViewOf(q.tables), c.commandId, PolicyChecking) by {
      if q.entries != [] {
        ApplyOne(v, q.entries[0]);
        ApplyOne(ViewOf(t1), q.entries[0]);
      }
    }
    ApplyConcat(v, q.entries, f.entries);
  }

  lemma TellsSend(t: Tables, c: Command, now: int)
    requires Keyed(t)
    ensures TellsQueued(t, c.commandId, SendCommand(t, c, now))
  {
    var id := c.commandId;
    var v := PutState(ViewOf(t), id, PolicyChecking);
    var approved := Entry(c.tenantId, c.deviceId, CommandApproved(id, c.approvalId));
    var dispatched := Entry(c.tenantId, c.deviceId, CommandDispatched(id));
    ApplyOne(v, approved);
    ApplyOne(ApplyEntry(v, approved), dispatched);
    ApplyConcat(v, [approved], [dispatched]);
    ViewSetCommand(t, id, c.(state := Dispatched, dispatchedAt := now));
    assert v.commandStates[id := Approved][id := Dispatched] == ViewOf(t).commandStates[id := Dispatched];
  }

  lemma TellsProcess(cfg: Config, t: Tables, c: Command, answer: PolicyAnswer, now: int)
    requires Keyed(t)
    ensures TellsQueued(t, c.commandId, ProcessCommand(cfg, t, c, answer, now))
  {
    var refusal := DeviceRefusal(cfg, t, c, now);
    if refusal.Some? {
      TellsFail(t, c, refusal.value, false);
    } else {
      var c1 := c.(requiredCapability := CapabilityFor(c.name));
      TellsFail(t, c1, UnsupportedCapability, false);
      var c2 := c1.(state := PolicyChecking, highRisk := HighRisk(c.name));
      TellsDeny(t, c2);
      TellsSend(t, c2, now);
      ViewSetCommand(t, c.commandId, c2.(failureReason := ApprovalRequired));
    }
  }

  lemma TellsEnter(cfg: Config, t: Tables, c: Command, answer: PolicyAnswer, now: int)
    requires Keyed(t)
    ensures Tells(t, EnterCommand(cfg, t, c, answer, now))
  {
    var v := ViewOf(t);
    if c.commandId in t.commands {
      ApplyOne(v, Entry(c.tenantId, c.deviceId, CommandDenied(c.commandId, DuplicateCommandId)));
    } else {
      var e := Entry(c.tenantId, c.deviceId, CommandQueued(c.commandId, c.name));
      ApplyOne(v, e);
      TellsProcess(cfg, t, c.(state := Queued), answer, now);
      ApplyConcat(v, [e], ProcessCommand(cfg, t, c.(state := Queued), answer, now).entries);
    }
  }

  // ---- The other operations

  lemma TellsExpire(t: Tables, id: string)
    requires Keyed(t) && id in t.commands
    ensures Tells(t, ExpireCommand(t, id))
  {
    var c := t.commands[id];
    TellsCommand(t, id, c.(state := Expired, failureReason := ExpiredReason),
                 Entry(c.tenantId, c.deviceId, CommandFailedReason(id, ExpiredReason)), None);
  }

  lemma {:induction false} TellsExpireAll(t: Tables, ids: seq<string>, now: int)
    requires Keyed(t)
    ensures Tells(t, ExpireAll(t, ids, now))
  {
    if ids != [] {
      TellsExpireAll(t, ids[..|ids| - 1], now);
      var front := ExpireAll(t, ids[..|ids| - 1], now);
      var id := ids[|ids| - 1];
      if Overdue(front.tables, id, now) {
        TellsExpire(front.tables, id);
        TellsThen(t, front, ExpireCommand(front.tables, id));
      } else {
        TellsThen(t, front, Unchanged(front.tables));
      }
    }
  }

  lemma TellsAcknowledge(t: Tables, tenantId: string, id: string, now: int)
    requires Keyed(t)
    ensures Tells(t, AcknowledgeCommand(t, tenantId, id, now))
  {
    if Owned(t, tenantId, id) {
      var c := t.commands[id];
      TellsExpire(t, id);
      TellsCommand(t, id, c.(state := Acknowledged, acknowledgedAt := now),
                   Entry(tenantId, c.deviceId, CommandAcknowledged(id)), None);
    }
  }

  lemma TellsCancel(t: Tables, tenantId: string, id: string)
    requires Keyed(t)
    ensures Tells(t, CancelCommand(t, tenantId, id))
  {
    if Owned(t, tenantId, id) {
      var c := t.commands[id];
      TellsCommand(t, id, c.(state := Cancelled), Entry(tenantId, c.deviceId, CommandCancelled(id)), None);
    }
  }

  lemma TellsConsequences(t: Tables, id: string, result: string)
    requires Keyed(t) && id in t.devices
    ensures Tells(t, FailureConsequences(t, id, result))
  {
    var first := if Suspicious(result) then PutInQuarantine(t, id, SuspiciousCommandResult) else Unchanged(t);
    TellsQuarantined(t, id, SuspiciousCommandResult);
    TellsQuarantined(first.tables, id, RepeatedCommandFailures);
    TellsThen(t, first, if |FailedOn(t.commands, id)| >= 3
                        then PutInQuarantine(first.tables, id, RepeatedCommandFailures) else Unchanged(first.tables));
  }

  lemma TellsComplete(t: Tables, tenantId: string, id: string, success: bool, result: string, now: int)
    requires Keyed(t)
    ensures Tells(t, CompleteCommand(t, tenantId, id, success, result, now))
  {
    if Owned(t, tenantId, id) && t.commands[id].state.Acknowledged? {
      var c := t.commands[id];
      var e := Entry(tenantId, c.deviceId, if success then CommandCompleted(id, result) else CommandFailedResult(id, result));
      var finished := Effect(SetCommand(t, id, Finished(c, success, result, now)), [e], None);
      TellsCommand(t, id, Finished(c, success, result, now), e, None);
      if !success && c.deviceId in t.devices {
        TellsConsequences(finished.tables, c.deviceId, result);
        TellsThen(t, finished, FailureConsequences(finished.tables, c.deviceId, result));
      } else {
        TellsThen(t, finished, Unchanged(finished.tables));
      }
    }
  }

  lemma TellsRecordRisk(t: Tables, tenantId: string, scope: Scope, scopeId: string, score: int)
    requires Keyed(t)
    ensures Tells(t, RecordRisk(t, tenantId, scope, scopeId, score))
  {
    var effect := RecordRisk(t, tenantId, scope, scopeId, score);
    if effect.entries != [] {
      ApplyOne(ViewOf(t), effect.entries[0]);
    }
  }

  lemma TellsDeviceRisk(cfg: Config, t: Tables, tenantId: string, id: string, now: int)
    requires Keyed(t)
    ensures Tells(t, DeviceRisk(cfg, t, tenantId, id, now))
  {
    if id in t.devices {
      TellsRecordRisk(t, tenantId, DeviceScope, t.devices[id].deviceId, Score(cfg, t, t.devices[id], now));
    }
  }

  lemma {:induction false} TellsFleetRisk(cfg: Config, t: Tables, tenantId: string, ids: seq<string>, now: int)
    requires Keyed(t)
    ensures Tells(t, FleetRisk(cfg, t, tenantId, ids, now))
  {
    if ids != [] {
      TellsFleetRisk(cfg, t, tenantId, ids[..|ids| - 1], now);
      var front := FleetRisk(cfg, t, tenantId, ids[..|ids| - 1], now);
      TellsDeviceRisk(cfg, front.tables, tenantId, ids[|ids| - 1], now);
      TellsThen(t, front, DeviceRisk(cfg, front.tables, tenantId, ids[|ids| - 1], now));
    }
  }

  lemma TellsEnroll(t: Tables, d: Device, edge: EdgeReply)
    requires Keyed(t)
    ensures Tells(t, Enroll(t, d, edge))
  {
    TellsDevice(t, d.deviceId, Enrolled(d, edge),
                Entry(d.tenantId, d.deviceId,
                      DeviceEnrolled(d.assignment.locationId, d.assignment.fleetId, d.lifecycle)), None);
  }

  lemma TellsUpdate(t: Tables, tenantId: string, id: string, patch: Patch)
    requires Keyed(t)
    ensures Tells(t, UpdateDevice(t, tenantId, id, patch))
  {
    if id in t.devices {
      var d := t.devices[id];
      var d' := Patched(d, patch);
      if d.lifecycle == d'.lifecycle {
        ViewSetDevice(t, id, d');
        assert PutLifecycle(ViewOf(t), id, d.lifecycle) == ViewOf(t);
      } else {
        TellsDevice(t, id, d', Entry(tenantId, id, LifecycleChanged(d.lifecycle, d'.lifecycle)), None);
      }
    }
  }

  lemma TellsHeartbeat(cfg: Config, t: Tables, hb: Heartbeat, now: int)
    requires Keyed(t)
    ensures Tells(t, ReceiveHeartbeat(cfg, t, hb, now))
  {
    if hb.deviceId in t.devices {
      var id := hb.deviceId;
      var d := t.devices[id];
      TellsQuarantined(t, id, TenantBoundaryViolation);
      var fault := HeartbeatFault(cfg, d, hb, now);
      if fault.Some? {
        TellsQuarantined(t, id, fault.value.0);
      } else {
        var e := Entry(d.tenantId, d.deviceId,
                       if d.lifecycle.Quarantined? then HeartbeatWhileQuarantined
                       else HeartbeatReceived(hb.connectivity, hb.errorCodes));
        assert PutLifecycle(ViewOf(t), id, Beaten(d, hb).lifecycle) == ViewOf(t);
        TellsDevice(t, id, Beaten(d, hb), e, None);
      }
    }
  }

  lemma TellsRetire(t: Tables, tenantId: string, id: string)
    requires Keyed(t)
    ensures Tells(t, RetireDevice(t, tenantId, id))
  {
    if id in t.devices {
      var d := t.devices[id];
      TellsDevice(t, id, d.(lifecycle := Retired, retired := true, connectivity := Offline),
                  Entry(tenantId, id, DeviceRetired(d.lifecycle)), None);
    }
  }

  lemma TellsRecover(cfg: Config, t: Tables, tenantId: string, id: string, answer: PolicyAnswer, now: int)
    requires Keyed(t)
    ensures Tells(t, Recover(cfg, t, tenantId, id, answer, now))
  {
    if id in t.devices {
      var d := t.devices[id];
      TellsDevice(t, id, d.(lifecycle := Active, quarantineReason := NoCause),
                  Entry(tenantId, id, DeviceRecovered(d.quarantineReason, ResidualScore(cfg, t, d, now))), None);
    }
  }

  /** Every operation logs exactly what it does. */
  lemma EveryEffectTells(cfg: Config, t: Tables, op: Op, now: int)
    requires Keyed(t)
    ensures Tells(t, EffectOf(cfg, t, op, now))
  {
    match op
    case OpEnroll(d, edge) => TellsEnroll(t, d, edge);
    case OpUpdate(tenant, id, patch) => TellsUpdate(t, tenant, id, patch);
    case OpRetire(tenant, id) => TellsRetire(t, tenant, id);
    case OpHeartbeat(hb) => TellsHeartbeat(cfg, t, hb, now);
    case OpCreate(c, answer) => TellsEnter(cfg, t, Prepared(t, c, now), answer, now);
    case OpCancel(tenant, id) => TellsCancel(t, tenant, id);
    case OpAcknowledge(tenant, id) => TellsAcknowledge(t, tenant, id, now);
    case OpComplete(tenant, id, success, result) => TellsComplete(t, tenant, id, success, result, now);
    case OpExpire(ids) => TellsExpireAll(t, ids, now);
    case OpDeviceRisk(tenant, id) => TellsDeviceRisk(cfg, t, tenant, id, now);
    case OpFleetRisk(tenant, ids) => TellsFleetRisk(cfg, t, tenant, ids, now);
    case OpLocationRisk(tenant, loc, ids) =>
      TellsRecordRisk(t, tenant, LocationScope, loc, LocationScore(cfg, t, tenant, loc, ids, now));
    case OpQuarantine(tenant, id, why) =>
      if id in t.devices { TellsQuarantined(t, id, OperatorCause(why)); }
    case OpRecover(tenant, id, answer) => TellsRecover(cfg, t, tenant, id, answer, now);
  }

  /** In every reachable state the event log alone rebuilds each command's state and each
      device's lifecycle, and no others. */
  lemma {:induction false} TablesAreAFoldOfTheLog(sha: Sha, cfg: Config, calls: seq<Call>)
    ensures var s := Run(sha, cfg, EmptyFleet, calls);
            Keyed(s.tables) && Rebuild(s.events) == ViewOf(s.tables)
  {
    if calls != [] {
      var last := calls[|calls| - 1];
      var before := Run(sha, cfg, EmptyFleet, calls[..|calls| - 1]);
      TablesAreAFoldOfTheLog(sha, cfg, calls[..|calls| - 1]);
      EveryEffectTells(cfg, before.tables, last.op, last.now);
      RebuildAppendAll(sha, before.events, EffectOf(cfg, before.tables, last.op, last.now).entries, last.now);
    } else {
      assert ViewOf(EmptyFleet.tables) == View(map[], map[]);
    }
  }
}
