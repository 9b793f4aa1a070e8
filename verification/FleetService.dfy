/** The fleet operations service as an object whose methods update its tables and its event
    log step by step.  Each method is proved to have exactly the effect that FleetModel gives
    it; FleetRuns performs any sequence of calls with them. */
module FleetService {
  import opened Basics
  import opened FleetTypes
  import Model = FleetModel

  lemma AppendOne(sha: Sha, events: seq<Event>, e: Entry, now: int)
    ensures Model.AppendAll(sha, events, [e], now) == Model.Append(sha, events, e, now)
  {
    assert [e][..0] == [];
  }

  lemma {:induction false} AppendConcat(sha: Sha, events: seq<Event>, a: seq<Entry>, b: seq<Entry>, now: int)
    ensures Model.AppendAll(sha, events, a + b, now)
         == Model.AppendAll(sha, Model.AppendAll(sha, events, a, now), b, now)
  {
    if b == [] {
      assert a + b == a;
    } else {
      AppendConcat(sha, events, a, b[..|b| - 1], now);
      assert (a + b)[..|a + b| - 1] == a + b[..|b| - 1];
    }
  }

  /** Doing two effects one after the other is doing their composition. */
  lemma CommitThen(sha: Sha, s: Fleet, first: Effect, second: Effect, now: int)
    ensures Model.Commit(sha, Model.Commit(sha, s, first, now), second, now)
         == Model.Commit(sha, s, Model.Then(first, second), now)
  {
    AppendConcat(sha, s.events, first.entries, second.entries, now);
  }

  // ---- Facts about counting and factors

  lemma CountOne<T>(all: set<T>, rest: set<T>, x: T)
    requires x in rest
    ensures |all - (rest - {x})| == |all - rest| + (if x in all then 1 else 0)
  {
    if x in all {
      assert all - (rest - {x}) == (all - rest) + {x};
    } else {
      assert all - (rest - {x}) == all - rest;
    }
  }

  /** How many of a device's commands, and of its failed or expired ones, lie outside rest. */
  function Counted(commands: map<string, Command>, deviceId: string, rest: set<string>): (nat, nat) {
    (|Model.AllOn(commands, deviceId) - rest|, |Model.TroubledOn(commands, deviceId) - rest|)
  }

  lemma Uncounted(commands: map<string, Command>, deviceId: string)
    ensures Counted(commands, deviceId, commands.Keys) == (0, 0)
  {
    assert Model.AllOn(commands, deviceId) - commands.Keys == {};
    assert Model.TroubledOn(commands, deviceId) - commands.Keys == {};
  }

  lemma AllCounted(commands: map<string, Command>, deviceId: string)
    ensures Counted(commands, deviceId, {})
         == (|Model.AllOn(commands, deviceId)|, |Model.TroubledOn(commands, deviceId)|)
  {
    assert Model.AllOn(commands, deviceId) - {} == Model.AllOn(commands, deviceId);
    assert Model.TroubledOn(commands, deviceId) - {} == Model.TroubledOn(commands, deviceId);
  }

  lemma CountNext(commands: map<string, Command>, deviceId: string, rest: set<string>, id: string)
    requires id in rest && id in commands
    ensures var before, after := Counted(commands, deviceId, rest), Counted(commands, deviceId, rest - {id});
            var c := commands[id];
            && after.0 == before.0 + (if c.deviceId == deviceId then 1 else 0)
            && after.1 == before.1 +
                 (if c.deviceId == deviceId && (c.state == Failed || c.state == Expired) then 1 else 0)
  {
    CountOne(Model.AllOn(commands, deviceId), rest, id);
    CountOne(Model.TroubledOn(commands, deviceId), rest, id);
  }

  /** The sum of the points of all factors, and of the quarantine factor alone. */
  function SumPoints(factors: seq<Factor>): int {
    if factors == [] then 0 else SumPoints(factors[..|factors| - 1]) + factors[|factors| - 1].points
  }

  function QuarantineShare(factors: seq<Factor>): int {
    if factors == [] then 0
    else QuarantineShare(factors[..|factors| - 1]) +
         (if factors[|factors| - 1].name.QuarantinedFactor? then factors[|factors| - 1].points else 0)
  }

  /** Adds a factor under a condition, as the service's scoring does. */
  method AddIf(factors: seq<Factor>, condition: bool, name: FactorName, points: int) returns (r: seq<Factor>)
    ensures r == factors + Model.FactorIf(condition, name, points)
  {
    r := factors;
    if condition {
      r := r + [Factor(name, points)];
    }
  }

  lemma {:induction false} SharesConcat(a: seq<Factor>, b: seq<Factor>)
    ensures SumPoints(a + b) == SumPoints(a) + SumPoints(b)
    ensures QuarantineShare(a + b) == QuarantineShare(a) + QuarantineShare(b)
  {
    if b == [] {
      assert a + b == a;
    } else {
      SharesConcat(a, b[..|b| - 1]);
      assert (a + b)[..|a + b| - 1] == a + b[..|b| - 1];
    }
  }

  lemma ShareOfOne(condition: bool, name: FactorName, points: int)
    ensures SumPoints(Model.FactorIf(condition, name, points)) == Model.Points(condition, points)
    ensures QuarantineShare(Model.FactorIf(condition, name, points))
         == if name.QuarantinedFactor? then Model.Points(condition, points) else 0
  {
    assert [Factor(name, points)][..0] == [];
    assert SumPoints([]) == 0 && QuarantineShare([]) == 0;
  }

  lemma CommandShare(t: Tables, id: string)
    ensures SumPoints(Model.CommandFactors(t, id)) == Model.CommandPoints(t, id)
    ensures QuarantineShare(Model.CommandFactors(t, id)) == 0
  {
    var failures, total := |Model.TroubledOn(t.commands, id)|, |Model.AllOn(t.commands, id)|;
    var rate := total > 0 && failures * 2 >= total;
    ShareOfOne(failures >= 3, RepeatedFailures, 25);
    ShareOfOne(rate, FailureRate, 15);
    SharesConcat(Model.FactorIf(failures >= 3, RepeatedFailures, 25), Model.FactorIf(rate, FailureRate, 15));
  }

  lemma HeartbeatShare(t: Tables, id: string)
    ensures SumPoints(Model.HeartbeatFactors(t, id)) == Model.HeartbeatPoints(t, id)
    ensures QuarantineShare(Model.HeartbeatFactors(t, id)) == 0
  {
    if id in t.heartbeats {
      var hb := t.heartbeats[id];
      var a := Model.FactorIf(hb.drift > 0.10, InventoryDrift, 20);
      var b := Model.FactorIf(hb.unusualCashMovement, UnusualCash, 25);
      var c := Model.FactorIf(hb.missingTrustEvidence, MissingEvidence, 20);
      var d := Model.FactorIf(hb.driverStability < 0.75, UnstableDriver, 20);
      ShareOfOne(hb.drift > 0.10, InventoryDrift, 20);
      ShareOfOne(hb.unusualCashMovement, UnusualCash, 25);
      ShareOfOne(hb.missingTrustEvidence, MissingEvidence, 20);
      ShareOfOne(hb.driverStability < 0.75, UnstableDriver, 20);
      SharesConcat(a, b);
      SharesConcat(a + b, c);
      SharesConcat(a + b + c, d);
    }
  }

  lemma ViolationShare(t: Tables, id: string)
    ensures SumPoints(Model.ViolationFactors(t, id)) == Model.ViolationPoints(t, id)
    ensures QuarantineShare(Model.ViolationFactors(t, id)) == 0
  {
    if id in t.violations {
      var v := t.violations[id];
      ShareOfOne(v > 0, PolicyViolations, if v * 10 < 30 then v * 10 else 30);
    }
  }

  /** The factors listed add up to the unclamped points, and the quarantine factor among them to
      the quarantine points. */
  lemma FactorsAddUp(cfg: Config, t: Tables, d: Device, now: int)
    ensures SumPoints(Model.FactorsOf(cfg, t, d, now))
         == Model.UnresolvedPoints(cfg, t, d, now) + Model.QuarantinePoints(d)
    ensures QuarantineShare(Model.FactorsOf(cfg, t, d, now)) == Model.QuarantinePoints(d)
  {
    var a := Model.FactorIf(!Model.Fresh(cfg, d, now), StaleFactor, 30);
    var b := Model.CommandFactors(t, d.deviceId);
    var c := Model.HeartbeatFactors(t, d.deviceId);
    var v := Model.ViolationFactors(t, d.deviceId);
    var q := Model.FactorIf(d.lifecycle.Quarantined?, QuarantinedFactor, 20);
    ShareOfOne(!Model.Fresh(cfg, d, now), StaleFactor, 30);
    CommandShare(t, d.deviceId);
    HeartbeatShare(t, d.deviceId);
    ViolationShare(t, d.deviceId);
    ShareOfOne(d.lifecycle.Quarantined?, QuarantinedFactor, 20);
    SharesConcat(a, b);
    SharesConcat(a + b, c);
    SharesConcat(a + b + c, v);
    SharesConcat(a + b + c + v, q);
  }

  lemma ScoreOfFactors(cfg: Config, t: Tables, d: Device, now: int)
    ensures Model.Clamp(SumPoints(Model.FactorsOf(cfg, t, d, now))) == Model.Score(cfg, t, d, now)
  {
    FactorsAddUp(cfg, t, d, now);
  }

  /** The tables differ at most in the risk levels. */
  predicate OnlyLevels(t: Tables, t': Tables) {
    t' == t.(riskLevels := t'.riskLevels)
  }

  lemma PointsIgnoreLevels(t: Tables, t': Tables, id: string)
    requires OnlyLevels(t, t')
    ensures Model.CommandPoints(t', id) == Model.CommandPoints(t, id)
    ensures Model.HeartbeatPoints(t', id) == Model.HeartbeatPoints(t, id)
    ensures Model.ViolationPoints(t', id) == Model.ViolationPoints(t, id)
  {
  }

  lemma FactorsIgnoreLevels(t: Tables, t': Tables, id: string)
    requires OnlyLevels(t, t')
    ensures Model.CommandFactors(t', id) == Model.CommandFactors(t, id)
    ensures Model.HeartbeatFactors(t', id) == Model.HeartbeatFactors(t, id)
    ensures Model.ViolationFactors(t', id) == Model.ViolationFactors(t, id)
  {
  }

  lemma LevelsDoNotMatter(cfg: Config, t: Tables, t': Tables, d: Device, now: int)
    requires OnlyLevels(t, t')
    ensures Model.Assess(cfg, t', d, now) == Model.Assess(cfg, t, d, now)
  {
    PointsIgnoreLevels(t, t', d.deviceId);
    FactorsIgnoreLevels(t, t', d.deviceId);
  }

  lemma {:induction false} ExpireAllClears(t: Tables, ids: seq<string>, now: int, id: string)
    ensures id in ids || !Model.Overdue(t, id, now) ==> !Model.Overdue(Model.ExpireAll(t, ids, now).tables, id, now)
  {
    if ids != [] {
      ExpireAllClears(t, ids[..|ids| - 1], now, id);
    }
  }

  class Service {
    const sha: Sha
    const cfg: Config
    var devices: map<string, Device>
    var commands: map<string, Command>
    var heartbeats: map<string, Heartbeat>
    var violations: map<string, int>
    var riskLevels: map<string, RiskLevel>
    var events: seq<Event>

    function View(): Tables
      reads this
    {
      Tables(devices, commands, heartbeats, violations, riskLevels)
    }

    function State(): Fleet
      reads this
    {
      Fleet(View(), events)
    }

    constructor (sha: Sha, cfg: Config)
      ensures this.sha == sha && this.cfg == cfg
      ensures State() == Model.EmptyFleet
    {
      this.sha, this.cfg := sha, cfg;
      devices, commands, heartbeats, violations, riskLevels, events := map[], map[], map[], map[], map[], [];
    }

    method AppendEvent(tenantId: string, deviceId: string, kind: Kind, now: int)
      modifies this`events
      ensures events == Model.AppendAll(sha, old(events), [Entry(tenantId, deviceId, kind)], now)
    {
      AppendOne(sha, events, Entry(tenantId, deviceId, kind), now);
      var previous := if events == [] then "" else events[|events| - 1].eventHash;
      var event := Event(|events| + 1, |events| + 1, tenantId, deviceId, kind, now, previous, "");
      events := events + [event.(eventHash := sha(Model.PreimageOf(event)))];
    }

    method QuarantineLocked(id: string, why: Cause, now: int)
      requires id in devices
      modifies this`devices, this`events
      ensures State() == Model.Commit(sha, old(State()), Model.PutInQuarantine(old(View()), id, why), now)
    {
      var d := devices[id];
      if d.retired {
        return;
      }
      devices := devices[id := d.(lifecycle := Quarantined, quarantineReason := why)];
      AppendEvent(d.tenantId, d.deviceId, DeviceQuarantined(why), now);
    }

    method Enroll(device: Device, edge: EdgeReply, now: int) returns (error: Option<Error>)
      modifies this`devices, this`events
      ensures var effect := Model.Enroll(old(View()), device, edge);
              State() == Model.Commit(sha, old(State()), effect, now) && error == effect.error
    {
      if device.deviceId == "" || device.tenantId == "" || device.assignment.locationId == "" ||
         device.assignment.branchId == "" || device.assignment.fleetId == "" {
        return Some(MissingRequiredAssignment);
      }
      if device.lifecycle != Provisioned && device.lifecycle != Active {
        return Some(InvalidInitialLifecycle);
      }
      if device.deviceId in devices {
        return Some(DeviceAlreadyEnrolled);
      }
      var d := device;
      if edge.EdgeRejected? {
        return Some(EdgeRegistrationFailed);
      }
      if edge.EdgeRegistered? && d.capabilities == [] && edge.listed.Some? {
        d := d.(capabilities := edge.listed.value.capabilities, driverId := edge.listed.value.driverId);
      }
      if d.capabilities == [] {
        return Some(UnknownCapability);
      }
      d := d.(connectivity := Offline);
      devices := devices[d.deviceId := d];
      AppendEvent(d.tenantId, d.deviceId,
                  DeviceEnrolled(d.assignment.locationId, d.assignment.fleetId, d.lifecycle), now);
      return None;
    }

    method UpdateDevice(tenantId: string, id: string, patch: Patch, now: int) returns (error: Option<Error>)
      modifies this`devices, this`events
      ensures var effect := Model.UpdateDevice(old(View()), tenantId, id, patch);
              State() == Model.Commit(sha, old(State()), effect, now) && error == effect.error
    {
      if id !in devices || devices[id].tenantId != tenantId {
        return Some(NotFound);
      }
      var d := devices[id];
      if d.retired {
        return Some(DeviceIsRetired);
      }
      var next := Model.Or(patch.lifecycle, d.lifecycle);
      if !Model.ValidTransition(d.lifecycle, next, false) {
        return Some(InvalidLifecycleTransition);
      }
      if patch.locationId.Some? && patch.locationId.value == "" {
        return Some(LocationRequired);
      }
      var prior := d.lifecycle;
      var a := d.assignment;
      d := d.(lifecycle := next);
      a := a.(locationId := Model.Or(patch.locationId, a.locationId));
      a := a.(branchId := Model.Or(patch.branchId, a.branchId));
      a := a.(groupId := Model.Or(patch.groupId, a.groupId));
      a := a.(fleetId := Model.Or(patch.fleetId, a.fleetId));
      a := a.(labels := Model.Or(patch.labels, a.labels));
      devices := devices[id := d.(assignment := a)];
      if prior != next {
        AppendEvent(tenantId, id, LifecycleChanged(prior, next), now);
      }
      return None;
    }

    method RetireDevice(tenantId: string, id: string, now: int) returns (error: Option<Error>)
      modifies this`devices, this`events
      ensures var effect := Model.RetireDevice(old(View()), tenantId, id);
              State() == Model.Commit(sha, old(State()), effect, now) && error == effect.error
    {
      if id !in devices || devices[id].tenantId != tenantId {
        return Some(NotFound);
      }
      if devices[id].retired {
        return Some(DeviceAlreadyRetired);
      }
      var prior := devices[id].lifecycle;
      devices := devices[id := devices[id].(lifecycle := Retired, retired := true, connectivity := Offline)];
      AppendEvent(tenantId, id, DeviceRetired(prior), now);
      return None;
    }

    method ReceiveHeartbeat(hb: Heartbeat, now: int) returns (error: Option<Error>)
      modifies this`devices, this`heartbeats, this`events
      ensures var effect := Model.ReceiveHeartbeat(cfg, old(View()), hb, now);
              State() == Model.Commit(sha, old(State()), effect, now) && error == effect.error
    {
      var id := hb.deviceId;
      if id !in devices {
        return Some(UnknownDevice);
      }
      var d := devices[id];
      if hb.tenantId != d.tenantId {
        QuarantineLocked(id, TenantBoundaryViolation, now);
        return Some(TenantMismatch);
      }
      if d.retired {
        return Some(DeviceIsRetired);
      }
      if hb.timestamp <= 0 || now - hb.timestamp > cfg.heartbeatTimeout || hb.timestamp > now + 30 {
        QuarantineLocked(id, StaleHeartbeatCause, now);
        return Some(StaleHeartbeatError);
      }
      if d.lifecycle == Quarantined {
        heartbeats := heartbeats[id := hb];
        devices := devices[id := d.(lastHeartbeat := hb.timestamp, connectivity := hb.connectivity)];
        AppendEvent(d.tenantId, d.deviceId, HeartbeatWhileQuarantined, now);
        return Some(DeviceIsQuarantined);
      }
      if d.capabilities == [] {
        QuarantineLocked(id, UnknownCapabilityCause, now);
        return Some(UnknownCapability);
      }
      if !Model.KnownVersion(hb.firmware) {
        QuarantineLocked(id, UnknownFirmwareCause, now);
        return Some(UnknownFirmware);
      }
      if !Model.KnownVersion(hb.driverVersion) {
        QuarantineLocked(id, UnknownDriverCause, now);
        return Some(UnknownDriver);
      }
      if hb.contradiction {
        QuarantineLocked(id, InventoryContradictionCause, now);
        return Some(InventoryContradiction);
      }
      heartbeats := heartbeats[id := hb];
      devices := devices[id := d.(firmware := hb.firmware, driverVersion := hb.driverVersion,
                                  connectivity := hb.connectivity, lastHeartbeat := hb.timestamp)];
      AppendEvent(d.tenantId, d.deviceId, HeartbeatReceived(hb.connectivity, hb.errorCodes), now);
      return None;
    }

    // ---- Commands

    method FailLocked(c: Command, reason: Reason, denied: bool, now: int) returns (r: Command)
      modifies this`commands, this`events
      ensures State() == Model.Commit(sha, old(State()), Model.FailCommand(old(View()), c, reason, denied), now)
      ensures r == c.(state := Failed, failureReason := reason)
    {
      r := c.(state := Failed, failureReason := reason);
      commands := commands[c.commandId := r];
      AppendEvent(c.tenantId, c.deviceId,
                  if denied then CommandDenied(c.commandId, reason) else CommandFailedReason(c.commandId, reason), now);
    }

    method DenyLocked(c: Command, now: int) returns (r: Command)
      requires c.deviceId in devices
      modifies this
      ensures State() == Model.Commit(sha, old(State()), Model.DenyCommand(old(View()), c), now)
      ensures r == c.(state := Failed, failureReason := PolicyDenied)
    {
      var count := if c.deviceId in violations then violations[c.deviceId] else 0;
      violations := violations[c.deviceId := count + 1];
      ghost var counted := State();
      QuarantineLocked(c.deviceId, FailedVeilTrustCheck, now);
      ghost var quarantine := Model.PutInQuarantine(counted.tables, c.deviceId, FailedVeilTrustCheck);
      r := FailLocked(c, PolicyDenied, true, now);
      CommitThen(sha, counted, quarantine, Model.FailCommand(quarantine.tables, c, PolicyDenied, true), now);
    }

    method SendLocked(c: Command, now: int) returns (r: Command)
      modifies this`commands, this`events
      ensures State() == Model.Commit(sha, old(State()), Model.SendCommand(old(View()), c, now), now)
      ensures r == c.(state := Dispatched, dispatchedAt := now)
    {
      AppendEvent(c.tenantId, c.deviceId, CommandApproved(c.commandId, c.approvalId), now);
      r := c.(state := Dispatched, dispatchedAt := now);
      commands := commands[c.commandId := r];
      AppendEvent(c.tenantId, c.deviceId, CommandDispatched(c.commandId), now);
      AppendConcat(sha, old(events), [Entry(c.tenantId, c.deviceId, CommandApproved(c.commandId, c.approvalId))],
                   [Entry(c.tenantId, c.deviceId, CommandDispatched(c.commandId))], now);
    }

    /** The checks after a command is queued, in the order the service makes them. */
    method ProcessLocked(queued: Command, answer: PolicyAnswer, now: int) returns (c: Command)
      modifies this
      ensures State() == Model.Commit(sha, old(State()), Model.ProcessCommand(cfg, old(View()), queued, answer, now), now)
      ensures c == Model.FinalCommand(cfg, old(View()), queued, answer, now)
    {
      c := queued;
      if c.deviceId !in devices || devices[c.deviceId].tenantId != c.tenantId {
        c := FailLocked(c, TenantOrDeviceMismatch, false, now);
        return;
      }
      var device := devices[c.deviceId];
      if device.retired || device.lifecycle == Quarantined {
        c := FailLocked(c, DeviceUnavailable, false, now);
        return;
      }
      if !Model.Fresh(cfg, device, now) {
        c := FailLocked(c, StaleHeartbeat, false, now);
        return;
      }
      if device.connectivity != Online {
        c := FailLocked(c, DeviceOffline, false, now);
        return;
      }
      if device.capabilities == [] {
        c := FailLocked(c, UnknownCapabilityState, false, now);
        return;
      }
      c := c.(requiredCapability := Model.CapabilityFor(c.name));
      if c.requiredCapability.None? || c.requiredCapability.value !in device.capabilities {
        c := FailLocked(c, UnsupportedCapability, false, now);
        return;
      }
      c := c.(state := PolicyChecking);
      c := c.(highRisk := Model.HighRisk(c.name));
      if !Model.TrustAllows(cfg, Model.PolicyAction(c.name), answer) {
        c := DenyLocked(c, now);
        return;
      }
      if c.highRisk && (c.approvalId == "" || c.approvedBy == "") {
        c := c.(failureReason := ApprovalRequired);
        commands := commands[c.commandId := c];
        return;
      }
      c := SendLocked(c, now);
    }

    method CreateCommand(request: Command, answer: PolicyAnswer, now: int) returns (c: Command)
      modifies this
      ensures State() == Model.Commit(sha, old(State()), Model.CreateCommand(cfg, old(View()), request, answer, now), now)
      ensures c == Model.CreateReply(cfg, old(View()), request, answer, now)
    {
      c := request;
      if c.commandId == "" {
        c := c.(commandId := Model.GeneratedCommandId(|commands|));
      }
      c := c.(createdAt := now);
      if c.expiresAt <= now {
        c := c.(expiresAt := now + 60);
      }
      ghost var prepared := Model.Prepared(old(View()), request, now);
      assert c == prepared;
      if c.commandId in commands {
        c := c.(state := Failed, failureReason := DuplicateCommandId);
        AppendEvent(c.tenantId, c.deviceId, CommandDenied(c.commandId, DuplicateCommandId), now);
        return;
      }
      c := c.(state := Queued);
      AppendEvent(c.tenantId, c.deviceId, CommandQueued(c.commandId, c.name), now);
      ghost var logged := Effect(old(View()), [Entry(c.tenantId, c.deviceId, CommandQueued(c.commandId, c.name))], None);
      ghost var queued := c;
      c := ProcessLocked(c, answer, now);
      CommitThen(sha, old(State()), logged, Model.ProcessCommand(cfg, old(View()), queued, answer, now), now);
    }

    method CancelCommand(tenantId: string, id: string, now: int) returns (error: Option<Error>)
      modifies this`commands, this`events
      ensures var effect := Model.CancelCommand(old(View()), tenantId, id);
              State() == Model.Commit(sha, old(State()), effect, now) && error == effect.error
    {
      if id !in commands || commands[id].tenantId != tenantId {
        return Some(NotFound);
      }
      if !Model.Outstanding(commands[id].state) {
        return Some(CommandNotCancellable);
      }
      commands := commands[id := commands[id].(state := Cancelled)];
      AppendEvent(tenantId, commands[id].deviceId, CommandCancelled(id), now);
      return None;
    }

    method AcknowledgeCommand(tenantId: string, id: string, now: int) returns (error: Option<Error>)
      modifies this`commands, this`events
      ensures var effect := Model.AcknowledgeCommand(old(View()), tenantId, id, now);
              State() == Model.Commit(sha, old(State()), effect, now) && error == effect.error
    {
      if id !in commands || commands[id].tenantId != tenantId {
        return Some(NotFound);
      }
      if commands[id].state != Dispatched {
        return Some(InvalidCommandTransition);
      }
      if now > commands[id].expiresAt {
        commands := commands[id := commands[id].(state := Expired, failureReason := ExpiredReason)];
        AppendEvent(tenantId, commands[id].deviceId, CommandFailedReason(id, ExpiredReason), now);
        return Some(CommandExpired);
      }
      commands := commands[id := commands[id].(state := Acknowledged, acknowledgedAt := now)];
      AppendEvent(tenantId, commands[id].deviceId, CommandAcknowledged(id), now);
      return None;
    }

    /** Counts the failed commands of a device by walking the whole table. */
    method CountFailed(deviceId: string) returns (failures: nat)
      ensures failures == |Model.FailedOn(commands, deviceId)|
    {
      failures := 0;
      ghost var all := Model.FailedOn(commands, deviceId);
      var rest := commands.Keys;
      assert all - rest == {};
      while rest != {}
        invariant rest <= commands.Keys
        invariant failures == |all - rest|
      {
        var id :| id in rest;
        if commands[id].deviceId == deviceId && commands[id].state == Failed {
          failures := failures + 1;
        }
        CountOne(all, rest, id);
        rest := rest - {id};
      }
      assert all - rest == all;
    }

    method ConsequencesLocked(deviceId: string, result: string, now: int)
      requires deviceId in devices
      modifies this`devices, this`events
      ensures State() == Model.Commit(sha, old(State()), Model.FailureConsequences(old(View()), deviceId, result), now)
    {
      ghost var first := Model.Unchanged(old(View()));
      if Model.Suspicious(result) {
        QuarantineLocked(deviceId, SuspiciousCommandResult, now);
        first := Model.PutInQuarantine(old(View()), deviceId, SuspiciousCommandResult);
      }
      var failures := CountFailed(deviceId);
      ghost var second := Model.Unchanged(first.tables);
      if failures >= 3 {
        QuarantineLocked(deviceId, RepeatedCommandFailures, now);
        second := Model.PutInQuarantine(first.tables, deviceId, RepeatedCommandFailures);
      }
      CommitThen(sha, old(State()), first, second, now);
    }

    method CompleteCommand(tenantId: string, id: string, success: bool, result: string, now: int)
      returns (error: Option<Error>)
      modifies this`commands, this`devices, this`events
      ensures var effect := Model.CompleteCommand(old(View()), tenantId, id, success, result, now);
              State() == Model.Commit(sha, old(State()), effect, now) && error == effect.error
    {
      if id !in commands || commands[id].tenantId != tenantId {
        return Some(NotFound);
      }
      if commands[id].state != Acknowledged {
        return Some(InvalidCommandTransition);
      }
      var c := commands[id];
      c := c.(state := if success then Completed else Failed);
      c := c.(completedAt := now, result := result);
      if !success {
        c := c.(failureReason := if result == "" then DeviceReportedFailure else Reported(result));
      }
      commands := commands[id := c];
      AppendEvent(tenantId, c.deviceId,
                  if success then CommandCompleted(id, result) else CommandFailedResult(id, result), now);
      ghost var finished := Effect(View(), [Entry(tenantId, c.deviceId,
        if success then CommandCompleted(id, result) else CommandFailedResult(id, result))], None);
      ghost var next := Model.Unchanged(finished.tables);
      if c.deviceId in devices && !success {
        ConsequencesLocked(c.deviceId, result, now);
        next := Model.FailureConsequences(finished.tables, c.deviceId, result);
      }
      CommitThen(sha, old(State()), finished, next, now);
      return None;
    }

    /** Visits every command once, in whatever order the table yields them. */
    method ExpireCommands(now: int) returns (count: nat, ghost order: seq<string>)
      modifies this`commands, this`events
      ensures State() == Model.Commit(sha, old(State()), Model.ExpireAll(old(View()), order, now), now)
      ensures forall id :: id in old(commands) <==> id in order
      ensures count == |Model.ExpireAll(old(View()), order, now).entries|
      ensures forall id :: id in commands ==> !Model.Overdue(View(), id, now)
    {
      count, order := 0, [];
      var rest := commands.Keys;
      while rest != {}
        invariant rest <= commands.Keys == old(commands).Keys
        invariant forall id :: id in commands <==> id in rest || id in order
        invariant State() == Model.Commit(sha, old(State()), Model.ExpireAll(old(View()), order, now), now)
        invariant count == |Model.ExpireAll(old(View()), order, now).entries|
      {
        var id :| id in rest;
        ghost var front := Model.ExpireAll(old(View()), order, now);
        ghost var next := Model.Unchanged(View());
        if Model.Overdue(View(), id, now) {
          next := Model.ExpireCommand(View(), id);
          var c := commands[id];
          commands := commands[id := c.(state := Expired, failureReason := ExpiredReason)];
          AppendEvent(c.tenantId, c.deviceId, CommandFailedReason(id, ExpiredReason), now);
          count := count + 1;
        }
        CommitThen(sha, old(State()), front, next, now);
        assert (order + [id])[..|order|] == order;
        order := order + [id];
        rest := rest - {id};
      }
      forall id | id in commands
        ensures !Model.Overdue(View(), id, now)
      {
        ExpireAllClears(old(View()), order, now, id);
      }
    }

    // ---- Risk

    /** Counts a device's commands and those that failed or expired. */
    method CountCommands(deviceId: string) returns (total: nat, failures: nat)
      ensures total == |Model.AllOn(commands, deviceId)|
      ensures failures == |Model.TroubledOn(commands, deviceId)|
    {
      total, failures := 0, 0;
      var rest := commands.Keys;
      Uncounted(commands, deviceId);
      while rest != {}
        invariant rest <= commands.Keys
        invariant Counted(commands, deviceId, rest) == (total, failures)
      {
        var id :| id in rest;
        CountNext(commands, deviceId, rest, id);
        if commands[id].deviceId == deviceId {
          total := total + 1;
          if commands[id].state == Failed || commands[id].state == Expired {
            failures := failures + 1;
          }
        }
        rest := rest - {id};
      }
      AllCounted(commands, deviceId);
    }

    method HeartbeatFactors(factors: seq<Factor>, id: string) returns (r: seq<Factor>)
      ensures r == factors + Model.HeartbeatFactors(View(), id)
    {
      r := factors;
      if id in heartbeats {
        var hb := heartbeats[id];
        r := AddIf(r, hb.drift > 0.10, InventoryDrift, 20);
        r := AddIf(r, hb.unusualCashMovement, UnusualCash, 25);
        r := AddIf(r, hb.missingTrustEvidence, MissingEvidence, 20);
        r := AddIf(r, hb.driverStability < 0.75, UnstableDriver, 20);
      }
    }

    method ViolationFactors(factors: seq<Factor>, id: string) returns (r: seq<Factor>)
      ensures r == factors + Model.ViolationFactors(View(), id)
    {
      r := factors;
      if id in violations {
        var v := violations[id];
        r := AddIf(r, v > 0, PolicyViolations, if v * 10 < 30 then v * 10 else 30);
      }
    }

    method CommandFactors(factors: seq<Factor>, id: string) returns (r: seq<Factor>)
      ensures r == factors + Model.CommandFactors(View(), id)
    {
      var total, failures := CountCommands(id);
      r := AddIf(factors, failures >= 3, RepeatedFailures, 25);
      r := AddIf(r, total > 0 && failures * 2 >= total, FailureRate, 15);
    }

    /** Finds the factors of a device's score. */
    method FindFactors(d: Device, now: int) returns (factors: seq<Factor>)
      ensures factors == Model.FactorsOf(cfg, View(), d, now)
    {
      factors := AddIf([], !Model.Fresh(cfg, d, now), StaleFactor, 30);
      assert factors == Model.FactorIf(!Model.Fresh(cfg, d, now), StaleFactor, 30);
      factors := CommandFactors(factors, d.deviceId);
      factors := HeartbeatFactors(factors, d.deviceId);
      factors := ViolationFactors(factors, d.deviceId);
      factors := AddIf(factors, d.lifecycle == Quarantined, QuarantinedFactor, 20);
    }

    /** Scores a device. */
    method DeviceRiskLocked(d: Device, now: int) returns (risk: Assessment)
      ensures risk == Model.Assess(cfg, View(), d, now)
    {
      var factors := FindFactors(d, now);
      var score := SumPoints(factors);
      ScoreOfFactors(cfg, View(), d, now);
      if score > 100 {
        score := 100;
      }
      risk := Assessment(d.tenantId, DeviceScope, d.deviceId, score, Model.LevelOf(score), factors, now);
    }

    method RecordRiskLocked(tenantId: string, scope: Scope, scopeId: string, score: int, now: int)
      modifies this`riskLevels, this`events
      ensures State() == Model.Commit(sha, old(State()),
                                      Model.RecordRisk(old(View()), tenantId, scope, scopeId, score), now)
    {
      var key := Model.RiskKey(tenantId, scope, scopeId);
      var level := Model.LevelOf(score);
      if key in riskLevels && riskLevels[key] == level {
        return;
      }
      var previous := if key in riskLevels then Some(riskLevels[key]) else None;
      AppendEvent(tenantId, if scope.DeviceScope? then scopeId else "",
                  RiskChanged(scope, scopeId, previous, level, score), now);
      riskLevels := riskLevels[key := level];
    }

    method DeviceRisk(tenantId: string, id: string, now: int) returns (risk: Assessment)
      modifies this`riskLevels, this`events
      ensures State() == Model.Commit(sha, old(State()), Model.DeviceRisk(cfg, old(View()), tenantId, id, now), now)
      ensures risk == Model.DeviceAssessment(cfg, old(View()), tenantId, id, now)
    {
      if id !in devices || devices[id].tenantId != tenantId {
        return Assessment(tenantId, DeviceScope, id, 100, Critical, [Factor(UnknownDeviceFactor, 100)], now);
      }
      risk := DeviceRiskLocked(devices[id], now);
      RecordRiskLocked(tenantId, DeviceScope, devices[id].deviceId, risk.score, now);
    }

    /** Scores every device of a tenant, in whatever order the table yields them. */
    method FleetRisk(tenantId: string, now: int) returns (risks: seq<Assessment>, ghost order: seq<string>)
      modifies this`riskLevels, this`events
      ensures State() == Model.Commit(sha, old(State()), Model.FleetRisk(cfg, old(View()), tenantId, order, now), now)
      ensures risks == Model.Assessments(cfg, old(View()), tenantId, order, now)
      ensures forall id :: id in devices <==> id in order
    {
      risks, order := [], [];
      var rest := devices.Keys;
      while rest != {}
        invariant rest <= devices.Keys
        invariant forall id :: id in devices <==> id in rest || id in order
        invariant State() == Model.Commit(sha, old(State()), Model.FleetRisk(cfg, old(View()), tenantId, order, now), now)
        invariant OnlyLevels(old(View()), View())
        invariant risks == Model.Assessments(cfg, old(View()), tenantId, order, now)
      {
        var id :| id in rest;
        ghost var before := View();
        LevelsDoNotMatter(cfg, old(View()), before, devices[id], now);
        if devices[id].tenantId == tenantId {
          var risk := DeviceRisk(tenantId, id, now);
          risks := risks + [risk];
        }
        CommitThen(sha, old(State()), Model.FleetRisk(cfg, old(View()), tenantId, order, now),
                   Model.DeviceRisk(cfg, before, tenantId, id, now), now);
        assert (order + [id])[..|order|] == order;
        order := order + [id];
        rest := rest - {id};
      }
    }

    /** The mean score of a tenant's devices at a location; 100 if there is none. */
    method LocationRisk(tenantId: string, locationId: string, now: int)
      returns (risk: Assessment, ghost order: seq<string>)
      modifies this`riskLevels, this`events
      ensures State() == Model.Commit(sha, old(State()),
                                      Model.LocationRisk(cfg, old(View()), tenantId, locationId, order, now), now)
      ensures risk == Model.LocationAssessment(cfg, old(View()), tenantId, locationId, order, now)
      ensures forall id :: id in devices <==> id in order
    {
      var total, count := 0, 0;
      var factors: seq<Factor> := [];
      order := [];
      var rest := devices.Keys;
      while rest != {}
        invariant rest <= devices.Keys
        invariant State() == old(State())
        invariant forall id :: id in devices <==> id in rest || id in order
        invariant total == Model.LocationTotal(cfg, old(View()), tenantId, locationId, order, now)
        invariant count == Model.LocationCount(old(View()), tenantId, locationId, order)
        invariant factors == Model.LocationFactors(cfg, old(View()), tenantId, locationId, order, now)
      {
        var id :| id in rest;
        if devices[id].tenantId == tenantId && devices[id].assignment.locationId == locationId {
          var found := DeviceRiskLocked(devices[id], now);
          total := total + found.score;
          factors := factors + found.factors;
          count := count + 1;
        }
        assert (order + [id])[..|order|] == order;
        order := order + [id];
        rest := rest - {id};
      }
      var score := if count > 0 then total / count else 100;
      if count == 0 {
        factors := [Factor(UnknownLocationFactor, 100)];
      }
      risk := Assessment(tenantId, LocationScope, locationId, score, Model.LevelOf(score), factors, now);
      RecordRiskLocked(tenantId, LocationScope, locationId, score, now);
    }

    // ---- Operator quarantine, recovery, replay

    method Quarantine(tenantId: string, id: string, why: string, now: int) returns (error: Option<Error>)
      modifies this`devices, this`events
      ensures var effect := Model.Quarantine(old(View()), tenantId, id, why);
              State() == Model.Commit(sha, old(State()), effect, now) && error == effect.error
    {
      if id !in devices || devices[id].tenantId != tenantId || devices[id].retired {
        return Some(NotFoundOrRetired);
      }
      QuarantineLocked(id, if why == "" then OperatorQuarantine else OperatorText(why), now);
      return None;
    }

    /** The score without the points for being quarantined. */
    method UnresolvedScore(risk: Assessment) returns (unresolved: int)
      ensures unresolved == risk.score - QuarantineShare(risk.factors)
    {
      unresolved := risk.score;
      var i := 0;
      while i < |risk.factors|
        invariant 0 <= i <= |risk.factors|
        invariant unresolved == risk.score - QuarantineShare(risk.factors[..i])
      {
        assert risk.factors[..i + 1][..i] == risk.factors[..i];
        if risk.factors[i].name == QuarantinedFactor {
          unresolved := unresolved - risk.factors[i].points;
        }
        i := i + 1;
      }
      assert risk.factors[..i] == risk.factors;
    }

    /** What speaks against recovering a device, short of VEIL. */
    method RecoveryBar(tenantId: string, id: string, now: int) returns (error: Option<Error>)
      ensures error == Model.RecoveryRefusal(cfg, View(), tenantId, id, now)
    {
      if id !in devices || devices[id].tenantId != tenantId {
        return Some(NotFound);
      }
      var d := devices[id];
      if d.lifecycle != Quarantined || d.retired {
        return Some(DeviceNotRecoverable);
      }
      if !Model.Fresh(cfg, d, now) {
        return Some(FreshHeartbeatRequired);
      }
      if id !in heartbeats || !heartbeats[id].selfTestPassed {
        return Some(SelfTestRequired);
      }
      var hb := heartbeats[id];
      if hb.connectivity != Online || !Model.KnownVersion(hb.firmware) || !Model.KnownVersion(hb.driverVersion) ||
         hb.contradiction || d.capabilities == [] {
        return Some(IdentityOrHealthUnresolved);
      }
      return None;
    }

    method ResidualRisk(d: Device, now: int) returns (unresolved: int)
      ensures unresolved == Model.ResidualScore(cfg, View(), d, now)
    {
      var risk := DeviceRiskLocked(d, now);
      FactorsAddUp(cfg, View(), d, now);
      unresolved := UnresolvedScore(risk);
    }

    method Recover(tenantId: string, id: string, answer: PolicyAnswer, now: int) returns (error: Option<Error>)
      modifies this`devices, this`events
      ensures var effect := Model.Recover(cfg, old(View()), tenantId, id, answer, now);
              State() == Model.Commit(sha, old(State()), effect, now) && error == effect.error
    {
      var bar := RecoveryBar(tenantId, id, now);
      if bar.Some? {
        return bar;
      }
      var d := devices[id];
      var unresolved := ResidualRisk(d, now);
      if unresolved >= 75 {
        return Some(CriticalRiskUnresolved);
      }
      if !Model.TrustAllows(cfg, OnDeviceRecovery, answer) {
        return Some(VeilRecoveryDenied);
      }
      var previous := d.quarantineReason;
      devices := devices[id := d.(lifecycle := Active, quarantineReason := NoCause)];
      AppendEvent(tenantId, id, DeviceRecovered(previous, unresolved), now);
      return None;
    }
  }
}
