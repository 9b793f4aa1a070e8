/** The fleet operations service as functions: what each operation does to the tables and
    which events it logs. */
module FleetModel {
  import opened Basics
  import opened FleetTypes
  import Decimal

  // ---- Pure rules

  predicate ValidTransition(before: Lifecycle, after: Lifecycle, recovery: bool) {
    if before == after then true
    else if before.Retired? then false
    else if after.Retired? || after.Quarantined? then true
    else if before.Provisioned? then after.Active?
    else if before.Active? then after.Maintenance?
    else if before.Maintenance? then after.Active?
    else if before.Quarantined? then recovery && after.Active?
    else false
  }

  function CapabilityFor(name: CommandName): Option<Capability> {
    match name
    case Lock | Unlock => Some(LockControl)
    case Open | Close => Some(OpenClose)
    case DispenseCash => Some(CashOut)
    case AcceptCash => Some(CashIn)
    case CountCash | ReconcileDevice | SyncInventory => Some(InventoryControl)
    case RunSelfTest => Some(SensorTelemetry)
    case RotateKeys => Some(Identity)
    case ExportEvidence => Some(EvidenceExport)
    case Restart | RefreshConfig | PauseTransactions | ResumeTransactions
       | DisableDevice | EnableDevice | EnterMaintenance | ExitMaintenance => Some(CommandExecution)
    case OtherCommand(_) => None
  }

  predicate HighRisk(name: CommandName) {
    name.Lock? || name.Unlock? || name.Open? || name.DispenseCash? || name.AcceptCash? ||
    name.RotateKeys? || name.ExportEvidence? || name.DisableDevice? || name.EnableDevice? ||
    name.PauseTransactions? || name.ResumeTransactions? || name.EnterMaintenance?
  }

  function PolicyAction(name: CommandName): Action {
    if HighRisk(name) then OnCommand(name) else OnCommandExecution
  }

  predicate Fresh(cfg: Config, d: Device, now: int) {
    d.lastHeartbeat > 0 && now >= d.lastHeartbeat && now - d.lastHeartbeat <= cfg.heartbeatTimeout
  }

  predicate KnownVersion(version: string) {
    version != "" && version != "unknown"
  }

  /** The decision of the VEIL trust service on the client's answer. */
  predicate PolicyAllows(policy: PolicyConfig, action: Action, answer: PolicyAnswer) {
    if answer.unavailable && action in policy.highRiskActions then
      if policy.productionMode && policy.failClosed then false
      else if !policy.productionMode && policy.localAllowWhenUnavailable then true
      else answer.allowed
    else
      answer.allowed
  }

  predicate TrustAllows(cfg: Config, action: Action, answer: PolicyAnswer) {
    cfg.trust.Some? && PolicyAllows(cfg.trust.value, action, answer)
  }

  // ---- Building effects

  function Unchanged(t: Tables): Effect {
    Effect(t, [], None)
  }

  function Refused(t: Tables, error: Error): Effect {
    Effect(t, [], Some(error))
  }

  function SetDevice(t: Tables, id: string, d: Device): Tables {
    t.(devices := t.devices[id := d])
  }

  function Store(t: Tables, c: Command): Tables {
    t.(commands := t.commands[c.commandId := c])
  }

  /** The effect of doing first, then second, where second starts from first's tables. */
  function Then(first: Effect, second: Effect): Effect {
    Effect(second.tables, first.entries + second.entries, second.error)
  }

  function PutInQuarantine(t: Tables, id: string, why: Cause): Effect
    requires id in t.devices
  {
    var d := t.devices[id];
    if d.retired then Unchanged(t)
    else Effect(SetDevice(t, id, d.(lifecycle := Quarantined, quarantineReason := why)),
                [Entry(d.tenantId, d.deviceId, DeviceQuarantined(why))], None)
  }

  // ---- Device operations

  function Enrolled(d: Device, edge: EdgeReply): Device {
    var d1 := if d.capabilities == [] && edge.EdgeRegistered? && edge.listed.Some?
              then d.(capabilities := edge.listed.value.capabilities, driverId := edge.listed.value.driverId)
              else d;
    d1.(connectivity := Offline)
  }

  predicate FullyAssigned(d: Device) {
    d.deviceId != "" && d.tenantId != "" && d.assignment.locationId != "" && d.assignment.branchId != "" &&
    d.assignment.fleetId != ""
  }

  function Enroll(t: Tables, d: Device, edge: EdgeReply): Effect {
    if !FullyAssigned(d) then Refused(t, MissingRequiredAssignment)
    else if !d.lifecycle.Provisioned? && !d.lifecycle.Active? then Refused(t, InvalidInitialLifecycle)
    else if d.deviceId in t.devices then Refused(t, DeviceAlreadyEnrolled)
    else if edge.EdgeRejected? then Refused(t, EdgeRegistrationFailed)
    else if Enrolled(d, edge).capabilities == [] then Refused(t, UnknownCapability)
    else
      Effect(SetDevice(t, d.deviceId, Enrolled(d, edge)),
             [Entry(d.tenantId, d.deviceId,
                    DeviceEnrolled(d.assignment.locationId, d.assignment.fleetId, d.lifecycle))], None)
  }

  function Or<T>(o: Option<T>, default: T): T {
    if o.Some? then o.value else default
  }

  function Patched(d: Device, patch: Patch): Device {
    d.(lifecycle := Or(patch.lifecycle, d.lifecycle),
       assignment := Assignment(Or(patch.branchId, d.assignment.branchId),
                                Or(patch.locationId, d.assignment.locationId),
                                Or(patch.fleetId, d.assignment.fleetId),
                                Or(patch.groupId, d.assignment.groupId),
                                Or(patch.labels, d.assignment.labels)))
  }

  predicate Registered(t: Tables, tenantId: string, id: string) {
    id in t.devices && t.devices[id].tenantId == tenantId
  }

  function UpdateDevice(t: Tables, tenantId: string, id: string, patch: Patch): Effect {
    if !Registered(t, tenantId, id) then Refused(t, NotFound)
    else
      var d := t.devices[id];
      if d.retired then Refused(t, DeviceIsRetired)
      else if !ValidTransition(d.lifecycle, Or(patch.lifecycle, d.lifecycle), false) then
        Refused(t, InvalidLifecycleTransition)
      else if patch.locationId == Some("") then Refused(t, LocationRequired)
      else
        var d' := Patched(d, patch);
        Effect(SetDevice(t, id, d'),
               if d.lifecycle != d'.lifecycle
               then [Entry(tenantId, id, LifecycleChanged(d.lifecycle, d'.lifecycle))] else [], None)
  }

  function RetireDevice(t: Tables, tenantId: string, id: string): Effect {
    if !Registered(t, tenantId, id) then Refused(t, NotFound)
    else if t.devices[id].retired then Refused(t, DeviceAlreadyRetired)
    else
      var d := t.devices[id];
      Effect(SetDevice(t, id, d.(lifecycle := Retired, retired := true, connectivity := Offline)),
             [Entry(tenantId, id, DeviceRetired(d.lifecycle))], None)
  }

  /** The first check a heartbeat from a known, unretired device of the right tenant fails by
      quarantining the device, if any; a device already in quarantine is only checked for
      staleness. */
  function HeartbeatFault(cfg: Config, d: Device, hb: Heartbeat, now: int): Option<(Cause, Error)> {
    if hb.timestamp <= 0 || now - hb.timestamp > cfg.heartbeatTimeout || hb.timestamp > now + 30 then
      Some((StaleHeartbeatCause, StaleHeartbeatError))
    else if d.lifecycle.Quarantined? then None
    else if d.capabilities == [] then Some((UnknownCapabilityCause, UnknownCapability))
    else if !KnownVersion(hb.firmware) then Some((UnknownFirmwareCause, UnknownFirmware))
    else if !KnownVersion(hb.driverVersion) then Some((UnknownDriverCause, UnknownDriver))
    else if hb.contradiction then Some((InventoryContradictionCause, InventoryContradiction))
    else None
  }

  /** The device after an accepted heartbeat. */
  function Beaten(d: Device, hb: Heartbeat): Device {
    if d.lifecycle.Quarantined? then d.(lastHeartbeat := hb.timestamp, connectivity := hb.connectivity)
    else d.(firmware := hb.firmware, driverVersion := hb.driverVersion,
            connectivity := hb.connectivity, lastHeartbeat := hb.timestamp)
  }

  function ReceiveHeartbeat(cfg: Config, t: Tables, hb: Heartbeat, now: int): Effect {
    if hb.deviceId !in t.devices then Refused(t, UnknownDevice)
    else
      var id := hb.deviceId;
      var d := t.devices[id];
      if hb.tenantId != d.tenantId then
        PutInQuarantine(t, id, TenantBoundaryViolation).(error := Some(TenantMismatch))
      else if d.retired then Refused(t, DeviceIsRetired)
      else
        var fault := HeartbeatFault(cfg, d, hb, now);
        if fault.Some? then PutInQuarantine(t, id, fault.value.0).(error := Some(fault.value.1))
        else
          Effect(SetDevice(t, id, Beaten(d, hb)).(heartbeats := t.heartbeats[id := hb]),
                 [Entry(d.tenantId, d.deviceId,
                        if d.lifecycle.Quarantined? then HeartbeatWhileQuarantined
                        else HeartbeatReceived(hb.connectivity, hb.errorCodes))],
                 if d.lifecycle.Quarantined? then Some(DeviceIsQuarantined) else None)
  }

  // ---- Commands

  function GeneratedCommandId(n: nat): string {
    "fleet-command-" + Decimal.Render(n + 1)
  }

  /** The command as the service fills it in before any check. */
  function Prepared(t: Tables, c: Command, now: int): Command {
    c.(commandId := if c.commandId == "" then GeneratedCommandId(|t.commands|) else c.commandId,
       createdAt := now,
       expiresAt := if c.expiresAt <= now then now + 60 else c.expiresAt)
  }

  /** The first device check that fails for a new command, if any. */
  function DeviceRefusal(cfg: Config, t: Tables, c: Command, now: int): Option<Reason> {
    if !Registered(t, c.tenantId, c.deviceId) then Some(TenantOrDeviceMismatch)
    else
      var d := t.devices[c.deviceId];
      if d.retired || d.lifecycle.Quarantined? then Some(DeviceUnavailable)
      else if !Fresh(cfg, d, now) then Some(StaleHeartbeat)
      else if !d.connectivity.Online? then Some(DeviceOffline)
      else if d.capabilities == [] then Some(UnknownCapabilityState)
      else None
  }

  function FailCommand(t: Tables, c: Command, reason: Reason, denied: bool): Effect {
    Effect(Store(t, c.(state := Failed, failureReason := reason)),
           [Entry(c.tenantId, c.deviceId,
                  if denied then CommandDenied(c.commandId, reason) else CommandFailedReason(c.commandId, reason))],
           None)
  }

  function CountViolation(t: Tables, id: string): Tables {
    var count := if id in t.violations then t.violations[id] else 0;
    t.(violations := t.violations[id := count + 1])
  }

  /** A command that VEIL does not allow: a violation is counted, the device quarantined. */
  function DenyCommand(t: Tables, c: Command): Effect
    requires c.deviceId in t.devices
  {
    var quarantine := PutInQuarantine(CountViolation(t, c.deviceId), c.deviceId, FailedVeilTrustCheck);
    Then(quarantine, FailCommand(quarantine.tables, c, PolicyDenied, true))
  }

  function SendCommand(t: Tables, c: Command, now: int): Effect {
    Effect(Store(t, c.(state := Dispatched, dispatchedAt := now)),
           [Entry(c.tenantId, c.deviceId, CommandApproved(c.commandId, c.approvalId))] +
           [Entry(c.tenantId, c.deviceId, CommandDispatched(c.commandId))], None)
  }

  /** Policy check, approval and dispatch of a command that passed the device checks. */
  function Dispatch(cfg: Config, t: Tables, c: Command, answer: PolicyAnswer, now: int): Effect
    requires c.deviceId in t.devices
  {
    var c1 := c.(state := PolicyChecking, highRisk := HighRisk(c.name));
    if !TrustAllows(cfg, PolicyAction(c.name), answer) then DenyCommand(t, c1)
    else if c1.highRisk && (c.approvalId == "" || c.approvedBy == "") then
      Effect(Store(t, c1.(failureReason := ApprovalRequired)), [], None)
    else SendCommand(t, c1, now)
  }

  /** What happens to a command once it is queued. */
  function ProcessCommand(cfg: Config, t: Tables, c: Command, answer: PolicyAnswer, now: int): Effect {
    var refusal := DeviceRefusal(cfg, t, c, now);
    if refusal.Some? then FailCommand(t, c, refusal.value, false)
    else
      var c1 := c.(requiredCapability := CapabilityFor(c.name));
      if c1.requiredCapability.None? || c1.requiredCapability.value !in t.devices[c.deviceId].capabilities then
        FailCommand(t, c1, UnsupportedCapability, false)
      else Dispatch(cfg, t, c1, answer, now)
  }

  function EnterCommand(cfg: Config, t: Tables, c: Command, answer: PolicyAnswer, now: int): Effect {
    if c.commandId in t.commands then
      Effect(t, [Entry(c.tenantId, c.deviceId, CommandDenied(c.commandId, DuplicateCommandId))], None)
    else
      var queued := Effect(t, [Entry(c.tenantId, c.deviceId, CommandQueued(c.commandId, c.name))], None);
      Then(queued, ProcessCommand(cfg, t, c.(state := Queued), answer, now))
  }

  function CreateCommand(cfg: Config, t: Tables, request: Command, answer: PolicyAnswer, now: int): Effect {
    EnterCommand(cfg, t, Prepared(t, request, now), answer, now)
  }

  /** The command that create_command leaves under its id, if the id was free. */
  function FinalCommand(cfg: Config, t: Tables, c: Command, answer: PolicyAnswer, now: int): Command {
    var refusal := DeviceRefusal(cfg, t, c, now);
    if refusal.Some? then c.(state := Failed, failureReason := refusal.value)
    else
      var c1 := c.(requiredCapability := CapabilityFor(c.name));
      if c1.requiredCapability.None? || c1.requiredCapability.value !in t.devices[c.deviceId].capabilities then
        c1.(state := Failed, failureReason := UnsupportedCapability)
      else
        var c2 := c1.(state := PolicyChecking, highRisk := HighRisk(c.name));
        if !TrustAllows(cfg, PolicyAction(c.name), answer) then c2.(state := Failed, failureReason := PolicyDenied)
        else if c2.highRisk && (c.approvalId == "" || c.approvedBy == "") then c2.(failureReason := ApprovalRequired)
        else c2.(state := Dispatched, dispatchedAt := now)
  }

  /** What create_command returns. */
  function CreateReply(cfg: Config, t: Tables, request: Command, answer: PolicyAnswer, now: int): Command {
    var c := Prepared(t, request, now);
    if c.commandId in t.commands then c.(state := Failed, failureReason := DuplicateCommandId)
    else FinalCommand(cfg, t, c.(state := Queued), answer, now)
  }

  predicate Outstanding(state: CommandState) {
    state.Queued? || state.PolicyChecking? || state.Approved? || state.Dispatched?
  }

  predicate Owned(t: Tables, tenantId: string, id: string) {
    id in t.commands && t.commands[id].tenantId == tenantId
  }

  function SetCommand(t: Tables, id: string, c: Command): Tables {
    t.(commands := t.commands[id := c])
  }

  function CancelCommand(t: Tables, tenantId: string, id: string): Effect {
    if !Owned(t, tenantId, id) then Refused(t, NotFound)
    else
      var c := t.commands[id];
      if !Outstanding(c.state) then Refused(t, CommandNotCancellable)
      else Effect(SetCommand(t, id, c.(state := Cancelled)),
                  [Entry(tenantId, c.deviceId, CommandCancelled(id))], None)
  }

  function ExpireCommand(t: Tables, id: string): Effect
    requires id in t.commands
  {
    var c := t.commands[id];
    Effect(SetCommand(t, id, c.(state := Expired, failureReason := ExpiredReason)),
           [Entry(c.tenantId, c.deviceId, CommandFailedReason(id, ExpiredReason))], None)
  }

  function AcknowledgeCommand(t: Tables, tenantId: string, id: string, now: int): Effect {
    if !Owned(t, tenantId, id) then Refused(t, NotFound)
    else
      var c := t.commands[id];
      if !c.state.Dispatched? then Refused(t, InvalidCommandTransition)
      else if now > c.expiresAt then ExpireCommand(t, id).(error := Some(CommandExpired))
      else Effect(SetCommand(t, id, c.(state := Acknowledged, acknowledgedAt := now)),
                  [Entry(tenantId, c.deviceId, CommandAcknowledged(id))], None)
  }

  /** Whether a result text contains a word. */
  predicate Mentions(text: string, word: string) {
    exists i :: 0 <= i <= |text| && OccursAt(text, word, i)
  }

  predicate OccursAt(text: string, word: string, i: nat) {
    i + |word| <= |text| && text[i..i + |word|] == word
  }

  predicate Suspicious(result: string) {
    Mentions(result, "suspicious")
  }

  function FailedOn(commands: map<string, Command>, deviceId: string): set<string> {
    set id | id in commands && commands[id].deviceId == deviceId && commands[id].state.Failed?
  }

  function Finished(c: Command, success: bool, result: string, now: int): Command {
    c.(state := if success then Completed else Failed,
       completedAt := now,
       result := result,
       failureReason := if success then c.failureReason else FailureText(result))
  }

  function FailureText(result: string): Reason {
    if result == "" then DeviceReportedFailure else Reported(result)
  }

  /** Quarantine that a failed command brings on its device. */
  function FailureConsequences(t: Tables, deviceId: string, result: string): Effect
    requires deviceId in t.devices
  {
    var first := if Suspicious(result) then PutInQuarantine(t, deviceId, SuspiciousCommandResult) else Unchanged(t);
    var second := if |FailedOn(t.commands, deviceId)| >= 3
                  then PutInQuarantine(first.tables, deviceId, RepeatedCommandFailures) else Unchanged(first.tables);
    Then(first, second)
  }

  function CompleteCommand(t: Tables, tenantId: string, id: string, success: bool, result: string, now: int): Effect {
    if !Owned(t, tenantId, id) then Refused(t, NotFound)
    else
      var c := t.commands[id];
      if !c.state.Acknowledged? then Refused(t, InvalidCommandTransition)
      else
        var finished := Effect(SetCommand(t, id, Finished(c, success, result, now)),
                               [Entry(tenantId, c.deviceId,
                                      if success then CommandCompleted(id, result)
                                      else CommandFailedResult(id, result))], None);
        Then(finished, if !success && c.deviceId in t.devices
                       then FailureConsequences(finished.tables, c.deviceId, result)
                       else Unchanged(finished.tables))
  }

  predicate Overdue(t: Tables, id: string, now: int) {
    id in t.commands && Outstanding(t.commands[id].state) && now > t.commands[id].expiresAt
  }

  /** Expires the overdue commands among ids, in that order. */
  function ExpireAll(t: Tables, ids: seq<string>, now: int): Effect {
    if ids == [] then Unchanged(t)
    else
      var front := ExpireAll(t, ids[..|ids| - 1], now);
      var id := ids[|ids| - 1];
      Then(front, if Overdue(front.tables, id, now) then ExpireCommand(front.tables, id) else Unchanged(front.tables))
  }

  // ---- Risk

  function TroubledOn(commands: map<string, Command>, deviceId: string): set<string> {
    set id | id in commands && commands[id].deviceId == deviceId &&
             (commands[id].state.Failed? || commands[id].state.Expired?)
  }

  function AllOn(commands: map<string, Command>, deviceId: string): set<string> {
    set id | id in commands && commands[id].deviceId == deviceId
  }

  function Points(condition: bool, points: int): int {
    if condition then points else 0
  }

  function HeartbeatPoints(t: Tables, id: string): int {
    if id in t.heartbeats then
      var hb := t.heartbeats[id];
      Points(hb.drift > 0.10, 20) + Points(hb.unusualCashMovement, 25) +
      Points(hb.missingTrustEvidence, 20) + Points(hb.driverStability < 0.75, 20)
    else 0
  }

  function CommandPoints(t: Tables, id: string): int {
    var failures := |TroubledOn(t.commands, id)|;
    var total := |AllOn(t.commands, id)|;
    Points(failures >= 3, 25) + Points(total > 0 && failures * 2 >= total, 15)
  }

  function ViolationPoints(t: Tables, id: string): int {
    if id in t.violations && t.violations[id] > 0
    then (if t.violations[id] * 10 < 30 then t.violations[id] * 10 else 30) else 0
  }

  /** The points of every factor but the quarantine itself, before any clamping. */
  function UnresolvedPoints(cfg: Config, t: Tables, d: Device, now: int): int {
    Points(!Fresh(cfg, d, now), 30) + CommandPoints(t, d.deviceId) +
    HeartbeatPoints(t, d.deviceId) + ViolationPoints(t, d.deviceId)
  }

  function QuarantinePoints(d: Device): int {
    Points(d.lifecycle.Quarantined?, 20)
  }

  function Clamp(score: int): int {
    if score < 100 then score else 100
  }

  function Score(cfg: Config, t: Tables, d: Device, now: int): int {
    Clamp(UnresolvedPoints(cfg, t, d, now) + QuarantinePoints(d))
  }

  function LevelOf(score: int): RiskLevel {
    if score >= 75 then Critical else if score >= 50 then High else if score >= 25 then Medium else Low
  }

  /** The factor, if the condition holds. */
  function FactorIf(condition: bool, name: FactorName, points: int): seq<Factor> {
    if condition then [Factor(name, points)] else []
  }

  function CommandFactors(t: Tables, id: string): seq<Factor> {
    var failures := |TroubledOn(t.commands, id)|;
    var total := |AllOn(t.commands, id)|;
    FactorIf(failures >= 3, RepeatedFailures, 25) + FactorIf(total > 0 && failures * 2 >= total, FailureRate, 15)
  }

  function HeartbeatFactors(t: Tables, id: string): seq<Factor> {
    if id in t.heartbeats then
      var hb := t.heartbeats[id];
      FactorIf(hb.drift > 0.10, InventoryDrift, 20) + FactorIf(hb.unusualCashMovement, UnusualCash, 25) +
      FactorIf(hb.missingTrustEvidence, MissingEvidence, 20) + FactorIf(hb.driverStability < 0.75, UnstableDriver, 20)
    else []
  }

  function ViolationFactors(t: Tables, id: string): seq<Factor> {
    if id in t.violations then
      FactorIf(t.violations[id] > 0, PolicyViolations, if t.violations[id] * 10 < 30 then t.violations[id] * 10 else 30)
    else []
  }

  /** The factors of a device's score, in the order they are found. */
  function FactorsOf(cfg: Config, t: Tables, d: Device, now: int): seq<Factor> {
    FactorIf(!Fresh(cfg, d, now), StaleFactor, 30) + CommandFactors(t, d.deviceId) + HeartbeatFactors(t, d.deviceId) +
    ViolationFactors(t, d.deviceId) + FactorIf(d.lifecycle.Quarantined?, QuarantinedFactor, 20)
  }

  function Assess(cfg: Config, t: Tables, d: Device, now: int): Assessment {
    var score := Score(cfg, t, d, now);
    Assessment(d.tenantId, DeviceScope, d.deviceId, score, LevelOf(score), FactorsOf(cfg, t, d, now), now)
  }

  /** What device_risk returns. */
  function DeviceAssessment(cfg: Config, t: Tables, tenantId: string, id: string, now: int): Assessment {
    if Registered(t, tenantId, id) then Assess(cfg, t, t.devices[id], now)
    else Assessment(tenantId, DeviceScope, id, 100, Critical, [Factor(UnknownDeviceFactor, 100)], now)
  }

  /** The assessments of the tenant's devices among ids, in that order. */
  function Assessments(cfg: Config, t: Tables, tenantId: string, ids: seq<string>, now: int): seq<Assessment> {
    if ids == [] then []
    else
      var id := ids[|ids| - 1];
      Assessments(cfg, t, tenantId, ids[..|ids| - 1], now) +
      (if Registered(t, tenantId, id) then [Assess(cfg, t, t.devices[id], now)] else [])
  }

  function RiskKey(tenantId: string, scope: Scope, scopeId: string): string {
    tenantId + (if scope.DeviceScope? then ":device:" else ":location:") + scopeId
  }

  function RecordRisk(t: Tables, tenantId: string, scope: Scope, scopeId: string, score: int): Effect {
    var key := RiskKey(tenantId, scope, scopeId);
    var level := LevelOf(score);
    if key in t.riskLevels && t.riskLevels[key] == level then Unchanged(t)
    else
      var previous := if key in t.riskLevels then Some(t.riskLevels[key]) else None;
      Effect(t.(riskLevels := t.riskLevels[key := level]),
             [Entry(tenantId, if scope.DeviceScope? then scopeId else "",
                    RiskChanged(scope, scopeId, previous, level, score))], None)
  }

  function DeviceRisk(cfg: Config, t: Tables, tenantId: string, id: string, now: int): Effect {
    if !Registered(t, tenantId, id) then Unchanged(t)
    else RecordRisk(t, tenantId, DeviceScope, t.devices[id].deviceId, Score(cfg, t, t.devices[id], now))
  }

  /** Records the risk of the tenant's devices among ids, in that order. */
  function FleetRisk(cfg: Config, t: Tables, tenantId: string, ids: seq<string>, now: int): Effect {
    if ids == [] then Unchanged(t)
    else
      var front := FleetRisk(cfg, t, tenantId, ids[..|ids| - 1], now);
      Then(front, DeviceRisk(cfg, front.tables, tenantId, ids[|ids| - 1], now))
  }

  predicate LocatedAt(t: Tables, tenantId: string, locationId: string, id: string) {
    Registered(t, tenantId, id) && t.devices[id].assignment.locationId == locationId
  }

  function LocationCount(t: Tables, tenantId: string, locationId: string, ids: seq<string>): nat {
    if ids == [] then 0
    else LocationCount(t, tenantId, locationId, ids[..|ids| - 1]) +
         (if LocatedAt(t, tenantId, locationId, ids[|ids| - 1]) then 1 else 0)
  }

  function LocationTotal(cfg: Config, t: Tables, tenantId: string, locationId: string, ids: seq<string>,
                         now: int): int
  {
    if ids == [] then 0
    else
      var id := ids[|ids| - 1];
      LocationTotal(cfg, t, tenantId, locationId, ids[..|ids| - 1], now) +
      (if LocatedAt(t, tenantId, locationId, id) then Score(cfg, t, t.devices[id], now) else 0)
  }

  /** The mean score of the tenant's devices among ids at a location. */
  function LocationScore(cfg: Config, t: Tables, tenantId: string, locationId: string, ids: seq<string>,
                         now: int): int
  {
    var count := LocationCount(t, tenantId, locationId, ids);
    if count > 0 then LocationTotal(cfg, t, tenantId, locationId, ids, now) / count else 100
  }

  function LocationFactors(cfg: Config, t: Tables, tenantId: string, locationId: string, ids: seq<string>,
                           now: int): seq<Factor>
  {
    if ids == [] then []
    else
      var id := ids[|ids| - 1];
      LocationFactors(cfg, t, tenantId, locationId, ids[..|ids| - 1], now) +
      (if LocatedAt(t, tenantId, locationId, id) then FactorsOf(cfg, t, t.devices[id], now) else [])
  }

  /** What location_risk returns. */
  function LocationAssessment(cfg: Config, t: Tables, tenantId: string, locationId: string, ids: seq<string>,
                              now: int): Assessment
  {
    var score := LocationScore(cfg, t, tenantId, locationId, ids, now);
    Assessment(tenantId, LocationScope, locationId, score, LevelOf(score),
               if LocationCount(t, tenantId, locationId, ids) > 0
               then LocationFactors(cfg, t, tenantId, locationId, ids, now) else [Factor(UnknownLocationFactor, 100)],
               now)
  }

  function LocationRisk(cfg: Config, t: Tables, tenantId: string, locationId: string, ids: seq<string>,
                        now: int): Effect
  {
    RecordRisk(t, tenantId, LocationScope, locationId, LocationScore(cfg, t, tenantId, locationId, ids, now))
  }

  // ---- Operator quarantine and recovery

  function OperatorCause(text: string): Cause {
    if text == "" then OperatorQuarantine else OperatorText(text)
  }

  function Quarantine(t: Tables, tenantId: string, id: string, why: string): Effect {
    if !Registered(t, tenantId, id) || t.devices[id].retired then Refused(t, NotFoundOrRetired)
    else PutInQuarantine(t, id, OperatorCause(why))
  }

  /** The first recovery requirement that fails, before risk and policy are consulted. */
  function RecoveryRefusal(cfg: Config, t: Tables, tenantId: string, id: string, now: int): Option<Error> {
    if !Registered(t, tenantId, id) then Some(NotFound)
    else
      var d := t.devices[id];
      if !d.lifecycle.Quarantined? || d.retired then Some(DeviceNotRecoverable)
      else if !Fresh(cfg, d, now) then Some(FreshHeartbeatRequired)
      else if id !in t.heartbeats || !t.heartbeats[id].selfTestPassed then Some(SelfTestRequired)
      else
        var hb := t.heartbeats[id];
        if !hb.connectivity.Online? || !KnownVersion(hb.firmware) || !KnownVersion(hb.driverVersion) ||
           hb.contradiction || d.capabilities == [] then Some(IdentityOrHealthUnresolved)
        else None
  }

  /** The clamped score less the quarantine's own points: what the service compares with 75. */
  function ResidualScore(cfg: Config, t: Tables, d: Device, now: int): int {
    Score(cfg, t, d, now) - QuarantinePoints(d)
  }

  function Recover(cfg: Config, t: Tables, tenantId: string, id: string, answer: PolicyAnswer, now: int): Effect {
    var refusal := RecoveryRefusal(cfg, t, tenantId, id, now);
    if refusal.Some? then Refused(t, refusal.value)
    else
      var d := t.devices[id];
      var residual := ResidualScore(cfg, t, d, now);
      if residual >= 75 then Refused(t, CriticalRiskUnresolved)
      else if !TrustAllows(cfg, OnDeviceRecovery, answer) then Refused(t, VeilRecoveryDenied)
      else
        Effect(SetDevice(t, id, d.(lifecycle := Active, quarantineReason := NoCause)),
               [Entry(tenantId, id, DeviceRecovered(d.quarantineReason, residual))], None)
  }

  // ---- The event log

  function EntryOf(e: Event): Entry {
    Entry(e.tenantId, e.deviceId, e.kind)
  }

  function PreimageOf(e: Event): Preimage {
    EventPreimage(e.sequence, e.eventId, e.tenantId, e.deviceId, e.kind, e.occurredAt, e.previousHash)
  }

  function LastHash(events: seq<Event>): string {
    if events == [] then "" else events[|events| - 1].eventHash
  }

  function NextEvent(sha: Sha, events: seq<Event>, entry: Entry, now: int): Event {
    var bare := Event(|events| + 1, |events| + 1, entry.tenantId, entry.deviceId, entry.kind, now,
                      LastHash(events), "");
    bare.(eventHash := sha(PreimageOf(bare)))
  }

  function Append(sha: Sha, events: seq<Event>, entry: Entry, now: int): seq<Event> {
    events + [NextEvent(sha, events, entry, now)]
  }

  function AppendAll(sha: Sha, events: seq<Event>, entries: seq<Entry>, now: int): seq<Event> {
    if entries == [] then events
    else Append(sha, AppendAll(sha, events, entries[..|entries| - 1], now), entries[|entries| - 1], now)
  }

  // ---- Runs

  datatype Op =
    | OpEnroll(device: Device, edge: EdgeReply)
    | OpUpdate(tenantId: string, id: string, patch: Patch)
    | OpRetire(tenantId: string, id: string)
    | OpHeartbeat(heartbeat: Heartbeat)
    | OpCreate(command: Command, answer: PolicyAnswer)
    | OpCancel(tenantId: string, id: string)
    | OpAcknowledge(tenantId: string, id: string)
    | OpComplete(tenantId: string, id: string, success: bool, result: string)
    | OpExpire(ids: seq<string>)
    | OpDeviceRisk(tenantId: string, id: string)
    | OpFleetRisk(tenantId: string, ids: seq<string>)
    | OpLocationRisk(tenantId: string, locationId: string, ids: seq<string>)
    | OpQuarantine(tenantId: string, id: string, why: string)
    | OpRecover(tenantId: string, id: string, answer: PolicyAnswer)

  /** What an operation called at time now does to the tables. */
  function EffectOf(cfg: Config, t: Tables, op: Op, now: int): Effect {
    match op
    case OpEnroll(d, edge) => Enroll(t, d, edge)
    case OpUpdate(tenant, id, patch) => UpdateDevice(t, tenant, id, patch)
    case OpRetire(tenant, id) => RetireDevice(t, tenant, id)
    case OpHeartbeat(hb) => ReceiveHeartbeat(cfg, t, hb, now)
    case OpCreate(c, answer) => CreateCommand(cfg, t, c, answer, now)
    case OpCancel(tenant, id) => CancelCommand(t, tenant, id)
    case OpAcknowledge(tenant, id) => AcknowledgeCommand(t, tenant, id, now)
    case OpComplete(tenant, id, success, result) => CompleteCommand(t, tenant, id, success, result, now)
    case OpExpire(ids) => ExpireAll(t, ids, now)
    case OpDeviceRisk(tenant, id) => DeviceRisk(cfg, t, tenant, id, now)
    case OpFleetRisk(tenant, ids) => FleetRisk(cfg, t, tenant, ids, now)
    case OpLocationRisk(tenant, loc, ids) => LocationRisk(cfg, t, tenant, loc, ids, now)
    case OpQuarantine(tenant, id, why) => Quarantine(t, tenant, id, why)
    case OpRecover(tenant, id, answer) => Recover(cfg, t, tenant, id, answer, now)
  }

  /** Installs an effect: the tables are replaced, the entries are chained onto the log. */
  function Commit(sha: Sha, s: Fleet, effect: Effect, now: int): Fleet {
    Fleet(effect.tables, AppendAll(sha, s.events, effect.entries, now))
  }

  datatype Call = Call(op: Op, now: int)

  function Apply(sha: Sha, cfg: Config, s: Fleet, call: Call): Fleet {
    Commit(sha, s, EffectOf(cfg, s.tables, call.op, call.now), call.now)
  }

  const EmptyFleet := Fleet(Tables(map[], map[], map[], map[], map[]), [])

  function Run(sha: Sha, cfg: Config, s: Fleet, calls: seq<Call>): Fleet {
    if calls == [] then s else Apply(sha, cfg, Run(sha, cfg, s, calls[..|calls| - 1]), calls[|calls| - 1])
  }
}
