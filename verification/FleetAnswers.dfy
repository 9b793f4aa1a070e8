/** What each call of the fleet service answers and leaves behind, told from the caller's side: in the
    fields of the request and of the tables, with the names and limits of the documentation listed
    here, and not through the model's own rules. */
module FleetAnswers {
  import opened Basics
  import opened FleetTypes
  import opened FleetModel
  import Decimal
  import Commands = FleetCommands
  import Life = FleetLifecycle

  // ---- The lists

  /** The commands that need an approval id and an approver. */
  const NeedApproval: set<CommandName> := {
    Lock, Unlock, CommandName.Open, DispenseCash, AcceptCash, RotateKeys, ExportEvidence,
    DisableDevice, EnableDevice, PauseTransactions, ResumeTransactions, EnterMaintenance}

  /** The capability that each known command needs. */
  const Needs: map<CommandName, Capability> := map[
    Lock := LockControl, Unlock := LockControl, CommandName.Open := OpenClose, CommandName.Close := OpenClose,
    DispenseCash := CashOut, AcceptCash := CashIn,
    CountCash := InventoryControl, ReconcileDevice := InventoryControl, SyncInventory := InventoryControl,
    RunSelfTest := SensorTelemetry, RotateKeys := Identity, ExportEvidence := EvidenceExport,
    Restart := CommandExecution, RefreshConfig := CommandExecution,
    PauseTransactions := CommandExecution, ResumeTransactions := CommandExecution,
    DisableDevice := CommandExecution, EnableDevice := CommandExecution,
    EnterMaintenance := CommandExecution, ExitMaintenance := CommandExecution]

  /** The moves of a lifecycle that a PATCH may make. */
  const Moves: set<(Lifecycle, Lifecycle)> := {
    (Provisioned, Active), (Active, Maintenance), (Maintenance, Active)}

  // ---- What is asked about

  /** A device that may be sent a command: of the tenant, in service, heard of lately, online. */
  predicate Healthy(cfg: Config, t: Tables, tenantId: string, id: string, now: int) {
    && id in t.devices
    && var d := t.devices[id];
    && d.tenantId == tenantId && !d.retired && d.lifecycle != Quarantined
    && 0 < d.lastHeartbeat <= now <= d.lastHeartbeat + cfg.heartbeatTimeout
    && d.connectivity == Online && d.capabilities != []
  }

  /** VEIL's consent: without a trust service there is none; when VEIL cannot be reached, a listed
      action is refused in closed production and allowed where local consent is configured. */
  predicate Consents(cfg: Config, action: Action, answer: PolicyAnswer) {
    && cfg.trust.Some?
    && var p := cfg.trust.value;
    if answer.unavailable && action in p.highRiskActions
    then (if p.productionMode then !p.failClosed && answer.allowed else p.localAllowWhenUnavailable || answer.allowed)
    else answer.allowed
  }

  function ActionFor(name: CommandName): Action {
    if name in NeedApproval then OnCommand(name) else OnCommandExecution
  }

  function IdOf(t: Tables, request: Command): string {
    if request.commandId == "" then "fleet-command-" + Decimal.Render(|t.commands| + 1) else request.commandId
  }

  /** All that a command needs to go out. */
  predicate MayGo(cfg: Config, t: Tables, request: Command, answer: PolicyAnswer, now: int) {
    && IdOf(t, request) !in t.commands
    && Healthy(cfg, t, request.tenantId, request.deviceId, now)
    && request.name in Needs && Needs[request.name] in t.devices[request.deviceId].capabilities
    && Consents(cfg, ActionFor(request.name), answer)
    && (request.name in NeedApproval ==> request.approvalId != "" && request.approvedBy != "")
  }

  lemma RulesAsListed(cfg: Config, name: CommandName, answer: PolicyAnswer)
    ensures HighRisk(name) <==> name in NeedApproval
    ensures CapabilityFor(name) == if name in Needs then Some(Needs[name]) else None
    ensures PolicyAction(name) == ActionFor(name)
    ensures TrustAllows(cfg, ActionFor(name), answer) <==> Consents(cfg, ActionFor(name), answer)
  {
  }

  lemma RefusalAsListed(cfg: Config, t: Tables, c: Command, now: int)
    ensures DeviceRefusal(cfg, t, c, now).None? <==> Healthy(cfg, t, c.tenantId, c.deviceId, now)
  {
  }

  /** A created command is dispatched exactly when it may go; every other reply says failed, or that
      the approval is missing. */
  lemma DispatchedExactly(cfg: Config, t: Tables, request: Command, answer: PolicyAnswer, now: int)
    ensures var reply := CreateReply(cfg, t, request, answer, now);
            reply.state == Dispatched <==> MayGo(cfg, t, request, answer, now)
  {
    RulesAsListed(cfg, request.name, answer);
    RefusalAsListed(cfg, t, Prepared(t, request, now).(state := Queued), now);
  }

  /** The command as it goes out: the request with its id, times, capability and risk filled in. */
  function Outgoing(t: Tables, request: Command, now: int): Command
    requires request.name in Needs
  {
    request.(commandId := IdOf(t, request), createdAt := now, dispatchedAt := now, state := Dispatched,
             expiresAt := if request.expiresAt <= now then now + 60 else request.expiresAt,
             requiredCapability := Some(Needs[request.name]), highRisk := request.name in NeedApproval)
  }

  /** Then it is stored, nothing else changes, and the log tells that it was queued, approved and
      dispatched. */
  lemma DispatchLeaves(cfg: Config, t: Tables, request: Command, answer: PolicyAnswer, now: int)
    requires MayGo(cfg, t, request, answer, now)
    ensures CreateReply(cfg, t, request, answer, now) == Outgoing(t, request, now)
    ensures var id, tenant, device := IdOf(t, request), request.tenantId, request.deviceId;
            CreateCommand(cfg, t, request, answer, now) ==
            Effect(t.(commands := t.commands[id := Outgoing(t, request, now)]),
                   [Entry(tenant, device, CommandQueued(id, request.name))] +
                   ([Entry(tenant, device, CommandApproved(id, request.approvalId))] +
                    [Entry(tenant, device, CommandDispatched(id))]), None)
  {
    RulesAsListed(cfg, request.name, answer);
    RefusalAsListed(cfg, t, Prepared(t, request, now).(state := Queued), now);
  }

  /** A refused command names the first thing that stands against it. */
  lemma RefusedForFirstReason(cfg: Config, t: Tables, request: Command, answer: PolicyAnswer, now: int)
    ensures var reply := CreateReply(cfg, t, request, answer, now);
            if IdOf(t, request) in t.commands then reply.state == Failed && reply.failureReason == DuplicateCommandId
            else if request.deviceId !in t.devices || t.devices[request.deviceId].tenantId != request.tenantId then
              reply.state == Failed && reply.failureReason == TenantOrDeviceMismatch
            else
              var d := t.devices[request.deviceId];
              if d.retired || d.lifecycle == Quarantined then
                reply.state == Failed && reply.failureReason == DeviceUnavailable
              else if !(0 < d.lastHeartbeat <= now <= d.lastHeartbeat + cfg.heartbeatTimeout) then
                reply.state == Failed && reply.failureReason == StaleHeartbeat
              else if d.connectivity != Online then reply.state == Failed && reply.failureReason == DeviceOffline
              else if d.capabilities == [] then
                reply.state == Failed && reply.failureReason == UnknownCapabilityState
              else if request.name !in Needs || Needs[request.name] !in d.capabilities then
                reply.state == Failed && reply.failureReason == UnsupportedCapability
              else if !Consents(cfg, ActionFor(request.name), answer) then
                reply.state == Failed && reply.failureReason == PolicyDenied
              else if request.name in NeedApproval && (request.approvalId == "" || request.approvedBy == "") then
                reply.state == PolicyChecking && reply.failureReason == ApprovalRequired
              else reply.state == Dispatched
  {
    RulesAsListed(cfg, request.name, answer);
  }

  /** The reply is the request with the service's own fields filled in, and it is what is stored,
      unless the id was taken. */
  lemma CreationStoresReply(cfg: Config, t: Tables, request: Command, answer: PolicyAnswer, now: int)
    ensures var reply, after := CreateReply(cfg, t, request, answer, now), CreateCommand(cfg, t, request, answer, now).tables;
            var id := IdOf(t, request);
            after.commands == if id in t.commands then t.commands else t.commands[id := reply]
  {
    var c := Prepared(t, request, now);
    if c.commandId !in t.commands {
      Commands.ProcessStoresFinalCommand(cfg, t, c.(state := Queued), answer, now);
    }
  }

  lemma ReplyKeepsRequest(cfg: Config, t: Tables, request: Command, answer: PolicyAnswer, now: int)
    ensures var reply := CreateReply(cfg, t, request, answer, now);
            && reply.commandId == IdOf(t, request) && reply.createdAt == now
            && reply.expiresAt == (if request.expiresAt <= now then now + 60 else request.expiresAt)
            && reply.tenantId == request.tenantId && reply.deviceId == request.deviceId && reply.name == request.name
            && reply.parameters == request.parameters && reply.actorId == request.actorId
            && reply.approvalId == request.approvalId && reply.approvedBy == request.approvedBy
  {
  }

  /** The command reaches VEIL and VEIL refuses. */
  predicate RefusedByVeil(cfg: Config, t: Tables, request: Command, answer: PolicyAnswer, now: int) {
    && IdOf(t, request) !in t.commands
    && Healthy(cfg, t, request.tenantId, request.deviceId, now)
    && request.name in Needs && Needs[request.name] in t.devices[request.deviceId].capabilities
    && !Consents(cfg, ActionFor(request.name), answer)
  }

  /** The tables besides the commands. */
  predicate SameRest(t: Tables, after: Tables) {
    after == t.(commands := after.commands)
  }

  lemma DenialQuarantines(t: Tables, c: Command)
    requires c.deviceId in t.devices && !t.devices[c.deviceId].retired
    ensures var after := DenyCommand(t, c).tables;
            after == t.(commands := after.commands,
                        devices := t.devices[c.deviceId := t.devices[c.deviceId].(
                          lifecycle := Quarantined, quarantineReason := FailedVeilTrustCheck)],
                        violations := t.violations[c.deviceId :=
                          (if c.deviceId in t.violations then t.violations[c.deviceId] else 0) + 1])
  {
  }

  lemma ProcessDenies(cfg: Config, t: Tables, c: Command, answer: PolicyAnswer, now: int)
    requires Healthy(cfg, t, c.tenantId, c.deviceId, now)
    requires c.name in Needs && Needs[c.name] in t.devices[c.deviceId].capabilities
    requires !Consents(cfg, ActionFor(c.name), answer)
    ensures ProcessCommand(cfg, t, c, answer, now) ==
            DenyCommand(t, c.(requiredCapability := Some(Needs[c.name]), state := PolicyChecking,
                              highRisk := c.name in NeedApproval))
  {
    RulesAsListed(cfg, c.name, answer);
    RefusalAsListed(cfg, t, c, now);
  }

  lemma ProcessSpares(cfg: Config, t: Tables, c: Command, answer: PolicyAnswer, now: int)
    requires !(Healthy(cfg, t, c.tenantId, c.deviceId, now) && c.name in Needs &&
               Needs[c.name] in t.devices[c.deviceId].capabilities && !Consents(cfg, ActionFor(c.name), answer))
    ensures SameRest(t, ProcessCommand(cfg, t, c, answer, now).tables)
  {
    RulesAsListed(cfg, c.name, answer);
    RefusalAsListed(cfg, t, c, now);
  }

  /** Nothing but the commands changes unless VEIL refuses: then the device is quarantined and one
      more violation is counted against it. */
  lemma RefusalByVeilQuarantines(cfg: Config, t: Tables, request: Command, answer: PolicyAnswer, now: int)
    ensures var after, device := CreateCommand(cfg, t, request, answer, now).tables, request.deviceId;
            if RefusedByVeil(cfg, t, request, answer, now) then
              after == t.(commands := after.commands,
                          devices := t.devices[device := t.devices[device].(
                            lifecycle := Quarantined, quarantineReason := FailedVeilTrustCheck)],
                          violations := t.violations[device :=
                            (if device in t.violations then t.violations[device] else 0) + 1])
            else SameRest(t, after)
  {
    var c := Prepared(t, request, now).(state := Queued);
    if RefusedByVeil(cfg, t, request, answer, now) {
      ProcessDenies(cfg, t, c, answer, now);
      DenialQuarantines(t, c.(requiredCapability := Some(Needs[c.name]), state := PolicyChecking,
                              highRisk := c.name in NeedApproval));
    } else if c.commandId !in t.commands {
      ProcessSpares(cfg, t, c, answer, now);
    }
  }

  /** What the log says of a command that was refused. */
  lemma RefusalIsLogged(cfg: Config, t: Tables, request: Command, answer: PolicyAnswer, now: int)
    requires CreateReply(cfg, t, request, answer, now).state == Failed
    ensures var reply, entries := CreateReply(cfg, t, request, answer, now), CreateCommand(cfg, t, request, answer, now).entries;
            var id, tenant, device := IdOf(t, request), request.tenantId, request.deviceId;
            entries ==
            if id in t.commands then [Entry(tenant, device, CommandDenied(id, DuplicateCommandId))]
            else if RefusedByVeil(cfg, t, request, answer, now) then
              [Entry(tenant, device, CommandQueued(id, request.name))] +
              ([Entry(tenant, t.devices[device].deviceId, DeviceQuarantined(FailedVeilTrustCheck))] +
               [Entry(tenant, device, CommandDenied(id, PolicyDenied))])
            else
              [Entry(tenant, device, CommandQueued(id, request.name))] +
              [Entry(tenant, device, CommandFailedReason(id, reply.failureReason))]
  {
    RulesAsListed(cfg, request.name, answer);
    RefusalAsListed(cfg, t, Prepared(t, request, now).(state := Queued), now);
  }

  // ---- Over all runs

  /** A command that went out, by the lists. */
  predicate Entitled(devices: map<string, Device>, c: Command) {
    Commands.Sent(c.state) ==>
      && c.name in Needs && c.requiredCapability == Some(Needs[c.name])
      && c.deviceId in devices && devices[c.deviceId].tenantId == c.tenantId
      && Needs[c.name] in devices[c.deviceId].capabilities
      && (c.name in NeedApproval ==> c.highRisk && c.approvalId != "" && c.approvedBy != "")
      && c.dispatchedAt < c.expiresAt
      && (c.state != Dispatched ==> c.acknowledgedAt <= c.expiresAt)
  }

  /** In every reachable state every command that went out had the capability its name needs, and the
      approval if its name is among those that need one. */
  lemma EverySentCommandIsEntitled(sha: Sha, cfg: Config, calls: seq<Call>, id: string)
    requires id in Run(sha, cfg, EmptyFleet, calls).tables.commands
    ensures var t := Run(sha, cfg, EmptyFleet, calls).tables; Entitled(t.devices, t.commands[id])
  {
    Commands.EverySentCommandIsSound(sha, cfg, calls);
    var t := Run(sha, cfg, EmptyFleet, calls).tables;
    assert Commands.Sound(t.devices, t.commands[id]);
    RulesAsListed(cfg, t.commands[id].name, PolicyAnswer(true, false));
  }

  /** A command is out after a call and was not before only if the call created it, at a time at which
      its device was healthy and VEIL consented. */
  lemma OnlyCreationSends(cfg: Config, t: Tables, op: Op, now: int, id: string)
    requires var after := EffectOf(cfg, t, op, now).tables.commands;
             id in after && Commands.Sent(after[id].state) && !(id in t.commands && Commands.Sent(t.commands[id].state))
    ensures op.OpCreate? && id == IdOf(t, op.command) && MayGo(cfg, t, op.command, op.answer, now)
  {
    match op
    case OpCreate(c, answer) =>
      CreationStoresReply(cfg, t, c, answer, now);
      RefusedForFirstReason(cfg, t, c, answer, now);
      DispatchedExactly(cfg, t, c, answer, now);
    case OpCancel(tenant, cid) => Commands.CancellationSendsNothing(t, tenant, cid);
    case OpAcknowledge(tenant, cid) => Commands.AcknowledgementSendsNothing(t, tenant, cid, now);
    case OpComplete(tenant, cid, success, result) => Commands.CompletionSendsNothing(t, tenant, cid, success, result, now);
    case OpExpire(ids) => Commands.ExpireAllSendsNothing(t, ids, now);
    case _ => Commands.OthersKeepCommands(cfg, t, op, now);
  }

  // ---- Cancelling, acknowledging, completing, expiring

  /** A command can be cancelled by its tenant until it is acknowledged. */
  lemma CancelledExactly(t: Tables, tenantId: string, id: string)
    ensures var r := CancelCommand(t, tenantId, id);
            if id !in t.commands || t.commands[id].tenantId != tenantId then r == Effect(t, [], Some(NotFound))
            else if t.commands[id].state in {Queued, PolicyChecking, Approved, Dispatched} then
              r == Effect(t.(commands := t.commands[id := t.commands[id].(state := Cancelled)]),
                          [Entry(tenantId, t.commands[id].deviceId, CommandCancelled(id))], None)
            else r == Effect(t, [], Some(CommandNotCancellable))
  {
  }

  /** A dispatched command is acknowledged up to its expiry, and expired by a later acknowledgement. */
  lemma AcknowledgedExactly(t: Tables, tenantId: string, id: string, now: int)
    ensures var r := AcknowledgeCommand(t, tenantId, id, now);
            if id !in t.commands || t.commands[id].tenantId != tenantId then r == Effect(t, [], Some(NotFound))
            else if t.commands[id].state != Dispatched then r == Effect(t, [], Some(InvalidCommandTransition))
            else
              var c := t.commands[id];
              if now <= c.expiresAt then
                r == Effect(t.(commands := t.commands[id := c.(state := Acknowledged, acknowledgedAt := now)]),
                            [Entry(tenantId, c.deviceId, CommandAcknowledged(id))], None)
              else
                r == Effect(t.(commands := t.commands[id := c.(state := Expired, failureReason := ExpiredReason)]),
                            [Entry(tenantId, c.deviceId, CommandFailedReason(id, ExpiredReason))], Some(CommandExpired))
  {
  }

  /** Only an acknowledged command of the tenant can be completed. */
  predicate CanComplete(t: Tables, tenantId: string, id: string) {
    id in t.commands && t.commands[id].tenantId == tenantId && t.commands[id].state == Acknowledged
  }

  lemma CompletionRefused(t: Tables, tenantId: string, id: string, success: bool, result: string, now: int)
    requires !CanComplete(t, tenantId, id)
    ensures CompleteCommand(t, tenantId, id, success, result, now) ==
            Effect(t, [], Some(if id !in t.commands || t.commands[id].tenantId != tenantId then NotFound
                               else InvalidCommandTransition))
  {
  }

  /** Then its result, time and state are stored. */
  lemma CompletionStored(t: Tables, tenantId: string, id: string, success: bool, result: string, now: int)
    requires CanComplete(t, tenantId, id)
    ensures var r, c := CompleteCommand(t, tenantId, id, success, result, now), t.commands[id];
            && r.error == None
            && r.tables == t.(devices := r.tables.devices, commands := t.commands[id :=
                 if success then c.(state := Completed, completedAt := now, result := result)
                 else c.(state := Failed, completedAt := now, result := result,
                         failureReason := if result == "" then DeviceReportedFailure else Reported(result))])
  {
  }

  lemma CompletionLogged(t: Tables, tenantId: string, id: string, success: bool, result: string, now: int)
    requires CanComplete(t, tenantId, id)
    ensures var r, device := CompleteCommand(t, tenantId, id, success, result, now), t.commands[id].deviceId;
            && (success ==> r.tables.devices == t.devices && r.entries == [Entry(tenantId, device, CommandCompleted(id, result))])
            && (!success ==> r.entries != [] && r.entries[0] == Entry(tenantId, device, CommandFailedResult(id, result)))
  {
    var done := [Entry(tenantId, t.commands[id].deviceId, CommandCompleted(id, result))];
    assert done + [] == done;
  }

  /** The failed commands of a device once the command is among them. */
  function FailuresWith(t: Tables, id: string): set<string>
    requires id in t.commands
  {
    set k | k in t.commands && t.commands[k].deviceId == t.commands[id].deviceId && (k == id || t.commands[k].state == Failed)
  }

  predicate SuspiciousAt(result: string, i: nat) {
    i + 10 <= |result| && result[i..i + 10] == "suspicious"
  }

  predicate SaysSuspicious(result: string) {
    exists i :: 0 <= i <= |result| && SuspiciousAt(result, i)
  }

  lemma SuspiciousAsSaid(result: string)
    ensures Suspicious(result) <==> SaysSuspicious(result)
  {
    if Suspicious(result) {
      var i :| 0 <= i <= |result| && OccursAt(result, "suspicious", i);
      assert SuspiciousAt(result, i);
    }
    if SaysSuspicious(result) {
      var i :| 0 <= i <= |result| && SuspiciousAt(result, i);
      assert OccursAt(result, "suspicious", i);
    }
  }

  lemma FailuresCounted(t: Tables, id: string, c: Command)
    requires id in t.commands && c.deviceId == t.commands[id].deviceId && c.state == Failed
    ensures FailedOn(t.commands[id := c], c.deviceId) == FailuresWith(t, id)
  {
  }

  /** A failure quarantines its device exactly when the result says so or it is the device's third. */
  lemma FailureQuarantinesExactly(t: Tables, tenantId: string, id: string, result: string, now: int)
    requires CanComplete(t, tenantId, id) && t.commands[id].deviceId in t.devices
    ensures var device := t.commands[id].deviceId;
            var d, third := t.devices[device], |FailuresWith(t, id)| >= 3;
            CompleteCommand(t, tenantId, id, false, result, now).tables.devices ==
            if d.retired || !(third || SaysSuspicious(result)) then t.devices
            else t.devices[device := d.(lifecycle := Quarantined,
                                        quarantineReason := if third then RepeatedCommandFailures else SuspiciousCommandResult)]
  {
    SuspiciousAsSaid(result);
    FailuresCounted(t, id, Finished(t.commands[id], false, result, now));
  }

  /** The log tells of the failure, then of the quarantines it brings, both when both apply. */
  lemma FailureLogged(t: Tables, tenantId: string, id: string, result: string, now: int)
    requires CanComplete(t, tenantId, id) && t.commands[id].deviceId in t.devices
    ensures var device := t.commands[id].deviceId;
            var d, third := t.devices[device], |FailuresWith(t, id)| >= 3;
            CompleteCommand(t, tenantId, id, false, result, now).entries ==
            [Entry(tenantId, device, CommandFailedResult(id, result))] +
            ((if !d.retired && SaysSuspicious(result) then [Entry(d.tenantId, d.deviceId, DeviceQuarantined(SuspiciousCommandResult))] else []) +
             (if !d.retired && third then [Entry(d.tenantId, d.deviceId, DeviceQuarantined(RepeatedCommandFailures))] else []))
  {
    SuspiciousAsSaid(result);
    FailuresCounted(t, id, Finished(t.commands[id], false, result, now));
  }

  /** A sweep over all ids expires exactly the commands that are not acknowledged or over, and whose
      time has passed. */
  lemma {:induction false} SweepExpiresExactly(t: Tables, ids: seq<string>, now: int, id: string)
    requires id in t.commands
    ensures var after := ExpireAll(t, ids, now).tables.commands;
            var c := t.commands[id];
            && id in after
            && after[id] == if id in ids && c.state in {Queued, PolicyChecking, Approved, Dispatched} && c.expiresAt < now
                            then c.(state := Expired, failureReason := ExpiredReason) else c
  {
    if ids != [] {
      SweepExpiresExactly(t, ids[..|ids| - 1], now, id);
    }
  }

  // ---- Heartbeats

  /** A time stamp that is neither missing, old nor from the future. */
  predicate Timely(cfg: Config, hb: Heartbeat, now: int) {
    0 < hb.timestamp && now <= hb.timestamp + cfg.heartbeatTimeout && hb.timestamp <= now + 30
  }

  predicate Known(version: string) {
    version !in {"", "unknown"}
  }

  /** What is wrong with a heartbeat of a device in service, first things first. */
  predicate Complaint(cfg: Config, d: Device, hb: Heartbeat, now: int, why: Cause) {
    match why
    case TenantBoundaryViolation => hb.tenantId != d.tenantId
    case StaleHeartbeatCause => hb.tenantId == d.tenantId && !Timely(cfg, hb, now)
    case UnknownCapabilityCause => Checked(cfg, d, hb, now) && d.capabilities == []
    case UnknownFirmwareCause => Checked(cfg, d, hb, now) && d.capabilities != [] && !Known(hb.firmware)
    case UnknownDriverCause =>
      Checked(cfg, d, hb, now) && d.capabilities != [] && Known(hb.firmware) && !Known(hb.driverVersion)
    case InventoryContradictionCause =>
      Checked(cfg, d, hb, now) && d.capabilities != [] && Known(hb.firmware) && Known(hb.driverVersion) && hb.contradiction
    case _ => false
  }

  /** Of the right tenant, timely, and from a device that is not in quarantine. */
  predicate Checked(cfg: Config, d: Device, hb: Heartbeat, now: int) {
    hb.tenantId == d.tenantId && Timely(cfg, hb, now) && d.lifecycle != Quarantined
  }

  /** What a sender is told of it. */
  function ComplaintError(why: Cause): Option<Error> {
    match why
    case TenantBoundaryViolation => Some(TenantMismatch)
    case StaleHeartbeatCause => Some(StaleHeartbeatError)
    case UnknownCapabilityCause => Some(UnknownCapability)
    case UnknownFirmwareCause => Some(UnknownFirmware)
    case UnknownDriverCause => Some(UnknownDriver)
    case InventoryContradictionCause => Some(InventoryContradiction)
    case _ => None
  }

  /** A heartbeat quarantines its device exactly for one of six reasons, and changes nothing else then. */
  lemma ComplaintQuarantines(cfg: Config, t: Tables, hb: Heartbeat, now: int, why: Cause)
    requires hb.deviceId in t.devices && !t.devices[hb.deviceId].retired
    requires Complaint(cfg, t.devices[hb.deviceId], hb, now, why)
    ensures var r, d := ReceiveHeartbeat(cfg, t, hb, now), t.devices[hb.deviceId];
            && r.error == ComplaintError(why)
            && r.tables == t.(devices := t.devices[hb.deviceId := d.(lifecycle := Quarantined, quarantineReason := why)])
            && r.entries == [Entry(d.tenantId, d.deviceId, DeviceQuarantined(why))]
  {
  }

  /** One without a complaint is stored and its device updated. */
  lemma HeartbeatStored(cfg: Config, t: Tables, hb: Heartbeat, now: int)
    requires hb.deviceId in t.devices && !t.devices[hb.deviceId].retired
    requires forall why: Cause :: !Complaint(cfg, t.devices[hb.deviceId], hb, now, why)
    ensures var r, d := ReceiveHeartbeat(cfg, t, hb, now), t.devices[hb.deviceId];
            var heard := d.(connectivity := hb.connectivity, lastHeartbeat := hb.timestamp);
            && (r.error == if d.lifecycle == Quarantined then Some(DeviceIsQuarantined) else None)
            && r.tables == t.(heartbeats := t.heartbeats[hb.deviceId := hb],
                              devices := t.devices[hb.deviceId :=
                                if d.lifecycle == Quarantined then heard
                                else heard.(firmware := hb.firmware, driverVersion := hb.driverVersion)])
            && r.entries == [Entry(d.tenantId, d.deviceId,
                                   if d.lifecycle == Quarantined then HeartbeatWhileQuarantined
                                   else HeartbeatReceived(hb.connectivity, hb.errorCodes))]
  {
    var d := t.devices[hb.deviceId];
    assert !Complaint(cfg, d, hb, now, TenantBoundaryViolation) && !Complaint(cfg, d, hb, now, StaleHeartbeatCause);
    assert !Complaint(cfg, d, hb, now, UnknownCapabilityCause) && !Complaint(cfg, d, hb, now, UnknownFirmwareCause);
    assert !Complaint(cfg, d, hb, now, UnknownDriverCause) && !Complaint(cfg, d, hb, now, InventoryContradictionCause);
  }

  /** A device that is unknown or retired is not touched by a heartbeat. */
  lemma HeartbeatIgnored(cfg: Config, t: Tables, hb: Heartbeat, now: int)
    requires hb.deviceId in t.devices ==> t.devices[hb.deviceId].retired
    ensures ReceiveHeartbeat(cfg, t, hb, now).tables == t && ReceiveHeartbeat(cfg, t, hb, now).entries == []
    ensures ReceiveHeartbeat(cfg, t, hb, now).error ==
            Some(if hb.deviceId !in t.devices then UnknownDevice
                 else if t.devices[hb.deviceId].tenantId != hb.tenantId then TenantMismatch else DeviceIsRetired)
  {
  }

  // ---- Devices

  /** A device is enrolled exactly when it is fully assigned, starts provisioned or active, is new, the
      edge registry takes it, and its capabilities are known from it or from the registry. */
  lemma EnrolledExactly(t: Tables, d: Device, edge: EdgeReply)
    ensures var r := Enroll(t, d, edge);
            var fromEdge := edge.EdgeRegistered? && edge.listed.Some? && d.capabilities == [];
            var capabilities := if fromEdge then edge.listed.value.capabilities else d.capabilities;
            var a := d.assignment;
            if "" !in {d.deviceId, d.tenantId, a.locationId, a.branchId, a.fleetId} && d.lifecycle in {Provisioned, Active} &&
               d.deviceId !in t.devices && !edge.EdgeRejected? && capabilities != [] then
              r == Effect(t.(devices := t.devices[d.deviceId := d.(
                               connectivity := Offline, capabilities := capabilities,
                               driverId := if fromEdge then edge.listed.value.driverId else d.driverId)]),
                          [Entry(d.tenantId, d.deviceId, DeviceEnrolled(a.locationId, a.fleetId, d.lifecycle))], None)
            else
              r == Effect(t, [], Some(
                if "" in {d.deviceId, d.tenantId, a.locationId, a.branchId, a.fleetId} then MissingRequiredAssignment
                else if d.lifecycle !in {Provisioned, Active} then InvalidInitialLifecycle
                else if d.deviceId in t.devices then DeviceAlreadyEnrolled
                else if edge.EdgeRejected? then EdgeRegistrationFailed
                else UnknownCapability))
  {
  }

  /** A PATCH succeeds exactly on a device of the tenant that is not retired, for a lifecycle that stays,
      is retired or quarantined, or is one of the moves, and for a location that is not blank. */
  lemma PatchedExactly(t: Tables, tenantId: string, id: string, patch: Patch)
    ensures var r := UpdateDevice(t, tenantId, id, patch);
            if id in t.devices && t.devices[id].tenantId == tenantId && !t.devices[id].retired &&
               PatchAllowed(t.devices[id].lifecycle, patch.lifecycle) && patch.locationId != Some("") then
              var d := t.devices[id];
              var after := if patch.lifecycle.Some? then patch.lifecycle.value else d.lifecycle;
              && r.error == None && r.tables == t.(devices := t.devices[id := WithPatch(d, patch)])
              && r.entries == (if after == d.lifecycle then [] else [Entry(tenantId, id, LifecycleChanged(d.lifecycle, after))])
            else
              r == Effect(t, [], Some(
                if id !in t.devices || t.devices[id].tenantId != tenantId then NotFound
                else if t.devices[id].retired then DeviceIsRetired
                else if !PatchAllowed(t.devices[id].lifecycle, patch.lifecycle) then InvalidLifecycleTransition
                else LocationRequired))
  {
  }

  predicate PatchAllowed(before: Lifecycle, wanted: Option<Lifecycle>) {
    wanted.None? || wanted.value == before ||
    (before != Retired && (wanted.value in {Retired, Quarantined} || (before, wanted.value) in Moves))
  }

  /** The device with each field of the patch that is given. */
  function WithPatch(d: Device, patch: Patch): Device {
    var a := d.assignment;
    var a1 := if patch.branchId.Some? then a.(branchId := patch.branchId.value) else a;
    var a2 := if patch.locationId.Some? then a1.(locationId := patch.locationId.value) else a1;
    var a3 := if patch.fleetId.Some? then a2.(fleetId := patch.fleetId.value) else a2;
    var a4 := if patch.groupId.Some? then a3.(groupId := patch.groupId.value) else a3;
    var a5 := if patch.labels.Some? then a4.(labels := patch.labels.value) else a4;
    d.(assignment := a5, lifecycle := if patch.lifecycle.Some? then patch.lifecycle.value else d.lifecycle)
  }

  /** Retiring sets the flag, once, on a device of the tenant. */
  lemma RetiredExactly(t: Tables, tenantId: string, id: string)
    ensures var r := RetireDevice(t, tenantId, id);
            if id in t.devices && t.devices[id].tenantId == tenantId && !t.devices[id].retired then
              var d := t.devices[id];
              r == Effect(t.(devices := t.devices[id := d.(lifecycle := Retired, retired := true, connectivity := Offline)]),
                          [Entry(tenantId, id, DeviceRetired(d.lifecycle))], None)
            else
              r == Effect(t, [], Some(
                if id in t.devices && t.devices[id].tenantId == tenantId then DeviceAlreadyRetired else NotFound))
  {
  }

  /** An operator's quarantine takes any device of the tenant that is not retired. */
  lemma QuarantinedExactly(t: Tables, tenantId: string, id: string, why: string)
    ensures var r := Quarantine(t, tenantId, id, why);
            if id in t.devices && t.devices[id].tenantId == tenantId && !t.devices[id].retired then
              var d := t.devices[id];
              var cause := if why == "" then OperatorQuarantine else OperatorText(why);
              r == Effect(t.(devices := t.devices[id := d.(lifecycle := Quarantined, quarantineReason := cause)]),
                          [Entry(tenantId, d.deviceId, DeviceQuarantined(cause))], None)
            else r == Effect(t, [], Some(NotFoundOrRetired))
  {
  }

  // ---- Risk and recovery

  /** The commands for a device, and those of them that failed or expired. */
  function Of(t: Tables, id: string): set<string> {
    set k | k in t.commands && t.commands[k].deviceId == id
  }

  function BadOf(t: Tables, id: string): set<string> {
    set k | k in t.commands && t.commands[k].deviceId == id && t.commands[k].state in {Failed, Expired}
  }

  lemma CommandsCounted(t: Tables, id: string)
    ensures AllOn(t.commands, id) == Of(t, id) && TroubledOn(t.commands, id) == BadOf(t, id)
  {
  }

  /** The points of a device by the documented weights, without those for being quarantined. */
  function PointsListed(cfg: Config, t: Tables, d: Device, now: int): int {
    var mine, bad := Of(t, d.deviceId), BadOf(t, d.deviceId);
    (if 0 < d.lastHeartbeat <= now <= d.lastHeartbeat + cfg.heartbeatTimeout then 0 else 30) +
    (if |bad| >= 3 then 25 else 0) + (if mine != {} && 2 * |bad| >= |mine| then 15 else 0) +
    (if d.deviceId in t.heartbeats then
       var hb := t.heartbeats[d.deviceId];
       (if hb.drift > 0.10 then 20 else 0) + (if hb.unusualCashMovement then 25 else 0) +
       (if hb.missingTrustEvidence then 20 else 0) + (if hb.driverStability < 0.75 then 20 else 0)
     else 0) +
    (if d.deviceId in t.violations then Max(0, Min(30, 10 * t.violations[d.deviceId])) else 0)
  }

  lemma PointsAsListed(cfg: Config, t: Tables, d: Device, now: int)
    ensures UnresolvedPoints(cfg, t, d, now) == PointsListed(cfg, t, d, now)
  {
    CommandsCounted(t, d.deviceId);
    assert |Of(t, d.deviceId)| > 0 <==> Of(t, d.deviceId) != {};
  }

  /** The score is the sum of the points, twenty more in quarantine, and at most a hundred; every
      twenty-five make a level. */
  lemma ScoredExactly(cfg: Config, t: Tables, d: Device, now: int)
    ensures var a := Assess(cfg, t, d, now);
            && a.score == Min(100, PointsListed(cfg, t, d, now) + if d.lifecycle == Quarantined then 20 else 0)
            && (a.level == Critical <==> a.score >= 75) && (a.level == High <==> 50 <= a.score < 75)
            && (a.level == Medium <==> 25 <= a.score < 50)
            && a.tenantId == d.tenantId && a.scopeId == d.deviceId && a.evaluatedAt == now
  {
    PointsAsListed(cfg, t, d, now);
  }

  /** The factors of an assessment are named for what they count, each with its points. */
  predicate Blamed(cfg: Config, t: Tables, d: Device, now: int, f: Factor) {
    var bad, all := |BadOf(t, d.deviceId)|, |Of(t, d.deviceId)|;
    match f.name
    case StaleFactor => f.points == 30 && !(0 < d.lastHeartbeat <= now <= d.lastHeartbeat + cfg.heartbeatTimeout)
    case RepeatedFailures => f.points == 25 && bad >= 3
    case FailureRate => f.points == 15 && all > 0 && 2 * bad >= all
    case InventoryDrift => f.points == 20 && d.deviceId in t.heartbeats && t.heartbeats[d.deviceId].drift > 0.10
    case UnusualCash => f.points == 25 && d.deviceId in t.heartbeats && t.heartbeats[d.deviceId].unusualCashMovement
    case MissingEvidence => f.points == 20 && d.deviceId in t.heartbeats && t.heartbeats[d.deviceId].missingTrustEvidence
    case UnstableDriver => f.points == 20 && d.deviceId in t.heartbeats && t.heartbeats[d.deviceId].driverStability < 0.75
    case PolicyViolations =>
      d.deviceId in t.violations && 0 < t.violations[d.deviceId] && f.points == Min(30, 10 * t.violations[d.deviceId])
    case QuarantinedFactor => f.points == 20 && d.lifecycle == Quarantined
    case _ => false
  }

  lemma FactorsAsListed(cfg: Config, t: Tables, d: Device, now: int, f: Factor)
    ensures f in FactorsOf(cfg, t, d, now) <==> Blamed(cfg, t, d, now, f)
  {
    CommandFactorsAsListed(t, d.deviceId, f);
    HeartbeatFactorsAsListed(t, d.deviceId, f);
    assert f in FactorsOf(cfg, t, d, now) <==>
           f in FactorIf(!Fresh(cfg, d, now), StaleFactor, 30) || f in CommandFactors(t, d.deviceId) ||
           f in HeartbeatFactors(t, d.deviceId) || f in ViolationFactors(t, d.deviceId) ||
           f in FactorIf(d.lifecycle.Quarantined?, QuarantinedFactor, 20);
  }

  lemma HeartbeatFactorsAsListed(t: Tables, id: string, f: Factor)
    ensures f in HeartbeatFactors(t, id) <==>
            id in t.heartbeats &&
            var hb := t.heartbeats[id];
            || (f == Factor(InventoryDrift, 20) && hb.drift > 0.10)
            || (f == Factor(UnusualCash, 25) && hb.unusualCashMovement)
            || (f == Factor(MissingEvidence, 20) && hb.missingTrustEvidence)
            || (f == Factor(UnstableDriver, 20) && hb.driverStability < 0.75)
  {
  }

  lemma CommandFactorsAsListed(t: Tables, id: string, f: Factor)
    ensures var bad, all := |BadOf(t, id)|, |Of(t, id)|;
            f in CommandFactors(t, id) <==>
            (f == Factor(RepeatedFailures, 25) && bad >= 3) || (f == Factor(FailureRate, 15) && all > 0 && 2 * bad >= all)
  {
    CommandsCounted(t, id);
  }

  /** A device that the tenant does not have is answered with the highest score. */
  lemma UnknownIsCritical(cfg: Config, t: Tables, tenantId: string, id: string, now: int)
    ensures var a := DeviceAssessment(cfg, t, tenantId, id, now);
            if id in t.devices && t.devices[id].tenantId == tenantId then
              a.score == ScoreListed(cfg, t, t.devices[id], now) && a.scopeId == t.devices[id].deviceId
            else a == Assessment(tenantId, DeviceScope, id, 100, Critical, [Factor(UnknownDeviceFactor, 100)], now)
  {
    if id in t.devices {
      ScoredExactly(cfg, t, t.devices[id], now);
    }
  }

  /** A change of a scope's level, and only that, is logged with both levels. */
  lemma LevelChangeLogged(t: Tables, tenantId: string, scope: Scope, scopeId: string, score: int)
    ensures var r, level := RecordRisk(t, tenantId, scope, scopeId, score), LevelOf(score);
            var key := tenantId + (if scope == DeviceScope then ":device:" else ":location:") + scopeId;
            if key in t.riskLevels && t.riskLevels[key] == level then r == Effect(t, [], None)
            else
              r == Effect(t.(riskLevels := t.riskLevels[key := level]),
                          [Entry(tenantId, if scope == DeviceScope then scopeId else "",
                                 RiskChanged(scope, scopeId, if key in t.riskLevels then Some(t.riskLevels[key]) else None,
                                             level, score))], None)
  {
  }

  /** The documented score of a device. */
  function ScoreListed(cfg: Config, t: Tables, d: Device, now: int): int {
    Min(100, PointsListed(cfg, t, d, now) + if d.lifecycle == Quarantined then 20 else 0)
  }

  /** The scores of the tenant's devices there, one by one. */
  function ScoresThere(cfg: Config, t: Tables, tenantId: string, locationId: string, ids: seq<string>, now: int): seq<int> {
    if ids == [] then []
    else if There(t, tenantId, locationId, ids[0]) then
      [ScoreListed(cfg, t, t.devices[ids[0]], now)] + ScoresThere(cfg, t, tenantId, locationId, ids[1..], now)
    else ScoresThere(cfg, t, tenantId, locationId, ids[1..], now)
  }

  function Sum(scores: seq<int>): int {
    if scores == [] then 0 else scores[0] + Sum(scores[1..])
  }

  lemma {:induction false} ScoresThereSnoc(
    cfg: Config, t: Tables, tenantId: string, locationId: string, ids: seq<string>, id: string, now: int)
    ensures ScoresThere(cfg, t, tenantId, locationId, ids + [id], now) ==
            ScoresThere(cfg, t, tenantId, locationId, ids, now) +
            if There(t, tenantId, locationId, id) then [ScoreListed(cfg, t, t.devices[id], now)] else []
  {
    if ids == [] {
      assert [id][1..] == [];
    } else {
      assert (ids + [id])[1..] == ids[1..] + [id];
      ScoresThereSnoc(cfg, t, tenantId, locationId, ids[1..], id, now);
    }
  }

  lemma {:induction false} SumSnoc(scores: seq<int>, score: int)
    ensures Sum(scores + [score]) == Sum(scores) + score
  {
    if scores != [] {
      assert (scores + [score])[1..] == scores[1..] + [score];
      SumSnoc(scores[1..], score);
    }
  }

  lemma {:induction false} TotalsAsListed(
    cfg: Config, t: Tables, tenantId: string, locationId: string, ids: seq<string>, now: int)
    ensures var scores := ScoresThere(cfg, t, tenantId, locationId, ids, now);
            && LocationCount(t, tenantId, locationId, ids) == |scores|
            && LocationTotal(cfg, t, tenantId, locationId, ids, now) == Sum(scores)
  {
    if ids != [] {
      var front, id := ids[..|ids| - 1], ids[|ids| - 1];
      assert ids == front + [id];
      TotalsAsListed(cfg, t, tenantId, locationId, front, now);
      ScoresThereSnoc(cfg, t, tenantId, locationId, front, id, now);
      var scores := ScoresThere(cfg, t, tenantId, locationId, front, now);
      if There(t, tenantId, locationId, id) {
        ScoredExactly(cfg, t, t.devices[id], now);
        SumSnoc(scores, ScoreListed(cfg, t, t.devices[id], now));
      } else {
        assert scores + [] == scores;
      }
    }
  }

  predicate IsMean(mean: int, count: nat, total: int) {
    count * mean <= total < count * mean + count
  }

  /** The score of a location is the mean, rounded down, of the scores of the tenant's devices there, or a
      hundred where there are none. */
  lemma LocationScoreIsMean(
    cfg: Config, t: Tables, tenantId: string, locationId: string, ids: seq<string>, now: int)
    ensures var scores := ScoresThere(cfg, t, tenantId, locationId, ids, now);
            var score := LocationAssessment(cfg, t, tenantId, locationId, ids, now).score;
            if scores == [] then score == 100 else IsMean(score, |scores|, Sum(scores))
  {
    TotalsAsListed(cfg, t, tenantId, locationId, ids, now);
    var count := LocationCount(t, tenantId, locationId, ids);
    if count > 0 {
      QuotientIsMean(LocationTotal(cfg, t, tenantId, locationId, ids, now), count);
    }
  }

  lemma QuotientIsMean(total: int, count: nat)
    requires count > 0
    ensures IsMean(total / count, count, total)
  {
    assert total == count * (total / count) + total % count;
  }

  /** A device of the tenant at the location. */
  predicate There(t: Tables, tenantId: string, locationId: string, id: string) {
    id in t.devices && t.devices[id].tenantId == tenantId && t.devices[id].assignment.locationId == locationId
  }

  ghost predicate BlamedThere(
    cfg: Config, t: Tables, tenantId: string, locationId: string, ids: seq<string>, now: int, f: Factor)
  {
    exists id :: id in ids && There(t, tenantId, locationId, id) && Blamed(cfg, t, t.devices[id], now, f)
  }

  lemma {:induction false} CollectedAsListed(
    cfg: Config, t: Tables, tenantId: string, locationId: string, ids: seq<string>, now: int, f: Factor)
    ensures f in LocationFactors(cfg, t, tenantId, locationId, ids, now) <==>
            BlamedThere(cfg, t, tenantId, locationId, ids, now, f)
  {
    if ids != [] {
      var front, id := ids[..|ids| - 1], ids[|ids| - 1];
      CollectedAsListed(cfg, t, tenantId, locationId, front, now, f);
      assert forall k :: k in ids <==> k in front || k == id;
      if There(t, tenantId, locationId, id) {
        FactorsAsListed(cfg, t, t.devices[id], now, f);
      }
      assert BlamedThere(cfg, t, tenantId, locationId, ids, now, f) <==>
             BlamedThere(cfg, t, tenantId, locationId, front, now, f) ||
             (There(t, tenantId, locationId, id) && Blamed(cfg, t, t.devices[id], now, f));
    }
  }

  /** Its factors are those of the devices there, or that it is unknown. */
  lemma LocationFactorsAsListed(
    cfg: Config, t: Tables, tenantId: string, locationId: string, ids: seq<string>, now: int, f: Factor)
    ensures var a := LocationAssessment(cfg, t, tenantId, locationId, ids, now);
            f in a.factors <==>
            if ScoresThere(cfg, t, tenantId, locationId, ids, now) == [] then f == Factor(UnknownLocationFactor, 100)
            else BlamedThere(cfg, t, tenantId, locationId, ids, now, f)
  {
    TotalsAsListed(cfg, t, tenantId, locationId, ids, now);
    CollectedAsListed(cfg, t, tenantId, locationId, ids, now, f);
  }

  /** All that recovery asks for. */
  predicate MayRecover(cfg: Config, t: Tables, tenantId: string, id: string, answer: PolicyAnswer, now: int) {
    && id in t.devices && id in t.heartbeats
    && var d, hb := t.devices[id], t.heartbeats[id];
    && d.tenantId == tenantId && d.lifecycle == Quarantined && !d.retired && d.capabilities != []
    && 0 < d.lastHeartbeat <= now <= d.lastHeartbeat + cfg.heartbeatTimeout
    && hb.selfTestPassed && hb.connectivity == Online && Known(hb.firmware) && Known(hb.driverVersion) && !hb.contradiction
    && PointsListed(cfg, t, d, now) < 75
    && Consents(cfg, OnDeviceRecovery, answer)
  }

  /** The first thing that stands against a recovery; with nothing else, VEIL. */
  function RecoveryError(cfg: Config, t: Tables, tenantId: string, id: string, now: int): Error {
    if id !in t.devices || t.devices[id].tenantId != tenantId then NotFound
    else
      var d := t.devices[id];
      if d.lifecycle != Quarantined || d.retired then DeviceNotRecoverable
      else if !(0 < d.lastHeartbeat <= now <= d.lastHeartbeat + cfg.heartbeatTimeout) then FreshHeartbeatRequired
      else if id !in t.heartbeats || !t.heartbeats[id].selfTestPassed then SelfTestRequired
      else
        var hb := t.heartbeats[id];
        if hb.connectivity != Online || !Known(hb.firmware) || !Known(hb.driverVersion) || hb.contradiction ||
           d.capabilities == [] then IdentityOrHealthUnresolved
        else if PointsListed(cfg, t, d, now) >= 75 then CriticalRiskUnresolved
        else VeilRecoveryDenied
  }

  /** A device is recovered exactly when it may be: it becomes active and its cause is cleared. */
  lemma RecoveredExactly(cfg: Config, t: Tables, tenantId: string, id: string, answer: PolicyAnswer, now: int)
    ensures var r := Recover(cfg, t, tenantId, id, answer, now);
            if MayRecover(cfg, t, tenantId, id, answer, now) then
              && r.error == None
              && r.tables == t.(devices := t.devices[id := t.devices[id].(lifecycle := Active, quarantineReason := NoCause)])
              && r.entries == [Entry(tenantId, id, DeviceRecovered(t.devices[id].quarantineReason,
                                                                   Min(80, PointsListed(cfg, t, t.devices[id], now))))]
            else r == Effect(t, [], Some(RecoveryError(cfg, t, tenantId, id, now)))
  {
    if id in t.devices {
      Life.ClampDoesNotHideRisk(cfg, t, t.devices[id], now);
      PointsAsListed(cfg, t, t.devices[id], now);
    }
  }
}
