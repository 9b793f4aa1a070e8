/** What every step of the fleet service keeps about remote commands, and what VEIL being
    unavailable rules out. */
module FleetCommands {
  import opened Basics
  import opened FleetTypes
  import opened FleetModel
  import Life = FleetLifecycle

  function Rank(state: CommandState): nat {
    match state
    case Queued => 0
    case PolicyChecking => 1
    case Approved => 2
    case Dispatched => 3
    case Acknowledged => 4
    case _ => 5
  }

  /** One command across any number of steps: either nothing about it changes, or its state
      climbs; so a completed, failed, cancelled or expired command is never changed. */
  predicate CommandMoves(c: Command, c': Command) {
    && c'.commandId == c.commandId && c'.tenantId == c.tenantId && c'.deviceId == c.deviceId && c'.name == c.name
    && (c' == c || Rank(c'.state) > Rank(c.state))
  }

  predicate CommandsMove(m: map<string, Command>, m': map<string, Command>) {
    forall id :: id in m ==> id in m' && CommandMoves(m[id], m'[id])
  }

  predicate Sent(state: CommandState) {
    state.Dispatched? || state.Acknowledged? || state.Completed?
  }

  /** A command that went out was entitled to. */
  predicate Sound(devices: map<string, Device>, c: Command) {
    && (Sent(c.state) ==>
        && c.requiredCapability.Some? && c.requiredCapability == CapabilityFor(c.name)
        && c.deviceId in devices && devices[c.deviceId].tenantId == c.tenantId
        && c.requiredCapability.value in devices[c.deviceId].capabilities
        && c.highRisk == HighRisk(c.name)
        && (HighRisk(c.name) ==> c.approvalId != "" && c.approvedBy != "")
        && c.dispatchedAt < c.expiresAt)
    && (c.state.Acknowledged? || c.state.Completed? ==> c.acknowledgedAt <= c.expiresAt)
  }

  predicate AllSound(t: Tables) {
    forall id :: id in t.commands ==> Sound(t.devices, t.commands[id])
  }

  /** What one operation does to the commands. */
  predicate CommandsKept(t: Tables, t': Tables) {
    CommandsMove(t.commands, t'.commands) && (AllSound(t) ==> AllSound(t'))
  }

  lemma SoundAfterDevicesMove(m: map<string, Device>, m': map<string, Device>, c: Command)
    requires Life.DevicesMove(m, m') && Sound(m, c)
    ensures Sound(m', c)
  {
  }

  lemma KeptSame(t: Tables, t': Tables)
    requires t'.commands == t.commands && Life.DevicesMove(t.devices, t'.devices)
    ensures CommandsKept(t, t')
  {
    if AllSound(t) {
      forall id | id in t'.commands
        ensures Sound(t'.devices, t'.commands[id])
      {
        SoundAfterDevicesMove(t.devices, t'.devices, t.commands[id]);
      }
    }
  }

  lemma KeptSet(t: Tables, t': Tables, id: string, c: Command)
    requires t'.commands == t.commands[id := c] && Life.DevicesMove(t.devices, t'.devices)
    requires id in t.commands ==> CommandMoves(t.commands[id], c)
    requires AllSound(t) ==> Sound(t'.devices, c)
    ensures CommandsKept(t, t')
  {
    if AllSound(t) {
      forall k | k in t'.commands
        ensures Sound(t'.devices, t'.commands[k])
      {
        if k != id {
          SoundAfterDevicesMove(t.devices, t'.devices, t.commands[k]);
        }
      }
    }
  }

  lemma DevicesMoved(cfg: Config, t: Tables, op: Op, now: int)
    ensures Life.DevicesMove(t.devices, EffectOf(cfg, t, op, now).tables.devices)
  {
    Life.EveryOperationSteps(cfg, t, op, now);
    Life.StepMoves(t.devices, EffectOf(cfg, t, op, now).tables.devices, Life.Subject(t, op), op.OpRecover?);
  }

  lemma ProcessStoresFinalCommand(cfg: Config, t: Tables, c: Command, answer: PolicyAnswer, now: int)
    ensures ProcessCommand(cfg, t, c, answer, now).tables.commands
         == t.commands[c.commandId := FinalCommand(cfg, t, c, answer, now)]
  {
  }

  lemma FinalSound(cfg: Config, t: Tables, c: Command, answer: PolicyAnswer, now: int)
    requires c.expiresAt > now
    ensures Sound(t.devices, FinalCommand(cfg, t, c, answer, now))
  {
  }

  lemma FreshCommandKept(cfg: Config, t: Tables, t': Tables, c: Command, answer: PolicyAnswer, now: int)
    requires c.commandId !in t.commands && c.expiresAt > now
    requires t'.commands == t.commands[c.commandId := FinalCommand(cfg, t, c, answer, now)]
    requires Life.DevicesMove(t.devices, t'.devices)
    ensures CommandsKept(t, t')
  {
    var c' := FinalCommand(cfg, t, c, answer, now);
    FinalSound(cfg, t, c, answer, now);
    SoundAfterDevicesMove(t.devices, t'.devices, c');
    KeptSet(t, t', c.commandId, c');
  }

  lemma EnterKeeps(cfg: Config, t: Tables, c: Command, answer: PolicyAnswer, now: int)
    requires c.expiresAt > now
    ensures CommandsKept(t, EnterCommand(cfg, t, c, answer, now).tables)
  {
    var t' := EnterCommand(cfg, t, c, answer, now).tables;
    Life.EnterSteps(cfg, t, c, answer, now);
    Life.StepMoves(t.devices, t'.devices, c.deviceId, false);
    if c.commandId in t.commands {
      KeptSame(t, t');
    } else {
      ProcessStoresFinalCommand(cfg, t, c.(state := Queued), answer, now);
      FreshCommandKept(cfg, t, t', c.(state := Queued), answer, now);
    }
  }

  lemma ExpireKeeps(t: Tables, id: string)
    requires id in t.commands && Outstanding(t.commands[id].state)
    ensures CommandsKept(t, ExpireCommand(t, id).tables)
  {
    KeptSet(t, ExpireCommand(t, id).tables, id, t.commands[id].(state := Expired, failureReason := ExpiredReason));
  }

  lemma KeptTransitive(a: Tables, b: Tables, c: Tables)
    requires CommandsKept(a, b) && CommandsKept(b, c)
    ensures CommandsKept(a, c)
  {
    assert CommandsMove(a.commands, c.commands);
  }

  lemma {:induction false} ExpireAllKeeps(t: Tables, ids: seq<string>, now: int)
    ensures CommandsKept(t, ExpireAll(t, ids, now).tables)
  {
    if ids == [] {
      KeptSame(t, t);
    } else {
      var mid := ExpireAll(t, ids[..|ids| - 1], now).tables;
      var id := ids[|ids| - 1];
      ExpireAllKeeps(t, ids[..|ids| - 1], now);
      if Overdue(mid, id, now) {
        ExpireKeeps(mid, id);
        KeptTransitive(t, mid, ExpireCommand(mid, id).tables);
      }
    }
  }

  lemma CancelKeeps(t: Tables, tenantId: string, id: string)
    ensures CommandsKept(t, CancelCommand(t, tenantId, id).tables)
  {
    if CancelCommand(t, tenantId, id).error.Some? {
      KeptSame(t, t);
    } else {
      KeptSet(t, CancelCommand(t, tenantId, id).tables, id, t.commands[id].(state := Cancelled));
    }
  }

  lemma AcknowledgeKeeps(t: Tables, tenantId: string, id: string, now: int)
    ensures CommandsKept(t, AcknowledgeCommand(t, tenantId, id, now).tables)
  {
    KeptSame(t, t);
    if Owned(t, tenantId, id) && t.commands[id].state.Dispatched? {
      if now > t.commands[id].expiresAt {
        ExpireKeeps(t, id);
      } else {
        var c := t.commands[id].(state := Acknowledged, acknowledgedAt := now);
        KeptSet(t, SetCommand(t, id, c), id, c);
      }
    }
  }

  predicate Completes(t: Tables, tenantId: string, id: string) {
    Owned(t, tenantId, id) && t.commands[id].state.Acknowledged?
  }

  lemma CompletionStores(t: Tables, tenantId: string, id: string, success: bool, result: string, now: int)
    ensures CompleteCommand(t, tenantId, id, success, result, now).tables.commands
         == if Completes(t, tenantId, id) then t.commands[id := Finished(t.commands[id], success, result, now)]
            else t.commands
  {
  }

  lemma CompleteKeeps(t: Tables, tenantId: string, id: string, success: bool, result: string, now: int)
    ensures CommandsKept(t, CompleteCommand(t, tenantId, id, success, result, now).tables)
  {
    var t' := CompleteCommand(t, tenantId, id, success, result, now).tables;
    CompletionStores(t, tenantId, id, success, result, now);
    if id in t.commands {
      Life.CompleteSteps(t, tenantId, id, success, result, now);
      Life.StepMoves(t.devices, t'.devices, t.commands[id].deviceId, false);
    } else {
      Life.StepMoves(t.devices, t'.devices, "", false);
    }
    if Completes(t, tenantId, id) {
      if AllSound(t) {
        SoundAfterDevicesMove(t.devices, t'.devices, t.commands[id]);
      }
      KeptSet(t, t', id, Finished(t.commands[id], success, result, now));
    } else {
      KeptSame(t, t');
    }
  }

  lemma {:induction false} FleetRiskKeepsCommands(cfg: Config, t: Tables, tenantId: string, ids: seq<string>, now: int)
    ensures FleetRisk(cfg, t, tenantId, ids, now).tables.commands == t.commands
  {
    if ids != [] {
      FleetRiskKeepsCommands(cfg, t, tenantId, ids[..|ids| - 1], now);
    }
  }

  lemma OthersKeepCommands(cfg: Config, t: Tables, op: Op, now: int)
    requires !op.OpCreate? && !op.OpCancel? && !op.OpAcknowledge? && !op.OpComplete? && !op.OpExpire?
    ensures EffectOf(cfg, t, op, now).tables.commands == t.commands
  {
    match op
    case OpFleetRisk(tenant, ids) => FleetRiskKeepsCommands(cfg, t, tenant, ids, now);
    case _ =>
  }

  lemma EveryOperationKeepsCommands(cfg: Config, t: Tables, op: Op, now: int)
    ensures CommandsKept(t, EffectOf(cfg, t, op, now).tables)
  {
    match op
    case OpCreate(c, answer) => EnterKeeps(cfg, t, Prepared(t, c, now), answer, now);
    case OpCancel(tenant, id) => CancelKeeps(t, tenant, id);
    case OpAcknowledge(tenant, id) => AcknowledgeKeeps(t, tenant, id, now);
    case OpComplete(tenant, id, success, result) => CompleteKeeps(t, tenant, id, success, result, now);
    case OpExpire(ids) => ExpireAllKeeps(t, ids, now);
    case _ =>
      DevicesMoved(cfg, t, op, now);
      OthersKeepCommands(cfg, t, op, now);
      KeptSame(t, EffectOf(cfg, t, op, now).tables);
  }

  /** Over any run no command disappears, states only climb, and commands in a terminal state
      never change; in a run from the empty service every command that went out was entitled to. */
  lemma {:induction false} RunsKeepCommands(sha: Sha, cfg: Config, s: Fleet, calls: seq<Call>)
    ensures CommandsMove(s.tables.commands, Run(sha, cfg, s, calls).tables.commands)
    ensures AllSound(s.tables) ==> AllSound(Run(sha, cfg, s, calls).tables)
  {
    if calls != [] {
      var last := calls[|calls| - 1];
      var mid := Run(sha, cfg, s, calls[..|calls| - 1]).tables;
      RunsKeepCommands(sha, cfg, s, calls[..|calls| - 1]);
      EveryOperationKeepsCommands(cfg, mid, last.op, last.now);
      KeptTransitive(s.tables, mid, EffectOf(cfg, mid, last.op, last.now).tables);
    }
  }

  lemma EverySentCommandIsSound(sha: Sha, cfg: Config, calls: seq<Call>)
    ensures AllSound(Run(sha, cfg, EmptyFleet, calls).tables)
  {
    RunsKeepCommands(sha, cfg, EmptyFleet, calls);
  }

  // ---- VEIL unavailable

  /** The high-risk actions of the trust service cover all that the fleet service asks about. */
  ghost predicate CoversFleet(policy: PolicyConfig) {
    && OnDeviceRecovery in policy.highRiskActions
    && forall name :: PolicyAction(name) in policy.highRiskActions
  }

  /** The built-in list of the trust service. */
  const DEFAULT_HIGH_RISK: set<Action> := {
    OnCommand(DisableDevice), OnCommand(EnableDevice), OnCommand(PauseTransactions), OnCommand(ResumeTransactions),
    OtherAction("ota_promotion"), OtherAction("ota_install_eligibility"), OtherAction("certificate_revocation"),
    OtherAction("reconciliation_override"), OtherAction("manual_adjustment"), OnCommandExecution,
    OnCommand(Lock), OnCommand(Unlock), OnCommand(CommandName.Open), OnCommand(DispenseCash), OnCommand(AcceptCash),
    OnCommand(RotateKeys), OnCommand(ExportEvidence), OnCommand(EnterMaintenance), OnDeviceRecovery}

  lemma DefaultListCoversFleet(policy: PolicyConfig)
    requires policy.highRiskActions == DEFAULT_HIGH_RISK
    ensures CoversFleet(policy)
  {
  }

  ghost predicate FailsClosed(cfg: Config) {
    cfg.trust.None? ||
    (cfg.trust.value.productionMode && cfg.trust.value.failClosed && CoversFleet(cfg.trust.value))
  }

  predicate VeilDown(op: Op) {
    && (op.OpCreate? ==> op.answer.unavailable)
    && (op.OpRecover? ==> op.answer.unavailable)
  }

  /** Every command that is out in m' was out in m already. */
  predicate NothingNewSent(m: map<string, Command>, m': map<string, Command>) {
    forall id :: id in m' && Sent(m'[id].state) ==> id in m && Sent(m[id].state)
  }

  lemma DownEnterSendsNothing(cfg: Config, t: Tables, c: Command, answer: PolicyAnswer, now: int)
    requires FailsClosed(cfg) && answer.unavailable
    ensures NothingNewSent(t.commands, EnterCommand(cfg, t, c, answer, now).tables.commands)
  {
    if c.commandId !in t.commands {
      var q := c.(state := Queued);
      ProcessStoresFinalCommand(cfg, t, q, answer, now);
      assert !TrustAllows(cfg, PolicyAction(c.name), answer);
      assert !Sent(FinalCommand(cfg, t, q, answer, now).state);
    }
  }

  lemma CancellationSendsNothing(t: Tables, tenantId: string, id: string)
    ensures NothingNewSent(t.commands, CancelCommand(t, tenantId, id).tables.commands)
  {
  }

  lemma AcknowledgementSendsNothing(t: Tables, tenantId: string, id: string, now: int)
    ensures NothingNewSent(t.commands, AcknowledgeCommand(t, tenantId, id, now).tables.commands)
  {
  }

  lemma CompletionSendsNothing(t: Tables, tenantId: string, id: string, success: bool, result: string, now: int)
    ensures NothingNewSent(t.commands, CompleteCommand(t, tenantId, id, success, result, now).tables.commands)
  {
    CompletionStores(t, tenantId, id, success, result, now);
  }

  lemma {:induction false} ExpireAllSendsNothing(t: Tables, ids: seq<string>, now: int)
    ensures NothingNewSent(t.commands, ExpireAll(t, ids, now).tables.commands)
  {
    if ids != [] {
      ExpireAllSendsNothing(t, ids[..|ids| - 1], now);
    }
  }

  lemma DownStepSendsNothing(cfg: Config, t: Tables, op: Op, now: int)
    requires FailsClosed(cfg) && VeilDown(op)
    ensures NothingNewSent(t.commands, EffectOf(cfg, t, op, now).tables.commands)
  {
    match op
    case OpCreate(c, answer) => DownEnterSendsNothing(cfg, t, Prepared(t, c, now), answer, now);
    case OpCancel(tenant, id) => CancellationSendsNothing(t, tenant, id);
    case OpAcknowledge(tenant, id) => AcknowledgementSendsNothing(t, tenant, id, now);
    case OpComplete(tenant, id, success, result) => CompletionSendsNothing(t, tenant, id, success, result, now);
    case OpExpire(ids) => ExpireAllSendsNothing(t, ids, now);
    case _ => OthersKeepCommands(cfg, t, op, now);
  }

  lemma DownStepConfines(cfg: Config, t: Tables, op: Op, now: int, id: string)
    requires FailsClosed(cfg) && VeilDown(op)
    requires id in t.devices && Life.Confined(t.devices[id].lifecycle)
    ensures var after := EffectOf(cfg, t, op, now).tables.devices;
            id in after && Life.Confined(after[id].lifecycle)
  {
    Life.EveryOperationSteps(cfg, t, op, now);
    if op.OpRecover? {
      assert !TrustAllows(cfg, OnDeviceRecovery, op.answer);
    }
  }

  /** While VEIL is unavailable in production fail-closed mode, or no trust service is
      attached, no command is dispatched and no device leaves quarantine, whatever is called. */
  lemma {:induction false} VeilDownStopsEverything(sha: Sha, cfg: Config, s: Fleet, calls: seq<Call>)
    requires FailsClosed(cfg)
    requires forall i :: 0 <= i < |calls| ==> VeilDown(calls[i].op)
    ensures NothingNewSent(s.tables.commands, Run(sha, cfg, s, calls).tables.commands)
    ensures forall id :: id in s.tables.devices && Life.Confined(s.tables.devices[id].lifecycle) ==>
              var after := Run(sha, cfg, s, calls).tables.devices;
              id in after && Life.Confined(after[id].lifecycle)
  {
    if calls != [] {
      var last := calls[|calls| - 1];
      var mid := Run(sha, cfg, s, calls[..|calls| - 1]).tables;
      VeilDownStopsEverything(sha, cfg, s, calls[..|calls| - 1]);
      DownStepSendsNothing(cfg, mid, last.op, last.now);
      forall id | id in s.tables.devices && Life.Confined(s.tables.devices[id].lifecycle)
        ensures var after := Run(sha, cfg, s, calls).tables.devices;
                id in after && Life.Confined(after[id].lifecycle)
      {
        DownStepConfines(cfg, mid, last.op, last.now, id);
      }
    }
  }
}
