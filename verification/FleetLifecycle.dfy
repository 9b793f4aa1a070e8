/** What every step of the fleet service keeps about devices: the lifecycle graph, the
    finality of retirement, and the way out of quarantine. */
module FleetLifecycle {
  import opened Basics
  import opened FleetTypes
  import opened FleetModel

  predicate FiveStates(state: Lifecycle) {
    !state.OtherLifecycle?
  }

  /** One device across any number of steps. */
  predicate DeviceMoves(d: Device, d': Device) {
    && d'.deviceId == d.deviceId && d'.tenantId == d.tenantId
    && d'.capabilities == d.capabilities && d'.profile == d.profile
    && (FiveStates(d.lifecycle) ==> FiveStates(d'.lifecycle))
    && (d'.lifecycle.Provisioned? ==> d.lifecycle.Provisioned?)
    && (d.retired ==> d' == d)
  }

  /** All devices: none is removed, each moves as above, new ones start within the five states. */
  predicate DevicesMove(m: map<string, Device>, m': map<string, Device>) {
    && (forall id :: id in m ==> id in m' && DeviceMoves(m[id], m'[id]))
    && (forall id :: id in m' && id !in m ==> FiveStates(m'[id].lifecycle))
  }

  lemma DevicesMoveTransitive(a: map<string, Device>, b: map<string, Device>, c: map<string, Device>)
    requires DevicesMove(a, b) && DevicesMove(b, c)
    ensures DevicesMove(a, c)
  {
  }

  predicate Confined(state: Lifecycle) {
    state.Quarantined? || state.Retired?
  }

  /** What one operation may do to the device table: it writes at most one device; one that was
      there moves as above, and leaves quarantine only if the operation is a recovery. */
  predicate DevicesStep(m: map<string, Device>, m': map<string, Device>, id: string, recovery: bool) {
    && (forall k :: k in m ==> k in m' && (k != id ==> m'[k] == m[k]))
    && (forall k :: k in m' ==> k in m || k == id)
    && (id in m ==> DeviceMoves(m[id], m'[id]))
    && (id in m && !recovery && Confined(m[id].lifecycle) ==> Confined(m'[id].lifecycle))
    && (id !in m && id in m' ==> FiveStates(m'[id].lifecycle))
  }

  lemma StepMoves(m: map<string, Device>, m': map<string, Device>, id: string, recovery: bool)
    requires DevicesStep(m, m', id, recovery)
    ensures DevicesMove(m, m')
  {
  }

  lemma StepStays(m: map<string, Device>, id: string, recovery: bool)
    ensures DevicesStep(m, m, id, recovery)
  {
  }

  lemma StepSet(m: map<string, Device>, id: string, d: Device, recovery: bool)
    requires id in m ==> DeviceMoves(m[id], d)
    requires id in m && !recovery && Confined(m[id].lifecycle) ==> Confined(d.lifecycle)
    requires FiveStates(d.lifecycle) || id in m
    ensures DevicesStep(m, m[id := d], id, recovery)
  {
  }

  lemma QuarantineSteps(t: Tables, id: string, why: Cause)
    requires id in t.devices
    ensures DevicesStep(t.devices, PutInQuarantine(t, id, why).tables.devices, id, false)
  {
    if t.devices[id].retired {
      StepStays(t.devices, id, false);
    } else {
      StepSet(t.devices, id, t.devices[id].(lifecycle := Quarantined, quarantineReason := why), false);
    }
  }

  lemma TwoSteps(a: map<string, Device>, b: map<string, Device>, c: map<string, Device>, id: string)
    requires DevicesStep(a, b, id, false) && DevicesStep(b, c, id, false)
    ensures DevicesStep(a, c, id, false)
  {
  }

  lemma ConsequencesStep(t: Tables, id: string, result: string)
    requires id in t.devices
    ensures DevicesStep(t.devices, FailureConsequences(t, id, result).tables.devices, id, false)
  {
    var first := if Suspicious(result) then PutInQuarantine(t, id, SuspiciousCommandResult) else Unchanged(t);
    QuarantineSteps(t, id, SuspiciousCommandResult);
    StepStays(t.devices, id, false);
    var second := PutInQuarantine(first.tables, id, RepeatedCommandFailures);
    QuarantineSteps(first.tables, id, RepeatedCommandFailures);
    TwoSteps(t.devices, first.tables.devices, second.tables.devices, id);
  }

  lemma {:induction false} SweepsKeepDevices(cfg: Config, t: Tables, tenantId: string, ids: seq<string>, now: int)
    ensures ExpireAll(t, ids, now).tables.devices == t.devices
    ensures FleetRisk(cfg, t, tenantId, ids, now).tables.devices == t.devices
  {
    if ids != [] {
      SweepsKeepDevices(cfg, t, tenantId, ids[..|ids| - 1], now);
    }
  }

  /** A new command changes the device table only by quarantining a device VEIL denied. */
  lemma ProcessSteps(cfg: Config, t: Tables, c: Command, answer: PolicyAnswer, now: int)
    ensures DevicesStep(t.devices, ProcessCommand(cfg, t, c, answer, now).tables.devices, c.deviceId, false)
  {
    StepStays(t.devices, c.deviceId, false);
    if DeviceRefusal(cfg, t, c, now).None? {
      var t1 := CountViolation(t, c.deviceId);
      QuarantineSteps(t1, c.deviceId, FailedVeilTrustCheck);
      var after := ProcessCommand(cfg, t, c, answer, now).tables.devices;
      assert after == t.devices || after == PutInQuarantine(t1, c.deviceId, FailedVeilTrustCheck).tables.devices;
    }
  }

  lemma EnterSteps(cfg: Config, t: Tables, c: Command, answer: PolicyAnswer, now: int)
    ensures DevicesStep(t.devices, EnterCommand(cfg, t, c, answer, now).tables.devices, c.deviceId, false)
  {
    StepStays(t.devices, c.deviceId, false);
    ProcessSteps(cfg, t, c.(state := Queued), answer, now);
  }

  lemma CompleteSteps(t: Tables, tenantId: string, id: string, success: bool, result: string, now: int)
    requires id in t.commands
    ensures DevicesStep(t.devices, CompleteCommand(t, tenantId, id, success, result, now).tables.devices,
                        t.commands[id].deviceId, false)
  {
    var c := t.commands[id];
    StepStays(t.devices, c.deviceId, false);
    if c.deviceId in t.devices {
      ConsequencesStep(SetCommand(t, id, Finished(c, success, result, now)), c.deviceId, result);
    }
  }

  lemma HeartbeatSteps(cfg: Config, t: Tables, hb: Heartbeat, now: int)
    ensures DevicesStep(t.devices, ReceiveHeartbeat(cfg, t, hb, now).tables.devices, hb.deviceId, false)
  {
    var id := hb.deviceId;
    StepStays(t.devices, id, false);
    if id in t.devices {
      var d := t.devices[id];
      var fault := HeartbeatFault(cfg, d, hb, now);
      QuarantineSteps(t, id, TenantBoundaryViolation);
      if fault.Some? {
        QuarantineSteps(t, id, fault.value.0);
      } else if !d.retired {
        StepSet(t.devices, id, Beaten(d, hb), false);
      }
    }
  }

  lemma EnrollSteps(t: Tables, d: Device, edge: EdgeReply)
    ensures DevicesStep(t.devices, Enroll(t, d, edge).tables.devices, d.deviceId, false)
  {
    if Enroll(t, d, edge).error.Some? {
      StepStays(t.devices, d.deviceId, false);
    } else {
      StepSet(t.devices, d.deviceId, Enrolled(d, edge), false);
    }
  }

  lemma UpdateSteps(t: Tables, tenantId: string, id: string, patch: Patch)
    ensures DevicesStep(t.devices, UpdateDevice(t, tenantId, id, patch).tables.devices, id, false)
  {
    if UpdateDevice(t, tenantId, id, patch).error.Some? {
      StepStays(t.devices, id, false);
    } else {
      StepSet(t.devices, id, Patched(t.devices[id], patch), false);
    }
  }

  lemma RetireSteps(t: Tables, tenantId: string, id: string)
    ensures DevicesStep(t.devices, RetireDevice(t, tenantId, id).tables.devices, id, false)
  {
    if RetireDevice(t, tenantId, id).error.Some? {
      StepStays(t.devices, id, false);
    } else {
      StepSet(t.devices, id, t.devices[id].(lifecycle := Retired, retired := true, connectivity := Offline), false);
    }
  }

  lemma RecoverSteps(cfg: Config, t: Tables, tenantId: string, id: string, answer: PolicyAnswer, now: int)
    ensures DevicesStep(t.devices, Recover(cfg, t, tenantId, id, answer, now).tables.devices, id, true)
  {
    if Recover(cfg, t, tenantId, id, answer, now).error.Some? {
      StepStays(t.devices, id, true);
    } else {
      StepSet(t.devices, id, t.devices[id].(lifecycle := Active, quarantineReason := NoCause), true);
    }
  }

  /** The device an operation is about. */
  function Subject(t: Tables, op: Op): string {
    match op
    case OpEnroll(d, _) => d.deviceId
    case OpUpdate(_, id, _) => id
    case OpRetire(_, id) => id
    case OpHeartbeat(hb) => hb.deviceId
    case OpCreate(c, _) => c.deviceId
    case OpComplete(_, id, _, _) => if id in t.commands then t.commands[id].deviceId else ""
    case OpQuarantine(_, id, _) => id
    case OpRecover(_, id, _) => id
    case _ => ""
  }

  /** One operation's effect on the devices is one step. */
  predicate Steps(cfg: Config, t: Tables, op: Op, now: int) {
    DevicesStep(t.devices, EffectOf(cfg, t, op, now).tables.devices, Subject(t, op), op.OpRecover?)
  }

  lemma DeviceOperationSteps(cfg: Config, t: Tables, op: Op, now: int)
    requires op.OpEnroll? || op.OpUpdate? || op.OpRetire? || op.OpRecover? || op.OpQuarantine?
    ensures Steps(cfg, t, op, now)
  {
    StepStays(t.devices, Subject(t, op), op.OpRecover?);
    match op
    case OpEnroll(d, edge) => EnrollSteps(t, d, edge);
    case OpUpdate(tenant, id, patch) => UpdateSteps(t, tenant, id, patch);
    case OpRetire(tenant, id) => RetireSteps(t, tenant, id);
    case OpRecover(tenant, id, answer) => RecoverSteps(cfg, t, tenant, id, answer, now);
    case OpQuarantine(_, id, why) =>
      if id in t.devices { QuarantineSteps(t, id, OperatorCause(why)); }
  }

  lemma CommandOperationSteps(cfg: Config, t: Tables, op: Op, now: int)
    requires op.OpHeartbeat? || op.OpCreate? || op.OpComplete? || op.OpCancel? || op.OpAcknowledge?
    ensures Steps(cfg, t, op, now)
  {
    StepStays(t.devices, Subject(t, op), false);
    match op
    case OpHeartbeat(hb) => HeartbeatSteps(cfg, t, hb, now);
    case OpCreate(c, answer) => EnterSteps(cfg, t, Prepared(t, c, now), answer, now);
    case OpComplete(tenant, id, success, result) =>
      if id in t.commands { CompleteSteps(t, tenant, id, success, result, now); }
    case _ =>
  }

  lemma RiskKeepsDevices(cfg: Config, t: Tables, tenantId: string, scopeId: string, ids: seq<string>, now: int)
    ensures DeviceRisk(cfg, t, tenantId, scopeId, now).tables.devices == t.devices
    ensures LocationRisk(cfg, t, tenantId, scopeId, ids, now).tables.devices == t.devices
  {
  }

  lemma SweepOperationSteps(cfg: Config, t: Tables, op: Op, now: int)
    requires op.OpExpire? || op.OpDeviceRisk? || op.OpFleetRisk? || op.OpLocationRisk?
    ensures Steps(cfg, t, op, now)
  {
    StepStays(t.devices, Subject(t, op), false);
    match op
    case OpExpire(ids) => SweepsKeepDevices(cfg, t, "", ids, now);
    case OpFleetRisk(tenant, ids) => SweepsKeepDevices(cfg, t, tenant, ids, now);
    case OpDeviceRisk(tenant, id) => RiskKeepsDevices(cfg, t, tenant, id, [], now);
    case OpLocationRisk(tenant, loc, ids) => RiskKeepsDevices(cfg, t, tenant, loc, ids, now);
  }

  lemma EveryOperationSteps(cfg: Config, t: Tables, op: Op, now: int)
    ensures Steps(cfg, t, op, now)
  {
    if op.OpEnroll? || op.OpUpdate? || op.OpRetire? || op.OpRecover? || op.OpQuarantine? {
      DeviceOperationSteps(cfg, t, op, now);
    } else if op.OpHeartbeat? || op.OpCreate? || op.OpComplete? || op.OpCancel? || op.OpAcknowledge? {
      CommandOperationSteps(cfg, t, op, now);
    } else {
      SweepOperationSteps(cfg, t, op, now);
    }
  }

  /** Over any run from any state: no device disappears or changes tenant, capabilities or
      profile; the lifecycle stays within its five states and never returns to provisioned;
      the record of a device whose retired flag is set never changes again. */
  lemma {:induction false} RunsMoveDevices(sha: Sha, cfg: Config, s: Fleet, calls: seq<Call>)
    ensures DevicesMove(s.tables.devices, Run(sha, cfg, s, calls).tables.devices)
  {
    if calls != [] {
      var last := calls[|calls| - 1];
      var mid := Run(sha, cfg, s, calls[..|calls| - 1]).tables;
      var after := EffectOf(cfg, mid, last.op, last.now).tables;
      RunsMoveDevices(sha, cfg, s, calls[..|calls| - 1]);
      EveryOperationSteps(cfg, mid, last.op, last.now);
      StepMoves(mid.devices, after.devices, Subject(mid, last.op), last.op.OpRecover?);
      DevicesMoveTransitive(s.tables.devices, mid.devices, after.devices);
    }
  }

  // ---- Quarantine ends only by recovery

  predicate Recovers(op: Op, id: string) {
    op.OpRecover? && op.id == id
  }

  /** A quarantined device is active or in maintenance again only after a recover call for it:
      every run without one leaves it quarantined or retired. */
  lemma {:induction false} QuarantineEndsOnlyByRecovery(sha: Sha, cfg: Config, s: Fleet, calls: seq<Call>, id: string)
    requires id in s.tables.devices && s.tables.devices[id].lifecycle.Quarantined?
    requires forall i :: 0 <= i < |calls| ==> !Recovers(calls[i].op, id)
    ensures id in Run(sha, cfg, s, calls).tables.devices
    ensures Confined(Run(sha, cfg, s, calls).tables.devices[id].lifecycle)
  {
    if calls != [] {
      var last := calls[|calls| - 1];
      QuarantineEndsOnlyByRecovery(sha, cfg, s, calls[..|calls| - 1], id);
      EveryOperationSteps(cfg, Run(sha, cfg, s, calls[..|calls| - 1]).tables, last.op, last.now);
    }
  }

  // ---- Recovery

  /** The service compares the clamped score less the quarantine points with 75; that is the
      same as comparing the unclamped points of all other factors. */
  lemma ClampDoesNotHideRisk(cfg: Config, t: Tables, d: Device, now: int)
    ensures ResidualScore(cfg, t, d, now) >= 75 <==> UnresolvedPoints(cfg, t, d, now) >= 75
  {
  }

  /** The requirements of the documentation, on a registered device. */
  predicate Recoverable(cfg: Config, t: Tables, tenantId: string, id: string, now: int) {
    && Registered(t, tenantId, id) && t.devices[id].lifecycle.Quarantined? && !t.devices[id].retired
    && Fresh(cfg, t.devices[id], now) && t.devices[id].capabilities != []
    && id in t.heartbeats && t.heartbeats[id].selfTestPassed && t.heartbeats[id].connectivity.Online?
    && KnownVersion(t.heartbeats[id].firmware) && KnownVersion(t.heartbeats[id].driverVersion)
    && !t.heartbeats[id].contradiction
    && UnresolvedPoints(cfg, t, t.devices[id], now) < 75
  }

  /** Recovery succeeds exactly when every documented requirement holds and VEIL allows it;
      then the device becomes active, otherwise nothing changes and nothing is logged. */
  lemma RecoverySucceedsExactly(cfg: Config, t: Tables, tenantId: string, id: string, answer: PolicyAnswer, now: int)
    ensures var r := Recover(cfg, t, tenantId, id, answer, now);
            && (r.error.None? <==> Recoverable(cfg, t, tenantId, id, now) && TrustAllows(cfg, OnDeviceRecovery, answer))
            && (r.error.Some? ==> r.tables == t && r.entries == [])
            && (r.error.None? ==> id in r.tables.devices && r.tables.devices[id].lifecycle.Active?)
  {
    if id in t.devices && t.devices[id].lifecycle.Quarantined? {
      ClampDoesNotHideRisk(cfg, t, t.devices[id], now);
    }
  }

  // ---- Retirement

  /** Whether some single operation can change the lifecycle of a device. */
  ghost predicate CanLeave(cfg: Config, t: Tables, id: string)
    requires id in t.devices
  {
    exists op, now ::
      var after := EffectOf(cfg, t, op, now).tables.devices;
      id in after && after[id].lifecycle != t.devices[id].lifecycle
  }

  /** A device whose lifecycle is retired can leave that state exactly when its retired flag
      is not set; a PATCH to "retired" does not set it. */
  lemma RetirementIsFinalExactlyWithFlag(cfg: Config, t: Tables, id: string)
    requires id in t.devices && t.devices[id].lifecycle.Retired?
    ensures CanLeave(cfg, t, id) <==> !t.devices[id].retired
  {
    if t.devices[id].retired {
      forall op, now
        ensures var after := EffectOf(cfg, t, op, now).tables.devices;
                id in after && after[id].lifecycle == t.devices[id].lifecycle
      {
        EveryOperationSteps(cfg, t, op, now);
        StepMoves(t.devices, EffectOf(cfg, t, op, now).tables.devices, Subject(t, op), op.OpRecover?);
      }
    } else {
      var after := EffectOf(cfg, t, OpQuarantine(t.devices[id].tenantId, id, ""), 0).tables.devices;
      assert after[id].lifecycle.Quarantined?;
    }
  }

  /** A PATCH to "retired" is such a case: the device is retired, yet not for good. */
  lemma PatchedRetirementIsNotFinal(cfg: Config, t: Tables, tenantId: string, id: string)
    requires Registered(t, tenantId, id) && !t.devices[id].retired
    ensures var patch := Patch(Some(Retired), None, None, None, None, None);
            var after := UpdateDevice(t, tenantId, id, patch).tables;
            after.devices[id].lifecycle.Retired? && CanLeave(cfg, after, id)
  {
    var patch := Patch(Some(Retired), None, None, None, None, None);
    var after := UpdateDevice(t, tenantId, id, patch).tables;
    RetirementIsFinalExactlyWithFlag(cfg, after, id);
  }
}
