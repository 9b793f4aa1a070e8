/** The service object under any sequence of calls: its states are those of the model's runs, so what
    is proved of all runs holds of it. */
module FleetRuns {
  import opened Basics
  import opened FleetTypes
  import opened FleetModel
  import opened FleetService
  import FleetLog
  import FleetChain
  import FleetCommands
  import FleetLifecycle

  /** The same call, up to the order in which a sweep visits its table. */
  predicate SameRequest(a: Call, b: Call) {
    && a.now == b.now
    && match a.op
       case OpExpire(_) => b.op.OpExpire?
       case OpFleetRisk(tenant, _) => b.op.OpFleetRisk? && b.op.tenantId == tenant
       case OpLocationRisk(tenant, loc, _) =>
         b.op.OpLocationRisk? && b.op.tenantId == tenant && b.op.locationId == loc
       case _ => a.op == b.op
  }

  predicate SameRequests(a: seq<Call>, b: seq<Call>) {
    |a| == |b| && forall i :: 0 <= i < |a| ==> SameRequest(a[i], b[i])
  }

  method PerformOnDevices(s: Service, call: Call)
    requires call.op.OpEnroll? || call.op.OpUpdate? || call.op.OpRetire? || call.op.OpHeartbeat? ||
             call.op.OpQuarantine? || call.op.OpRecover?
    modifies s
    ensures s.State() == Apply(s.sha, s.cfg, old(s.State()), call)
  {
    match call.op
    case OpEnroll(d, edge) => var _ := s.Enroll(d, edge, call.now);
    case OpUpdate(tenant, id, patch) => var _ := s.UpdateDevice(tenant, id, patch, call.now);
    case OpRetire(tenant, id) => var _ := s.RetireDevice(tenant, id, call.now);
    case OpHeartbeat(hb) => var _ := s.ReceiveHeartbeat(hb, call.now);
    case OpQuarantine(tenant, id, why) => var _ := s.Quarantine(tenant, id, why, call.now);
    case OpRecover(tenant, id, answer) => var _ := s.Recover(tenant, id, answer, call.now);
  }

  method PerformOnCommands(s: Service, call: Call)
    requires call.op.OpCreate? || call.op.OpCancel? || call.op.OpAcknowledge? || call.op.OpComplete?
    modifies s
    ensures s.State() == Apply(s.sha, s.cfg, old(s.State()), call)
  {
    match call.op
    case OpCreate(c, answer) => var _ := s.CreateCommand(c, answer, call.now);
    case OpCancel(tenant, id) => var _ := s.CancelCommand(tenant, id, call.now);
    case OpAcknowledge(tenant, id) => var _ := s.AcknowledgeCommand(tenant, id, call.now);
    case OpComplete(tenant, id, success, result) => var _ := s.CompleteCommand(tenant, id, success, result, call.now);
  }

  method PerformSweep(s: Service, call: Call) returns (ghost done: Call)
    requires call.op.OpExpire? || call.op.OpDeviceRisk? || call.op.OpFleetRisk? || call.op.OpLocationRisk?
    modifies s
    ensures SameRequest(call, done) && s.State() == Apply(s.sha, s.cfg, old(s.State()), done)
  {
    done := call;
    match call.op
    case OpExpire(_) =>
      var _, order := s.ExpireCommands(call.now);
      done := Call(OpExpire(order), call.now);
    case OpDeviceRisk(tenant, id) =>
      var _ := s.DeviceRisk(tenant, id, call.now);
    case OpFleetRisk(tenant, _) =>
      var _, order := s.FleetRisk(tenant, call.now);
      done := Call(OpFleetRisk(tenant, order), call.now);
    case OpLocationRisk(tenant, loc, _) =>
      var _, order := s.LocationRisk(tenant, loc, call.now);
      done := Call(OpLocationRisk(tenant, loc, order), call.now);
  }

  /** Any call: the new state is the model's; done is the call with the orders its sweeps took. */
  method Perform(s: Service, call: Call) returns (ghost done: Call)
    modifies s
    ensures SameRequest(call, done) && s.State() == Apply(s.sha, s.cfg, old(s.State()), done)
  {
    done := call;
    if call.op.OpExpire? || call.op.OpDeviceRisk? || call.op.OpFleetRisk? || call.op.OpLocationRisk? {
      done := PerformSweep(s, call);
    } else if call.op.OpCreate? || call.op.OpCancel? || call.op.OpAcknowledge? || call.op.OpComplete? {
      PerformOnCommands(s, call);
    } else {
      PerformOnDevices(s, call);
    }
  }

  /** Any sequence of calls on a new service ends in the state of the model's run. */
  method PerformAll(sha: Sha, cfg: Config, calls: seq<Call>) returns (s: Service, ghost done: seq<Call>)
    ensures fresh(s) && s.sha == sha && s.cfg == cfg
    ensures SameRequests(calls, done) && s.State() == Run(sha, cfg, EmptyFleet, done)
  {
    s := new Service(sha, cfg);
    done := [];
    for i := 0 to |calls|
      invariant fresh(s) && s.sha == sha && s.cfg == cfg
      invariant SameRequests(calls[..i], done) && s.State() == Run(sha, cfg, EmptyFleet, done)
    {
      ghost var one := Perform(s, calls[i]);
      ghost var before := done;
      done := done + [one];
      assert done[..|done| - 1] == before;
    }
    assert calls[..|calls|] == calls;
  }

  /** What all runs keep, on one state. */
  ghost predicate Kept(sha: Sha, s: Fleet) {
    && FleetLog.Rebuild(s.events) == FleetLog.ViewOf(s.tables)
    && FleetChain.Chained(sha, s.events)
    && FleetCommands.AllSound(s.tables)
    && (forall id :: id in s.tables.devices ==> FleetLifecycle.FiveStates(s.tables.devices[id].lifecycle))
  }

  lemma RunsKeep(sha: Sha, cfg: Config, calls: seq<Call>)
    ensures Kept(sha, Run(sha, cfg, EmptyFleet, calls))
  {
    FleetLog.TablesAreAFoldOfTheLog(sha, cfg, calls);
    FleetChain.RunsKeepTheChain(sha, cfg, EmptyFleet, calls);
    FleetCommands.EverySentCommandIsSound(sha, cfg, calls);
    FleetLifecycle.RunsMoveDevices(sha, cfg, EmptyFleet, calls);
  }

  /** After any calls the service's own fields are as all runs keep them, and replaying its log is
      valid and returns the tenant's events. */
  method PerformAndReplay(sha: Sha, cfg: Config, calls: seq<Call>, tenantId: string)
    returns (s: Service, r: FleetChain.ReplayResult)
    ensures fresh(s) && Kept(sha, s.State())
    ensures r.valid && r.events == FleetChain.OfTenant(s.events, tenantId)
  {
    ghost var done;
    s, done := PerformAll(sha, cfg, calls);
    RunsKeep(sha, cfg, done);
    ghost var good;
    r, good := FleetChain.Replay(sha, s.events, tenantId);
    assert s.events[..|s.events|] == s.events;
  }
}
