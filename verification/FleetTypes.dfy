/** Records of the fleet operations service: devices, heartbeats, remote commands and the
    event log.  Strings that the service compares with fixed words are datatypes with one
    constructor per word and one for every other string, so no input is excluded. */
module FleetTypes {
  import opened Basics

  datatype Lifecycle =
    | Provisioned | Active | Maintenance | Quarantined | Retired
    | OtherLifecycle(word: string)

  datatype Connectivity = Online | Offline | OtherLink(word: string)

  datatype Capability =
    | LockControl | OpenClose | CashOut | CashIn | InventoryControl | SensorTelemetry
    | Identity | EvidenceExport | CommandExecution
    | OtherCapability(word: string)

  datatype CommandName =
    | Lock | Unlock | Open | Close | DispenseCash | AcceptCash
    | CountCash | ReconcileDevice | SyncInventory | RunSelfTest | RotateKeys | ExportEvidence
    | Restart | RefreshConfig | PauseTransactions | ResumeTransactions
    | DisableDevice | EnableDevice | EnterMaintenance | ExitMaintenance
    | OtherCommand(word: string)

  datatype CommandState =
    | Queued | PolicyChecking | Approved | Dispatched | Acknowledged
    | Completed | Failed | Cancelled | Expired

  datatype Reason =
    | NoReason | DuplicateCommandId | TenantOrDeviceMismatch | DeviceUnavailable
    | StaleHeartbeat | DeviceOffline | UnknownCapabilityState | UnsupportedCapability
    | PolicyDenied | ApprovalRequired | ExpiredReason
    | DeviceReportedFailure
    | Reported(text: string)

  /** Why a device is in quarantine; an operator may give any text. */
  datatype Cause =
    | NoCause | TenantBoundaryViolation | StaleHeartbeatCause | UnknownCapabilityCause
    | UnknownFirmwareCause | UnknownDriverCause | InventoryContradictionCause
    | FailedVeilTrustCheck | SuspiciousCommandResult | RepeatedCommandFailures | OperatorQuarantine
    | OperatorText(text: string)

  datatype Profile = Profile(merchantId: string, region: string, deviceType: string)

  datatype Assignment = Assignment(
    branchId: string, locationId: string, fleetId: string, groupId: string, labels: map<string, string>)

  datatype Device = Device(
    deviceId: string,
    tenantId: string,
    profile: Profile,
    assignment: Assignment,
    firmware: string,
    driverId: string,
    driverVersion: string,
    lifecycle: Lifecycle,
    connectivity: Connectivity,
    lastHeartbeat: int,
    capabilities: seq<Capability>,
    quarantineReason: Cause,
    retired: bool)

  datatype Heartbeat = Heartbeat(
    deviceId: string,
    tenantId: string,
    firmware: string,
    driverVersion: string,
    connectivity: Connectivity,
    contradiction: bool,
    drift: real,
    errorCodes: seq<string>,
    unusualCashMovement: bool,
    missingTrustEvidence: bool,
    driverStability: real,
    selfTestPassed: bool,
    timestamp: int)

  datatype Command = Command(
    commandId: string,
    tenantId: string,
    deviceId: string,
    name: CommandName,
    parameters: string,
    state: CommandState,
    requiredCapability: Option<Capability>,
    highRisk: bool,
    approvalId: string,
    approvedBy: string,
    actorId: string,
    createdAt: int,
    expiresAt: int,
    dispatchedAt: int,
    acknowledgedAt: int,
    completedAt: int,
    result: string,
    failureReason: Reason)

  datatype Patch = Patch(
    lifecycle: Option<Lifecycle>,
    locationId: Option<string>,
    branchId: Option<string>,
    groupId: Option<string>,
    fleetId: Option<string>,
    labels: Option<map<string, string>>)

  /** What the edge registry answers while a device enrols. */
  datatype EdgeReply =
    | NoEdge
    | EdgeRejected
    | EdgeRegistered(listed: Option<EdgeListing>)

  datatype EdgeListing = EdgeListing(capabilities: seq<Capability>, driverId: string)

  datatype RiskLevel = Low | Medium | High | Critical

  datatype Scope = DeviceScope | LocationScope

  datatype FactorName =
    | StaleFactor | RepeatedFailures | FailureRate | InventoryDrift | UnusualCash
    | MissingEvidence | UnstableDriver | PolicyViolations | QuarantinedFactor
    | UnknownDeviceFactor | UnknownLocationFactor

  datatype Factor = Factor(name: FactorName, points: int)

  datatype Assessment = Assessment(
    tenantId: string, scope: Scope, scopeId: string, score: int, level: RiskLevel,
    factors: seq<Factor>, evaluatedAt: int)

  /** An event's type together with its payload. */
  datatype Kind =
    | DeviceEnrolled(locationId: string, fleetId: string, initial: Lifecycle)
    | LifecycleChanged(before: Lifecycle, after: Lifecycle)
    | DeviceRetired(before: Lifecycle)
    | DeviceQuarantined(why: Cause)
    | DeviceRecovered(previousReason: Cause, riskScore: int)
    | HeartbeatWhileQuarantined
    | HeartbeatReceived(status: Connectivity, errorCodes: seq<string>)
    | CommandQueued(commandId: string, name: CommandName)
    | CommandApproved(commandId: string, approvalId: string)
    | CommandDispatched(commandId: string)
    | CommandAcknowledged(commandId: string)
    | CommandCancelled(commandId: string)
    | CommandCompleted(commandId: string, result: string)
    | CommandFailedResult(commandId: string, result: string)
    | CommandFailedReason(commandId: string, reason: Reason)
    | CommandDenied(commandId: string, reason: Reason)
    | RiskChanged(scope: Scope, scopeId: string, previous: Option<RiskLevel>, level: RiskLevel, score: int)

  /** eventId is the number in the generated name "fleet-event-N". */
  datatype Event = Event(
    sequence: int,
    eventId: nat,
    tenantId: string,
    deviceId: string,
    kind: Kind,
    occurredAt: int,
    previousHash: string,
    eventHash: string)

  /** What is hashed: one event without its own hash, or a list of hashes. */
  datatype Preimage =
    | EventPreimage(sequence: int, eventId: nat, tenantId: string, deviceId: string,
                    kind: Kind, occurredAt: int, previousHash: string)
    | SummaryPreimage(hashes: seq<string>)

  type Sha = Preimage -> string

  /** Actions on which the VEIL policy is consulted. */
  datatype Action =
    | OnCommand(name: CommandName)
    | OnCommandExecution
    | OnDeviceRecovery
    | OtherAction(word: string)

  datatype PolicyConfig = PolicyConfig(
    productionMode: bool,
    failClosed: bool,
    localAllowWhenUnavailable: bool,
    highRiskActions: set<Action>)

  /** The VEIL client's answer to one question. */
  datatype PolicyAnswer = PolicyAnswer(allowed: bool, unavailable: bool)

  datatype Error =
    | MissingRequiredAssignment | InvalidInitialLifecycle | DeviceAlreadyEnrolled
    | EdgeRegistrationFailed | UnknownCapability | NotFound | DeviceIsRetired
    | InvalidLifecycleTransition | LocationRequired | DeviceAlreadyRetired
    | UnknownDevice | TenantMismatch | StaleHeartbeatError | DeviceIsQuarantined
    | UnknownFirmware | UnknownDriver | InventoryContradiction
    | CommandNotCancellable | InvalidCommandTransition | CommandExpired
    | NotFoundOrRetired | DeviceNotRecoverable | FreshHeartbeatRequired
    | SelfTestRequired | IdentityOrHealthUnresolved | CriticalRiskUnresolved
    | VeilRecoveryDenied

  /** What the service is built with. */
  datatype Config = Config(heartbeatTimeout: int, trust: Option<PolicyConfig>)

  /** The service's tables. */
  datatype Tables = Tables(
    devices: map<string, Device>,
    commands: map<string, Command>,
    heartbeats: map<string, Heartbeat>,
    violations: map<string, int>,
    riskLevels: map<string, RiskLevel>)

  /** An event as an operation hands it to the log. */
  datatype Entry = Entry(tenantId: string, deviceId: string, kind: Kind)

  /** What one operation does: the new tables, the events it logs in order, and the error it
      reports. */
  datatype Effect = Effect(tables: Tables, entries: seq<Entry>, error: Option<Error>)

  datatype Fleet = Fleet(tables: Tables, events: seq<Event>)
}
