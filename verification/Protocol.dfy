/** Optional values and the replies of calls that may be refused. */
module Wrappers {
  datatype Option<+T> = None | Some(value: T)

  datatype Reason = BadRequest | NotFound | Conflict | Forbidden

  datatype Reply<+T> = Ok(value: T) | Refused(reason: Reason)

  function Lookup<K, V>(m: map<K, V>, k: K): Option<V> {
    if k in m then Some(m[k]) else None
  }
}

/** The wire types and the tool policy table shared by server and executor.
    Identifiers stand for UUIDs, instants are integers (milliseconds). */
module Protocol {
  import opened Wrappers

  type Id = nat
  type Socket = nat
  type Instant = int

  const MAX_COMMAND_LIFETIME_MS: int := 24 * 60 * 60 * 1_000

  datatype Tool =
    | FileList | FileRead | ScreenSnapshot
    | FileWrite | AppLaunch | ScreenControl
    | FileTrash
    | ExternalSend | SystemInstall | CredentialsRead | PaymentSubmit

  datatype Risk = Read | Write | Destructive | Privileged

  datatype Policy = Policy(risk: Risk, approvalRequired: bool)

  function PolicyForTool(tool: Tool): Policy {
    match tool
    case FileList | FileRead | ScreenSnapshot => Policy(Read, false)
    case FileWrite | AppLaunch | ScreenControl => Policy(Write, true)
    case FileTrash => Policy(Destructive, true)
    case ExternalSend | SystemInstall | CredentialsRead | PaymentSubmit => Policy(Privileged, true)
  }

  predicate NeedsApproval(tool: Tool) {
    PolicyForTool(tool).approvalRequired
  }

  predicate NeedsBiometric(tool: Tool) {
    PolicyForTool(tool).risk in {Destructive, Privileged}
  }

  /** Reading runs without asking, everything else needs approval, and what destroys or exceeds the ordinary needs it
      verified. */
  lemma PolicyIs(tool: Tool)
    ensures NeedsApproval(tool) <==> tool !in {FileList, FileRead, ScreenSnapshot}
    ensures NeedsBiometric(tool)
       <==> tool in {FileTrash, ExternalSend, SystemInstall, CredentialsRead, PaymentSubmit}
    ensures PolicyForTool(tool).risk
         == if tool in {FileList, FileRead, ScreenSnapshot} then Read
            else if tool in {FileWrite, AppLaunch, ScreenControl} then Write
            else if tool == FileTrash then Destructive
            else Privileged
  {
    match tool {
      case FileList | FileRead | ScreenSnapshot =>
      case FileWrite | AppLaunch | ScreenControl =>
      case FileTrash =>
      case ExternalSend | SystemInstall | CredentialsRead | PaymentSubmit =>
    }
  }

  datatype Status =
    | Queued | AwaitingApproval | Dispatched | Running
    | Succeeded | Failed | Expired | Cancelled

  predicate Terminal(status: Status) {
    status in {Succeeded, Failed, Cancelled, Expired}
  }

  function InitialStatus(tool: Tool): Status {
    if NeedsApproval(tool) then AwaitingApproval else Queued
  }

  type Reportable = s: Status | s in {Running, Succeeded, Failed} witness Running

  /** What a caller submits; none of it ever changes once the command is stored. */
  datatype Request = Request(
    targetDeviceId: Id, tool: Tool, args: string, idempotencyKey: string, expiresAt: Instant)

  datatype Command = Command(
    id: Id, userId: Id, request: Request, risk: Risk, status: Status,
    createdAt: Instant, updatedAt: Instant)

  predicate Overdue(c: Command, now: Instant) {
    c.request.expiresAt <= now && !Terminal(c.status)
  }

  datatype Verdict = Pending | Granted | Denied

  datatype Approval = Approval(
    commandId: Id, userId: Id, decision: Verdict,
    biometricRequired: bool, biometricVerified: bool,
    decidedAt: Option<Instant>, consumedAt: Option<Instant>, createdAt: Instant)

  /** `body` stands for the output and finish time of a result. */
  datatype ActionResult = ActionResult(commandId: Id, status: Reportable, error: Option<string>, body: string)

  datatype DeviceKind = ExecutorDevice | ControllerDevice

  datatype Device = Device(
    userId: Id, kind: DeviceKind, tools: set<Tool>, online: bool, lastSeenAt: Option<Instant>)

  /** The kind of an audit event that names a command. */
  datatype Kind =
    | WasCreated(initial: Status)
    | WasApproved(biometricVerified: bool)
    | WasDenied(biometricVerified: bool)
    | WasDispatched
    | HasExpired
    | HasReported(status: Reportable, error: Option<string>)

  datatype AuditEvent = AuditEvent(userId: Id, kind: Kind, deviceId: Id, commandId: Id, createdAt: Instant)

  datatype Message =
    | DispatchOf(command: Command)
    | SignalFrom(sourceDeviceId: Id, signal: string)

  /** One message handed to the open socket of a device, with what the history has to remember of
      that moment: the clock, how often the device had said hello, how long the audit log was, and
      whether the socket had by then authenticated as the device. */
  datatype Sent = Sent(
    socket: Socket, deviceId: Id, message: Message, at: Instant, epoch: nat, mark: nat, authed: bool)

  predicate Dispatches(m: Sent, id: Id) {
    m.message.DispatchOf? && m.message.command.id == id
  }
}
