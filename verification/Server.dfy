/** The control plane as a state machine whose steps are whole service calls: the command service,
    the gateway handlers and the store and registry beneath them, each call with one clock reading. */
module Server {
  import opened Wrappers
  import opened Protocol
  import opened Lifecycle
  import opened Ordering

  /** `hellos`, `authed`, `everOpen` and the log `sent` are history: no call reads them. */
  datatype State = State(
    clock: Instant,
    devices: map<Id, Device>,
    commands: map<Id, Command>,
    order: seq<Id>,                 // the commands in insertion order
    approvals: map<Id, Approval>,   // keyed by command
    results: map<Id, ActionResult>, // keyed by command
    audit: seq<AuditEvent>,
    byDevice: map<Id, Socket>,
    bySocket: map<Socket, Id>,
    open: set<Socket>,
    everOpen: set<Socket>,
    sent: seq<Sent>,
    hellos: map<Id, nat>,
    authed: set<(Socket, Id)>)

  const EMPTY := State(0, map[], map[], [], map[], map[], [], map[], map[], {}, {}, [], map[], {})

  // ---------------------------------------------------------------- reading

  function Link(s: State, deviceId: Id): Option<Socket> {
    if deviceId in s.byDevice && s.byDevice[deviceId] in s.open then Some(s.byDevice[deviceId]) else None
  }

  function Epoch(s: State, deviceId: Id): nat {
    if deviceId in s.hellos then s.hellos[deviceId] else 0
  }

  function GetCommand(s: State, userId: Id, commandId: Id): Option<Command> {
    if commandId in s.commands && s.commands[commandId].userId == userId then Some(s.commands[commandId]) else None
  }

  function GetApproval(s: State, userId: Id, commandId: Id): Option<Approval> {
    if commandId in s.approvals && s.approvals[commandId].userId == userId then Some(s.approvals[commandId]) else None
  }

  /** The commands are filed under their own ids, and `order` lists exactly them. */
  ghost predicate Filed(s: State) {
    && (forall id :: id in s.order <==> id in s.commands)
    && Distinct(s.order)
    && (forall id :: id in s.commands ==> s.commands[id].id == id)
  }

  function Keyed(commands: map<Id, Command>, userId: Id, key: string): (p: Id -> bool)
    ensures forall id :: p(id) ==> id in commands
  {
    (id: Id) => id in commands && commands[id].userId == userId && commands[id].request.idempotencyKey == key
  }

  function Ready(commands: map<Id, Command>, deviceId: Id, now: Instant): (p: Id -> bool)
    ensures forall id :: p(id) ==> id in commands
  {
    (id: Id) => id in commands && Dispatchable(commands[id], deviceId, now)
  }

  /** The first stored command of the user with this key. */
  function FindByKey(s: State, userId: Id, key: string): Option<Id> {
    FindFirst(s.order, Keyed(s.commands, userId, key))
  }

  function Own(commands: map<Id, Command>, order: seq<Id>, userId: Id): (r: seq<Id>)
    ensures forall id :: id in r ==> id in commands && commands[id].userId == userId
  {
    Filter(order, (id: Id) => id in commands && commands[id].userId == userId)
  }

  /** The user's newest commands, newest first. */
  function Newest(commands: map<Id, Command>, order: seq<Id>, userId: Id, limit: nat): (r: seq<Id>)
    ensures forall id :: id in r ==> id in commands && commands[id].userId == userId
  {
    var own := Own(commands, order, userId);
    var byAge := (id: Id) => if id in commands then commands[id].createdAt else 0;
    NewestFirstMembers(own, byAge);
    var mine := NewestFirst(own, byAge);
    assert forall id :: id in mine ==> id in own;
    if limit <= |mine| then mine[..limit] else mine
  }

  function ListCommands(s: State, userId: Id, limit: nat): (r: seq<Id>)
    ensures forall id :: id in r ==> id in s.commands && s.commands[id].userId == userId
  {
    Newest(s.commands, s.order, userId, limit)
  }

  predicate Dispatchable(c: Command, deviceId: Id, now: Instant) {
    c.request.targetDeviceId == deviceId && c.status in {Queued, Dispatched} && c.request.expiresAt > now
  }

  function ListDispatchable(s: State, deviceId: Id): seq<Id> {
    Filter(s.order, Ready(s.commands, deviceId, s.clock))
  }

  // ---------------------------------------------------------------- writing

  function Put(s: State, c: Command): State {
    s.(commands := s.commands[c.id := c], order := if c.id in s.commands then s.order else s.order + [c.id])
  }

  function Note(s: State, c: Command, kind: Kind): State {
    s.(audit := s.audit + [AuditEvent(c.userId, kind, c.request.targetDeviceId, c.id, s.clock)])
  }

  function Transmit(s: State, socket: Socket, deviceId: Id, message: Message): State {
    s.(sent := s.sent + [Sent(socket, deviceId, message, s.clock, Epoch(s, deviceId), |s.audit|,
                              (socket, deviceId) in s.authed)])
  }

  function ExpireIfNeeded(s: State, id: Id): (s': State)
    requires Filed(s) && id in s.commands
    ensures Filed(s') && s'.order == s.order
  {
    var c := s.commands[id];
    if Overdue(c, s.clock)
    then Note(Put(s, WithStatus(c, Expired, s.clock)), c, HasExpired)
    else s
  }

  /** Hands a queued command, or again a dispatched one, to the open socket of its device. */
  function TryDispatch(s: State, id: Id): (s': State)
    requires Filed(s) && id in s.commands
    ensures Filed(s') && s'.order == s.order
  {
    var c := s.commands[id];
    var socket := Link(s, c.request.targetDeviceId);
    if c.status !in {Queued, Dispatched} then s
    else if c.request.expiresAt <= s.clock then ExpireIfNeeded(s, id)
    else if socket.None? || !Cleared(s, c) then s
    else HandOver(s, id, socket.value)
  }

  function HandOver(s: State, id: Id, socket: Socket): (s': State)
    requires Filed(s) && id in s.commands
    ensures Filed(s') && s'.order == s.order
  {
    var c := s.commands[id];
    var claimed := if c.status == Queued then Claim(s, c) else s;
    Note(Transmit(claimed, socket, c.request.targetDeviceId, DispatchOf(claimed.commands[id])), c, WasDispatched)
  }

  /** A queued command whose tool needs approval is dispatched only once the approval is granted. */
  predicate Cleared(s: State, c: Command) {
    var approval := GetApproval(s, c.userId, c.id);
    c.status == Queued && NeedsApproval(c.request.tool) ==> approval.Some? && approval.value.decision == Granted
  }

  /** The command becomes dispatched and its approval is consumed, unless it was before. */
  function Claim(s: State, c: Command): (s': State)
    requires Filed(s) && c.id in s.commands
    ensures Filed(s') && s'.order == s.order
  {
    var claimed := Put(s, WithStatus(c, Dispatched, s.clock));
    if NeedsApproval(c.request.tool) && c.id in s.approvals && s.approvals[c.id].consumedAt.None?
    then claimed.(approvals := s.approvals[c.id := s.approvals[c.id].(consumedAt := Some(s.clock))])
    else claimed
  }

  function ExpireAll(s: State, ids: seq<Id>): (s': State)
    requires Filed(s) && forall id :: id in ids ==> id in s.commands
    ensures Filed(s') && s'.order == s.order
  {
    if ids == [] then s
    else ExpireIfNeeded(ExpireAll(s, ids[..|ids| - 1]), ids[|ids| - 1])
  }

  function DispatchAll(s: State, ids: seq<Id>): (s': State)
    requires Filed(s) && forall id :: id in ids ==> id in s.commands
    ensures Filed(s') && s'.order == s.order
  {
    if ids == [] then s
    else TryDispatch(DispatchAll(s, ids[..|ids| - 1]), ids[|ids| - 1])
  }

  // ---------------------------------------------------------------- service calls

  function NewCommand(s: State, userId: Id, request: Request, id: Id): Command {
    Command(id, userId, request, PolicyForTool(request.tool).risk, InitialStatus(request.tool), s.clock, s.clock)
  }

  function NewApproval(s: State, userId: Id, request: Request, id: Id): Approval {
    Approval(id, userId, Pending, NeedsBiometric(request.tool), false, None, None, s.clock)
  }

  /** The state once a new command, its approval if it needs one, and its creation event are stored. */
  function Admit(s: State, userId: Id, request: Request, id: Id): (s': State)
    requires Filed(s) && id !in s.commands
    ensures Filed(s') && s'.order == s.order + [id]
  {
    var c := NewCommand(s, userId, request, id);
    var stored := Put(s, c);
    var guarded := if NeedsApproval(request.tool)
                   then stored.(approvals := stored.approvals[id := NewApproval(s, userId, request, id)])
                   else stored;
    Note(guarded, c, WasCreated(c.status))
  }

  function RequireExecutor(s: State, userId: Id, deviceId: Id): Option<Device> {
    if deviceId in s.devices && s.devices[deviceId].userId == userId && s.devices[deviceId].kind == ExecutorDevice
    then Some(s.devices[deviceId]) else None
  }

  /** Whether a request is refused, repeats a stored command, or asks for a new one. */
  function Admission(s: State, userId: Id, request: Request): (r: Reply<Option<Id>>)
    ensures r.Ok? && r.value.Some? ==> r.value.value in s.commands
  {
    var found := FindByKey(s, userId, request.idempotencyKey);
    var target := RequireExecutor(s, userId, request.targetDeviceId);
    if request.expiresAt <= s.clock then Refused(BadRequest)
    else if request.expiresAt - s.clock > MAX_COMMAND_LIFETIME_MS then Refused(BadRequest)
    else if found.Some? then
      if s.commands[found.value].request != request then Refused(Conflict) else Ok(found)
    else if target.None? then Refused(NotFound)
    else if request.tool !in target.value.tools then Refused(BadRequest)
    else Ok(None)
  }

  /** `id` is the identifier drawn for a new command. */
  function Create(s: State, userId: Id, request: Request, id: Id): (r: (State, Reply<Command>))
    requires Filed(s) && id !in s.commands
    ensures Filed(r.0)
  {
    match Admission(s, userId, request)
    case Refused(reason) => (s, Refused(reason))
    case Ok(Some(existing)) => Settled(s, existing)
    case Ok(None) =>
      var s' := TryDispatch(Admit(s, userId, request, id), id);
      (s', Ok(s'.commands[id]))
  }

  function Aged(c: Command, now: Instant): Command {
    if Overdue(c, now) then WithStatus(c, Expired, now) else c
  }

  /** A stored command, after it has expired if it was overdue. */
  function Settled(s: State, id: Id): (r: (State, Reply<Command>))
    requires Filed(s) && id in s.commands
    ensures Filed(r.0) && r.0.order == s.order
  {
    (ExpireIfNeeded(s, id), Ok(Aged(s.commands[id], s.clock)))
  }

  function Get(s: State, userId: Id, id: Id): (r: (State, Reply<Command>))
    requires Filed(s)
    ensures Filed(r.0) && r.0.order == s.order
  {
    if GetCommand(s, userId, id).None? then (s, Refused(NotFound)) else Settled(s, id)
  }

  function ListLimit(limit: int): nat {
    if limit < 1 then 1 else if limit > 500 then 500 else limit
  }

  function List(s: State, userId: Id, limit: int): (r: (State, seq<Command>))
    requires Filed(s)
    ensures Filed(r.0)
  {
    var ids := ListCommands(s, userId, ListLimit(limit));
    (ExpireAll(s, ids), seq(|ids|, i requires 0 <= i < |ids| => Aged(s.commands[ids[i]], s.clock)))
  }

  function Decide(s: State, userId: Id, id: Id, approve: bool, verified: bool): (r: (State, Reply<Command>))
    requires Filed(s)
    ensures Filed(r.0)
  {
    var (s1, got) := Get(s, userId, id);
    if got.Refused? then (s1, got)
    else if got.value.status != AwaitingApproval then (s1, Refused(Conflict))
    else
      var approval := GetApproval(s1, userId, id);
      if approval.None? || approval.value.decision != Pending then (s1, Refused(Conflict))
      else if approval.value.biometricRequired && approve && !verified then (s1, Refused(Forbidden))
      else
        var s2 := TryDispatch(Rule(s1, got.value, approval.value, approve, verified), id);
        (s2, Ok(s2.commands[id]))
  }

  /** Stores a decision: the approval, then the command it releases or cancels, then the event. */
  function Rule(s: State, c: Command, approval: Approval, approve: bool, verified: bool): (s': State)
    requires Filed(s) && c.id in s.commands
    ensures Filed(s') && s'.order == s.order
  {
    var a := approval.(decision := if approve then Granted else Denied, biometricVerified := verified,
                       decidedAt := Some(s.clock));
    var c' := WithStatus(c, if approve then Queued else Cancelled, s.clock);
    Note(Put(s.(approvals := s.approvals[c.id := a]), c'), c,
         if approve then WasApproved(verified) else WasDenied(verified))
  }

  function AcceptResult(s: State, deviceId: Id, result: ActionResult): (r: (State, Reply<Command>))
    requires Filed(s)
    ensures Filed(r.0)
  {
    if result.commandId !in s.commands || s.commands[result.commandId].request.targetDeviceId != deviceId
      then (s, Refused(NotFound))
    else
      var c := s.commands[result.commandId];
      if Terminal(c.status) then (s, if c.status == result.status then Ok(c) else Refused(Conflict))
      else if c.status !in {Dispatched, Running} then (s, Refused(Conflict))
      else (Settle(s, c, result), Ok(WithStatus(c, result.status, s.clock)))
  }

  /** Stores a result, then the status it brings, then the event. */
  function Settle(s: State, c: Command, result: ActionResult): (s': State)
    requires Filed(s) && c.id in s.commands
    ensures Filed(s') && s'.order == s.order
  {
    Note(Put(s.(results := s.results[c.id := result]), WithStatus(c, result.status, s.clock)), c,
         HasReported(result.status, result.error))
  }

  // ---------------------------------------------------------------- gateway handlers

  function SetPresence(s: State, deviceId: Id, online: bool): State {
    if deviceId in s.devices
    then s.(devices := s.devices[deviceId := s.devices[deviceId].(online := online, lastSeenAt := Some(s.clock))])
    else s
  }

  function Attach(s: State, deviceId: Id, socket: Socket): State {
    var displaced := if deviceId in s.byDevice && s.byDevice[deviceId] != socket then {s.byDevice[deviceId]} else {};
    s.(byDevice := s.byDevice[deviceId := socket], bySocket := s.bySocket[socket := deviceId],
       open := s.open - displaced,
       hellos := s.hellos[deviceId := Epoch(s, deviceId) + 1], authed := s.authed + {(socket, deviceId)})
  }

  /** `valid` is the outcome of checking the credential that came with the hello. */
  function Hello(s: State, socket: Socket, deviceId: Id, valid: bool): (s': State)
    requires Filed(s)
    ensures Filed(s')
  {
    if deviceId !in s.devices || !valid then s.(open := s.open - {socket})
    else
      var s1 := SetPresence(Attach(s, deviceId, socket), deviceId, true);
      var pending := ListDispatchable(s1, deviceId);
      if s.devices[deviceId].kind == ExecutorDevice then DispatchAll(s1, pending) else s1
  }

  function Report(s: State, socket: Socket, result: ActionResult): (r: (State, Reply<Command>))
    requires Filed(s)
    ensures Filed(r.0)
  {
    if socket !in s.bySocket then (s, Refused(Forbidden))
    else AcceptResult(s, s.bySocket[socket], result)
  }

  function Heartbeat(s: State, socket: Socket, deviceId: Id): State {
    if socket in s.bySocket && s.bySocket[socket] == deviceId then SetPresence(s, deviceId, true) else s
  }

  function Signal(s: State, socket: Socket, targetDeviceId: Id, signal: string): State {
    if socket !in s.bySocket then s
    else
      var source := s.bySocket[socket];
      if source !in s.devices || targetDeviceId !in s.devices
         || s.devices[targetDeviceId].userId != s.devices[source].userId
         || Link(s, targetDeviceId).None?
      then s
      else Transmit(s, Link(s, targetDeviceId).value, targetDeviceId, SignalFrom(source, signal))
  }

  /** The socket's close event. Its entry in `bySocket` stays. */
  function Disconnect(s: State, socket: Socket): (s': State)
    ensures s'.commands == s.commands && s'.order == s.order
  {
    var closed := s.(open := s.open - {socket});
    if socket !in s.bySocket then closed
    else SetPresence(Detach(closed, socket, s.bySocket[socket]), s.bySocket[socket], false)
  }

  function Detach(s: State, socket: Socket, deviceId: Id): State {
    if deviceId in s.byDevice && s.byDevice[deviceId] == socket then s.(byDevice := s.byDevice - {deviceId}) else s
  }

  // ---------------------------------------------------------------- steps and runs

  datatype Step =
    | Tick(to: Instant)
    | DoRegister(userId: Id, deviceId: Id, kind: DeviceKind, tools: set<Tool>)
    | DoCreate(userId: Id, request: Request, id: Id)
    | DoDecide(userId: Id, id: Id, approve: bool, verified: bool)
    | DoGet(userId: Id, id: Id)
    | DoList(userId: Id, limit: int)
    | Connect(socket: Socket)
    | DoHello(socket: Socket, deviceId: Id, valid: bool)
    | DoReport(socket: Socket, result: ActionResult)
    | DoHeartbeat(socket: Socket, deviceId: Id)
    | DoSignal(socket: Socket, deviceId: Id, signal: string)
    | Shut(socket: Socket)         // the socket leaves its open state
    | DoDisconnect(socket: Socket) // the close event is handled

  /** Identifiers drawn by the server and new sockets are fresh; a hello comes over a known socket. */
  predicate Possible(s: State, step: Step) {
    match step
    case DoRegister(_, deviceId, _, _) => deviceId !in s.devices
    case DoCreate(_, _, id) => id !in s.commands
    case Connect(socket) => socket !in s.everOpen
    case DoHello(socket, _, _) => socket in s.everOpen
    case _ => true
  }

  datatype Response = Silent | One(reply: Reply<Command>) | Many(commands: seq<Command>)

  function Apply(s: State, step: Step): (r: (State, Response))
    requires Filed(s) && Possible(s, step)
    ensures Filed(r.0)
  {
    match step
    case Tick(to) => (s.(clock := if to > s.clock then to else s.clock), Silent)
    case DoRegister(userId, deviceId, kind, tools) =>
      (s.(devices := s.devices[deviceId := Device(userId, kind, tools, false, None)]), Silent)
    case DoCreate(userId, request, id) =>
      var (s', reply) := Create(s, userId, request, id); (s', One(reply))
    case DoDecide(userId, id, approve, verified) =>
      var (s', reply) := Decide(s, userId, id, approve, verified); (s', One(reply))
    case DoGet(userId, id) =>
      var (s', reply) := Get(s, userId, id); (s', One(reply))
    case DoList(userId, limit) =>
      var (s', listed) := List(s, userId, limit); (s', Many(listed))
    case Connect(socket) => (s.(open := s.open + {socket}, everOpen := s.everOpen + {socket}), Silent)
    case DoHello(socket, deviceId, valid) => (Hello(s, socket, deviceId, valid), Silent)
    case DoReport(socket, result) =>
      var (s', reply) := Report(s, socket, result); (s', One(reply))
    case DoHeartbeat(socket, deviceId) => (Heartbeat(s, socket, deviceId), Silent)
    case DoSignal(socket, deviceId, signal) => (Signal(s, socket, deviceId, signal), Silent)
    case Shut(socket) => (s.(open := s.open - {socket}), Silent)
    case DoDisconnect(socket) => (Disconnect(s, socket), Silent)
  }
}
