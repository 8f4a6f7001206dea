/** The command service and the gateway with every call cut at each `await`: between two cuts a call
    reads, does at most one write, and keeps its own copies, while other calls proceed. */
module Interleaving {
  import opened Wrappers
  import opened Protocol
  import opened Ordering
  import opened ServerInvariant
  import S = Server

  // ---------------------------------------------------------------- calls in flight

  datatype Decision = Decision(approve: bool, verified: bool)

  /** Where a call stands, and the copies it carries across the `await`. */
  datatype Pc =
    | CreateStart(userId: Id, request: Request)
    | CreateFound(userId: Id, request: Request, existing: Option<Command>)
    | CreateTargeted(userId: Id, request: Request, target: Option<Device>)
    | CreateStored(c: Command)
    | CreateGuarded(c: Command)
    | GetStart(userId: Id, id: Id, purpose: Option<Decision>)  // a decision begins with a get
    | GetGot(command: Option<Command>, purpose: Option<Decision>)
    | DecideGot(c: Command, decision: Decision)
    | DecideWeighed(c: Command, approval: Option<Approval>, decision: Decision)
    | DecideRuled(c: Command, decision: Decision)   // the approval is written, `c` is not yet
    | DecideStored(c: Command, decision: Decision)
    | Try(c: Command)
    | TryCleared(c: Command, approval: Option<Approval>)
    | TryClaiming(c: Command)
    | TrySending(c: Command)
    | ListStart(userId: Id, limit: int)
    | Expire(c: Command)
    | ExpireStored(c: Command)
    | HelloStart(socket: Socket, deviceId: Id, matches: bool)
    | HelloKnown(socket: Socket, deviceId: Id, device: Option<Device>)
    | HelloAttached(deviceId: Id, kind: DeviceKind)
    | ResultStart(socket: Socket, result: ActionResult)
    | ResultGot(deviceId: Id, command: Option<Command>, result: ActionResult)
    | ResultSaved(c: Command, result: ActionResult)
    | ResultStored(c: Command, result: ActionResult)

  datatype Origin = Creating | Deciding | Greeting | Listing | Other

  /** `queue` is what a loop over a listing still has to visit. */
  datatype Task = Task(origin: Origin, pc: Pc, queue: seq<Command>)

  /** The one write a segment may do. */
  datatype Effect =
    | Nothing
    | PutCommand(command: Command)
    | PutApproval(approval: Approval)
    | PutResult(result: ActionResult)
    | Record(command: Command, kind: Kind)
    | HandOut(command: Command)
    | Greet(socket: Socket, deviceId: Id)
    | TurnAway(socket: Socket)

  datatype Event = Wrote(approval: Approval) | Handed(command: Command)

  datatype World = World(s: S.State, tasks: map<nat, Task>, history: seq<Event>)

  const START := World(S.EMPTY, map[], [])

  // ---------------------------------------------------------------- one segment

  function Copies(commands: map<Id, Command>, ids: seq<Id>): (r: seq<Command>)
    requires forall id :: id in ids ==> id in commands
    ensures |r| == |ids| && forall k :: 0 <= k < |r| ==> r[k] == commands[ids[k]]
  {
    if ids == [] then [] else Copies(commands, ids[..|ids| - 1]) + [commands[ids[|ids| - 1]]]
  }

  /** The call after its loop body: the next element of its queue, or its end. */
  function Next(origin: Origin, queue: seq<Command>): Option<Task> {
    if queue == [] then None
    else Some(Task(origin, if origin == Listing then Expire(queue[0]) else Try(queue[0]), queue[1..]))
  }

  /** Goes on at `pc`. */
  function At(task: Task, pc: Pc): Option<Task> {
    Some(task.(pc := pc))
  }

  function Done(task: Task): Option<Task> {
    Next(task.origin, task.queue)
  }

  /** The start of `expireIfNeeded`; a command that need not expire is left to `otherwise`. */
  function Expiring(s: S.State, task: Task, c: Command, otherwise: Option<Task>): (Effect, Option<Task>) {
    if Overdue(c, s.clock)
    then (PutCommand(c.(status := Expired, updatedAt := s.clock)), At(task, ExpireStored(c)))
    else (Nothing, otherwise)
  }

  function Creates(s: S.State, task: Task, id: Id): (Effect, Option<Task>)
  {
    match task.pc
    case CreateStart(userId, request) =>
      var found := S.FindByKey(s, userId, request.idempotencyKey);
      if request.expiresAt <= s.clock || request.expiresAt - s.clock > MAX_COMMAND_LIFETIME_MS then (Nothing, None)
      else
        (Nothing, At(task, CreateFound(userId, request, if found.Some? then Some(s.commands[found.value]) else None)))
    case CreateFound(userId, request, Some(existing)) =>
      if existing.request != request then (Nothing, None)
      else Expiring(s, task, existing, None)
    case CreateFound(userId, request, None) =>
      var d := request.targetDeviceId;
      (Nothing, At(task, CreateTargeted(userId, request,
        if d in s.devices && s.devices[d].userId == userId then Some(s.devices[d]) else None)))
    case CreateTargeted(userId, request, target) =>
      if target.None? || target.value.kind != ExecutorDevice || request.tool !in target.value.tools then (Nothing, None)
      else
        var c := Command(id, userId, request, PolicyForTool(request.tool).risk, InitialStatus(request.tool),
                         s.clock, s.clock);
        (PutCommand(c), At(task, CreateStored(c)))
    case CreateStored(c) =>
      if NeedsApproval(c.request.tool)
      then (PutApproval(Approval(c.id, c.userId, Pending, NeedsBiometric(c.request.tool), false, None, None,
                                 c.createdAt)),
            At(task, CreateGuarded(c)))
      else (Record(c, WasCreated(c.status)), At(task, Try(c)))
    case CreateGuarded(c) => (Record(c, WasCreated(c.status)), At(task, Try(c)))
    case _ => (Nothing, None)
  }

  function Decides(s: S.State, task: Task): (Effect, Option<Task>) {
    match task.pc
    case GetStart(userId, id, purpose) => (Nothing, At(task, GetGot(S.GetCommand(s, userId, id), purpose)))
    case GetGot(None, purpose) => (Nothing, None)
    case GetGot(Some(c), purpose) =>
      Expiring(s, task, c, if purpose.Some? then At(task, DecideGot(c, purpose.value)) else None)
    case DecideGot(c, decision) =>
      if c.status != AwaitingApproval then (Nothing, None)
      else (Nothing, At(task, DecideWeighed(c, S.GetApproval(s, c.userId, c.id), decision)))
    case DecideWeighed(c, approval, decision) =>
      if approval.None? || approval.value.decision != Pending then (Nothing, None)
      else if approval.value.biometricRequired && decision.approve && !decision.verified then (Nothing, None)
      else
        (PutApproval(approval.value.(decision := if decision.approve then Granted else Denied,
                                     biometricVerified := decision.verified, decidedAt := Some(s.clock))),
         At(task, DecideRuled(c.(status := if decision.approve then Queued else Cancelled, updatedAt := s.clock),
                              decision)))
    case DecideRuled(c, decision) => (PutCommand(c), At(task, DecideStored(c, decision)))
    case DecideStored(c, decision) =>
      (Record(c, if decision.approve then WasApproved(decision.verified) else WasDenied(decision.verified)),
       At(task, Try(c)))
    case _ => (Nothing, None)
  }

  function Tries(s: S.State, task: Task): (Effect, Option<Task>) {
    match task.pc
    case Try(c) =>
      if c.status !in {Queued, Dispatched} then (Nothing, Done(task))
      else if c.request.expiresAt <= s.clock then Expiring(s, task, c, Done(task))
      else if S.Link(s, c.request.targetDeviceId).None? then (Nothing, Done(task))
      else if c.status == Dispatched then (HandOut(c), Done(task))
      else if NeedsApproval(c.request.tool) then (Nothing, At(task, TryCleared(c, S.GetApproval(s, c.userId, c.id))))
      else Claims(s, task, c)
    case TryCleared(c, approval) =>
      if approval.None? || approval.value.decision != Granted then (Nothing, Done(task))
      else if approval.value.consumedAt.None?
        then (PutApproval(approval.value.(consumedAt := Some(s.clock))), At(task, TryClaiming(c)))
      else Claims(s, task, c)
    case TryClaiming(c) => Claims(s, task, c)
    case TrySending(c) => (HandOut(c), Done(task))
    case Expire(c) => Expiring(s, task, c, Done(task))
    case ExpireStored(c) => (Record(c, HasExpired), Done(task))
    case ListStart(userId, limit) =>
      (Nothing, Next(Listing, Copies(s.commands, S.ListCommands(s, userId, S.ListLimit(limit)))))
    case _ => (Nothing, None)
  }

  function Claims(s: S.State, task: Task, c: Command): (Effect, Option<Task>) {
    var claimed := c.(status := Dispatched, updatedAt := s.clock);
    (PutCommand(claimed), At(task, TrySending(claimed)))
  }

  function Greets(s: S.State, task: Task): (Effect, Option<Task>) {
    match task.pc
    case HelloStart(socket, deviceId, matches) =>
      (Nothing, At(task, HelloKnown(socket, deviceId, if matches then Lookup(s.devices, deviceId) else None)))
    case HelloKnown(socket, deviceId, None) => (TurnAway(socket), None)
    case HelloKnown(socket, deviceId, Some(device)) =>
      (Greet(socket, deviceId), At(task, HelloAttached(deviceId, device.kind)))
    case HelloAttached(deviceId, kind) =>
      if kind != ExecutorDevice then (Nothing, None)
      else (Nothing, Next(Greeting, Copies(s.commands, S.ListDispatchable(s, deviceId))))
    case _ => (Nothing, None)
  }

  function Reports(s: S.State, task: Task): (Effect, Option<Task>) {
    match task.pc
    case ResultStart(socket, result) =>
      if socket !in s.bySocket then (Nothing, None)
      else (Nothing, At(task, ResultGot(s.bySocket[socket], Lookup(s.commands, result.commandId), result)))
    case ResultGot(deviceId, None, result) => (Nothing, None)
    case ResultGot(deviceId, Some(c), result) =>
      if c.request.targetDeviceId != deviceId || c.status !in {Dispatched, Running} then (Nothing, None)
      else (PutResult(result), At(task, ResultSaved(c, result)))
    case ResultSaved(c, result) =>
      (PutCommand(c.(status := result.status, updatedAt := s.clock)), At(task, ResultStored(c, result)))
    case ResultStored(c, result) => (Record(c, HasReported(result.status, result.error)), None)
    case _ => (Nothing, None)
  }

  /** What the call does until its next `await`; `id` is the identifier it draws if it needs one. */
  function Segment(s: S.State, task: Task, id: Id): (Effect, Option<Task>) {
    match task.pc
    case CreateStart(_, _) | CreateFound(_, _, _) | CreateTargeted(_, _, _) | CreateStored(_) | CreateGuarded(_) =>
      Creates(s, task, id)
    case GetStart(_, _, _) | GetGot(_, _) | DecideGot(_, _) | DecideWeighed(_, _, _) | DecideRuled(_, _)
       | DecideStored(_, _) =>
      Decides(s, task)
    case Try(_) | TryCleared(_, _) | TryClaiming(_) | TrySending(_) | ListStart(_, _) | Expire(_) | ExpireStored(_) =>
      Tries(s, task)
    case HelloStart(_, _, _) | HelloKnown(_, _, _) | HelloAttached(_, _) => Greets(s, task)
    case ResultStart(_, _) | ResultGot(_, _, _) | ResultSaved(_, _) | ResultStored(_, _) => Reports(s, task)
  }

  function Perform(s: S.State, e: Effect): S.State {
    match e
    case Nothing => s
    case PutCommand(c) => S.Put(s, c)
    case PutApproval(a) => s.(approvals := s.approvals[a.commandId := a])
    case PutResult(r) => s.(results := s.results[r.commandId := r])
    case Record(c, kind) => S.Note(s, c, kind)
    case HandOut(c) =>
      var link := S.Link(s, c.request.targetDeviceId);
      if link.None? then s
      else S.Note(S.Transmit(s, link.value, c.request.targetDeviceId, DispatchOf(c)), c, WasDispatched)
    case Greet(socket, deviceId) => S.SetPresence(S.Attach(s, deviceId, socket), deviceId, true)
    case TurnAway(socket) => s.(open := s.open - {socket})
  }

  function Remembered(s: S.State, e: Effect): seq<Event> {
    match e
    case PutApproval(a) => [Wrote(a)]
    case HandOut(c) => if S.Link(s, c.request.targetDeviceId).Some? then [Handed(c)] else []
    case _ => []
  }

  // ---------------------------------------------------------------- moves of the whole

  datatype Move =
    | Tick(to: Instant)
    | Register(userId: Id, deviceId: Id, kind: DeviceKind, tools: set<Tool>)
    | Connect(socket: Socket)
    | Shut(socket: Socket)
    | Disconnected(socket: Socket)
    | Spawn(t: nat, pc: Pc)          // a call comes in
    | Advance(t: nat, id: Id)        // a call goes on to its next `await`

  predicate Starts(pc: Pc) {
    pc.CreateStart? || pc.GetStart? || pc.ListStart? || pc.HelloStart? || pc.ResultStart?
  }

  function OriginOf(pc: Pc): Origin {
    match pc
    case CreateStart(_, _) => Creating
    case GetStart(_, _, Some(_)) => Deciding
    case HelloStart(_, _, _) => Greeting
    case ListStart(_, _) => Listing
    case _ => Other
  }

  predicate Possible(w: World, m: Move) {
    match m
    case Register(_, deviceId, _, _) => deviceId !in w.s.devices
    case Connect(socket) => socket !in w.s.everOpen
    case Spawn(t, pc) => t !in w.tasks && Starts(pc) && (pc.HelloStart? ==> pc.socket in w.s.everOpen)
    case Advance(t, id) => t in w.tasks && id !in w.s.commands
    case _ => true
  }

  function Moved(w: World, m: Move): World
    requires Possible(w, m)
  {
    match m
    case Tick(to) => w.(s := w.s.(clock := if to > w.s.clock then to else w.s.clock))
    case Register(userId, deviceId, kind, tools) =>
      w.(s := w.s.(devices := w.s.devices[deviceId := Device(userId, kind, tools, false, None)]))
    case Connect(socket) => w.(s := w.s.(open := w.s.open + {socket}, everOpen := w.s.everOpen + {socket}))
    case Shut(socket) => w.(s := w.s.(open := w.s.open - {socket}))
    case Disconnected(socket) => w.(s := S.Disconnect(w.s, socket))
    case Spawn(t, pc) => w.(tasks := w.tasks[t := Task(OriginOf(pc), pc, [])])
    case Advance(t, id) =>
      var (e, next) := Segment(w.s, w.tasks[t], id);
      World(Perform(w.s, e), if next.Some? then w.tasks[t := next.value] else w.tasks - {t},
            w.history + Remembered(w.s, e))
  }

  /** `moves` leads from `w` to `w'`. */
  ghost predicate Runs(w: World, moves: seq<Move>, w': World)
    decreases |moves|
  {
    if moves == [] then w' == w
    else Possible(w, moves[0]) && Runs(Moved(w, moves[0]), moves[1..], w')
  }

  ghost predicate Leads(w: World, w': World) {
    exists moves :: Runs(w, moves, w')
  }

  ghost predicate Reachable(w: World) {
    Leads(START, w)
  }

  lemma LeadsSelf(w: World)
    ensures Leads(w, w)
  {
    assert Runs(w, [], w);
  }

  lemma {:induction false} RunsOn(w: World, moves: seq<Move>, w': World, m: Move)
    requires Runs(w, moves, w') && Possible(w', m)
    ensures Runs(w, moves + [m], Moved(w', m))
    decreases |moves|
  {
    hide Moved, Possible;
    if moves == [] {
      assert Runs(Moved(w, m), [], Moved(w, m));
      assert ([m])[1..] == [] && moves + [m] == [m];
    } else {
      RunsOn(Moved(w, moves[0]), moves[1..], w', m);
      assert (moves + [m])[1..] == moves[1..] + [m];
    }
  }

  /** One more move. */
  lemma MovesOn(w0: World, w: World, m: Move) returns (w': World)
    requires Leads(w0, w) && Possible(w, m)
    ensures Leads(w0, w') && w' == Moved(w, m)
  {
    hide Moved, Possible;
    var moves :| Runs(w0, moves, w);
    w' := Moved(w, m);
    RunsOn(w0, moves, w, m);
  }

  /** One call goes on to its next `await`. */
  lemma GoesOn(w0: World, w: World, t: nat, id: Id) returns (w': World)
    requires Leads(w0, w) && t in w.tasks && id !in w.s.commands
    ensures Leads(w0, w') && w' == Moved(w, Advance(t, id))
    ensures var (e, next) := Segment(w.s, w.tasks[t], id);
      && w'.s == Perform(w.s, e) && w'.history == w.history + Remembered(w.s, e)
      && w'.tasks == if next.Some? then w.tasks[t := next.value] else w.tasks - {t}
  {
    hide Leads, Segment, Perform, Remembered;
    w' := MovesOn(w0, w, Advance(t, id));
  }
}
