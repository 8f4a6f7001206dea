/** What holds however calls interleave: approvals are verified, and no dispatch goes out unapproved. */
module InterleavingSafety {
  import opened Wrappers
  import opened Protocol
  import opened Ordering
  import opened ServerInvariant
  import opened Interleaving
  import S = Server

  // ---------------------------------------------------------------- the invariant

  /** This write approves the command, verified if the tool demands it. */
  predicate Grants(e: Event, id: Id, tool: Tool) {
    && e.Wrote? && e.approval.commandId == id && e.approval.decision == Granted
    && (NeedsBiometric(tool) ==> e.approval.biometricVerified)
  }

  ghost predicate Authorised(history: seq<Event>, id: Id, tool: Tool) {
    exists j :: 0 <= j < |history| && Grants(history[j], id, tool)
  }

  predicate Released(status: Status) {
    status in {Queued, Dispatched, Running, Succeeded, Failed}
  }

  ghost predicate Cleared(h: seq<Event>, c: Command) {
    && (NeedsApproval(c.request.tool) && Released(c.status) ==> Authorised(h, c.id, c.request.tool))
    && (!NeedsApproval(c.request.tool) ==> c.status !in {AwaitingApproval, Cancelled})
  }

  /** A copy, however old: it names a stored command, a released status was paid for by an approval,
      and no copy of an approval-free command is further on than one still stored as queued. */
  ghost predicate CopyOk(s: S.State, h: seq<Event>, c: Command) {
    && c.id in s.commands && SameIdentity(s.commands[c.id], c) && Cleared(h, c)
    && (!NeedsApproval(c.request.tool) && s.commands[c.id].status == Queued ==> c.status == Queued)
  }

  ghost predicate ApprovalOk(s: S.State, h: seq<Event>, a: Approval) {
    && a.commandId in s.commands
    && a.biometricRequired == NeedsBiometric(s.commands[a.commandId].request.tool)
    && a.userId == s.commands[a.commandId].userId
    && (a.decision == Granted ==> Authorised(h, a.commandId, s.commands[a.commandId].request.tool)
                                  && (a.biometricRequired ==> a.biometricVerified))
  }

  ghost predicate DeviceOk(s: S.State, deviceId: Id, device: Device) {
    deviceId in s.devices && SameDevice(s.devices[deviceId], device)
  }

  ghost predicate MaybeCopyOk(s: S.State, h: seq<Event>, c: Option<Command>) {
    c.Some? ==> CopyOk(s, h, c.value)
  }

  ghost predicate MaybeApprovalOk(s: S.State, h: seq<Event>, id: Id, a: Option<Approval>) {
    a.Some? ==> ApprovalOk(s, h, a.value) && a.value.commandId == id
  }

  ghost predicate PcOk(s: S.State, h: seq<Event>, pc: Pc) {
    match pc
    case CreateFound(_, request, existing) => MaybeCopyOk(s, h, existing)
    case CreateTargeted(userId, request, target) =>
      target.Some? ==> DeviceOk(s, request.targetDeviceId, target.value) && target.value.userId == userId
    case CreateStored(c) => CopyOk(s, h, c)
    case CreateGuarded(c) => CopyOk(s, h, c)
    case GetGot(c, _) => MaybeCopyOk(s, h, c)
    case DecideGot(c, _) => CopyOk(s, h, c)
    case DecideWeighed(c, a, _) =>
      CopyOk(s, h, c) && c.status == AwaitingApproval && MaybeApprovalOk(s, h, c.id, a)
    case DecideRuled(c, _) => CopyOk(s, h, c) && NeedsApproval(c.request.tool)
    case DecideStored(c, _) => CopyOk(s, h, c) && NeedsApproval(c.request.tool)
    case Try(c) => CopyOk(s, h, c)
    case TryCleared(c, a) => CopyOk(s, h, c) && c.status == Queued && MaybeApprovalOk(s, h, c.id, a)
    case TryClaiming(c) => CopyOk(s, h, c) && c.status == Queued
    case TrySending(c) => CopyOk(s, h, c) && c.status == Dispatched
    case Expire(c) => CopyOk(s, h, c)
    case ExpireStored(c) => c.id in s.commands && SameIdentity(s.commands[c.id], c)
    case HelloStart(socket, _, _) => socket in s.everOpen
    case HelloKnown(socket, deviceId, device) =>
      socket in s.everOpen && (device.Some? ==> DeviceOk(s, deviceId, device.value))
    case HelloAttached(deviceId, kind) => deviceId in s.devices && s.devices[deviceId].kind == kind
    case ResultGot(_, c, _) => MaybeCopyOk(s, h, c)
    case ResultSaved(c, _) => CopyOk(s, h, c) && c.status in {Dispatched, Running}
    case ResultStored(c, _) => c.id in s.commands && SameIdentity(s.commands[c.id], c)
    case _ => true
  }

  /** Where a call can stand that loops over a listing. */
  predicate Loops(pc: Pc) {
    pc.Try? || pc.TryCleared? || pc.TryClaiming? || pc.TrySending? || pc.Expire? || pc.ExpireStored?
  }

  predicate OriginOk(task: Task) {
    && (task.queue == [] || (Loops(task.pc) && task.origin in {Greeting, Listing}))
    && match task.pc
       case CreateStart(_, _) | CreateFound(_, _, _) | CreateTargeted(_, _, _) | CreateStored(_) | CreateGuarded(_) =>
         task.origin == Creating
       case DecideGot(_, _) | DecideWeighed(_, _, _) | DecideRuled(_, _) | DecideStored(_, _) => task.origin == Deciding
       case Try(_) | TryCleared(_, _) | TryClaiming(_) | TrySending(_) =>
         && task.origin in {Creating, Deciding, Greeting}
         && (task.origin == Deciding ==> NeedsApproval(task.pc.c.request.tool))
       case GetStart(_, _, purpose) => purpose.Some? ==> task.origin == Deciding
       case GetGot(_, purpose) => purpose.Some? ==> task.origin == Deciding
       case HelloStart(_, _, _) | HelloKnown(_, _, _) | HelloAttached(_, _) => task.origin == Greeting
       case _ => true
  }

  ghost predicate QueueOk(s: S.State, h: seq<Event>, queue: seq<Command>) {
    forall k :: 0 <= k < |queue| ==> CopyOk(s, h, queue[k])
  }

  ghost predicate TaskOk(s: S.State, h: seq<Event>, task: Task) {
    OriginOk(task) && PcOk(s, h, task.pc) && QueueOk(s, h, task.queue)
  }

  ghost predicate StoredOk(s: S.State, h: seq<Event>, id: Id)
    requires id in s.commands
  {
    s.commands[id].id == id && CopyOk(s, h, s.commands[id]) && Owned(s, s.commands[id])
  }

  /** Every approving write is verified if it must be, and every dispatch of a command that needs
      approval comes after a write that grants it. */
  ghost predicate HistoryOk(h: seq<Event>) {
    forall k :: 0 <= k < |h| ==>
      match h[k]
      case Wrote(a) => a.decision == Granted && a.biometricRequired ==> a.biometricVerified
      case Handed(c) => NeedsApproval(c.request.tool) ==> Authorised(h[..k], c.id, c.request.tool)
  }

  ghost predicate ApprovalsOk(s: S.State, h: seq<Event>) {
    forall id :: id in s.approvals ==> s.approvals[id].commandId == id && ApprovalOk(s, h, s.approvals[id])
  }

  ghost predicate AllStoredOk(s: S.State, h: seq<Event>) {
    forall id :: id in s.commands ==> StoredOk(s, h, id)
  }

  /** The commands are filed in order, and the registry knows only sockets that were opened. */
  ghost predicate Shaped(s: S.State) {
    S.Filed(s) && s.open <= s.everOpen && (forall d :: d in s.byDevice ==> s.byDevice[d] in s.everOpen)
  }

  ghost predicate StoreOk(s: S.State, h: seq<Event>) {
    && AllStoredOk(s, h)
    && ApprovalsOk(s, h)
    && HistoryOk(h)
    && Shaped(s)
  }

  ghost predicate Safe(w: World) {
    StoreOk(w.s, w.history) && forall t :: t in w.tasks ==> TaskOk(w.s, w.history, w.tasks[t])
  }

  // ---------------------------------------------------------------- what no step takes back

  ghost predicate Extends(s: S.State, h: seq<Event>, s': S.State, h': seq<Event>) {
    && h <= h' && s.everOpen <= s'.everOpen
    && (forall id :: id in s.commands ==> id in s'.commands && SameIdentity(s.commands[id], s'.commands[id]))
    && (forall id | id in s.commands && !NeedsApproval(s.commands[id].request.tool) ::
          s'.commands[id].status == Queued ==> s.commands[id].status == Queued)
    && (forall d :: d in s.devices ==> d in s'.devices && SameDevice(s.devices[d], s'.devices[d]))
  }

  lemma AuthorisedKept(h: seq<Event>, h': seq<Event>, id: Id, tool: Tool)
    requires h <= h' && Authorised(h, id, tool)
    ensures Authorised(h', id, tool)
  {
    var j :| 0 <= j < |h| && Grants(h[j], id, tool);
    assert h'[j] == h[j];
  }

  lemma CopyKept(s: S.State, h: seq<Event>, s': S.State, h': seq<Event>, c: Command)
    requires Extends(s, h, s', h') && CopyOk(s, h, c)
    ensures CopyOk(s', h', c)
  {
    hide Authorised;
    if NeedsApproval(c.request.tool) && Released(c.status) {
      AuthorisedKept(h, h', c.id, c.request.tool);
    }
  }

  lemma ApprovalKept(s: S.State, h: seq<Event>, s': S.State, h': seq<Event>, a: Approval)
    requires Extends(s, h, s', h') && ApprovalOk(s, h, a)
    ensures ApprovalOk(s', h', a)
  {
    hide Authorised;
    if a.decision == Granted {
      AuthorisedKept(h, h', a.commandId, s.commands[a.commandId].request.tool);
    }
  }

  lemma PcKept(s: S.State, h: seq<Event>, s': S.State, h': seq<Event>, pc: Pc)
    requires Extends(s, h, s', h') && PcOk(s, h, pc)
    ensures PcOk(s', h', pc)
  {
    hide CopyOk, ApprovalOk;
    assert forall c :: CopyOk(s, h, c) ==> CopyOk(s', h', c) by {
      forall c | CopyOk(s, h, c) ensures CopyOk(s', h', c) { CopyKept(s, h, s', h', c); }
    }
    assert forall a :: ApprovalOk(s, h, a) ==> ApprovalOk(s', h', a) by {
      forall a | ApprovalOk(s, h, a) ensures ApprovalOk(s', h', a) { ApprovalKept(s, h, s', h', a); }
    }
  }

  lemma TaskKept(s: S.State, h: seq<Event>, s': S.State, h': seq<Event>, task: Task)
    requires Extends(s, h, s', h') && TaskOk(s, h, task)
    ensures TaskOk(s', h', task)
  {
    hide PcOk, CopyOk, Extends;
    PcKept(s, h, s', h', task.pc);
    forall k | 0 <= k < |task.queue|
      ensures CopyOk(s', h', task.queue[k])
    {
      CopyKept(s, h, s', h', task.queue[k]);
    }
  }

  // ---------------------------------------------------------------- the writes

  ghost predicate EffectOk(s: S.State, h: seq<Event>, e: Effect) {
    match e
    case PutCommand(c) =>
      if c.id in s.commands
      then SameIdentity(s.commands[c.id], c) && Cleared(h, c) && (!NeedsApproval(c.request.tool) ==> c.status != Queued)
      else Owned(s, c) && c.status == InitialStatus(c.request.tool)
    case PutApproval(a) =>
      && a.commandId in s.commands
      && a.biometricRequired == NeedsBiometric(s.commands[a.commandId].request.tool)
      && a.userId == s.commands[a.commandId].userId
      && (a.decision == Granted && a.biometricRequired ==> a.biometricVerified)
    case HandOut(c) => CopyOk(s, h, c) && c.status == Dispatched
    case Greet(socket, deviceId) => socket in s.everOpen && deviceId in s.devices
    case _ => true
  }

  lemma StoredKept(s: S.State, h: seq<Event>, s': S.State, h': seq<Event>, id: Id)
    requires Extends(s, h, s', h') && id in s.commands && StoredOk(s, h, id) && s'.commands[id] == s.commands[id]
    ensures id in s'.commands && StoredOk(s', h', id)
  {
    assert id in s'.commands && Owned(s', s.commands[id]);
    hide CopyOk, Extends, Owned;
    CopyKept(s, h, s', h', s.commands[id]);
  }

  lemma StoreIs(s: S.State, h: seq<Event>)
    ensures StoreOk(s, h) <==> AllStoredOk(s, h) && ApprovalsOk(s, h) && HistoryOk(h) && Shaped(s)
  {
  }

  lemma ApprovalsKept(s: S.State, h: seq<Event>, s': S.State, h': seq<Event>)
    requires Extends(s, h, s', h') && ApprovalsOk(s, h) && s'.approvals == s.approvals
    ensures ApprovalsOk(s', h')
  {
    hide ApprovalOk, Extends;
    forall id | id in s'.approvals
      ensures s'.approvals[id].commandId == id && ApprovalOk(s', h', s'.approvals[id])
    {
      ApprovalKept(s, h, s', h', s.approvals[id]);
    }
  }

  lemma AllStoredKept(s: S.State, h: seq<Event>, s': S.State, h': seq<Event>)
    requires Extends(s, h, s', h') && AllStoredOk(s, h) && s'.commands == s.commands
    ensures AllStoredOk(s', h')
  {
    hide StoredOk, Extends;
    forall id | id in s'.commands
      ensures StoredOk(s', h', id)
    {
      StoredKept(s, h, s', h', id);
    }
  }

  /** A write that leaves commands and approvals alone. */
  lemma ElsewhereOk(s: S.State, h: seq<Event>, s': S.State, h': seq<Event>)
    requires StoreOk(s, h) && Extends(s, h, s', h') && HistoryOk(h') && Shaped(s')
    requires s'.commands == s.commands && s'.approvals == s.approvals
    ensures StoreOk(s', h')
  {
    StoreIs(s, h);
    StoreIs(s', h');
    hide *;
    AllStoredKept(s, h, s', h');
    ApprovalsKept(s, h, s', h');
  }

  lemma PutCommandExtends(s: S.State, h: seq<Event>, c: Command)
    requires EffectOk(s, h, PutCommand(c))
    ensures Extends(s, h, S.Put(s, c), h)
  {
  }

  lemma PutCommandStored(s: S.State, h: seq<Event>, c: Command)
    requires EffectOk(s, h, PutCommand(c)) && AllStoredOk(s, h)
    ensures StoredOk(S.Put(s, c), h, c.id)
  {
    var s' := S.Put(s, c);
    assert c.id in s.commands ==> Owned(s, s.commands[c.id]);
    hide Authorised;
    assert Cleared(h, c);
    assert CopyOk(s', h, c);
    assert Owned(s', c);
  }

  lemma PutCommandOk(s: S.State, h: seq<Event>, c: Command)
    requires StoreOk(s, h) && EffectOk(s, h, PutCommand(c))
    ensures StoreOk(S.Put(s, c), h) && Extends(s, h, S.Put(s, c), h)
  {
    var s' := S.Put(s, c);
    StoreIs(s, h);
    StoreIs(s', h);
    PutCommandExtends(s, h, c);
    PutCommandStored(s, h, c);
    assert Shaped(s) ==> Shaped(s');
    hide Extends, StoredOk, HistoryOk, Shaped, StoreOk, ApprovalsOk, EffectOk;
    forall id | id in s'.commands
      ensures StoredOk(s', h, id)
    {
      if id != c.id {
        StoredKept(s, h, s', h, id);
      }
    }
    ApprovalsKept(s, h, s', h);
  }

  lemma HistoryWrote(h: seq<Event>, a: Approval)
    requires HistoryOk(h) && (a.decision == Granted && a.biometricRequired ==> a.biometricVerified)
    ensures HistoryOk(h + [Wrote(a)])
  {
    var h' := h + [Wrote(a)];
    hide Authorised;
    forall k | 0 <= k < |h|
      ensures h'[k] == h[k] && h'[..k] == h[..k]
    {
    }
  }

  lemma HistoryHanded(h: seq<Event>, c: Command)
    requires HistoryOk(h) && (NeedsApproval(c.request.tool) ==> Authorised(h, c.id, c.request.tool))
    ensures HistoryOk(h + [Handed(c)])
  {
    var h' := h + [Handed(c)];
    hide Authorised;
    forall k | 0 <= k < |h|
      ensures h'[k] == h[k] && h'[..k] == h[..k]
    {
    }
    assert h'[..|h|] == h;
  }

  lemma PutApprovalExtends(s: S.State, h: seq<Event>, a: Approval)
    ensures Extends(s, h, Perform(s, PutApproval(a)), h + [Wrote(a)])
  {
  }

  lemma WroteOk(s: S.State, h: seq<Event>, a: Approval)
    requires EffectOk(s, h, PutApproval(a))
    ensures ApprovalOk(Perform(s, PutApproval(a)), h + [Wrote(a)], a)
  {
    if a.decision == Granted {
      assert Grants((h + [Wrote(a)])[|h|], a.commandId, s.commands[a.commandId].request.tool);
    }
  }

  lemma PutApprovalOk(s: S.State, h: seq<Event>, a: Approval)
    requires StoreOk(s, h) && EffectOk(s, h, PutApproval(a))
    ensures var (s', h') := (Perform(s, PutApproval(a)), h + [Wrote(a)]);
      StoreOk(s', h') && Extends(s, h, s', h')
  {
    var (s', h') := (Perform(s, PutApproval(a)), h + [Wrote(a)]);
    StoreIs(s, h);
    StoreIs(s', h');
    PutApprovalExtends(s, h, a);
    WroteOk(s, h, a);
    HistoryWrote(h, a);
    assert Shaped(s) ==> Shaped(s');
    hide Extends, ApprovalOk, HistoryOk, Shaped, AllStoredOk, StoreOk, EffectOk;
    AllStoredKept(s, h, s', h');
    forall id | id in s'.approvals
      ensures s'.approvals[id].commandId == id && ApprovalOk(s', h', s'.approvals[id])
    {
      if id != a.commandId {
        ApprovalKept(s, h, s', h', s.approvals[id]);
      }
    }
  }

  lemma OthersExtend(s: S.State, h: seq<Event>, e: Effect)
    requires !e.PutCommand? && !e.PutApproval?
    ensures Extends(s, h, Perform(s, e), h + Remembered(s, e))
    ensures Perform(s, e).commands == s.commands && Perform(s, e).approvals == s.approvals
  {
  }

  lemma OthersShaped(s: S.State, h: seq<Event>, e: Effect)
    requires Shaped(s) && EffectOk(s, h, e)
    ensures Shaped(Perform(s, e))
  {
    hide CopyOk;
  }

  lemma OthersHistory(s: S.State, h: seq<Event>, e: Effect)
    requires HistoryOk(h) && EffectOk(s, h, e) && !e.PutApproval?
    ensures HistoryOk(h + Remembered(s, e))
  {
    if e.HandOut? && S.Link(s, e.command.request.targetDeviceId).Some? {
      assert NeedsApproval(e.command.request.tool) ==> Authorised(h, e.command.id, e.command.request.tool);
      hide HistoryOk, Authorised;
      HistoryHanded(h, e.command);
    } else {
      assert h + [] == h;
    }
  }

  /** Every admissible write keeps the store in order and takes nothing back. */
  lemma PerformOk(s: S.State, h: seq<Event>, e: Effect)
    requires StoreOk(s, h) && EffectOk(s, h, e)
    ensures StoreOk(Perform(s, e), h + Remembered(s, e))
    ensures Extends(s, h, Perform(s, e), h + Remembered(s, e))
  {
    StoreIs(s, h);
    if e.PutCommand? {
      assert h + [] == h;
      assert Perform(s, e) == S.Put(s, e.command) && Remembered(s, e) == [];
      hide *;
      PutCommandOk(s, h, e.command);
    } else if e.PutApproval? {
      assert Remembered(s, e) == [Wrote(e.approval)];
      hide *;
      PutApprovalOk(s, h, e.approval);
    } else {
      hide *;
      OthersExtend(s, h, e);
      OthersShaped(s, h, e);
      OthersHistory(s, h, e);
      ElsewhereOk(s, h, Perform(s, e), h + Remembered(s, e));
    }
  }

  // ---------------------------------------------------------------- the segments

  lemma ReadOk(s: S.State, h: seq<Event>, id: Id)
    requires StoreOk(s, h) && id in s.commands
    ensures CopyOk(s, h, s.commands[id]) && s.commands[id].id == id && Owned(s, s.commands[id])
    ensures id in s.approvals ==> ApprovalOk(s, h, s.approvals[id]) && s.approvals[id].commandId == id
  {
    hide CopyOk, Owned, ApprovalOk;
    assert StoredOk(s, h, id);
  }

  lemma CopiesOk(s: S.State, h: seq<Event>, ids: seq<Id>)
    requires StoreOk(s, h) && forall id :: id in ids ==> id in s.commands
    ensures QueueOk(s, h, Copies(s.commands, ids))
  {
    hide StoreOk, CopyOk;
    forall k | 0 <= k < |ids|
      ensures CopyOk(s, h, s.commands[ids[k]])
    {
      assert ids[k] in ids;
      ReadOk(s, h, ids[k]);
    }
  }

  lemma NextOk(s: S.State, h: seq<Event>, origin: Origin, queue: seq<Command>)
    requires QueueOk(s, h, queue) && Next(origin, queue).Some? && origin in {Greeting, Listing}
    ensures TaskOk(s, h, Next(origin, queue).value)
  {
    hide CopyOk;
    assert CopyOk(s, h, queue[0]);
  }

  lemma ExpiringOk(s: S.State, h: seq<Event>, task: Task, c: Command, otherwise: Option<Task>)
    requires CopyOk(s, h, c)
    ensures EffectOk(s, h, Expiring(s, task, c, otherwise).0)
  {
    hide Authorised;
  }

  lemma ClaimsOk(s: S.State, h: seq<Event>, task: Task, c: Command)
    requires CopyOk(s, h, c) && c.status == Queued
    ensures EffectOk(s, h, Claims(s, task, c).0)
  {
    hide Authorised;
  }

  lemma CreatesOk(s: S.State, h: seq<Event>, task: Task, id: Id)
    requires TaskOk(s, h, task) && id !in s.commands
    ensures EffectOk(s, h, Creates(s, task, id).0)
  {
    hide QueueOk, Cleared;
    match task.pc {
      case CreateFound(_, request, Some(existing)) =>
        hide Expiring, CopyOk, EffectOk;
        assert CopyOk(s, h, existing);
        ExpiringOk(s, h, task, existing, None);
      case CreateTargeted(_, _, _) =>
      case CreateStored(c) =>
      case _ =>
    }
  }

  lemma DecidesOk(s: S.State, h: seq<Event>, task: Task)
    requires TaskOk(s, h, task)
    ensures EffectOk(s, h, Decides(s, task).0)
  {
    hide QueueOk, Authorised;
    match task.pc {
      case GetGot(Some(c), purpose) =>
        hide Expiring, CopyOk, EffectOk;
        assert CopyOk(s, h, c);
        ExpiringOk(s, h, task, c, if purpose.Some? then At(task, DecideGot(c, purpose.value)) else None);
      case _ =>
    }
  }

  lemma TriesOk(s: S.State, h: seq<Event>, task: Task)
    requires TaskOk(s, h, task)
    ensures EffectOk(s, h, Tries(s, task).0)
  {
    hide QueueOk, Authorised;
    match task.pc {
      case Try(c) =>
        hide Expiring, CopyOk, Claims;
        assert CopyOk(s, h, c);
        ExpiringOk(s, h, task, c, Done(task));
        if c.status == Queued { ClaimsOk(s, h, task, c); }
      case TryCleared(c, approval) =>
        hide CopyOk, Claims;
        ClaimsOk(s, h, task, c);
      case TryClaiming(c) =>
        hide CopyOk, Claims;
        ClaimsOk(s, h, task, c);
      case Expire(c) =>
        hide Expiring, CopyOk;
        ExpiringOk(s, h, task, c, Done(task));
      case _ =>
    }
  }

  lemma ReportsOk(s: S.State, h: seq<Event>, task: Task)
    requires TaskOk(s, h, task)
    ensures EffectOk(s, h, Reports(s, task).0)
  {
    hide QueueOk, Authorised;
  }

  lemma GreetsOk(s: S.State, h: seq<Event>, task: Task)
    requires TaskOk(s, h, task)
    ensures EffectOk(s, h, Greets(s, task).0)
  {
    hide QueueOk, Authorised;
  }

  /** What is known right after a write: the state is in order, and so is all the call knew before. */
  lemma Afterwards(s: S.State, h: seq<Event>, task: Task, e: Effect)
    requires StoreOk(s, h) && TaskOk(s, h, task) && EffectOk(s, h, e)
    ensures var (s', h') := (Perform(s, e), h + Remembered(s, e));
      && StoreOk(s', h') && OriginOk(task) && PcOk(s', h', task.pc) && QueueOk(s', h', task.queue)
      && (e == Nothing ==> s' == s && h' == h)
      && (e.PutCommand? ==> CopyOk(s', h', e.command))
      && (e.PutApproval? ==> Lookup(s'.approvals, e.approval.commandId) == Some(e.approval))
  {
    PerformOk(s, h, e);
    if e.PutCommand? {
      hide PcOk, QueueOk, OriginOk, StoreOk, EffectOk, CopyOk, Extends;
      ReadOk(Perform(s, e), h + Remembered(s, e), e.command.id);
    }
    hide StoreOk, EffectOk, PcOk, QueueOk, Extends, OriginOk, CopyOk;
    TaskKept(s, h, Perform(s, e), h + Remembered(s, e), task);
  }

  lemma CreatesNext(s: S.State, h: seq<Event>, task: Task, id: Id)
    requires StoreOk(s, h) && TaskOk(s, h, task) && id !in s.commands
    ensures var (e, next) := Creates(s, task, id);
      next.Some? ==> TaskOk(Perform(s, e), h + Remembered(s, e), next.value)
  {
    hide StoreOk, EffectOk, QueueOk, CopyOk, Perform, Remembered;
    var (e, next) := Creates(s, task, id);
    CreatesOk(s, h, task, id);
    Afterwards(s, h, task, e);
    var s', h' := Perform(s, e), h + Remembered(s, e);
    match task.pc {
      case CreateStart(userId, request) =>
        var found := S.FindByKey(s, userId, request.idempotencyKey);
        if found.Some? { ReadOk(s, h, found.value); }
      case CreateFound(_, request, Some(existing)) =>
        CopyMeans(s', h', existing);
      case _ =>
    }
  }

  lemma CopyMeans(s: S.State, h: seq<Event>, c: Command)
    ensures CopyOk(s, h, c) ==> c.id in s.commands && SameIdentity(s.commands[c.id], c) && Cleared(h, c)
  {
    hide Cleared;
  }

  lemma DecidesNext(s: S.State, h: seq<Event>, task: Task)
    requires StoreOk(s, h) && TaskOk(s, h, task)
    ensures var (e, next) := Decides(s, task);
      next.Some? ==> TaskOk(Perform(s, e), h + Remembered(s, e), next.value)
  {
    hide StoreOk, EffectOk, QueueOk, CopyOk, ApprovalOk, Perform, Remembered, SameIdentity, Cleared;
    var (e, next) := Decides(s, task);
    DecidesOk(s, h, task);
    Afterwards(s, h, task, e);
    var s', h' := Perform(s, e), h + Remembered(s, e);
    match task.pc {
      case GetStart(userId, id, _) =>
        if id in s.commands { ReadOk(s, h, id); }
      case GetGot(Some(c), _) =>
        CopyMeans(s', h', c);
      case DecideGot(c, _) =>
        CopyMeans(s, h, c);
        ReadOk(s, h, c.id);
      case DecideWeighed(c, _, decision) =>
        if e.PutApproval? { RuledOk(s', h', c, e.approval, if decision.approve then Queued else Cancelled, s.clock); }
      case _ =>
    }
  }

  /** A decision whose approval is written may release the command it waited for. */
  lemma RuledOk(s: S.State, h: seq<Event>, c: Command, a: Approval, status: Status, at: Instant)
    requires StoreOk(s, h) && CopyOk(s, h, c) && c.status == AwaitingApproval
    requires a.commandId == c.id && Lookup(s.approvals, c.id) == Some(a)
    requires status == Cancelled || (status == Queued && a.decision == Granted)
    ensures NeedsApproval(c.request.tool) && CopyOk(s, h, c.(status := status, updatedAt := at))
  {
    ReadOk(s, h, c.id);
    hide StoreOk, Authorised;
  }

  /** Where an attempt to dispatch can stand next. */
  lemma TryGoes(s: S.State, task: Task)
    requires task.pc.Try?
    ensures var (e, next) := Tries(s, task);
      var c := task.pc.c;
      || next == Done(task)
      || next == At(task, ExpireStored(c))
      || (c.status == Queued && NeedsApproval(c.request.tool) && e == Nothing
          && next == At(task, TryCleared(c, S.GetApproval(s, c.userId, c.id))))
      || (e.PutCommand? && e.command.status == Dispatched && e.command.request == c.request
          && next == At(task, TrySending(e.command)))
  {
    hide Next, S.Link, S.GetApproval;
  }

  lemma DoneOk(s: S.State, h: seq<Event>, task: Task)
    requires OriginOk(task) && QueueOk(s, h, task.queue) && Done(task).Some?
    ensures TaskOk(s, h, Done(task).value)
  {
    hide QueueOk;
    NextOk(s, h, task.origin, task.queue);
  }

  lemma TryNext(s: S.State, h: seq<Event>, task: Task)
    requires StoreOk(s, h) && TaskOk(s, h, task) && task.pc.Try?
    ensures var (e, next) := Tries(s, task);
      next.Some? ==> TaskOk(Perform(s, e), h + Remembered(s, e), next.value)
  {
    hide StoreOk, EffectOk, QueueOk, CopyOk, ApprovalOk, Perform, Remembered, TaskOk, Next, Tries, S.GetApproval;
    hide SameIdentity, Cleared, Done;
    var (e, next) := Tries(s, task);
    var c := task.pc.c;
    TryGoes(s, task);
    TriesOk(s, h, task);
    TaskOkIs(s, h, task);
    Afterwards(s, h, task, e);
    var s', h' := Perform(s, e), h + Remembered(s, e);
    if next == Done(task) {
      if next.Some? { DoneOk(s', h', task); }
    } else {
      CopyMeans(s', h', c);
      if next.value.pc.TryCleared? {
        CopyMeans(s, h, c);
        ApprovalReadOk(s, h, c);
      }
      AtOk(s', h', task, next.value.pc);
    }
  }

  lemma TaskOkIs(s: S.State, h: seq<Event>, task: Task)
    requires TaskOk(s, h, task)
    ensures OriginOk(task) && PcOk(s, h, task.pc) && QueueOk(s, h, task.queue)
  {
    hide OriginOk, PcOk, QueueOk;
  }

  lemma ApprovalReadOk(s: S.State, h: seq<Event>, c: Command)
    requires StoreOk(s, h) && c.id in s.commands
    ensures MaybeApprovalOk(s, h, c.id, S.GetApproval(s, c.userId, c.id))
  {
    hide StoreOk, ApprovalOk, CopyOk;
    ReadOk(s, h, c.id);
  }

  lemma AtOk(s: S.State, h: seq<Event>, task: Task, pc: Pc)
    requires OriginOk(task.(pc := pc)) && PcOk(s, h, pc) && QueueOk(s, h, task.queue)
    ensures TaskOk(s, h, At(task, pc).value)
  {
  }

  /** Where a claim can stand next. */
  lemma ClaimGoes(s: S.State, task: Task)
    requires task.pc.TryCleared? || task.pc.TryClaiming?
    ensures var (e, next) := Tries(s, task);
      || next == Done(task)
      || next == At(task, TryClaiming(task.pc.c))
      || (e.PutCommand? && e.command.status == Dispatched && e.command.request == task.pc.c.request
          && next == At(task, TrySending(e.command)))
  {
    hide Next;
  }

  lemma ClaimNext(s: S.State, h: seq<Event>, task: Task)
    requires StoreOk(s, h) && TaskOk(s, h, task) && (task.pc.TryCleared? || task.pc.TryClaiming?)
    ensures var (e, next) := Tries(s, task);
      next.Some? ==> TaskOk(Perform(s, e), h + Remembered(s, e), next.value)
  {
    hide StoreOk, EffectOk, QueueOk, CopyOk, ApprovalOk, Next, Perform, Remembered, TaskOk, Tries, Done;
    var (e, next) := Tries(s, task);
    ClaimGoes(s, task);
    TriesOk(s, h, task);
    TaskOkIs(s, h, task);
    Afterwards(s, h, task, e);
    var s', h' := Perform(s, e), h + Remembered(s, e);
    if next == Done(task) {
      if next.Some? { DoneOk(s', h', task); }
    } else {
      AtOk(s', h', task, next.value.pc);
    }
  }

  /** Where the rest of a loop can stand next. */
  lemma TriesGo(s: S.State, task: Task)
    requires !task.pc.Try? && !task.pc.TryCleared? && !task.pc.TryClaiming?
    ensures var (e, next) := Tries(s, task);
      || next == None
      || (!task.pc.ListStart? && next == Done(task))
      || (task.pc.Expire? && next == At(task, ExpireStored(task.pc.c)))
      || (task.pc.ListStart? && e == Nothing
          && next == Next(Listing, Copies(s.commands, S.ListCommands(s, task.pc.userId, S.ListLimit(task.pc.limit)))))
  {
    hide Next, S.ListCommands, Copies;
  }

  lemma TriesNext(s: S.State, h: seq<Event>, task: Task)
    requires StoreOk(s, h) && TaskOk(s, h, task)
    requires !task.pc.Try? && !task.pc.TryCleared? && !task.pc.TryClaiming?
    ensures var (e, next) := Tries(s, task);
      next.Some? ==> TaskOk(Perform(s, e), h + Remembered(s, e), next.value)
  {
    hide StoreOk, EffectOk, QueueOk, CopyOk, ApprovalOk, Next, Perform, Remembered, SameIdentity, Cleared, TaskOk;
    hide Tries, Done, Copies, S.ListCommands;
    var (e, next) := Tries(s, task);
    TriesGo(s, task);
    TriesOk(s, h, task);
    TaskOkIs(s, h, task);
    Afterwards(s, h, task, e);
    var s', h' := Perform(s, e), h + Remembered(s, e);
    if task.pc.ListStart? && next.Some? {
      var ids := S.ListCommands(s, task.pc.userId, S.ListLimit(task.pc.limit));
      CopiesOk(s, h, ids);
      NextOk(s, h, Listing, Copies(s.commands, ids));
    } else if next.Some? && next == Done(task) {
      DoneOk(s', h', task);
    } else if next.Some? {
      CopyMeans(s', h', task.pc.c);
      AtOk(s', h', task, next.value.pc);
    }
  }

  lemma GreetsNext(s: S.State, h: seq<Event>, task: Task)
    requires StoreOk(s, h) && TaskOk(s, h, task)
    ensures var (e, next) := Greets(s, task);
      next.Some? ==> TaskOk(Perform(s, e), h + Remembered(s, e), next.value)
  {
    hide StoreOk, EffectOk, QueueOk, CopyOk, Next;
    var (e, next) := Greets(s, task);
    GreetsOk(s, h, task);
    Afterwards(s, h, task, e);
    if task.pc.HelloAttached? {
      var ids := S.ListDispatchable(s, task.pc.deviceId);
      CopiesOk(s, h, ids);
      if Next(Greeting, Copies(s.commands, ids)).Some? { NextOk(s, h, Greeting, Copies(s.commands, ids)); }
    }
  }

  lemma ReportsNext(s: S.State, h: seq<Event>, task: Task)
    requires StoreOk(s, h) && TaskOk(s, h, task)
    ensures var (e, next) := Reports(s, task);
      next.Some? ==> TaskOk(Perform(s, e), h + Remembered(s, e), next.value)
  {
    hide StoreOk, EffectOk, QueueOk, CopyOk, Perform, Remembered, SameIdentity, Cleared;
    var (e, next) := Reports(s, task);
    ReportsOk(s, h, task);
    Afterwards(s, h, task, e);
    var s', h' := Perform(s, e), h + Remembered(s, e);
    match task.pc {
      case ResultStart(_, result) =>
        if result.commandId in s.commands { ReadOk(s, h, result.commandId); }
      case ResultSaved(c, _) => CopyMeans(s', h', c);
      case _ =>
    }
  }

  /** One segment of any call: its write is admissible, and what it carries on is in order. */
  lemma SegmentOk(s: S.State, h: seq<Event>, task: Task, id: Id)
    requires StoreOk(s, h) && TaskOk(s, h, task) && id !in s.commands
    ensures var (e, next) := Segment(s, task, id);
      && EffectOk(s, h, e)
      && (next.Some? ==> TaskOk(Perform(s, e), h + Remembered(s, e), next.value))
  {
    hide StoreOk, TaskOk, EffectOk, Perform, Remembered, Creates, Decides, Tries, Greets, Reports;
    CreatesOk(s, h, task, id);
    DecidesOk(s, h, task);
    TriesOk(s, h, task);
    GreetsOk(s, h, task);
    ReportsOk(s, h, task);
    CreatesNext(s, h, task, id);
    DecidesNext(s, h, task);
    if task.pc.Try? {
      TryNext(s, h, task);
    } else if task.pc.TryCleared? || task.pc.TryClaiming? {
      ClaimNext(s, h, task);
    } else {
      TriesNext(s, h, task);
    }
    GreetsNext(s, h, task);
    ReportsNext(s, h, task);
  }

  // ---------------------------------------------------------------- runs

  lemma AdvanceSafe(w: World, t: nat, id: Id)
    requires Safe(w) && Interleaving.Possible(w, Advance(t, id))
    ensures Safe(Moved(w, Advance(t, id)))
    ensures Extends(w.s, w.history, Moved(w, Advance(t, id)).s, Moved(w, Advance(t, id)).history)
  {
    var (e, next) := Segment(w.s, w.tasks[t], id);
    var w' := Moved(w, Advance(t, id));
    SegmentOk(w.s, w.history, w.tasks[t], id);
    PerformOk(w.s, w.history, e);
    assert w'.s == Perform(w.s, e) && w'.history == w.history + Remembered(w.s, e);
    hide StoreOk, TaskOk, EffectOk, Extends, Perform, Remembered, Segment;
    forall u | u in w'.tasks
      ensures TaskOk(w'.s, w'.history, w'.tasks[u])
    {
      if u != t {
        TaskKept(w.s, w.history, w'.s, w'.history, w.tasks[u]);
      }
    }
  }

  /** Devices, sockets and registry entries change at most in presence or go. */
  ghost predicate Loosened(s: S.State, s': S.State) {
    && s'.clock == s.clock && s'.commands == s.commands && s'.approvals == s.approvals && s'.order == s.order
    && s'.everOpen == s.everOpen && s'.open <= s.open
    && (forall d :: d in s'.byDevice ==> d in s.byDevice && s'.byDevice[d] == s.byDevice[d])
    && (forall d :: d in s.devices ==> d in s'.devices && SameDevice(s.devices[d], s'.devices[d]))
  }

  lemma CloseLoosens(s: S.State, socket: Socket)
    ensures Loosened(s, s.(open := s.open - {socket}))
  {
  }

  lemma DetachLoosens(s: S.State, socket: Socket, d: Id)
    ensures Loosened(s, S.Detach(s, socket, d))
  {
  }

  lemma PresenceLoosens(s: S.State, d: Id, online: bool)
    ensures Loosened(s, S.SetPresence(s, d, online))
  {
  }

  lemma LoosenedChain(s: S.State, s1: S.State, s2: S.State)
    requires Loosened(s, s1) && Loosened(s1, s2)
    ensures Loosened(s, s2)
  {
  }

  lemma DisconnectIs(s: S.State, socket: Socket)
    ensures Loosened(s, S.Disconnect(s, socket))
  {
    hide Loosened, S.Detach, S.SetPresence;
    var closed := s.(open := s.open - {socket});
    CloseLoosens(s, socket);
    if socket in s.bySocket {
      var d := s.bySocket[socket];
      var detached := S.Detach(closed, socket, d);
      DetachLoosens(closed, socket, d);
      PresenceLoosens(detached, d, false);
      LoosenedChain(s, closed, detached);
      LoosenedChain(s, detached, S.SetPresence(detached, d, false));
    }
  }

  lemma DisconnectExtends(s: S.State, h: seq<Event>, socket: Socket)
    ensures var s' := S.Disconnect(s, socket);
      && Extends(s, h, s', h) && (Shaped(s) ==> Shaped(s'))
      && s'.commands == s.commands && s'.approvals == s.approvals
  {
    hide S.Disconnect, S.Filed;
    DisconnectIs(s, socket);
    FiledCopies(s, S.Disconnect(s, socket));
  }

  lemma AroundExtends(w: World, m: Move)
    requires Interleaving.Possible(w, m) && !m.Advance? && !m.Spawn?
    ensures var w' := Moved(w, m);
      && Extends(w.s, w.history, w'.s, w'.history) && (Shaped(w.s) ==> Shaped(w'.s))
      && w'.history == w.history && w'.tasks == w.tasks
      && w'.s.commands == w.s.commands && w'.s.approvals == w.s.approvals
  {
    hide S.Disconnect, S.Filed;
    if m.Disconnected? {
      hide Extends, Shaped;
      DisconnectExtends(w.s, w.history, m.socket);
    } else {
      FiledCopies(w.s, Moved(w, m).s);
    }
  }

  lemma FiledCopies(s: S.State, s': S.State)
    ensures s'.commands == s.commands && s'.order == s.order ==> S.Filed(s') == S.Filed(s)
  {
  }

  lemma AroundSafe(w: World, m: Move)
    requires Safe(w) && Interleaving.Possible(w, m) && !m.Advance? && !m.Spawn?
    ensures Safe(Moved(w, m)) && Extends(w.s, w.history, Moved(w, m).s, Moved(w, m).history)
  {
    var w' := Moved(w, m);
    hide TaskOk, AllStoredOk, ApprovalsOk, HistoryOk, Shaped, Extends, Moved, Interleaving.Possible;
    AroundExtends(w, m);
    ElsewhereOk(w.s, w.history, w'.s, w'.history);
    forall u | u in w'.tasks
      ensures TaskOk(w'.s, w'.history, w'.tasks[u])
    {
      TaskKept(w.s, w.history, w'.s, w'.history, w.tasks[u]);
    }
  }

  lemma MoveSafe(w: World, m: Move)
    requires Safe(w) && Interleaving.Possible(w, m)
    ensures Safe(Moved(w, m)) && Extends(w.s, w.history, Moved(w, m).s, Moved(w, m).history)
  {
    if m.Advance? {
      hide Safe, Moved, Extends;
      AdvanceSafe(w, m.t, m.id);
    } else if m.Spawn? {
      hide StoreOk;
      assert TaskOk(w.s, w.history, Task(OriginOf(m.pc), m.pc, []));
    } else {
      hide Safe, Moved, Extends;
      AroundSafe(w, m);
    }
  }

  lemma {:induction false} RunSafe(w: World, moves: seq<Move>, w': World)
    requires Safe(w) && Runs(w, moves, w')
    ensures Safe(w')
    decreases |moves|
  {
    hide Safe, Moved, Interleaving.Possible;
    if moves != [] {
      MoveSafe(w, moves[0]);
      RunSafe(Moved(w, moves[0]), moves[1..], w');
    }
  }

  lemma ReachableSafe(w: World)
    requires Reachable(w)
    ensures Safe(w)
  {
    var moves :| Runs(START, moves, w);
    assert Safe(START);
    hide Safe;
    RunSafe(START, moves, w);
  }

  /** However calls interleave: every stored approval that is granted and demands biometric verification
      is verified, and demands it exactly when the tool of its command does. */
  lemma ApprovalsVerified(w: World, id: Id)
    requires Reachable(w) && id in w.s.approvals
    ensures w.s.approvals[id].commandId == id && id in w.s.commands
    ensures w.s.approvals[id].biometricRequired == NeedsBiometric(w.s.commands[id].request.tool)
    ensures w.s.approvals[id].decision == Granted && w.s.approvals[id].biometricRequired
            ==> w.s.approvals[id].biometricVerified
  {
    ReachableSafe(w);
    assert ApprovalOk(w.s, w.history, w.s.approvals[id]);
  }

  /** However calls interleave: every dispatch of a command whose tool needs approval, a repeated one
      included, comes after a write that grants that approval, biometrically verified if the tool demands it. */
  lemma DispatchesApproved(w: World, k: nat)
    requires Reachable(w) && k < |w.history| && w.history[k].Handed?
    requires NeedsApproval(w.history[k].command.request.tool)
    ensures exists j :: 0 <= j < k && Grants(w.history[j], w.history[k].command.id, w.history[k].command.request.tool)
  {
    ReachableSafe(w);
    assert HistoryOk(w.history);
    var c := w.history[k].command;
    var j :| 0 <= j < k && Grants(w.history[..k][j], c.id, c.request.tool);
    assert w.history[..k][j] == w.history[j];
  }
}
