/** No lost dispatch however calls interleave, as far as it goes. */
module InterleavingDispatch {
  import opened Wrappers
  import opened Protocol
  import opened Ordering
  import opened ServerInvariant
  import opened Interleaving
  import opened InterleavingSafety
  import opened InterleavingSettled
  import opened InterleavingApprovals
  import S = Server
  import T = ServerSteps

  /** The command is allowed to go out, could be handed over right now, and has not been. */
  ghost predicate Waits(s: S.State, id: Id) {
    && id in s.commands && s.commands[id].status == Queued
    && (NeedsApproval(s.commands[id].request.tool) ==> id in s.approvals && s.approvals[id].decision == Granted)
    && s.commands[id].request.expiresAt > s.clock
    && S.Link(s, s.commands[id].request.targetDeviceId).Some?
  }

  /** The call read that the approval of this command stands granted. */
  predicate SawGranted(pc: Pc, id: Id) {
    pc.TryCleared? && pc.c.id == id && pc.approval.Some? && pc.approval.value.decision == Granted
  }

  predicate QueuedCopy(c: Command, id: Id) {
    c.id == id && c.status == Queued
  }

  ghost predicate Queues(queue: seq<Command>, id: Id) {
    exists k :: 0 <= k < |queue| && QueuedCopy(queue[k], id)
  }

  /** The call will still look whether the device is online: a create that has stored the command, a decision
      that has written its approval, or a hello that has attached the device and has not come to the command yet. */
  ghost predicate Covers(task: Task, id: Id, deviceId: Id) {
    && task.origin in {Creating, Deciding, Greeting}
    && match task.pc
       case CreateStored(c) => QueuedCopy(c, id)
       case CreateGuarded(c) => QueuedCopy(c, id)
       case DecideRuled(c, _) => QueuedCopy(c, id)
       case DecideStored(c, _) => QueuedCopy(c, id)
       case HelloAttached(d, _) => d == deviceId
       case Try(c) => QueuedCopy(c, id) || Queues(task.queue, id)
       case TryCleared(c, a) => (c.id == id && a.Some? && a.value.decision == Granted) || Queues(task.queue, id)
       case TryClaiming(c) => c.id == id || Queues(task.queue, id)
       case _ => Queues(task.queue, id)
  }

  ghost predicate Covered(w: World, id: Id)
    requires id in w.s.commands
  {
    exists t :: t in w.tasks && Covers(w.tasks[t], id, w.s.commands[id].request.targetDeviceId)
  }

  ghost predicate NothingLost(w: World) {
    forall id :: Waits(w.s, id) ==> Covered(w, id)
  }

  // ---------------------------------------------------------------- the covering call goes on

  lemma NextCovers(origin: Origin, queue: seq<Command>, id: Id, deviceId: Id)
    requires Queues(queue, id) && origin in {Creating, Deciding, Greeting}
    ensures Next(origin, queue).Some? && Covers(Next(origin, queue).value, id, deviceId)
  {
    var k :| 0 <= k < |queue| && QueuedCopy(queue[k], id);
    if k > 0 {
      assert queue[1..][k - 1] == queue[k];
    }
  }

  /** A call that tries a waiting command hands it over at once, unless it must read the approval first, and
      then it finds it granted. */
  lemma TryTakes(s: S.State, h: seq<Event>, task: Task, id: Id)
    requires task.pc.Try? && QueuedCopy(task.pc.c, id) && CopyOk(s, h, task.pc.c) && StoreOk(s, h) && Waits(s, id)
    requires task.origin in {Creating, Deciding, Greeting}
    ensures var (e, next) := Tries(s, task);
      Waits(Perform(s, e), id) ==> next.Some? && Covers(next.value, id, s.commands[id].request.targetDeviceId)
  {
    hide StoreOk, Cleared, Queues;
    ReadOk(s, h, id);
  }

  lemma ClaimTakes(s: S.State, h: seq<Event>, task: Task, id: Id)
    requires task.origin in {Creating, Deciding, Greeting}
    requires SawGranted(task.pc, id)
             || (task.pc.TryClaiming? && task.pc.c.id == id)
    ensures var (e, next) := Tries(s, task);
      Waits(Perform(s, e), id) ==>
        next.Some? && next.value.origin == task.origin && next.value.pc == TryClaiming(task.pc.c)
  {
    hide Queues;
  }

  lemma ListedQueues(s: S.State, h: seq<Event>, deviceId: Id, id: Id)
    requires StoreOk(s, h) && Waits(s, id) && s.commands[id].request.targetDeviceId == deviceId
    ensures Queues(Copies(s.commands, S.ListDispatchable(s, deviceId)), id)
  {
    var ids := S.ListDispatchable(s, deviceId);
    T.ListDispatchableIs(s, deviceId);
    assert id in ids;
    var k :| 0 <= k < |ids| && ids[k] == id;
    ReadOk(s, h, id);
    assert QueuedCopy(Copies(s.commands, ids)[k], id);
  }

  lemma LoopGoesOn(s: S.State, task: Task, newId: Id)
    requires Loops(task.pc)
    ensures var next := Segment(s, task, newId).1;
      next == Done(task)
      || (next.Some? && next.value.queue == task.queue && next.value.origin == task.origin && Loops(next.value.pc))
  {
    hide Next;
  }

  lemma LoopCovers(s: S.State, task: Task, id: Id, deviceId: Id, newId: Id)
    requires Loops(task.pc) && Queues(task.queue, id) && task.origin in {Creating, Deciding, Greeting}
    ensures var next := Segment(s, task, newId).1; next.Some? && Covers(next.value, id, deviceId)
  {
    hide Queues, Next, Segment;
    LoopGoesOn(s, task, newId);
    NextCovers(task.origin, task.queue, id, deviceId);
  }

  lemma CoversCases(task: Task, id: Id, deviceId: Id)
    requires OriginOk(task) && Covers(task, id, deviceId)
    ensures task.origin in {Creating, Deciding, Greeting}
    ensures || (Loops(task.pc) && Queues(task.queue, id))
            || (task.pc.HelloAttached? && task.pc.deviceId == deviceId)
            || ((task.pc.CreateStored? || task.pc.CreateGuarded? || task.pc.DecideRuled? || task.pc.DecideStored?)
                && QueuedCopy(task.pc.c, id))
            || (task.pc.Try? && QueuedCopy(task.pc.c, id))
            || SawGranted(task.pc, id)
            || (task.pc.TryClaiming? && task.pc.c.id == id)
  {
  }

  lemma HelloCovers(s: S.State, h: seq<Event>, task: Task, id: Id)
    requires StoreOk(s, h) && TaskOk(s, h, task) && Waits(s, id)
    requires task.pc.HelloAttached? && task.pc.deviceId == s.commands[id].request.targetDeviceId
    ensures var next := Greets(s, task).1; next.Some? && Covers(next.value, id, task.pc.deviceId)
  {
    hide StoreOk, TaskOk, Waits, Queues, Next, Covers;
    var d := task.pc.deviceId;
    WaitsKnown(s, id);
    GreetsExecutor(s, h, task, id);
    ListedQueues(s, h, d, id);
    NextCovers(Greeting, Copies(s.commands, S.ListDispatchable(s, d)), id, d);
  }

  lemma GreetsExecutor(s: S.State, h: seq<Event>, task: Task, id: Id)
    requires StoreOk(s, h) && TaskOk(s, h, task) && id in s.commands
    requires task.pc.HelloAttached? && task.pc.deviceId == s.commands[id].request.targetDeviceId
    ensures task.pc.kind == ExecutorDevice
  {
    hide StoreOk, CopyOk, ApprovalOk, QueueOk;
    ReadOk(s, h, id);
  }

  /** While the command goes on waiting, a covering call goes on covering it. */
  lemma StillCovers(s: S.State, h: seq<Event>, task: Task, id: Id, newId: Id)
    requires StoreOk(s, h) && TaskOk(s, h, task) && Waits(s, id)
    requires Covers(task, id, s.commands[id].request.targetDeviceId)
    requires Waits(Perform(s, Segment(s, task, newId).0), id)
    ensures var next := Segment(s, task, newId).1;
      next.Some? && Covers(next.value, id, s.commands[id].request.targetDeviceId)
  {
    hide StoreOk, TaskOk, Waits, Covers, Queues, Segment, Tries, Greets, Perform;
    WaitsKnown(s, id);
    TaskOkIs(s, h, task);
    var d := s.commands[id].request.targetDeviceId;
    CoversCases(task, id, d);
    if task.pc.HelloAttached? {
      SegmentGreets(s, task, newId);
      HelloCovers(s, h, task, id);
    } else if Loops(task.pc) && Queues(task.queue, id) {
      LoopCovers(s, task, id, d, newId);
    } else if task.pc.Try? {
      SegmentTries(s, task, newId);
      TryTakes(s, h, task, id);
    } else if task.pc.TryCleared? || task.pc.TryClaiming? {
      SegmentTries(s, task, newId);
      ClaimTakes(s, h, task, id);
      ClaimCovers(task, id, d);
    } else {
      BringsOn(s, task, id, d, newId);
    }
  }

  lemma SegmentGreets(s: S.State, task: Task, newId: Id)
    requires task.pc.HelloAttached?
    ensures Segment(s, task, newId) == Greets(s, task)
  {
    hide Greets;
  }

  lemma SegmentTries(s: S.State, task: Task, newId: Id)
    requires task.pc.Try? || task.pc.TryCleared? || task.pc.TryClaiming?
    ensures Segment(s, task, newId) == Tries(s, task)
  {
    hide Tries;
  }

  lemma ClaimCovers(task: Task, id: Id, deviceId: Id)
    requires (task.pc.TryCleared? || task.pc.TryClaiming?) && task.pc.c.id == id
    requires task.origin in {Creating, Deciding, Greeting}
    ensures forall next: Task | next.origin == task.origin && next.pc == TryClaiming(task.pc.c) ::
              Covers(next, id, deviceId)
  {
    hide Queues;
  }

  lemma BringsOn(s: S.State, task: Task, id: Id, deviceId: Id, newId: Id)
    requires task.pc.CreateStored? || task.pc.CreateGuarded? || task.pc.DecideRuled? || task.pc.DecideStored?
    requires QueuedCopy(task.pc.c, id) && task.origin in {Creating, Deciding, Greeting}
    ensures var next := Segment(s, task, newId).1; next.Some? && Covers(next.value, id, deviceId)
  {
    hide Queues;
  }

  // ---------------------------------------------------------------- how a command comes to wait

  lemma BeganToWait(s: S.State, h: seq<Event>, e: Effect, id: Id)
    requires StoreOk(s, h) && EffectOk(s, h, e) && Waits(Perform(s, e), id)
    ensures || (Waits(s, id) && Perform(s, e).commands[id].request == s.commands[id].request)
            || (e.PutCommand? && QueuedCopy(e.command, id))
            || (e.PutApproval? && e.approval.commandId == id && e.approval.decision == Granted)
            || (e.Greet? && Perform(s, e).commands[id].request.targetDeviceId == e.deviceId)
  {
    hide StoreOk, Cleared, CopyOk;
  }

  /** Only a create or a decision stores a queued command, only a decision or a claim writes a granted approval,
      only a hello attaches a device, and they all go on to cover what they brought about. */
  lemma Announces(s: S.State, h: seq<Event>, task: Task, newId: Id, id: Id, deviceId: Id)
    requires TaskOk(s, h, task)
    ensures var (e, next) := Segment(s, task, newId);
      || (e.PutCommand? && QueuedCopy(e.command, id))
      || (e.PutApproval? && e.approval.commandId == id && e.approval.decision == Granted)
      || (e.Greet? && deviceId == e.deviceId)
      ==> next.Some? && Covers(next.value, id, deviceId)
  {
    hide QueueOk, Cleared, ApprovalOk, Queues;
  }

  lemma AdvanceCovers(w: World, t: nat, newId: Id, id: Id)
    requires Safe(w) && NothingLost(w) && Interleaving.Possible(w, Advance(t, newId))
    requires Waits(Moved(w, Advance(t, newId)).s, id)
    ensures id in Moved(w, Advance(t, newId)).s.commands && Covered(Moved(w, Advance(t, newId)), id)
  {
    hide StoreOk, TaskOk, EffectOk, Segment, Waits, Moved, NothingLost, Safe, Perform, Covers, Remembered;
    var w' := Moved(w, Advance(t, newId));
    AdvancedIs(w, t, newId);
    SafeMeans(w, t);
    WaitsKnown(w'.s, id);
    var task := w.tasks[t];
    var e := Segment(w.s, task, newId).0;
    var d := w'.s.commands[id].request.targetDeviceId;
    SegmentOk(w.s, w.history, task, newId);
    BeganToWait(w.s, w.history, e, id);
    Announces(w.s, w.history, task, newId, id, d);
    if Waits(w.s, id) { WaitsKnown(w.s, id); }
    if Waits(w.s, id) && w'.s.commands[id].request == w.s.commands[id].request {
      var u := CoveringCall(w, id);
      if u == t {
        StillCovers(w.s, w.history, task, id, newId);
        assert t in w'.tasks && Covers(w'.tasks[t], id, d);
      } else {
        assert u in w'.tasks && Covers(w'.tasks[u], id, d);
      }
    } else {
      assert t in w'.tasks && Covers(w'.tasks[t], id, d);
    }
  }

  lemma CoveringCall(w: World, id: Id) returns (u: nat)
    requires NothingLost(w) && Waits(w.s, id)
    ensures id in w.s.commands && u in w.tasks && Covers(w.tasks[u], id, w.s.commands[id].request.targetDeviceId)
  {
    hide Waits, Covers;
    WaitsKnown(w.s, id);
    u :| u in w.tasks && Covers(w.tasks[u], id, w.s.commands[id].request.targetDeviceId);
  }

  lemma DisconnectLinks(s: S.State, socket: Socket, d: Id)
    ensures var s' := S.Disconnect(s, socket);
      s'.commands == s.commands && s'.clock == s.clock && (S.Link(s', d).Some? ==> S.Link(s, d).Some?)
  {
    hide S.Disconnect;
    DisconnectIs(s, socket);
  }

  lemma AroundLinks(w: World, m: Move, d: Id)
    requires Shaped(w.s) && Interleaving.Possible(w, m) && !m.Advance?
    ensures var s' := Moved(w, m).s;
      s'.commands == w.s.commands && s'.clock >= w.s.clock && (S.Link(s', d).Some? ==> S.Link(w.s, d).Some?)
  {
    hide S.Filed, S.Disconnect;
    if m.Disconnected? {
      DisconnectLinks(w.s, m.socket, d);
    }
  }

  lemma ShapedSafe(w: World)
    requires Safe(w)
    ensures Shaped(w.s)
  {
    hide TaskOk, Shaped, AllStoredOk, ApprovalsOk, HistoryOk;
  }

  lemma AroundWaits(w: World, m: Move, id: Id)
    requires Safe(w) && Interleaving.Possible(w, m) && !m.Advance? && Waits(Moved(w, m).s, id)
    ensures Waits(w.s, id) && Moved(w, m).s.commands == w.s.commands
  {
    hide Safe, Shaped, Moved, Interleaving.Possible, S.Link;
    ShapedSafe(w);
    WaitsKnown(Moved(w, m).s, id);
    AroundIs(w, m);
    AroundLinks(w, m, Moved(w, m).s.commands[id].request.targetDeviceId);
  }

  lemma AroundTasks(w: World, m: Move, t: nat)
    requires Interleaving.Possible(w, m) && !m.Advance? && t in w.tasks
    ensures t in Moved(w, m).tasks && Moved(w, m).tasks[t] == w.tasks[t]
  {
  }

  lemma MoveCovers(w: World, m: Move)
    requires Safe(w) && NothingLost(w) && Interleaving.Possible(w, m)
    ensures NothingLost(Moved(w, m))
  {
    hide Safe, Moved, Waits, Covers, Interleaving.Possible;
    forall id | Waits(Moved(w, m).s, id)
      ensures id in Moved(w, m).s.commands && Covered(Moved(w, m), id)
    {
      WaitsKnown(Moved(w, m).s, id);
      if m.Advance? {
        AdvanceCovers(w, m.t, m.id, id);
      } else {
        AroundWaits(w, m, id);
        WaitsKnown(w.s, id);
        var d := w.s.commands[id].request.targetDeviceId;
        var t :| t in w.tasks && Covers(w.tasks[t], id, d);
        AroundTasks(w, m, t);
        assert t in Moved(w, m).tasks && Covers(Moved(w, m).tasks[t], id, d);
      }
    }
  }

  lemma WaitsKnown(s: S.State, id: Id)
    requires Waits(s, id)
    ensures id in s.commands
  {
  }

  lemma {:induction false} RunCovers(w: World, moves: seq<Move>, w': World)
    requires Safe(w) && NothingLost(w) && Runs(w, moves, w')
    ensures NothingLost(w')
    decreases |moves|
  {
    hide Safe, NothingLost, Moved, Interleaving.Possible;
    if moves != [] {
      MoveSafe(w, moves[0]);
      MoveCovers(w, moves[0]);
      RunCovers(Moved(w, moves[0]), moves[1..], w');
    }
  }

  lemma ReachableCovers(w: World)
    requires Reachable(w)
    ensures NothingLost(w)
  {
    var moves :| Runs(START, moves, w);
    assert Safe(START) && NothingLost(START);
    hide Safe, Runs, NothingLost;
    RunCovers(START, moves, w);
  }

  /** A call that covers a command is a create, a decision or a hello. */
  lemma CoveredBy(w: World, id: Id)
    requires NothingLost(w) && Waits(w.s, id)
    ensures exists t :: t in w.tasks && w.tasks[t].origin in {Creating, Deciding, Greeting}
  {
    hide Waits, Queues;
    WaitsKnown(w.s, id);
    assert Covered(w, id);
  }

  /** However calls interleave: as soon as no create, no decision and no hello is in flight, a queued and unexpired
      command whose device is online is left behind only if its tool needs an approval that stands denied. */
  lemma NoLostDispatch(w: World, id: Id)
    requires Reachable(w) && id in w.s.commands && w.s.commands[id].status == Queued
    requires w.s.commands[id].request.expiresAt > w.s.clock
    requires forall t :: t in w.tasks ==> w.tasks[t].origin !in {Creating, Deciding, Greeting}
    requires S.Link(w.s, w.s.commands[id].request.targetDeviceId).Some?
    ensures NeedsApproval(w.s.commands[id].request.tool)
    ensures id in w.s.approvals && w.s.approvals[id].decision == Denied
  {
    hide Reachable, NothingLost, S.Link;
    ReachableCovers(w);
    if Waits(w.s, id) {
      CoveredBy(w, id);
    }
    if NeedsApproval(w.s.commands[id].request.tool) {
      ReleasedHasVerdict(w, id);
    }
  }

  /** So with nothing in flight such a command never goes out, whatever happens later: it stays queued until it
      expires. */
  lemma LeftBehindForGood(w: World, id: Id, w': World)
    requires Reachable(w) && w.tasks == map[] && id in w.s.commands && w.s.commands[id].status == Queued
    requires w.s.commands[id].request.expiresAt > w.s.clock && Leads(w, w')
    requires S.Link(w.s, w.s.commands[id].request.targetDeviceId).Some?
    ensures id in w'.s.commands && w'.s.commands[id].status in {Queued, Expired} && Unsent(w.history, w'.history, id)
  {
    hide Reachable, S.Link, Safe, Unsent;
    NoLostDispatch(w, id);
    ReachableSafe(w);
    var moves :| Runs(w, moves, w');
    LostForGood(w, moves, w', id);
  }

  /** For a tool that needs no approval, no decision can matter: it is enough that no create and no hello is in
      flight for the command not to be left behind. */
  lemma NoLostApprovalFreeDispatch(w: World, id: Id)
    requires Reachable(w) && id in w.s.commands && w.s.commands[id].status == Queued
    requires w.s.commands[id].request.expiresAt > w.s.clock && !NeedsApproval(w.s.commands[id].request.tool)
    requires forall t :: t in w.tasks ==> w.tasks[t].origin !in {Creating, Greeting}
    ensures S.Link(w.s, w.s.commands[id].request.targetDeviceId).None?
  {
    hide Reachable, StoreOk, TaskOk, Covers, S.Link;
    ReachableCovers(w);
    ReachableSafe(w);
    if Waits(w.s, id) {
      assert Covered(w, id);
      var t :| t in w.tasks && Covers(w.tasks[t], id, w.s.commands[id].request.targetDeviceId);
      CoversOrigin(w.tasks[t], id, w.s.commands[id].request.targetDeviceId);
      DecisionsNeedApproval(w.s, w.history, w.tasks[t], id, w.s.commands[id].request.targetDeviceId);
      assert false;
    }
  }

  lemma CoversOrigin(task: Task, id: Id, deviceId: Id)
    requires Covers(task, id, deviceId)
    ensures task.origin in {Creating, Deciding, Greeting}
  {
    hide Queues;
  }

  /** A decision can only cover a command whose tool needs approval. */
  lemma DecisionsNeedApproval(s: S.State, h: seq<Event>, task: Task, id: Id, deviceId: Id)
    requires TaskOk(s, h, task) && Covers(task, id, deviceId) && task.origin == Deciding
    ensures id in s.commands && NeedsApproval(s.commands[id].request.tool)
  {
  }
}
