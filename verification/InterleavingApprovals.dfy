/** Approvals, calls being cut at each `await`: a pending approval is stored but once, and a denied one
    can leave its command behind for good. */
module InterleavingApprovals {
  import opened Wrappers
  import opened Protocol
  import opened Ordering
  import opened ServerInvariant
  import opened Interleaving
  import opened InterleavingSafety
  import opened InterleavingSettled
  import S = Server

  // ---------------------------------------------------------------- an approval is opened once

  /** The call has read the approval of this command. */
  predicate HasRead(pc: Pc, id: Id) {
    (pc.DecideWeighed? || pc.TryCleared?) && pc.approval.Some? && pc.approval.value.commandId == id
  }

  predicate Rules(e: Event, id: Id) {
    e.Wrote? && e.approval.commandId == id && e.approval.decision != Pending
  }

  /** Some call has written a verdict on the command. */
  ghost predicate Ruled(h: seq<Event>, id: Id) {
    exists k :: 0 <= k < |h| && Rules(h[k], id)
  }

  predicate HasVerdict(s: S.State, id: Id) {
    id in s.approvals && s.approvals[id].decision != Pending
  }

  /** Either a create is about to store the approval, or the approval is there; and once ruled on it stays so. */
  ghost predicate OpenedOnce(w: World, id: Id) {
    && (forall t, u :: t in w.tasks && u in w.tasks && Opens(w.tasks[t].pc, id) && Opens(w.tasks[u].pc, id) ==> t == u)
    && (forall t :: t in w.tasks && Opens(w.tasks[t].pc, id) ==> id !in w.s.approvals)
    && (forall t :: t in w.tasks && HasRead(w.tasks[t].pc, id) ==> id in w.s.approvals)
    && (Ruled(w.history, id) ==> HasVerdict(w.s, id))
  }

  /** A create writes an approval for the first time, everybody else one that was read. */
  lemma SegmentWrites(s: S.State, task: Task, newId: Id, id: Id)
    ensures var (e, next) := Segment(s, task, newId);
      && (e.PutApproval? && e.approval.commandId == id ==>
            if e.approval.decision == Pending then Opens(task.pc, id) else HasRead(task.pc, id))
      && (next.Some? && Opens(next.value.pc, id) ==> id == newId)
  {
    hide S.FindByKey, S.ListCommands, S.ListDispatchable, Copies;
  }

  lemma SegmentReads(s: S.State, task: Task, newId: Id, id: Id)
    requires forall i :: i in s.approvals ==> s.approvals[i].commandId == i
    ensures var next := Segment(s, task, newId).1;
      next.Some? && HasRead(next.value.pc, id) ==> id in s.approvals
  {
    hide S.FindByKey, S.ListCommands, S.ListDispatchable, Copies;
  }

  lemma RuledMore(s: S.State, h: seq<Event>, e: Effect, id: Id)
    ensures Ruled(h + Remembered(s, e), id) <==>
              Ruled(h, id) || (e.PutApproval? && e.approval.commandId == id && e.approval.decision != Pending)
  {
    hide S.Link;
    var h' := h + Remembered(s, e);
    if Ruled(h, id) {
      var k :| 0 <= k < |h| && Rules(h[k], id);
      assert h'[k] == h[k];
    }
    if e.PutApproval? {
      assert h'[|h|] == Wrote(e.approval);
    }
    if Ruled(h', id) {
      var k :| 0 <= k < |h'| && Rules(h'[k], id);
      assert k < |h| ==> h[k] == h'[k];
    }
  }

  lemma PerformApprovals(s: S.State, e: Effect)
    ensures Perform(s, e).approvals
         == if e.PutApproval? then s.approvals[e.approval.commandId := e.approval] else s.approvals
  {
  }

  lemma OpensKnown(s: S.State, h: seq<Event>, task: Task, id: Id)
    requires TaskOk(s, h, task) && Opens(task.pc, id)
    ensures id in s.commands
  {
    hide QueueOk, Cleared;
  }

  lemma ApprovalsFiled(s: S.State, h: seq<Event>)
    requires StoreOk(s, h)
    ensures forall i :: i in s.approvals ==> s.approvals[i].commandId == i && i in s.commands
  {
    hide Authorised, AllStoredOk, HistoryOk, Shaped;
  }

  lemma AdvanceOpened(w: World, t: nat, newId: Id, id: Id)
    requires Safe(w) && OpenedOnce(w, id) && Interleaving.Possible(w, Advance(t, newId))
    ensures OpenedOnce(Moved(w, Advance(t, newId)), id)
  {
    hide Safe, StoreOk, TaskOk, Segment, Perform, Moved, Ruled, Remembered, Opens, HasRead;
    var (e, next) := Segment(w.s, w.tasks[t], newId);
    AdvancedIs(w, t, newId);
    SafeMeans(w, t);
    ApprovalsFiled(w.s, w.history);
    SegmentWrites(w.s, w.tasks[t], newId, id);
    SegmentReads(w.s, w.tasks[t], newId, id);
    PerformApprovals(w.s, e);
    RuledMore(w.s, w.history, e, id);
    OpensSafe(w, id);
  }

  lemma OpensSafe(w: World, id: Id)
    requires Safe(w)
    ensures forall t :: t in w.tasks && Opens(w.tasks[t].pc, id) ==> id in w.s.commands
  {
    hide StoreOk, TaskOk, Opens;
    forall t | t in w.tasks && Opens(w.tasks[t].pc, id)
      ensures id in w.s.commands
    {
      OpensKnown(w.s, w.history, w.tasks[t], id);
    }
  }

  lemma AroundOpened(w: World, m: Move, id: Id)
    requires OpenedOnce(w, id) && Interleaving.Possible(w, m) && !m.Advance?
    ensures OpenedOnce(Moved(w, m), id)
  {
    hide Moved, Interleaving.Possible, Ruled;
    AroundIs(w, m);
  }

  lemma {:induction false} RunOpened(w: World, moves: seq<Move>, w': World, id: Id)
    requires Safe(w) && OpenedOnce(w, id) && Runs(w, moves, w')
    ensures OpenedOnce(w', id)
    decreases |moves|
  {
    hide Safe, OpenedOnce, Moved, Interleaving.Possible;
    if moves != [] {
      MoveSafe(w, moves[0]);
      if moves[0].Advance? {
        AdvanceOpened(w, moves[0].t, moves[0].id, id);
      } else {
        AroundOpened(w, moves[0], id);
      }
      RunOpened(Moved(w, moves[0]), moves[1..], w', id);
    }
  }

  /** A verdict, once written, is never forgotten: the approval of the command is there and not pending, whatever
      calls are in flight. */
  lemma VerdictStands(w: World, id: Id)
    requires Reachable(w) && Ruled(w.history, id)
    ensures HasVerdict(w.s, id)
  {
    var moves :| Runs(START, moves, w);
    assert Safe(START) && OpenedOnce(START, id);
    hide Safe, Runs;
    RunOpened(START, moves, w, id);
  }

  /** A command that was released for a tool that needs approval has a verdict. */
  lemma ReleasedHasVerdict(w: World, id: Id)
    requires Reachable(w) && id in w.s.commands && NeedsApproval(w.s.commands[id].request.tool)
    requires Released(w.s.commands[id].status)
    ensures HasVerdict(w.s, id)
  {
    hide Reachable, StoreOk;
    ReachableSafe(w);
    StoreSafe(w);
    ReadOk(w.s, w.history, id);
    var tool := w.s.commands[id].request.tool;
    var j :| 0 <= j < |w.history| && Grants(w.history[j], id, tool);
    assert Rules(w.history[j], id);
    VerdictStands(w, id);
  }

  lemma StoreSafe(w: World)
    requires Safe(w)
    ensures StoreOk(w.s, w.history)
  {
    hide StoreOk, TaskOk;
  }

  // ---------------------------------------------------------------- left behind for good

  /** The call can still bring a command back whose approval is denied: it is about to write or to send it, or holds an
      approval it read before the denial, or a copy from before. */
  predicate CanRevive(pc: Pc, id: Id) {
    match pc
    case CreateStored(c) => c.id == id
    case CreateGuarded(c) => c.id == id && c.status == Dispatched
    case DecideWeighed(c, Some(a), _) => c.id == id && a.decision == Pending
    case DecideRuled(c, _) => c.id == id && c.status != Queued
    case DecideStored(c, _) => c.id == id && c.status == Dispatched
    case Try(c) => c.id == id && c.status == Dispatched
    case TryCleared(c, Some(a)) => c.id == id && a.decision == Granted
    case TryClaiming(c) => c.id == id
    case TrySending(c) => c.id == id
    case ResultGot(deviceId, Some(c), _) =>
      c.id == id && c.request.targetDeviceId == deviceId && c.status in {Dispatched, Running}
    case ResultSaved(c, _) => c.id == id
    case _ => false
  }

  ghost predicate Revives(task: Task, id: Id) {
    CanRevive(task.pc, id) || (task.origin != Listing && Outdated(task.queue, id))
  }

  ghost predicate Outdated(queue: seq<Command>, id: Id) {
    exists k :: 0 <= k < |queue| && queue[k].id == id && queue[k].status == Dispatched
  }

  /** Queued or already expired, its approval denied. */
  predicate Blocked(s: S.State, id: Id) {
    && id in s.commands && s.commands[id].status in {Queued, Expired} && NeedsApproval(s.commands[id].request.tool)
    && id in s.approvals && s.approvals[id].decision == Denied
  }

  ghost predicate Lost(w: World, id: Id) {
    Blocked(w.s, id) && forall t :: t in w.tasks ==> !Revives(w.tasks[t], id)
  }

  predicate Hands(e: Event, id: Id) {
    e.Handed? && e.command.id == id
  }

  /** The write leaves the command queued or expired and its approval denied, sends nothing of it, and the call stays
      unable to bring it back. */
  ghost predicate Idle(r: (Effect, Option<Task>), id: Id) {
    && (r.0.PutCommand? && r.0.command.id == id ==> r.0.command.status in {Queued, Expired})
    && (r.0.PutApproval? ==> r.0.approval.commandId != id)
    && (r.0.HandOut? ==> r.0.command.id != id)
    && (r.1.Some? ==> !Revives(r.1.value, id))
  }

  /** What the segments need to know of store and call. */
  ghost predicate Apart(s: S.State, task: Task, id: Id) {
    && Blocked(s, id) && !Revives(task, id)
    && (forall i :: i in s.commands ==> s.commands[i].id == i)
    && (task.pc.Try? && task.pc.c.id == id ==> NeedsApproval(task.pc.c.request.tool))
    && (HasRead(task.pc, id) ==> task.pc.c.id == id)
    && (task.pc.TrySending? ==> task.pc.c.status == Dispatched)
  }

  lemma NextIdle(origin: Origin, queue: seq<Command>, id: Id)
    requires origin == Listing || !Outdated(queue, id)
    ensures Next(origin, queue).Some? ==> !Revives(Next(origin, queue).value, id)
  {
    if queue != [] && origin != Listing {
      forall k | 0 <= k < |queue| - 1 && queue[1..][k].id == id
        ensures queue[1..][k].status != Dispatched
      {
        assert queue[1..][k] == queue[k + 1];
      }
    }
  }

  lemma CopiesIdle(s: S.State, origin: Origin, ids: seq<Id>, id: Id)
    requires Blocked(s, id) && (forall i :: i in s.commands ==> s.commands[i].id == i)
    requires forall i :: i in ids ==> i in s.commands
    ensures Idle((Nothing, Next(origin, Copies(s.commands, ids))), id)
  {
    hide Next, Revives;
    forall k | 0 <= k < |ids| && s.commands[ids[k]].id == id
      ensures s.commands[ids[k]].status != Dispatched
    {
      assert ids[k] in ids;
    }
    NextIdle(origin, Copies(s.commands, ids), id);
  }

  lemma CreatesIdle(s: S.State, task: Task, id: Id, newId: Id)
    requires Apart(s, task, id) && newId !in s.commands
    ensures Idle(Creates(s, task, newId), id)
  {
    hide Outdated, Next;
  }

  lemma DecidesIdle(s: S.State, task: Task, id: Id)
    requires Apart(s, task, id)
    ensures Idle(Decides(s, task), id)
  {
    hide Outdated, Next;
  }

  lemma TriesIdle(s: S.State, task: Task, id: Id)
    requires Apart(s, task, id) && !task.pc.ListStart?
    ensures Idle(Tries(s, task), id)
  {
    hide Outdated, Next;
    NextIdle(task.origin, task.queue, id);
  }

  lemma ListStartIdle(s: S.State, task: Task, id: Id)
    requires Apart(s, task, id) && task.pc.ListStart?
    ensures Idle(Tries(s, task), id)
  {
    hide Idle, S.ListCommands, Next, Blocked;
    CopiesIdle(s, Listing, S.ListCommands(s, task.pc.userId, S.ListLimit(task.pc.limit)), id);
  }

  lemma GreetsIdle(s: S.State, task: Task, id: Id)
    requires Apart(s, task, id)
    ensures Idle(Greets(s, task), id)
  {
    hide Outdated, Next, Blocked;
    if task.pc.HelloAttached? {
      CopiesIdle(s, Greeting, S.ListDispatchable(s, task.pc.deviceId), id);
    }
  }

  lemma ReportsIdle(s: S.State, task: Task, id: Id)
    requires Apart(s, task, id)
    ensures Idle(Reports(s, task), id)
  {
    hide Outdated, Next;
  }

  lemma SegmentIdle(s: S.State, task: Task, id: Id, newId: Id)
    requires Apart(s, task, id) && newId !in s.commands
    ensures Idle(Segment(s, task, newId), id)
  {
    hide *;
    SegmentIs(s, task, newId);
    CreatesIdle(s, task, id, newId);
    DecidesIdle(s, task, id);
    ReportsIdle(s, task, id);
    GreetsIdle(s, task, id);
    if task.pc.ListStart? {
      ListStartIdle(s, task, id);
    } else {
      TriesIdle(s, task, id);
    }
  }

  lemma ApartIs(s: S.State, h: seq<Event>, task: Task, id: Id)
    requires StoreOk(s, h) && TaskOk(s, h, task) && Blocked(s, id) && !Revives(task, id)
    ensures Apart(s, task, id)
  {
    hide Owned, Cleared, ApprovalOk, QueueOk, OriginOk, Revives;
    forall i | i in s.commands ensures s.commands[i].id == i {
      assert StoredOk(s, h, i);
    }
  }

  lemma PerformBlocked(s: S.State, h: seq<Event>, e: Effect, id: Id)
    requires Blocked(s, id) && EffectOk(s, h, e)
    requires e.PutCommand? && e.command.id == id ==> e.command.status in {Queued, Expired}
    requires e.PutApproval? ==> e.approval.commandId != id
    ensures Blocked(Perform(s, e), id)
  {
    hide CopyOk, Cleared;
  }

  /** The history grows by nothing that hands the command out. */
  ghost predicate Unsent(h: seq<Event>, h': seq<Event>, id: Id) {
    h <= h' && forall k :: |h| <= k < |h'| ==> !Hands(h'[k], id)
  }

  lemma RememberedUnsent(s: S.State, h: seq<Event>, e: Effect, id: Id)
    requires e.HandOut? ==> e.command.id != id
    ensures Unsent(h, h + Remembered(s, e), id)
  {
    hide S.Link;
  }

  lemma UnsentChain(h: seq<Event>, h1: seq<Event>, h2: seq<Event>, id: Id)
    requires Unsent(h, h1, id) && Unsent(h1, h2, id)
    ensures Unsent(h, h2, id)
  {
  }

  lemma AdvanceLost(w: World, t: nat, newId: Id, id: Id)
    requires Safe(w) && Lost(w, id) && Interleaving.Possible(w, Advance(t, newId))
    ensures Lost(Moved(w, Advance(t, newId)), id)
    ensures Unsent(w.history, Moved(w, Advance(t, newId)).history, id)
  {
    hide Safe, StoreOk, TaskOk, Segment, Perform, Moved, Remembered, Revives, Unsent, Apart, Blocked, EffectOk;
    var e := Segment(w.s, w.tasks[t], newId).0;
    AdvancedIs(w, t, newId);
    SafeMeans(w, t);
    ApartIs(w.s, w.history, w.tasks[t], id);
    SegmentIdle(w.s, w.tasks[t], id, newId);
    SegmentOk(w.s, w.history, w.tasks[t], newId);
    PerformBlocked(w.s, w.history, e, id);
    RememberedUnsent(w.s, w.history, e, id);
  }

  lemma AroundLost(w: World, m: Move, id: Id)
    requires Lost(w, id) && Interleaving.Possible(w, m) && !m.Advance?
    ensures Lost(Moved(w, m), id) && Unsent(w.history, Moved(w, m).history, id)
  {
    hide Moved, Interleaving.Possible;
    AroundIs(w, m);
  }

  lemma UnsentSelf(h: seq<Event>, id: Id)
    ensures Unsent(h, h, id)
  {
  }

  /** Left behind for good: a queued command whose approval is denied, and which no call in flight can bring back, is
      queued or expired after every continuation and is never handed out. */
  lemma {:induction false} LostForGood(w: World, moves: seq<Move>, w': World, id: Id)
    requires Safe(w) && Lost(w, id) && Runs(w, moves, w')
    ensures Lost(w', id) && Unsent(w.history, w'.history, id)
    decreases |moves|
  {
    hide Safe, Moved, Lost, Unsent, Interleaving.Possible;
    UnsentSelf(w.history, id);
    if moves != [] {
      var w1 := Moved(w, moves[0]);
      MoveSafe(w, moves[0]);
      if moves[0].Advance? {
        AdvanceLost(w, moves[0].t, moves[0].id, id);
      } else {
        AroundLost(w, moves[0], id);
      }
      LostForGood(w1, moves[1..], w', id);
      UnsentChain(w.history, w1.history, w'.history, id);
    }
  }
}
