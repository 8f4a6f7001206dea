/** When a finished command is finished for good, calls being cut at each `await`: exactly if no call in flight
    holds an older copy that it can still write back. */
module InterleavingSettled {
  import opened Wrappers
  import opened Protocol
  import opened Ordering
  import opened ServerInvariant
  import opened Interleaving
  import opened InterleavingSafety
  import S = Server

  // ---------------------------------------------------------------- which copies can be written back

  predicate Unfinished(c: Command, id: Id) {
    c.id == id && !Terminal(c.status)
  }

  predicate Sendable(c: Command, id: Id) {
    c.id == id && c.status in {Queued, Dispatched}
  }

  predicate Allows(biometricRequired: bool, decision: Decision) {
    biometricRequired && decision.approve ==> decision.verified
  }

  /** The call can still write its copy of the command `stored`; `ruling` says whether a decision that has yet to
      read the approval can find it pending. */
  predicate MayWrite(pc: Pc, stored: Command, ruling: bool) {
    match pc
    case CreateFound(_, request, Some(c)) => Unfinished(c, stored.id) && c.request == request
    case CreateStored(c) => Sendable(c, stored.id)
    case CreateGuarded(c) => Sendable(c, stored.id)
    case GetGot(Some(c), _) => Unfinished(c, stored.id)
    case DecideGot(c, decision) =>
      c.id == stored.id && c.status == AwaitingApproval && ruling && Allows(NeedsBiometric(c.request.tool), decision)
    case DecideWeighed(c, Some(a), decision) =>
      c.id == stored.id && a.decision == Pending && Allows(a.biometricRequired, decision)
    case DecideRuled(c, _) => c.id == stored.id && c != stored
    case DecideStored(c, _) => Sendable(c, stored.id)
    case Try(c) => Sendable(c, stored.id)
    case TryCleared(c, Some(a)) => c.id == stored.id && a.decision == Granted
    case TryClaiming(c) => c.id == stored.id
    case Expire(c) => Unfinished(c, stored.id)
    case ResultGot(deviceId, Some(c), _) =>
      c.id == stored.id && c.request.targetDeviceId == deviceId && c.status in {Dispatched, Running}
    case ResultSaved(c, _) => c.id == stored.id
    case _ => false
  }

  /** A copy that a loop of this kind has yet to visit, and will write back. */
  predicate Visits(origin: Origin, c: Command, id: Id) {
    if origin == Listing then Unfinished(c, id) else Sendable(c, id)
  }

  ghost predicate Stale(origin: Origin, queue: seq<Command>, id: Id) {
    exists k :: 0 <= k < |queue| && Visits(origin, queue[k], id)
  }

  ghost predicate Threatens(task: Task, stored: Command, ruling: bool) {
    MayWrite(task.pc, stored, ruling) || Stale(task.origin, task.queue, stored.id)
  }

  predicate IsPending(s: S.State, id: Id) {
    id in s.approvals && s.approvals[id].decision == Pending
  }

  /** A create that is about to store the pending approval. */
  predicate Opens(pc: Pc, id: Id) {
    pc.CreateStored? && pc.c.id == id && NeedsApproval(pc.c.request.tool)
  }

  /** A decision in flight can still find the approval pending. */
  ghost predicate CanRule(w: World, id: Id) {
    IsPending(w.s, id) || exists t :: t in w.tasks && Opens(w.tasks[t].pc, id)
  }

  /** Finished, and no call in flight can write back a copy from before. */
  ghost predicate Settled(w: World, id: Id) {
    && id in w.s.commands && Terminal(w.s.commands[id].status)
    && forall t :: t in w.tasks ==> !Threatens(w.tasks[t], w.s.commands[id], CanRule(w, id))
  }

  // ---------------------------------------------------------------- a settled command stays

  /** The write leaves the command as it is stored, and what the call carries on cannot be written back. */
  ghost predicate Harmless(r: (Effect, Option<Task>), stored: Command, ruling: bool) {
    && (r.0.PutCommand? && r.0.command.id == stored.id ==> r.0.command == stored)
    && (r.1.Some? ==> !Threatens(r.1.value, stored, ruling))
  }

  /** What the segments need to know of the store. */
  ghost predicate Stored(s: S.State, stored: Command, ruling: bool) {
    && Lookup(s.commands, stored.id) == Some(stored) && Terminal(stored.status)
    && (forall id :: id in s.commands ==> s.commands[id].id == id)
    && (stored.id in s.approvals ==>
          && s.approvals[stored.id].biometricRequired == NeedsBiometric(stored.request.tool)
          && (s.approvals[stored.id].decision == Pending ==> ruling))
  }

  lemma NextHarmless(origin: Origin, queue: seq<Command>, stored: Command, ruling: bool)
    requires !Stale(origin, queue, stored.id)
    ensures Next(origin, queue).Some? ==> !Threatens(Next(origin, queue).value, stored, ruling)
  {
    if queue != [] {
      assert !Visits(origin, queue[0], stored.id);
      forall k | 0 <= k < |queue| - 1
        ensures !Visits(origin, queue[1..][k], stored.id)
      {
        assert queue[1..][k] == queue[k + 1];
      }
    }
  }

  lemma CopiesHarmless(s: S.State, origin: Origin, ids: seq<Id>, stored: Command, ruling: bool)
    requires Stored(s, stored, ruling) && forall i :: i in ids ==> i in s.commands
    ensures !Stale(origin, Copies(s.commands, ids), stored.id)
  {
    forall k | 0 <= k < |ids|
      ensures !Visits(origin, s.commands[ids[k]], stored.id)
    {
      assert ids[k] in ids;
    }
  }

  lemma EmptyHarmless(origin: Origin, id: Id)
    ensures !Stale(origin, [], id)
  {
  }

  lemma CreatesHarmless(s: S.State, task: Task, stored: Command, ruling: bool, newId: Id)
    requires Stored(s, stored, ruling) && !Threatens(task, stored, ruling) && newId !in s.commands
    ensures Harmless(Creates(s, task, newId), stored, ruling)
  {
    hide Stale, Next;
  }

  lemma DecidesHarmless(s: S.State, task: Task, stored: Command, ruling: bool)
    requires Stored(s, stored, ruling) && !Threatens(task, stored, ruling)
    requires task.pc.DecideGot? && task.pc.c.id == stored.id ==> task.pc.c.request == stored.request
    ensures Harmless(Decides(s, task), stored, ruling)
  {
    hide Stale, Next;
  }

  lemma TriesHarmless(s: S.State, task: Task, stored: Command, ruling: bool)
    requires Stored(s, stored, ruling) && !Threatens(task, stored, ruling) && !task.pc.ListStart?
    ensures Harmless(Tries(s, task), stored, ruling)
  {
    hide Stale, Next;
    NextHarmless(task.origin, task.queue, stored, ruling);
  }

  lemma ReportsHarmless(s: S.State, task: Task, stored: Command, ruling: bool)
    requires Stored(s, stored, ruling) && !Threatens(task, stored, ruling)
    ensures Harmless(Reports(s, task), stored, ruling)
  {
    hide Stale, Next;
  }

  lemma GreetsHarmless(s: S.State, task: Task, stored: Command, ruling: bool)
    requires !task.pc.HelloAttached? && !Threatens(task, stored, ruling)
    ensures Harmless(Greets(s, task), stored, ruling)
  {
    hide Stale;
  }

  lemma ListedHarmless(s: S.State, origin: Origin, ids: seq<Id>, stored: Command, ruling: bool)
    requires Stored(s, stored, ruling) && forall i :: i in ids ==> i in s.commands
    ensures Harmless((Nothing, Next(origin, Copies(s.commands, ids))), stored, ruling)
  {
    hide Stored, Stale, Next, Threatens;
    CopiesHarmless(s, origin, ids, stored, ruling);
    NextHarmless(origin, Copies(s.commands, ids), stored, ruling);
  }

  lemma ListStartHarmless(s: S.State, task: Task, stored: Command, ruling: bool)
    requires Stored(s, stored, ruling) && task.pc.ListStart?
    ensures Harmless(Tries(s, task), stored, ruling)
  {
    hide Harmless, S.ListCommands, Next, Stored;
    ListedHarmless(s, Listing, S.ListCommands(s, task.pc.userId, S.ListLimit(task.pc.limit)), stored, ruling);
  }

  lemma HelloAttachedHarmless(s: S.State, task: Task, stored: Command, ruling: bool)
    requires Stored(s, stored, ruling) && task.pc.HelloAttached?
    ensures Harmless(Greets(s, task), stored, ruling)
  {
    hide Next, Stored, Threatens;
    ListedHarmless(s, Greeting, S.ListDispatchable(s, task.pc.deviceId), stored, ruling);
  }

  lemma SegmentIs(s: S.State, task: Task, newId: Id)
    ensures Segment(s, task, newId)
      in {Creates(s, task, newId), Decides(s, task), Tries(s, task), Reports(s, task), Greets(s, task)}
  {
    hide Creates, Decides, Tries, Reports, Greets;
  }

  lemma StoredIs(s: S.State, h: seq<Event>, id: Id)
    requires StoreOk(s, h) && id in s.commands && Terminal(s.commands[id].status)
    ensures Stored(s, s.commands[id], IsPending(s, id))
  {
    hide CopyOk, Owned;
    forall i | i in s.commands ensures s.commands[i].id == i {
      assert StoredOk(s, h, i);
    }
    if id in s.approvals {
      assert ApprovalOk(s, h, s.approvals[id]);
    }
  }

  lemma StoredWeaker(s: S.State, stored: Command, ruling: bool, ruling': bool)
    requires Stored(s, stored, ruling) && (ruling ==> ruling')
    ensures Stored(s, stored, ruling')
  {
  }

  lemma CopyAsked(s: S.State, h: seq<Event>, task: Task)
    requires TaskOk(s, h, task) && task.pc.DecideGot? && task.pc.c.id in s.commands
    ensures task.pc.c.request == s.commands[task.pc.c.id].request
  {
    hide QueueOk, Cleared;
  }

  /** A call that cannot write the command back does not write it, and stays so. */
  lemma SegmentHarmless(s: S.State, h: seq<Event>, task: Task, stored: Command, ruling: bool, newId: Id)
    requires Stored(s, stored, ruling) && newId !in s.commands && !Threatens(task, stored, ruling)
    requires Lookup(s.commands, stored.id) == Some(stored) && TaskOk(s, h, task)
    ensures Harmless(Segment(s, task, newId), stored, ruling)
  {
    hide *;
    SegmentIs(s, task, newId);
    CreatesHarmless(s, task, stored, ruling, newId);
    LookupIs(s.commands, stored.id);
    if task.pc.DecideGot? && task.pc.c.id == stored.id {
      CopyAsked(s, h, task);
    }
    DecidesHarmless(s, task, stored, ruling);
    ReportsHarmless(s, task, stored, ruling);
    if task.pc.ListStart? {
      ListStartHarmless(s, task, stored, ruling);
    } else {
      TriesHarmless(s, task, stored, ruling);
    }
    if task.pc.HelloAttached? {
      HelloAttachedHarmless(s, task, stored, ruling);
    } else {
      GreetsHarmless(s, task, stored, ruling);
    }
  }

  lemma LookupIs<K, V>(m: map<K, V>, k: K)
    ensures Lookup(m, k) == if k in m then Some(m[k]) else None
  {
  }

  lemma PerformPending(s: S.State, e: Effect, id: Id)
    ensures IsPending(Perform(s, e), id) ==>
              IsPending(s, id) || (e.PutApproval? && e.approval.commandId == id && e.approval.decision == Pending)
    ensures Perform(s, e).clock == s.clock
  {
  }

  /** Nothing but a create about to do so makes an approval pending, and for a stored command there is none to come. */
  lemma SegmentOpens(s: S.State, task: Task, newId: Id, id: Id)
    requires id in s.commands && newId !in s.commands
    ensures var (e, next) := Segment(s, task, newId);
      && (next.Some? && Opens(next.value.pc, id) ==> Opens(task.pc, id))
      && (e.PutApproval? && e.approval.commandId == id && e.approval.decision == Pending ==> Opens(task.pc, id))
  {
    hide S.FindByKey, S.ListCommands, S.ListDispatchable, Copies;
  }

  lemma PerformStored(s: S.State, e: Effect, stored: Command)
    requires stored.id in s.commands && s.commands[stored.id] == stored
    requires e.PutCommand? && e.command.id == stored.id ==> e.command == stored
    ensures stored.id in Perform(s, e).commands && Perform(s, e).commands[stored.id] == stored
  {
  }

  /** No decision that cannot find the approval pending ever will. */
  lemma AdvanceRuling(w: World, t: nat, newId: Id, id: Id)
    requires id in w.s.commands && Interleaving.Possible(w, Advance(t, newId))
    requires CanRule(Moved(w, Advance(t, newId)), id)
    ensures CanRule(w, id)
  {
    hide IsPending, Opens, Perform, Segment, Remembered;
    SegmentOpens(w.s, w.tasks[t], newId, id);
    PerformPending(w.s, Segment(w.s, w.tasks[t], newId).0, id);
  }

  lemma ThreatensLess(task: Task, stored: Command, ruling: bool, ruling': bool)
    requires !Threatens(task, stored, ruling) && (ruling' ==> ruling)
    ensures !Threatens(task, stored, ruling')
  {
    hide Stale;
  }

  lemma AdvancedIs(w: World, t: nat, newId: Id)
    requires Interleaving.Possible(w, Advance(t, newId))
    ensures t in w.tasks && newId !in w.s.commands
    ensures var (e, next), w' := Segment(w.s, w.tasks[t], newId), Moved(w, Advance(t, newId));
      && w'.s == Perform(w.s, e) && w'.history == w.history + Remembered(w.s, e)
      && w'.tasks == if next.Some? then w.tasks[t := next.value] else w.tasks - {t}
  {
    hide Segment, Perform, Remembered;
  }

  lemma SafeMeans(w: World, t: nat)
    requires Safe(w) && t in w.tasks
    ensures StoreOk(w.s, w.history) && TaskOk(w.s, w.history, w.tasks[t])
  {
    hide StoreOk, TaskOk;
  }

  /** A call goes on, and neither writes the command nor comes to threaten it. */
  lemma AdvanceHarmless(w: World, t: nat, newId: Id, id: Id)
    requires Safe(w) && Settled(w, id) && Interleaving.Possible(w, Advance(t, newId))
    ensures id in w.s.commands
    ensures Harmless(Segment(w.s, w.tasks[t], newId), w.s.commands[id], CanRule(w, id))
  {
    hide Safe, StoreOk, TaskOk, Segment, Stored, Threatens, Harmless;
    SafeMeans(w, t);
    StoredIs(w.s, w.history, id);
    StoredWeaker(w.s, w.s.commands[id], IsPending(w.s, id), CanRule(w, id));
    FiledAt(w.s, w.history, id);
    SegmentHarmless(w.s, w.history, w.tasks[t], w.s.commands[id], CanRule(w, id), newId);
  }

  lemma FiledAt(s: S.State, h: seq<Event>, id: Id)
    requires StoreOk(s, h) && id in s.commands
    ensures s.commands[id].id == id && Lookup(s.commands, s.commands[id].id) == Some(s.commands[id])
  {
    hide CopyOk, Owned;
    assert StoredOk(s, h, id);
  }

  lemma AdvanceSettled(w: World, t: nat, newId: Id, id: Id)
    requires Safe(w) && Settled(w, id) && Interleaving.Possible(w, Advance(t, newId))
    ensures Settled(Moved(w, Advance(t, newId)), id)
    ensures Moved(w, Advance(t, newId)).s.commands[id] == w.s.commands[id]
  {
    hide Safe, StoreOk, TaskOk, Segment, Threatens, Perform, Moved, CanRule, Remembered;
    var stored, w' := w.s.commands[id], Moved(w, Advance(t, newId));
    AdvancedIs(w, t, newId);
    SafeMeans(w, t);
    FiledAt(w.s, w.history, id);
    AdvanceHarmless(w, t, newId, id);
    PerformStored(w.s, Segment(w.s, w.tasks[t], newId).0, stored);
    if CanRule(w', id) {
      AdvanceRuling(w, t, newId, id);
    }
    forall u | u in w'.tasks
      ensures !Threatens(w'.tasks[u], stored, CanRule(w', id))
    {
      ThreatensLess(w'.tasks[u], stored, CanRule(w, id), CanRule(w', id));
    }
  }

  lemma AroundIs(w: World, m: Move)
    requires Interleaving.Possible(w, m) && !m.Advance?
    ensures var w' := Moved(w, m);
      && w'.s.commands == w.s.commands && w'.s.approvals == w.s.approvals && w'.history == w.history
      && (forall t :: t in w.tasks ==> t in w'.tasks && w'.tasks[t] == w.tasks[t])
      && (forall t :: t in w'.tasks && t !in w.tasks ==> Starts(w'.tasks[t].pc) && w'.tasks[t].queue == [])
  {
    hide S.Disconnect, OriginOf;
    if m.Disconnected? {
      DisconnectExtends(w.s, w.history, m.socket);
    }
  }

  lemma AroundSettled(w: World, m: Move, id: Id)
    requires Settled(w, id) && Interleaving.Possible(w, m) && !m.Advance?
    ensures Settled(Moved(w, m), id) && Moved(w, m).s.commands[id] == w.s.commands[id]
  {
    hide Moved, Interleaving.Possible, Stale;
    AroundIs(w, m);
    var w' := Moved(w, m);
    assert CanRule(w', id) ==> CanRule(w, id);
    forall t | t in w'.tasks
      ensures !Threatens(w'.tasks[t], w.s.commands[id], CanRule(w', id))
    {
      if t in w.tasks {
        ThreatensLess(w.tasks[t], w.s.commands[id], CanRule(w, id), CanRule(w', id));
      } else {
        EmptyHarmless(w'.tasks[t].origin, w.s.commands[id].id);
      }
    }
  }

  lemma SettledKnown(w: World, id: Id)
    requires Settled(w, id)
    ensures id in w.s.commands && Terminal(w.s.commands[id].status)
  {
  }

  /** Once a command is finished and no call in flight can write back a copy from before, nothing ever changes it,
      however the calls that follow interleave. */
  lemma {:induction false} SettledForGood(w: World, moves: seq<Move>, w': World, id: Id)
    requires Safe(w) && Settled(w, id) && Runs(w, moves, w')
    ensures Settled(w', id) && id in w.s.commands && id in w'.s.commands
    ensures w'.s.commands[id] == w.s.commands[id]
    decreases |moves|
  {
    hide Safe, Moved, Settled, Interleaving.Possible;
    SettledKnown(w, id);
    if moves != [] {
      MoveSafe(w, moves[0]);
      if moves[0].Advance? {
        AdvanceSettled(w, moves[0].t, moves[0].id, id);
      } else {
        AroundSettled(w, moves[0], id);
      }
      SettledForGood(Moved(w, moves[0]), moves[1..], w', id);
    }
  }

  // ---------------------------------------------------------------- and no other does

  lemma Above(ids: set<Id>) returns (top: Id)
    ensures forall i :: i in ids ==> i < top
  {
    if ids == {} {
      top := 0;
    } else {
      var i :| i in ids;
      var rest := Above(ids - {i});
      top := if rest <= i then i + 1 else rest;
      forall j | j in ids ensures j < top {
        assert j == i || j in ids - {i};
      }
    }
  }

  lemma FreshId(s: S.State) returns (id: Id)
    ensures id !in s.commands
  {
    id := Above(s.commands.Keys);
  }

  ghost predicate IsStored(s: S.State, stored: Command) {
    Lookup(s.commands, stored.id) == Some(stored)
  }

  /** The clock has passed the expiry of the command and its last change. */
  predicate Late(s: S.State, stored: Command) {
    s.clock > stored.updatedAt && s.clock >= stored.request.expiresAt
  }

  ghost predicate Rewritten(s: S.State, stored: Command) {
    stored.id in s.commands && s.commands[stored.id] != stored
  }

  function CopyOf(pc: Pc): Option<Command> {
    match pc
    case CreateFound(_, _, existing) => existing
    case CreateStored(c) => Some(c)
    case CreateGuarded(c) => Some(c)
    case GetGot(c, _) => c
    case DecideGot(c, _) => Some(c)
    case DecideWeighed(c, _, _) => Some(c)
    case DecideRuled(c, _) => Some(c)
    case DecideStored(c, _) => Some(c)
    case Try(c) => Some(c)
    case TryCleared(c, _) => Some(c)
    case TryClaiming(c) => Some(c)
    case Expire(c) => Some(c)
    case ResultGot(_, c, _) => c
    case ResultSaved(c, _) => Some(c)
    case _ => None
  }

  /** What is known of a call's copy of a stored command, and of its approval. */
  ghost predicate Fits(s: S.State, pc: Pc, stored: Command) {
    && IsStored(s, stored)
    && (CopyOf(pc).Some? && CopyOf(pc).value.id == stored.id ==> SameIdentity(stored, CopyOf(pc).value))
    && (stored.id in s.approvals ==>
          && s.approvals[stored.id].userId == stored.userId
          && s.approvals[stored.id].biometricRequired == NeedsBiometric(stored.request.tool))
  }

  lemma PcCopy(s: S.State, h: seq<Event>, pc: Pc)
    requires PcOk(s, h, pc) && CopyOf(pc).Some?
    ensures CopyOf(pc).value.id in s.commands && SameIdentity(s.commands[CopyOf(pc).value.id], CopyOf(pc).value)
  {
    hide Cleared, ApprovalOk;
  }

  lemma TaskFits(s: S.State, h: seq<Event>, task: Task, stored: Command)
    requires StoreOk(s, h) && TaskOk(s, h, task) && IsStored(s, stored)
    ensures Fits(s, task.pc, stored)
  {
    hide PcOk, CopyOk, Owned, QueueOk, CopyOf, OriginOk;
    if CopyOf(task.pc).Some? {
      PcCopy(s, h, task.pc);
    }
    if stored.id in s.approvals {
      assert ApprovalOk(s, h, s.approvals[stored.id]);
    }
  }

  /** The next segment writes the copy back, once it is late. */
  predicate WritesNow(pc: Pc, stored: Command) {
    match pc
    case CreateFound(_, request, Some(c)) => Unfinished(c, stored.id) && c.request == request
    case GetGot(Some(c), _) => Unfinished(c, stored.id)
    case DecideRuled(c, _) => c.id == stored.id && c != stored
    case Try(c) => Sendable(c, stored.id)
    case TryCleared(c, Some(a)) => c.id == stored.id && a.decision == Granted && a.consumedAt.Some?
    case TryClaiming(c) => c.id == stored.id
    case Expire(c) => Unfinished(c, stored.id)
    case ResultSaved(c, _) => c.id == stored.id
    case _ => false
  }

  function Rank(pc: Pc): nat {
    match pc
    case CreateStored(_) => 3
    case DecideGot(_, _) => 3
    case CreateGuarded(_) => 2
    case DecideWeighed(_, _, _) => 2
    case DecideStored(_, _) => 2
    case TryCleared(_, _) => 2
    case ResultGot(_, _, _) => 2
    case _ => 1
  }

  lemma WritesAtOnce(s: S.State, task: Task, newId: Id, stored: Command)
    requires WritesNow(task.pc, stored) && Fits(s, task.pc, stored) && Late(s, stored)
    ensures var e := Segment(s, task, newId).0;
      e.PutCommand? && e.command.id == stored.id && e.command != stored
  {
    hide S.FindByKey, S.ListCommands, S.ListDispatchable, Copies, Next;
  }

  lemma HeadsOn(s: S.State, task: Task, newId: Id, stored: Command)
    requires MayWrite(task.pc, stored, IsPending(s, stored.id)) && !WritesNow(task.pc, stored)
    requires Fits(s, task.pc, stored) && Late(s, stored)
    ensures var (e, next) := Segment(s, task, newId);
      !e.PutCommand? && next.Some? && MayWrite(next.value.pc, stored, false) && Rank(next.value.pc) < Rank(task.pc)
  {
    hide S.FindByKey, S.ListCommands, S.ListDispatchable, Copies, Next;
  }

  /** A call in flight at the moment: all that a step of it needs and keeps. */
  ghost predicate Ready(w0: World, w: World, t: nat, stored: Command) {
    Leads(w0, w) && Safe(w) && t in w.tasks && IsStored(w.s, stored) && Late(w.s, stored)
  }

  lemma PerformPut(s: S.State, e: Effect, stored: Command)
    requires e.PutCommand? && e.command.id == stored.id && e.command != stored
    ensures Rewritten(Perform(s, e), stored)
  {
  }

  lemma PerformElse(s: S.State, e: Effect, stored: Command)
    requires IsStored(s, stored) && Late(s, stored)
    requires e.PutCommand? && e.command.id == stored.id ==> e.command == stored
    ensures IsStored(Perform(s, e), stored) && Late(Perform(s, e), stored)
  {
  }

  /** One step of call `t`: either it writes something else over the command, or all is as before. */
  lemma OneStep(w0: World, w: World, t: nat, stored: Command) returns (w': World, newId: Id)
    requires Ready(w0, w, t, stored)
    ensures Leads(w0, w') && newId !in w.s.commands
    ensures var (e, next) := Segment(w.s, w.tasks[t], newId);
      && w'.s == Perform(w.s, e) && w'.tasks == (if next.Some? then w.tasks[t := next.value] else w.tasks - {t})
      && if e.PutCommand? && e.command.id == stored.id && e.command != stored then Rewritten(w'.s, stored)
         else Safe(w') && IsStored(w'.s, stored) && Late(w'.s, stored)
  {
    hide Leads, Safe, IsStored, Late, Segment, Perform, Remembered, Moved, Rewritten;
    newId := FreshId(w.s);
    w' := GoesOn(w0, w, t, newId);
    MoveSafe(w, Advance(t, newId));
    var e := Segment(w.s, w.tasks[t], newId).0;
    if e.PutCommand? && e.command.id == stored.id && e.command != stored {
      PerformPut(w.s, e, stored);
    } else {
      PerformElse(w.s, e, stored);
    }
  }

  /** A copy that can be written back is written back after a few steps. */
  lemma {:induction false} WritesBack(w0: World, w: World, t: nat, stored: Command) returns (w': World)
    requires Ready(w0, w, t, stored) && MayWrite(w.tasks[t].pc, stored, IsPending(w.s, stored.id))
    ensures Leads(w0, w') && Rewritten(w'.s, stored)
    decreases Rank(w.tasks[t].pc)
  {
    hide Leads, Safe, IsStored, Late, Segment, Perform, MayWrite, WritesNow, Rewritten, Rank, IsPending, Fits;
    hide StoreOk, TaskOk;
    var task := w.tasks[t];
    SafeMeans(w, t);
    TaskFits(w.s, w.history, task, stored);
    var w1, newId := OneStep(w0, w, t, stored);
    if WritesNow(task.pc, stored) {
      WritesAtOnce(w.s, task, newId, stored);
      w' := w1;
    } else {
      HeadsOn(w.s, task, newId, stored);
      MayWriteMore(w1.tasks[t].pc, stored, IsPending(w1.s, stored.id));
      w' := WritesBack(w0, w1, t, stored);
    }
  }

  lemma MayWriteMore(pc: Pc, stored: Command, ruling: bool)
    requires MayWrite(pc, stored, false)
    ensures MayWrite(pc, stored, ruling)
  {
  }

  function LoopRank(pc: Pc): nat {
    match pc
    case Try(_) => 4
    case Expire(_) => 4
    case TryCleared(_, _) => 3
    case TryClaiming(_) => 2
    case _ => 1
  }

  /** A loop step that does not reach its end comes nearer to it. */
  lemma LoopNearer(s: S.State, task: Task, newId: Id)
    requires Loops(task.pc)
    ensures var next := Segment(s, task, newId).1;
      next == Done(task)
      || (next.Some? && next.value.queue == task.queue && next.value.origin == task.origin && Loops(next.value.pc)
          && LoopRank(next.value.pc) < LoopRank(task.pc))
  {
    hide Next;
  }

  /** What a loop visits next. */
  lemma NextVisits(origin: Origin, queue: seq<Command>, stored: Command, ruling: bool)
    requires Stale(origin, queue, stored.id)
    ensures var next := Next(origin, queue);
      && next.Some? && Loops(next.value.pc) && next.value.origin == origin && |next.value.queue| < |queue|
      && (MayWrite(next.value.pc, stored, ruling) || Stale(origin, next.value.queue, stored.id))
  {
    var k :| 0 <= k < |queue| && Visits(origin, queue[k], stored.id);
    if k > 0 {
      assert queue[1..][k - 1] == queue[k];
    }
  }

  lemma {:induction false} ComesToWrite(w0: World, w: World, t: nat, stored: Command) returns (w': World)
    requires Ready(w0, w, t, stored) && Loops(w.tasks[t].pc)
    requires Stale(w.tasks[t].origin, w.tasks[t].queue, stored.id)
    ensures Leads(w0, w') && Rewritten(w'.s, stored)
    decreases |w.tasks[t].queue|, LoopRank(w.tasks[t].pc)
  {
    hide Leads, Safe, IsStored, Late, Segment, Perform, MayWrite, Rewritten, LoopRank, IsPending, Next, Stale, Loops;
    var task := w.tasks[t];
    var w1, newId := OneStep(w0, w, t, stored);
    LoopNearer(w.s, task, newId);
    if Rewritten(w1.s, stored) {
      w' := w1;
    } else if Segment(w.s, task, newId).1 == Done(task) {
      NextVisits(task.origin, task.queue, stored, IsPending(w1.s, stored.id));
      if MayWrite(w1.tasks[t].pc, stored, IsPending(w1.s, stored.id)) {
        w' := WritesBack(w0, w1, t, stored);
      } else {
        w' := ComesToWrite(w0, w1, t, stored);
      }
    } else {
      w' := ComesToWrite(w0, w1, t, stored);
    }
  }

  lemma OpensNow(s: S.State, task: Task, newId: Id, id: Id)
    requires Opens(task.pc, id)
    ensures var (e, next) := Segment(s, task, newId);
      !e.PutCommand? && next.Some? && IsPending(Perform(s, e), id)
  {
  }

  /** A decision that has yet to read the approval finds it pending once the create has stored it. */
  lemma OpensFirst(w0: World, w: World, t: nat, u: nat, stored: Command) returns (w': World)
    requires Ready(w0, w, t, stored) && MayWrite(w.tasks[t].pc, stored, true)
    requires u in w.tasks && Opens(w.tasks[u].pc, stored.id) && !MayWrite(w.tasks[t].pc, stored, false)
    ensures Leads(w0, w') && Rewritten(w'.s, stored)
  {
    hide Leads, Safe, IsStored, Late, Segment, Perform, Rewritten, IsPending;
    assert u != t;
    var w1, newId := OneStep(w0, w, u, stored);
    OpensNow(w.s, w.tasks[u], newId, stored.id);
    hide MayWrite;
    w' := WritesBack(w0, w1, t, stored);
  }

  lemma LoopsWhile(s: S.State, h: seq<Event>, task: Task, id: Id)
    requires TaskOk(s, h, task) && Stale(task.origin, task.queue, id)
    ensures Loops(task.pc)
  {
    hide PcOk, QueueOk, Visits;
  }

  lemma MayWriteCases(pc: Pc, stored: Command, ruling: bool)
    requires MayWrite(pc, stored, ruling)
    ensures ruling || MayWrite(pc, stored, false)
  {
  }

  lemma ThreatComesTrue(w0: World, w: World, t: nat, stored: Command) returns (w': World)
    requires Ready(w0, w, t, stored) && Threatens(w.tasks[t], stored, CanRule(w, stored.id))
    ensures Leads(w0, w') && Rewritten(w'.s, stored)
  {
    hide Leads, Safe, IsStored, Late, Rewritten, IsPending, Stale, MayWrite, StoreOk, TaskOk, Opens;
    SafeMeans(w, t);
    var pc := w.tasks[t].pc;
    if MayWrite(pc, stored, CanRule(w, stored.id)) {
      MayWriteCases(pc, stored, CanRule(w, stored.id));
      if MayWrite(pc, stored, false) {
        MayWriteMore(pc, stored, IsPending(w.s, stored.id));
        w' := WritesBack(w0, w, t, stored);
      } else if IsPending(w.s, stored.id) {
        w' := WritesBack(w0, w, t, stored);
      } else {
        var u :| u in w.tasks && Opens(w.tasks[u].pc, stored.id);
        w' := OpensFirst(w0, w, t, u, stored);
      }
    } else {
      LoopsWhile(w.s, w.history, w.tasks[t], stored.id);
      w' := ComesToWrite(w0, w, t, stored);
    }
  }

  lemma TimePasses(w: World, stored: Command) returns (w': World)
    requires Safe(w) && IsStored(w.s, stored)
    ensures Leads(w, w') && Safe(w') && IsStored(w'.s, stored) && Late(w'.s, stored)
    ensures w'.tasks == w.tasks && w'.s.approvals == w.s.approvals
  {
    hide Leads, Safe;
    var soon := if stored.updatedAt < stored.request.expiresAt then stored.request.expiresAt else stored.updatedAt;
    LeadsSelf(w);
    MoveSafe(w, Tick(soon + 1));
    w' := MovesOn(w, w, Tick(soon + 1));
  }

  /** Any call that can still write an old copy back does so in some continuation. */
  lemma ThreatenedChanges(w: World, t: nat, id: Id) returns (w': World)
    requires Safe(w) && t in w.tasks && id in w.s.commands && w.s.commands[id].id == id
    requires Threatens(w.tasks[t], w.s.commands[id], CanRule(w, id))
    ensures Leads(w, w') && id in w'.s.commands && w'.s.commands[id] != w.s.commands[id]
  {
    hide Leads, Safe, Threatens, Late, IsPending;
    var w1 := TimePasses(w, w.s.commands[id]);
    CanRuleSame(w, w1, id);
    w' := ThreatComesTrue(w, w1, t, w.s.commands[id]);
  }

  lemma CanRuleSame(w: World, w': World, id: Id)
    requires w'.tasks == w.tasks && w'.s.approvals == w.s.approvals
    ensures CanRule(w', id) == CanRule(w, id)
  {
  }

  lemma SettledLeads(w: World, w': World, id: Id)
    requires Safe(w) && Settled(w, id) && Leads(w, w')
    ensures id in w.s.commands && id in w'.s.commands && w'.s.commands[id] == w.s.commands[id]
  {
    hide Safe, Settled;
    var moves :| Runs(w, moves, w');
    SettledForGood(w, moves, w', id);
  }

  /** Terminal states absorb exactly here: a finished command stays as it is in every continuation if and only if no
      call in flight can write back an older copy. */
  lemma SettledIff(w: World, id: Id)
    requires Reachable(w) && id in w.s.commands && Terminal(w.s.commands[id].status)
    ensures Settled(w, id) <==>
              forall w' :: Leads(w, w') ==> id in w'.s.commands && w'.s.commands[id] == w.s.commands[id]
  {
    hide Safe, Threatens, CanRule, StoreOk, Leads;
    ReachableSafe(w);
    if Settled(w, id) {
      forall w' | Leads(w, w')
        ensures id in w'.s.commands && w'.s.commands[id] == w.s.commands[id]
      {
        SettledLeads(w, w', id);
      }
    } else {
      var t :| t in w.tasks && Threatens(w.tasks[t], w.s.commands[id], CanRule(w, id));
      SafeFiled(w, id);
      var w' := ThreatenedChanges(w, t, id);
    }
  }

  lemma SafeFiled(w: World, id: Id)
    requires Safe(w) && id in w.s.commands
    ensures w.s.commands[id].id == id
  {
    hide TaskOk, CopyOk, Owned;
    FiledAt(w.s, w.history, id);
  }
}
