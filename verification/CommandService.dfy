/** The command service, each call proved against the state machine of module Server. */
module CommandService {
  import opened Wrappers
  import opened Protocol
  import opened Lifecycle
  import opened Ordering
  import opened Services
  import opened StateStore
  import S = Server
  import T = ServerSteps

  /** From `from` on, the copies agree with what is stored, and no command is copied twice. */
  ghost predicate CopiesGood(commands: map<Id, Command>, copies: seq<Command>, from: nat) {
    && (forall k :: from <= k < |copies| ==> copies[k].id in commands && commands[copies[k].id] == copies[k])
    && (forall j, k :: 0 <= j < k < |copies| ==> copies[j].id != copies[k].id)
  }

  lemma CopyIs(commands: map<Id, Command>, copies: seq<Command>, i: nat)
    requires CopiesGood(commands, copies, i) && i < |copies|
    ensures copies[i].id in commands && commands[copies[i].id] == copies[i]
  {
  }

  lemma CopiesKept(s: S.State, s': S.State, copies: seq<Command>, i: nat)
    requires i < |copies| && CopiesGood(s.commands, copies, i) && T.OthersSame(s, s', copies[i].id)
    ensures CopiesGood(s'.commands, copies, i + 1)
  {
    forall k | i + 1 <= k < |copies|
      ensures copies[k].id in s'.commands && s'.commands[copies[k].id] == copies[k]
    {
      assert copies[i].id != copies[k].id && copies[k].id in s.commands;
    }
  }

  lemma CreatedIs(s: S.State, userId: Id, request: Request, id: Id)
    requires S.Filed(s) && id !in s.commands && S.Admission(s, userId, request) == Ok(None)
    ensures var s' := S.TryDispatch(S.Admit(s, userId, request, id), id);
            S.Create(s, userId, request, id) == (s', Ok(s'.commands[id]))
  {
  }

  /** A decision begins with a get, and is refused or ruled on after it. */
  lemma DecideIs(s: S.State, userId: Id, id: Id, approve: bool, verified: bool)
    requires S.Filed(s)
    ensures var (s1, got) := S.Get(s, userId, id);
      var a := S.GetApproval(s1, userId, id);
      S.Decide(s, userId, id, approve, verified)
      == if got.Refused? then (s1, got)
         else if got.value.status != AwaitingApproval || a.None? || a.value.decision != Pending
           then (s1, Refused(Conflict))
         else if a.value.biometricRequired && approve && !verified then (s1, Refused(Forbidden))
         else
           assert id in s1.commands && got.value.id == id;
           var s2 := S.TryDispatch(S.Rule(s1, got.value, a.value, approve, verified), id);
           (s2, Ok(s2.commands[id]))
  {
    hide S.Rule, S.TryDispatch;
  }

  lemma CopiesFrom(s: S.State, ids: seq<Id>, copies: seq<Command>)
    requires S.Filed(s) && Distinct(ids) && forall id :: id in ids ==> id in s.commands
    requires |copies| == |ids| && forall k :: 0 <= k < |ids| ==> ids[k] in s.commands && copies[k] == s.commands[ids[k]]
    ensures CopiesGood(s.commands, copies, 0) && forall k :: 0 <= k < |ids| ==> copies[k].id == ids[k]
  {
    forall k | 0 <= k < |ids| ensures copies[k].id == ids[k] {
    }
  }

  class CommandService {
    const store: MemoryStateStore
    const devices: DeviceService
    const connections: ConnectionRegistry
    const audit: AuditService
    const clock: Clock

    constructor (store: MemoryStateStore, devices: DeviceService, connections: ConnectionRegistry, audit: AuditService,
                 clock: Clock)
      ensures this.store == store && this.devices == devices && this.connections == connections
      ensures this.audit == audit && this.clock == clock
    {
      this.store, this.devices, this.connections, this.audit, this.clock := store, devices, connections, audit, clock;
    }

    /** The state of all objects together, as the state machine sees it. */
    ghost function Abs(): S.State
      reads store, connections, connections.sockets, clock
    {
      S.State(clock.now, store.devices, store.commands, store.commandOrder, store.approvals, store.results,
              store.audit, connections.byDevice, connections.bySocket, connections.sockets.open,
              connections.sockets.everOpen, connections.sockets.sent, connections.hellos, connections.authed)
    }

    ghost predicate Valid()
      reads store, connections, connections.sockets, clock
    {
      && audit.store == store && audit.clock == clock
      && devices.store == store && devices.clock == clock
      && S.Filed(Abs())
      && (forall id :: id in store.approvals ==> store.approvals[id].commandId == id)
    }

    /** A copy of a command that agrees with what is stored. */
    ghost predicate Current(command: Command)
      reads store
    {
      command.id in store.commands && store.commands[command.id] == command
    }

    lemma CurrentFrom(command: Command)
      requires command.id in Abs().commands && Abs().commands[command.id] == command
      ensures Current(command)
    {
    }

    method ExpireIfNeeded(command: Command) returns (r: Command)
      requires Valid() && Current(command)
      modifies store`commands, store`commandOrder, store`audit
      ensures Valid() && Abs() == S.ExpireIfNeeded(old(Abs()), command.id)
      ensures r == S.Aged(command, clock.now) && Current(r)
    {
      r := command;
      if command.request.expiresAt <= clock.now && !Terminal(command.status) {
        r := command.(status := Expired, updatedAt := clock.now);
        store.SetCommand(r);
        audit.Record(command, HasExpired);
      }
    }

    method TryDispatch(command: Command) returns (sent: bool)
      requires Valid() && Current(command)
      modifies store, connections.sockets`sent
      ensures Valid() && Abs() == S.TryDispatch(old(Abs()), command.id)
    {
      hide S.Claim, S.Filed, S.ExpireIfNeeded, S.HandOver;
      if command.status != Queued && command.status != Dispatched {
        return false;
      }
      if command.request.expiresAt <= clock.now {
        var _ := ExpireIfNeeded(command);
        return false;
      }
      if !connections.IsOnline(command.request.targetDeviceId) {
        return false;
      }
      if command.status == Queued && NeedsApproval(command.request.tool) {
        var approval := store.GetApproval(command.userId, command.id);
        if approval.None? || approval.value.decision != Granted {
          return false;
        }
      }
      sent := HandOver(command);
    }

    /** The writes that claim a queued command: its approval is consumed, unless it was, and it becomes dispatched. */
    method Claim(command: Command) returns (dispatchable: Command)
      requires Valid() && Current(command)
      requires NeedsApproval(command.request.tool) ==>
        command.id in store.approvals && store.approvals[command.id].userId == command.userId
      modifies store`commands, store`commandOrder, store`approvals
      ensures Valid() && Abs() == S.Claim(old(Abs()), command) && Current(dispatchable)
      ensures dispatchable == command.(status := Dispatched, updatedAt := clock.now)
    {
      if NeedsApproval(command.request.tool) {
        var approval := store.GetApproval(command.userId, command.id);
        if approval.Some? && approval.value.consumedAt.None? {
          store.SetApproval(approval.value.(consumedAt := Some(clock.now)));
        }
      }
      dispatchable := command.(status := Dispatched, updatedAt := clock.now);
      store.SetCommand(dispatchable);
    }

    /** Claims a queued command, sends it to its device, which is online, and logs the dispatch. */
    method HandOver(command: Command) returns (sent: bool)
      requires Valid() && Current(command) && connections.IsOnline(command.request.targetDeviceId)
      requires command.status == Queued && NeedsApproval(command.request.tool) ==>
        command.id in store.approvals && store.approvals[command.id].userId == command.userId
      modifies store, connections.sockets`sent
      ensures Valid()
      ensures Abs() == S.HandOver(old(Abs()), command.id, connections.byDevice[command.request.targetDeviceId])
    {
      hide S.Claim;
      var dispatchable := command;
      if command.status == Queued {
        dispatchable := Claim(command);
      }
      sent := connections.Send(command.request.targetDeviceId, DispatchOf(dispatchable), clock.now, |store.audit|);
      if sent {
        audit.Record(command, WasDispatched);
      }
    }

    /** `id` is the identifier drawn for a new command. */
    method Create(userId: Id, request: Request, id: Id) returns (reply: Reply<Command>)
      requires Valid() && id !in store.commands
      modifies store, connections.sockets`sent
      ensures Valid() && (Abs(), reply) == S.Create(old(Abs()), userId, request, id)
    {
      hide S.Admit, S.TryDispatch, S.ExpireIfNeeded;
      if request.expiresAt <= clock.now {
        return Refused(BadRequest);
      }
      if request.expiresAt - clock.now > MAX_COMMAND_LIFETIME_MS {
        return Refused(BadRequest);
      }
      var existing := store.FindCommandByIdempotency(userId, request.idempotencyKey);
      if existing.Some? {
        if existing.value.request != request {
          return Refused(Conflict);
        }
        var settled := ExpireIfNeeded(existing.value);
        return Ok(settled);
      }
      var target := devices.RequireExecutor(userId, request.targetDeviceId);
      if target.Refused? {
        return Refused(target.reason);
      }
      if request.tool !in target.value.tools {
        return Refused(BadRequest);
      }
      CreatedIs(old(Abs()), userId, request, id);
      var command := Admit(userId, request, id);
      var _ := TryDispatch(command);
      reply := Ok(store.commands[id]);
    }

    /** The writes that store a new command: the command, its approval if it needs one, and the event. */
    method Admit(userId: Id, request: Request, id: Id) returns (command: Command)
      requires Valid() && id !in store.commands
      modifies store
      ensures Valid() && Abs() == S.Admit(old(Abs()), userId, request, id) && command.id == id && Current(command)
    {
      var policy := PolicyForTool(request.tool);
      var status := if policy.approvalRequired then AwaitingApproval else Queued;
      command := Command(id, userId, request, policy.risk, status, clock.now, clock.now);
      store.SetCommand(command);
      if policy.approvalRequired {
        var biometric := policy.risk in {Destructive, Privileged};
        store.SetApproval(Approval(id, userId, Pending, biometric, false, None, None, clock.now));
      }
      audit.Record(command, WasCreated(status));
    }

    method Get(userId: Id, commandId: Id) returns (reply: Reply<Command>)
      requires Valid()
      modifies store`commands, store`commandOrder, store`audit
      ensures Valid() && (Abs(), reply) == S.Get(old(Abs()), userId, commandId)
      ensures reply.Ok? ==> Current(reply.value) && reply.value.userId == userId && reply.value.id == commandId
    {
      var command := store.GetCommand(userId, commandId);
      if command.None? {
        return Refused(NotFound);
      }
      var settled := ExpireIfNeeded(command.value);
      reply := Ok(settled);
    }

    method Decide(userId: Id, commandId: Id, approve: bool, verified: bool) returns (reply: Reply<Command>)
      requires Valid()
      modifies store, connections.sockets`sent
      ensures Valid() && (Abs(), reply) == S.Decide(old(Abs()), userId, commandId, approve, verified)
    {
      hide S.Rule, S.TryDispatch, S.Get, S.Decide;
      DecideIs(Abs(), userId, commandId, approve, verified);
      var got := Get(userId, commandId);
      if got.Refused? {
        return got;
      }
      var command := got.value;
      if command.status == Expired {
        return Refused(Conflict);
      }
      if command.status != AwaitingApproval {
        return Refused(Conflict);
      }
      var approval := store.GetApproval(userId, commandId);
      if approval.None? || approval.value.decision != Pending {
        return Refused(Conflict);
      }
      if approval.value.biometricRequired && approve && !verified {
        return Refused(Forbidden);
      }
      var updatedCommand := Rule(command, approval.value, approve, verified);
      var _ := TryDispatch(updatedCommand);
      reply := Ok(store.commands[commandId]);
    }

    /** The writes of a decision: the approval, then the command, then the event. */
    method Rule(command: Command, approval: Approval, approve: bool, verified: bool) returns (updatedCommand: Command)
      requires Valid() && Current(command) && approval.commandId == command.id
      modifies store
      ensures Valid() && Abs() == S.Rule(old(Abs()), command, approval, approve, verified)
      ensures updatedCommand.id == command.id && Current(updatedCommand)
    {
      var updatedApproval := approval.(decision := if approve then Granted else Verdict.Denied,
                                       biometricVerified := verified, decidedAt := Some(clock.now));
      updatedCommand := command.(status := if approve then Queued else Cancelled, updatedAt := clock.now);
      store.SetApproval(updatedApproval);
      store.SetCommand(updatedCommand);
      audit.Record(command, if approve then WasApproved(verified) else WasDenied(verified));
    }

    method AcceptResult(deviceId: Id, result: ActionResult) returns (reply: Reply<Command>)
      requires Valid()
      modifies store
      ensures Valid() && (Abs(), reply) == S.AcceptResult(old(Abs()), deviceId, result)
    {
      if result.commandId !in store.commands || store.commands[result.commandId].request.targetDeviceId != deviceId {
        return Refused(NotFound);
      }
      var command := store.commands[result.commandId];
      if Terminal(command.status) {
        if command.status == result.status {
          return Ok(command);
        }
        return Refused(Conflict);
      }
      if command.status != Dispatched && command.status != Running {
        return Refused(Conflict);
      }
      var updated := command.(status := result.status, updatedAt := clock.now);
      store.SaveActionResult(result);
      store.SetCommand(updated);
      audit.Record(command, HasReported(result.status, result.error));
      reply := Ok(updated);
    }

    /** What the loops over a listing need to know of it before they start. */
    lemma Listed(ids: seq<Id>, copies: seq<Command>)
      requires Valid() && Distinct(ids) && forall id :: id in ids ==> id in store.commands
      requires |copies| == |ids|
      requires forall k :: 0 <= k < |ids| ==> ids[k] in store.commands && copies[k] == store.commands[ids[k]]
      ensures CopiesGood(Abs().commands, copies, 0)
      ensures S.Filed(Abs()) && Abs().clock == clock.now
      ensures forall k :: 0 <= k < |ids| ==> copies[k].id == ids[k] && copies[k] == Abs().commands[ids[k]]
    {
      hide S.Filed, CopiesGood;
      CopiesFrom(Abs(), ids, copies);
    }

    /** The copies taken by the listing stay good while the others are dispatched one by one. */
    method DispatchPendingForDevice(deviceId: Id)
      requires Valid()
      modifies store, connections.sockets`sent
      ensures Valid() && Abs() == S.DispatchAll(old(Abs()), S.ListDispatchable(old(Abs()), deviceId))
    {
      ghost var s := Abs();
      ghost var ids := S.ListDispatchable(s, deviceId);
      T.ListDispatchableIs(s, deviceId);
      var pending := store.ListDispatchableCommands(deviceId, clock.now);
      Listed(ids, pending);
      DispatchEach(pending, ids);
    }

    method DispatchEach(pending: seq<Command>, ghost ids: seq<Id>)
      requires Valid() && S.Filed(Abs()) && forall id :: id in ids ==> id in Abs().commands
      requires |pending| == |ids| && forall k :: 0 <= k < |ids| ==> pending[k].id == ids[k]
      requires CopiesGood(Abs().commands, pending, 0)
      modifies store, connections.sockets`sent
      ensures Valid() && Abs() == S.DispatchAll(old(Abs()), ids)
    {
      ghost var s := Abs();
      assert S.DispatchAll(s, []) == s && ids[..0] == [];
      var i := 0;
      while i < |pending|
        invariant i <= |pending| && Valid()
        invariant Abs() == S.DispatchAll(s, ids[..i])
        invariant CopiesGood(Abs().commands, pending, i)
      {
        hide S.TryDispatch, S.Filed, CopiesGood, Valid, Abs, Current;
        assert ids[..i + 1][..i] == ids[..i];
        ghost var before := Abs();
        CopyIs(before.commands, pending, i);
        CurrentFrom(pending[i]);
        T.TryDispatchOthers(before, pending[i].id);
        var _ := TryDispatch(pending[i]);
        CopiesKept(before, Abs(), pending, i);
        i := i + 1;
      }
      assert ids[..i] == ids;
    }

    /** The user's newest commands, each expired if it was overdue. */
    method List(userId: Id, limit: int) returns (r: seq<Command>)
      requires Valid()
      modifies store`commands, store`commandOrder, store`audit
      ensures Valid() && (Abs(), r) == S.List(old(Abs()), userId, limit)
    {
      ghost var ids := S.ListCommands(Abs(), userId, S.ListLimit(limit));
      T.ListCommandsDistinct(Abs(), userId, S.ListLimit(limit));
      var listed := store.ListCommands(userId, S.ListLimit(limit));
      Listed(ids, listed);
      r := ExpireEach(listed, ids);
      assert r == S.List(old(Abs()), userId, limit).1;
    }

    method ExpireEach(listed: seq<Command>, ghost ids: seq<Id>) returns (r: seq<Command>)
      requires Valid() && S.Filed(Abs()) && forall id :: id in ids ==> id in Abs().commands
      requires |listed| == |ids| && forall k :: 0 <= k < |ids| ==> listed[k].id == ids[k]
      requires CopiesGood(Abs().commands, listed, 0)
      modifies store`commands, store`commandOrder, store`audit
      ensures Valid() && Abs() == S.ExpireAll(old(Abs()), ids)
      ensures |r| == |ids| && forall k :: 0 <= k < |r| ==> r[k] == S.Aged(listed[k], clock.now)
    {
      hide S.ExpireIfNeeded, S.Filed, S.Aged, CopiesGood, Valid, Current;
      ghost var s := Abs();
      assert S.ExpireAll(s, []) == s && ids[..0] == [];
      r := [];
      var i := 0;
      while i < |listed|
        invariant |r| == i <= |listed| && Valid()
        invariant Abs() == S.ExpireAll(s, ids[..i])
        invariant forall k :: 0 <= k < i ==> r[k] == S.Aged(listed[k], clock.now)
        invariant CopiesGood(Abs().commands, listed, i)
      {
        hide Abs;
        assert ids[..i + 1][..i] == ids[..i];
        ghost var before := Abs();
        CopyIs(before.commands, listed, i);
        CurrentFrom(listed[i]);
        T.ExpireOthers(before, listed[i].id);
        var settled := ExpireIfNeeded(listed[i]);
        CopiesKept(before, Abs(), listed, i);
        r := r + [settled];
        i := i + 1;
      }
      assert ids[..i] == ids;
    }
  }
}
