/** The in-memory store: maps keyed by id, the commands also in insertion order, and the audit log. */
module StateStore {
  import opened Wrappers
  import opened Protocol
  import opened Ordering
  import S = Server

  class MemoryStateStore {
    var devices: map<Id, Device>
    var commands: map<Id, Command>
    var commandOrder: seq<Id>
    var approvals: map<Id, Approval>
    var results: map<Id, ActionResult>
    var audit: seq<AuditEvent>

    constructor ()
      ensures devices == map[] && commands == map[] && commandOrder == []
      ensures approvals == map[] && results == map[] && audit == []
    {
      devices, commands, commandOrder, approvals, results, audit := map[], map[], [], map[], map[], [];
    }

    method CreateDevice(id: Id, device: Device)
      modifies this`devices
      ensures devices == old(devices)[id := device]
    {
      devices := devices[id := device];
    }

    method UpdateDevicePresence(deviceId: Id, online: bool, at: Instant)
      modifies this`devices
      ensures devices == if deviceId in old(devices)
                         then old(devices)[deviceId :=
                                old(devices)[deviceId].(online := online, lastSeenAt := Some(at))]
                         else old(devices)
    {
      if deviceId in devices {
        devices := devices[deviceId := devices[deviceId].(online := online, lastSeenAt := Some(at))];
      }
    }

    /** `Map.set`: an existing key keeps its place, a new one goes last. */
    method SetCommand(command: Command)
      modifies this`commands, this`commandOrder
      ensures commands == old(commands)[command.id := command]
      ensures commandOrder == if command.id in old(commands) then old(commandOrder)
                              else old(commandOrder) + [command.id]
    {
      if command.id !in commands {
        commandOrder := commandOrder + [command.id];
      }
      commands := commands[command.id := command];
    }

    method SetApproval(approval: Approval)
      modifies this`approvals
      ensures approvals == old(approvals)[approval.commandId := approval]
    {
      approvals := approvals[approval.commandId := approval];
    }

    method SaveActionResult(result: ActionResult)
      modifies this`results
      ensures results == old(results)[result.commandId := result]
    {
      results := results[result.commandId := result];
    }

    method AppendAudit(event: AuditEvent)
      modifies this`audit
      ensures audit == old(audit) + [event]
    {
      audit := audit + [event];
    }

    /** The first command of the user with this key. */
    function FindCommandByIdempotency(userId: Id, key: string): Option<Command>
      reads this
    {
      var id := FindFirst(commandOrder, S.Keyed(commands, userId, key));
      if id.Some? then Some(commands[id.value]) else None
    }

    function GetCommand(userId: Id, commandId: Id): Option<Command>
      reads this
    {
      if commandId in commands && commands[commandId].userId == userId then Some(commands[commandId]) else None
    }

    function GetApproval(userId: Id, commandId: Id): Option<Approval>
      reads this
    {
      if commandId in approvals && approvals[commandId].userId == userId then Some(approvals[commandId]) else None
    }

    function GetDevice(userId: Id, deviceId: Id): Option<Device>
      reads this
    {
      if deviceId in devices && devices[deviceId].userId == userId then Some(devices[deviceId]) else None
    }

    function Commands(ids: seq<Id>): (r: seq<Command>)
      requires forall id :: id in ids ==> id in commands
      reads this
      ensures |r| == |ids| && forall k :: 0 <= k < |r| ==> r[k] == commands[ids[k]]
    {
      if ids == [] then [] else Commands(ids[..|ids| - 1]) + [commands[ids[|ids| - 1]]]
    }

    /** The commands that the device could be sent now, in insertion order. */
    function ListDispatchableCommands(deviceId: Id, now: Instant): seq<Command>
      reads this
    {
      Commands(Filter(commandOrder, S.Ready(commands, deviceId, now)))
    }

    /** The user's commands, newest first, at most `limit` of them. */
    function ListCommands(userId: Id, limit: nat): seq<Command>
      reads this
    {
      Commands(S.Newest(commands, commandOrder, userId, limit))
    }
  }
}
