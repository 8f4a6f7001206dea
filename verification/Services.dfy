/** The services beneath the command service: the clock, the sockets, the connection registry, the audit log
    and the devices. */
module Services {
  import opened Wrappers
  import opened Protocol
  import opened StateStore

  class Clock {
    var now: Instant

    constructor (now: Instant)
      ensures this.now == now
    {
      this.now := now;
    }
  }

  /** The sockets of the web server, and the log of what was handed to them. */
  class Sockets {
    var open: set<Socket>
    ghost var everOpen: set<Socket>
    ghost var sent: seq<Sent>

    constructor ()
      ensures open == {} && everOpen == {} && sent == []
    {
      open, everOpen, sent := {}, {}, [];
    }

    method Close(socket: Socket)
      modifies this`open
      ensures open == old(open) - {socket}
    {
      open := open - {socket};
    }

    method Send(socket: Socket, message: Message, ghost note: Sent)
      requires note.socket == socket && note.message == message
      modifies this`sent
      ensures sent == old(sent) + [note]
    {
      sent := sent + [note];
    }
  }

  class ConnectionRegistry {
    const sockets: Sockets
    var byDevice: map<Id, Socket>
    var bySocket: map<Socket, Id>
    ghost var hellos: map<Id, nat>
    ghost var authed: set<(Socket, Id)>

    constructor (sockets: Sockets)
      ensures this.sockets == sockets && byDevice == map[] && bySocket == map[] && hellos == map[] && authed == {}
    {
      this.sockets, byDevice, bySocket, hellos, authed := sockets, map[], map[], map[], {};
    }

    ghost function Epoch(deviceId: Id): nat
      reads this
    {
      if deviceId in hellos then hellos[deviceId] else 0
    }

    method Attach(deviceId: Id, socket: Socket)
      modifies this, sockets`open
      ensures byDevice == old(byDevice)[deviceId := socket] && bySocket == old(bySocket)[socket := deviceId]
      ensures sockets.open == old(sockets.open) - (if deviceId in old(byDevice) && old(byDevice)[deviceId] != socket
                                                   then {old(byDevice)[deviceId]} else {})
      ensures hellos == old(hellos)[deviceId := old(Epoch(deviceId)) + 1]
      ensures authed == old(authed) + {(socket, deviceId)}
    {
      if deviceId in byDevice && byDevice[deviceId] != socket {
        sockets.Close(byDevice[deviceId]);
      }
      hellos := hellos[deviceId := Epoch(deviceId) + 1];
      authed := authed + {(socket, deviceId)};
      byDevice := byDevice[deviceId := socket];
      bySocket := bySocket[socket := deviceId];
    }

    method Detach(socket: Socket) returns (deviceId: Option<Id>)
      modifies this`byDevice
      ensures deviceId == Lookup(bySocket, socket)
      ensures byDevice == if deviceId.Some? && Lookup(old(byDevice), deviceId.value) == Some(socket)
                          then old(byDevice) - {deviceId.value} else old(byDevice)
    {
      deviceId := Lookup(bySocket, socket);
      if deviceId.Some? && Lookup(byDevice, deviceId.value) == Some(socket) {
        byDevice := byDevice - {deviceId.value};
      }
    }

    function DeviceFor(socket: Socket): Option<Id>
      reads this
    {
      Lookup(bySocket, socket)
    }

    predicate IsOnline(deviceId: Id)
      reads this, sockets
    {
      deviceId in byDevice && byDevice[deviceId] in sockets.open
    }

    method Send(deviceId: Id, message: Message, ghost at: Instant, ghost mark: nat) returns (ok: bool)
      modifies sockets`sent
      ensures ok == IsOnline(deviceId)
      ensures sockets.sent == old(sockets.sent)
        + if IsOnline(deviceId) then [Sent(byDevice[deviceId], deviceId, message, at, Epoch(deviceId), mark,
                                         (byDevice[deviceId], deviceId) in authed)] else []
    {
      if deviceId !in byDevice || byDevice[deviceId] !in sockets.open {
        return false;
      }
      sockets.Send(byDevice[deviceId], message,
                   Sent(byDevice[deviceId], deviceId, message, at, Epoch(deviceId), mark,
                        (byDevice[deviceId], deviceId) in authed));
      return true;
    }
  }

  class AuditService {
    const store: MemoryStateStore
    const clock: Clock

    constructor (store: MemoryStateStore, clock: Clock)
      ensures this.store == store && this.clock == clock
    {
      this.store, this.clock := store, clock;
    }

    method Record(command: Command, kind: Kind)
      modifies store`audit
      ensures store.audit == old(store.audit)
        + [AuditEvent(command.userId, kind, command.request.targetDeviceId, command.id, clock.now)]
    {
      store.AppendAudit(AuditEvent(command.userId, kind, command.request.targetDeviceId, command.id, clock.now));
    }
  }

  class DeviceService {
    const store: MemoryStateStore
    const clock: Clock

    constructor (store: MemoryStateStore, clock: Clock)
      ensures this.store == store && this.clock == clock
    {
      this.store, this.clock := store, clock;
    }

    /** `id` is the identifier drawn for the new device. */
    method Register(userId: Id, kind: DeviceKind, tools: set<Tool>, id: Id)
      modifies store`devices
      ensures store.devices == old(store.devices)[id := Device(userId, kind, tools, false, None)]
    {
      store.CreateDevice(id, Device(userId, kind, tools, false, None));
    }

    /** Only an executor of this very user will do. */
    method RequireExecutor(userId: Id, deviceId: Id) returns (reply: Reply<Device>)
      ensures reply.Ok? <==> deviceId in store.devices && store.devices[deviceId].userId == userId
                             && store.devices[deviceId].kind == ExecutorDevice
      ensures reply == if reply.Ok? then Ok(store.devices[deviceId]) else Refused(NotFound)
    {
      var device := store.GetDevice(userId, deviceId);
      if device.None? || device.value.kind != ExecutorDevice {
        return Refused(NotFound);
      }
      reply := Ok(device.value);
    }

    /** `matches` tells whether the credential supplied hashes to the one stored with the device. */
    method Authenticate(deviceId: Id, matches: bool) returns (device: Option<Device>)
      ensures device == if matches then Lookup(store.devices, deviceId) else None
    {
      device := Lookup(store.devices, deviceId);
      if device.None? || !matches {
        return None;
      }
    }

    method SetPresence(deviceId: Id, online: bool)
      modifies store`devices
      ensures store.devices == if deviceId in old(store.devices)
        then old(store.devices)[deviceId :=
               old(store.devices)[deviceId].(online := online, lastSeenAt := Some(clock.now))]
        else old(store.devices)
    {
      store.UpdateDevicePresence(deviceId, online, clock.now);
    }
  }
}
