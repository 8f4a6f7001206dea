/** The gateway that binds sockets to calls of the services. */
module DeviceGateway {
  import opened Wrappers
  import opened Protocol
  import opened Services
  import opened StateStore
  import C = CommandService
  import S = Server

  /** What a client may say; `matches` is the outcome of checking the credential of a hello. */
  datatype ClientMessage =
    | Hello(deviceId: Id, matches: bool)
    | Heartbeat(deviceId: Id)
    | CommandResult(result: ActionResult)
    | WebrtcSignal(targetDeviceId: Id, signal: string)

  /** The state after a message, by the state machine. */
  function Handled(s: S.State, client: Socket, message: ClientMessage): S.State
    requires S.Filed(s)
  {
    match message
    case Hello(deviceId, matches) => S.Hello(s, client, deviceId, matches)
    case Heartbeat(deviceId) => S.Heartbeat(s, client, deviceId)
    case CommandResult(result) => S.Report(s, client, result).0
    case WebrtcSignal(target, signal) => S.Signal(s, client, target, signal)
  }

  class DeviceGateway {
    const store: MemoryStateStore
    const devices: DeviceService
    const commands: C.CommandService
    const connections: ConnectionRegistry

    constructor (store: MemoryStateStore, devices: DeviceService, commands: C.CommandService,
                 connections: ConnectionRegistry)
      ensures this.store == store && this.devices == devices
      ensures this.commands == commands && this.connections == connections
    {
      this.store, this.devices, this.commands, this.connections := store, devices, commands, connections;
    }

    ghost predicate Valid()
      reads store, connections, connections.sockets, commands.store, commands.connections,
            commands.connections.sockets, commands.clock
    {
      && commands.store == store && commands.devices == devices && commands.connections == connections
      && commands.Valid()
    }

    ghost function Abs(): S.State
      reads commands.store, commands.connections, commands.connections.sockets, commands.clock
    {
      commands.Abs()
    }

    method HandleDisconnect(client: Socket)
      requires Valid()
      modifies store`devices, connections`byDevice, connections.sockets`open
      ensures Valid() && Abs() == S.Disconnect(old(Abs()), client)
    {
      connections.sockets.Close(client);
      var deviceId := connections.Detach(client);
      if deviceId.Some? {
        devices.SetPresence(deviceId.value, false);
      }
    }

    method OnMessage(client: Socket, message: ClientMessage)
      requires Valid()
      modifies store, connections, connections.sockets
      ensures Valid() && Abs() == Handled(old(Abs()), client, message)
    {
      if message.Hello? {
        OnHello(client, message.deviceId, message.matches);
        return;
      }
      var source := connections.DeviceFor(client);
      if source.None? {
        return;
      }
      if message.Heartbeat? {
        if message.deviceId != source.value {
          return;
        }
        devices.SetPresence(source.value, true);
        return;
      }
      if message.CommandResult? {
        var _ := commands.AcceptResult(source.value, message.result);
        return;
      }
      OnSignal(source.value, message.targetDeviceId, message.signal);
    }

    method OnHello(client: Socket, deviceId: Id, matches: bool)
      requires Valid()
      modifies store, connections, connections.sockets
      ensures Valid() && Abs() == S.Hello(old(Abs()), client, deviceId, matches)
    {
      var device := devices.Authenticate(deviceId, matches);
      if device.None? {
        connections.sockets.Close(client);
        return;
      }
      connections.Attach(deviceId, client);
      devices.SetPresence(deviceId, true);
      assert Abs() == S.SetPresence(S.Attach(old(Abs()), deviceId, client), deviceId, true);
      if device.value.kind == ExecutorDevice {
        commands.DispatchPendingForDevice(deviceId);
      }
    }

    method OnSignal(source: Id, targetDeviceId: Id, signal: string)
      requires Valid()
      modifies connections.sockets`sent
      ensures Valid()
      ensures forall client :: client in old(connections.bySocket) && old(connections.bySocket)[client] == source ==>
        Abs() == S.Signal(old(Abs()), client, targetDeviceId, signal)
    {
      var sender := Lookup(store.devices, source);
      if sender.None? {
        return;
      }
      var target := store.GetDevice(sender.value.userId, targetDeviceId);
      if target.None? {
        return;
      }
      var _ := connections.Send(targetDeviceId, SignalFrom(source, signal), commands.clock.now, |store.audit|);
    }
  }
}
