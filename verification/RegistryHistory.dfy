/** The connection registry as a value, and what its two maps say about the history that led to them. */
module RegistryHistory {
  import opened Wrappers
  import opened Protocol

  datatype Registry = Registry(byDevice: map<Id, Socket>, bySocket: map<Socket, Id>)

  datatype Event = Attached(deviceId: Id, socket: Socket) | Detached(socket: Socket)

  const NOBODY := Registry(map[], map[])

  function Update(r: Registry, e: Event): Registry {
    match e
    case Attached(deviceId, socket) => Registry(r.byDevice[deviceId := socket], r.bySocket[socket := deviceId])
    case Detached(socket) =>
      var deviceId := Lookup(r.bySocket, socket);
      if deviceId.Some? && Lookup(r.byDevice, deviceId.value) == Some(socket)
      then r.(byDevice := r.byDevice - {deviceId.value}) else r
  }

  function After(log: seq<Event>): Registry {
    if log == [] then NOBODY else Update(After(log[..|log| - 1]), log[|log| - 1])
  }

  /** The device a socket was last attached for. */
  function LastDevice(log: seq<Event>, socket: Socket): Option<Id> {
    if log == [] then None
    else
      var e := log[|log| - 1];
      if e.Attached? && e.socket == socket then Some(e.deviceId) else LastDevice(log[..|log| - 1], socket)
  }

  /** Event `i` attached this socket for the device, and no attachment for the device followed. */
  predicate LastAttach(log: seq<Event>, i: int, deviceId: Id, socket: Socket) {
    && 0 <= i < |log| && log[i] == Attached(deviceId, socket)
    && forall k :: i < k < |log| && log[k].Attached? ==> log[k].deviceId != deviceId
  }

  /** The socket was last attached for the device, and has not been detached since. */
  ghost predicate Holds(log: seq<Event>, deviceId: Id, socket: Socket) {
    exists i :: LastAttach(log, i, deviceId, socket) && forall k :: i < k < |log| ==> log[k] != Detached(socket)
  }

  /** Event `k` detached this socket while it was bound to the device. */
  predicate Counts(log: seq<Event>, k: int, deviceId: Id, socket: Socket) {
    0 <= k < |log| && log[k] == Detached(socket) && LastDevice(log[..k], socket) == Some(deviceId)
  }

  /** The same, but a detachment counts only while the device is the one the socket was attached for last. */
  ghost predicate Keeps(log: seq<Event>, deviceId: Id, socket: Socket) {
    exists i ::
      && LastAttach(log, i, deviceId, socket)
      && forall k :: i < k ==> !Counts(log, k, deviceId, socket)
  }

  predicate OneDevicePerSocket(log: seq<Event>) {
    forall i, j | 0 <= i < |log| && 0 <= j < |log| && log[i].Attached? && log[j].Attached? ::
      log[i].socket == log[j].socket ==> log[i].deviceId == log[j].deviceId
  }

  lemma {:induction false} BySocketIsLastDevice(log: seq<Event>, socket: Socket)
    ensures Lookup(After(log).bySocket, socket) == LastDevice(log, socket)
  {
    if log != [] {
      BySocketIsLastDevice(log[..|log| - 1], socket);
    }
  }

  /** What one more event does to the history of a device and a socket. */
  lemma KeepsStep(log: seq<Event>, e: Event, deviceId: Id, socket: Socket)
    ensures Keeps(log + [e], deviceId, socket)
        <==> (if e.Attached? && e.deviceId == deviceId then e.socket == socket
              else Keeps(log, deviceId, socket)
                   && (e == Detached(socket) ==> LastDevice(log, socket) != Some(deviceId)))
  {
    var more := log + [e];
    assert more[..|log|] == log && more[|log|] == e;
    assert forall k :: 0 <= k < |log| ==> more[..k] == log[..k];
    assert forall k :: k < |log| ==> Counts(more, k, deviceId, socket) == Counts(log, k, deviceId, socket);
    if e.Attached? && e.deviceId == deviceId {
      assert LastAttach(more, |log|, deviceId, e.socket);
    } else {
      forall i
        ensures LastAttach(more, i, deviceId, socket) <==> LastAttach(log, i, deviceId, socket)
      {
        assert forall k :: 0 <= k < |log| ==> more[k] == log[k];
      }
    }
    assert Counts(more, |log|, deviceId, socket) <==>
             e == Detached(socket) && LastDevice(log, socket) == Some(deviceId);
  }

  /** For every sequence of attachments and detachments: the registry maps a device to a socket just when
      that socket was the last one attached for it and was not detached while bound to it. */
  lemma {:induction false} RegistryIsHistory(log: seq<Event>, deviceId: Id, socket: Socket)
    ensures Lookup(After(log).byDevice, deviceId) == Some(socket) <==> Keeps(log, deviceId, socket)
  {
    if log != [] {
      var before, e := log[..|log| - 1], log[|log| - 1];
      assert log == before + [e];
      RegistryIsHistory(before, deviceId, socket);
      BySocketIsLastDevice(before, e.socket);
      KeepsStep(before, e, deviceId, socket);
    }
  }

  lemma {:induction false} LastDeviceIs(log: seq<Event>, i: nat)
    requires i < |log| && log[i].Attached? && OneDevicePerSocket(log)
    ensures LastDevice(log, log[i].socket) == Some(log[i].deviceId)
  {
    var e := log[|log| - 1];
    if !(e.Attached? && e.socket == log[i].socket) {
      LastDeviceIs(log[..|log| - 1], i);
    }
  }

  /** With one device per socket every detachment counts, so the registry holds exactly the last socket attached
      for the device unless that very socket was detached since; the late detachment of another is harmless. */
  lemma RegistryHoldsLast(log: seq<Event>, deviceId: Id, socket: Socket)
    requires OneDevicePerSocket(log)
    ensures Lookup(After(log).byDevice, deviceId) == Some(socket) <==> Holds(log, deviceId, socket)
  {
    RegistryIsHistory(log, deviceId, socket);
    forall i, k | LastAttach(log, i, deviceId, socket) && i < k < |log|
      ensures Counts(log, k, deviceId, socket) == (log[k] == Detached(socket))
    {
      LastDeviceIs(log[..k], i);
    }
  }

  /** The two maps agree: with one device per socket, a socket found by device is bound to that device. */
  lemma MapsAgree(log: seq<Event>, deviceId: Id, socket: Socket)
    requires OneDevicePerSocket(log) && Lookup(After(log).byDevice, deviceId) == Some(socket)
    ensures Lookup(After(log).bySocket, socket) == Some(deviceId)
  {
    RegistryHoldsLast(log, deviceId, socket);
    BySocketIsLastDevice(log, socket);
    var i :| LastAttach(log, i, deviceId, socket);
    LastDeviceIs(log, i);
  }

  /** A socket that says hello for a second device leaves the first one mapped to it after it is gone. */
  lemma TwoDevicesLeaveOneBehind(socket: Socket, first: Id, second: Id)
    requires first != second
    ensures var log := [Attached(first, socket), Attached(second, socket), Detached(socket)];
            Lookup(After(log).byDevice, first) == Some(socket) && !Holds(log, first, socket)
  {
    var log := [Attached(first, socket), Attached(second, socket), Detached(socket)];
    assert log[..2] == [Attached(first, socket), Attached(second, socket)];
    assert log[..2][..1] == [Attached(first, socket)];
    assert After(log[..2][..1]) == Update(NOBODY, Attached(first, socket));
    assert log[2] == Detached(socket);
  }

  /** Exactly when the registry tells the plain history of a device: if the socket last attached for it was
      detached afterwards, then also at a time when this was the device it had last said hello for. */
  lemma PlainHistoryIff(log: seq<Event>, deviceId: Id)
    ensures (forall socket: Socket ::
               Lookup(After(log).byDevice, deviceId) == Some(socket) <==> Holds(log, deviceId, socket))
       <==> (forall i, socket: Socket ::
               LastAttach(log, i, deviceId, socket) && (exists k :: i < k < |log| && log[k] == Detached(socket))
               ==> exists j :: i < j && Counts(log, j, deviceId, socket))
  {
    forall socket: Socket
      ensures Lookup(After(log).byDevice, deviceId) == Some(socket) <==> Keeps(log, deviceId, socket)
    {
      RegistryIsHistory(log, deviceId, socket);
    }
    forall i, socket: Socket | LastAttach(log, i, deviceId, socket)
      ensures Keeps(log, deviceId, socket) <==> !exists j :: i < j && Counts(log, j, deviceId, socket)
      ensures Holds(log, deviceId, socket) <==> !exists k :: i < k < |log| && log[k] == Detached(socket)
    {
      assert forall i' :: LastAttach(log, i', deviceId, socket) ==> i' == i;
    }
  }
}
