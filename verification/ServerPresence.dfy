/** Who is there: what hellos, heartbeats, signals and close events make of sockets and of the presence of devices. */
module ServerPresence {
  import opened Wrappers
  import opened Protocol
  import opened Server
  import opened ServerInvariant
  import opened ServerRuns
  import opened ServerSteps

  // ---------------------------------------------------------------- what the calls about commands leave alone

  ghost predicate Untouched(s: State, s': State) {
    && s'.devices == s.devices && s'.byDevice == s.byDevice && s'.bySocket == s.bySocket && s'.open == s.open
    && s'.clock == s.clock
  }

  predicate Call(step: Step) {
    step.DoCreate? || step.DoDecide? || step.DoReport? || step.DoList? || step.DoGet?
  }

  lemma ExpireLeaves(s: State, id: Id)
    requires Filed(s) && id in s.commands
    ensures Untouched(s, ExpireIfNeeded(s, id))
  {
    hide Filed;
  }

  lemma {:induction false} ExpireAllLeaves(s: State, ids: seq<Id>)
    requires Filed(s) && forall id :: id in ids ==> id in s.commands
    ensures Untouched(s, ExpireAll(s, ids))
  {
    hide Filed, ExpireIfNeeded;
    if ids != [] {
      ExpireAllLeaves(s, ids[..|ids| - 1]);
      KnownStill(s, ids[..|ids| - 1], ids[|ids| - 1]);
      ExpireLeaves(ExpireAll(s, ids[..|ids| - 1]), ids[|ids| - 1]);
    }
  }

  lemma KnownStill(s: State, ids: seq<Id>, id: Id)
    requires Filed(s) && id in s.commands && forall i :: i in ids ==> i in s.commands
    ensures id in ExpireAll(s, ids).commands && id in DispatchAll(s, ids).commands
  {
    hide ExpireAll, DispatchAll;
  }

  lemma HandOverLeaves(s: State, id: Id, socket: Socket)
    requires Filed(s) && id in s.commands
    ensures Untouched(s, HandOver(s, id, socket))
  {
    hide Filed, HandOver;
    HandOverFrame(s, id, socket);
  }

  lemma TryDispatchLeaves(s: State, id: Id)
    requires Filed(s) && id in s.commands
    ensures Untouched(s, TryDispatch(s, id))
  {
    hide Filed, TryDispatch, HandOver, ExpireIfNeeded, Untouched;
    ExpireLeaves(s, id);
    SameLeaves(s);
    var socket := TryDispatchCases(s, id);
    if socket.Some? {
      HandOverLeaves(s, id, socket.value);
    }
  }

  lemma SameLeaves(s: State)
    ensures Untouched(s, s)
  {
  }

  lemma {:induction false} DispatchAllLeaves(s: State, ids: seq<Id>)
    requires Filed(s) && forall id :: id in ids ==> id in s.commands
    ensures Untouched(s, DispatchAll(s, ids))
  {
    hide Filed, TryDispatch;
    if ids != [] {
      DispatchAllLeaves(s, ids[..|ids| - 1]);
      KnownStill(s, ids[..|ids| - 1], ids[|ids| - 1]);
      TryDispatchLeaves(DispatchAll(s, ids[..|ids| - 1]), ids[|ids| - 1]);
    }
  }

  lemma AdmitLeaves(s: State, userId: Id, request: Request, id: Id)
    requires Filed(s) && id !in s.commands
    ensures id in Admit(s, userId, request, id).commands && Untouched(s, Admit(s, userId, request, id))
  {
    hide Filed, PolicyForTool, NewApproval, NewCommand;
    assert NewCommand(s, userId, request, id).id == id by { NewCommandIs(s, userId, request, id); }
  }

  lemma NewCommandIs(s: State, userId: Id, request: Request, id: Id)
    ensures NewCommand(s, userId, request, id).id == id
  {
  }

  lemma CreateLeaves(s: State, userId: Id, request: Request, id: Id)
    requires Filed(s) && id !in s.commands
    ensures Untouched(s, Create(s, userId, request, id).0)
  {
    hide Filed, TryDispatch, Admission, Admit, ExpireIfNeeded;
    if Admission(s, userId, request) == Ok(None) {
      AdmitLeaves(s, userId, request, id);
      TryDispatchLeaves(Admit(s, userId, request, id), id);
    } else if Admission(s, userId, request).Ok? {
      ExpireLeaves(s, Admission(s, userId, request).value.value);
    }
  }

  lemma RuleLeaves(s: State, c: Command, a: Approval, approve: bool, verified: bool)
    requires Filed(s) && c.id in s.commands
    ensures Untouched(s, Rule(s, c, a, approve, verified)) && c.id in Rule(s, c, a, approve, verified).commands
  {
    hide Filed;
  }

  lemma DecideLeaves(s: State, userId: Id, id: Id, approve: bool, verified: bool)
    requires Filed(s)
    ensures Untouched(s, Decide(s, userId, id, approve, verified).0)
  {
    hide Filed, Decide, TryDispatch, ExpireIfNeeded, Rule;
    DecideCases(s, userId, id, approve, verified);
    if Rulable(s, id, approve, verified) {
      FiledAt(s, id);
      RuleLeaves(s, s.commands[id], s.approvals[id], approve, verified);
      TryDispatchLeaves(Rule(s, s.commands[id], s.approvals[id], approve, verified), id);
    }
    if id in s.commands {
      ExpireLeaves(s, id);
    }
  }

  lemma ReportLeaves(s: State, socket: Socket, result: ActionResult)
    requires Filed(s)
    ensures Untouched(s, Report(s, socket, result).0)
  {
    hide Filed;
  }

  lemma ListLeaves(s: State, userId: Id, limit: int)
    requires Filed(s)
    ensures Untouched(s, List(s, userId, limit).0)
  {
    hide Filed, ExpireAll, ListCommands, ListLimit;
    ExpireAllLeaves(s, ListCommands(s, userId, ListLimit(limit)));
  }

  lemma GetLeaves(s: State, userId: Id, id: Id)
    requires Filed(s)
    ensures Untouched(s, Get(s, userId, id).0)
  {
    hide Filed, ExpireIfNeeded;
    if id in s.commands {
      ExpireLeaves(s, id);
    }
  }

  /** The calls about commands touch neither devices nor sockets. */
  lemma CallLeaves(s: State, step: Step)
    requires Filed(s) && Possible(s, step) && Call(step)
    ensures Untouched(s, Apply(s, step).0)
  {
    hide Filed, Create, Decide, Report, List, Get, Untouched;
    match step {
      case DoCreate(userId, request, id) => CreateLeaves(s, userId, request, id);
      case DoDecide(userId, id, approve, verified) => DecideLeaves(s, userId, id, approve, verified);
      case DoReport(socket, result) => ReportLeaves(s, socket, result);
      case DoList(userId, limit) => ListLeaves(s, userId, limit);
      case DoGet(userId, id) => GetLeaves(s, userId, id);
    }
  }

  // ---------------------------------------------------------------- greetings, signals and close events

  /** There is an open socket for the device. */
  predicate Connected(s: State, deviceId: Id) {
    deviceId in s.byDevice && s.byDevice[deviceId] in s.open
  }

  lemma GreetingBinds(s: State, socket: Socket, deviceId: Id)
    requires deviceId in s.devices
    ensures var s1 := Greeted(s, socket, deviceId);
      var before := if deviceId in s.byDevice && s.byDevice[deviceId] != socket then {s.byDevice[deviceId]} else {};
      && s1.byDevice == s.byDevice[deviceId := socket] && s1.bySocket == s.bySocket[socket := deviceId]
      && s1.open == s.open - before && s1.clock == s.clock && s1.commands == s.commands && s1.order == s.order
      && s1.devices
         == s.devices[deviceId := s.devices[deviceId].(online := true, lastSeenAt := Some(s.clock))]
  {
  }

  /** A hello is accepted just if the device is known and its credential is right, and closes its socket otherwise.
      Accepted, it binds the device and the socket to each other, closes the socket the device had before and shows the
      device online; the one of a device that is no executor does nothing to commands. */
  lemma HelloAnswers(s: State, socket: Socket, deviceId: Id, valid: bool)
    requires Filed(s)
    ensures var s' := Hello(s, socket, deviceId, valid);
      var before := if deviceId in s.byDevice && s.byDevice[deviceId] != socket then {s.byDevice[deviceId]} else {};
      && (deviceId !in s.devices || !valid ==> s' == s.(open := s.open - {socket}))
      && (deviceId in s.devices && valid ==>
            && s'.byDevice == s.byDevice[deviceId := socket] && s'.bySocket == s.bySocket[socket := deviceId]
            && s'.open == s.open - before && s'.clock == s.clock
            && s'.devices
               == s.devices[deviceId := s.devices[deviceId].(online := true, lastSeenAt := Some(s.clock))]
            && (s.devices[deviceId].kind != ExecutorDevice ==>
                  s'.commands == s.commands && s'.approvals == s.approvals && s'.sent == s.sent))
  {
    hide DispatchAll, ListDispatchable, Filed;
    if deviceId in s.devices && valid {
      GreetingBinds(s, socket, deviceId);
      if s.devices[deviceId].kind == ExecutorDevice {
        WelcomeLeaves(s, socket, deviceId);
      }
    }
  }

  lemma WelcomeLeaves(s: State, socket: Socket, deviceId: Id)
    requires Filed(s) && deviceId in s.devices && s.devices[deviceId].kind == ExecutorDevice
    ensures Untouched(Greeted(s, socket, deviceId), Hello(s, socket, deviceId, true))
  {
    var s1 := Greeted(s, socket, deviceId);
    var pending := ListDispatchable(s1, deviceId);
    assert forall id :: id in pending ==> id in s1.commands;
    hide DispatchAll, ListDispatchable;
    DispatchAllLeaves(s1, pending);
  }

  /** A signal is delivered just if its socket speaks for a device, the target is a device of the same user, and the
      target has an open socket: as one message over that socket which names the device the sender speaks for. Nothing
      else ever changes. */
  lemma SignalAnswers(s: State, socket: Socket, target: Id, signal: string)
    ensures var s' := Signal(s, socket, target, signal);
      var delivered := && socket in s.bySocket && s.bySocket[socket] in s.devices && target in s.devices
                       && s.devices[target].userId == s.devices[s.bySocket[socket]].userId && Connected(s, target);
      && s' == s.(sent := s'.sent) && s.sent <= s'.sent
      && |s'.sent| == |s.sent| + (if delivered then 1 else 0)
      && (delivered ==>
            var m := s'.sent[|s.sent|];
            && m.socket == s.byDevice[target] && m.deviceId == target
            && m.message == SignalFrom(s.bySocket[socket], signal))
  {
  }

  /** A new socket is open, and one that leaves its open state carries nothing any more. */
  lemma SocketAnswers(s: State, socket: Socket)
    requires Filed(s)
    ensures socket !in s.everOpen ==> Apply(s, Connect(socket)).0 == s.(open := s.open + {socket},
                                                                        everOpen := s.everOpen + {socket})
    ensures var s' := Apply(s, Shut(socket)).0;
      s'.open == s.open - {socket} && s' == s.(open := s'.open)
      && forall d :: Connected(s', d) <==> Connected(s, d) && s.byDevice[d] != socket
  {
    hide Filed;
  }

  lemma CloseDetaches(s: State, socket: Socket)
    ensures var s' := Disconnect(s, socket);
      && s'.open == s.open - {socket} && s'.bySocket == s.bySocket
      && s'.byDevice == if socket in s.bySocket && Lookup(s.byDevice, s.bySocket[socket]) == Some(socket)
                        then s.byDevice - {s.bySocket[socket]} else s.byDevice
  {
    hide SetPresence;
    if socket in s.bySocket {
      var d := s.bySocket[socket];
      PresenceOnly(Detach(s.(open := s.open - {socket}), socket, d), d, false);
    }
  }

  lemma PresenceOnly(s: State, deviceId: Id, online: bool)
    ensures SetPresence(s, deviceId, online) == s.(devices := SetPresence(s, deviceId, online).devices)
  {
  }

  lemma CloseMarks(s: State, socket: Socket)
    ensures Disconnect(s, socket).devices
         == if socket in s.bySocket && s.bySocket[socket] in s.devices
            then s.devices[s.bySocket[socket] :=
                             s.devices[s.bySocket[socket]].(online := false, lastSeenAt := Some(s.clock))]
            else s.devices
  {
    hide SetPresence, Detach;
    if socket in s.bySocket {
      var closed, d := s.(open := s.open - {socket}), s.bySocket[socket];
      DetachOnly(closed, socket, d);
      PresenceMarks(Detach(closed, socket, d), d, false);
    }
  }

  lemma DetachOnly(s: State, socket: Socket, deviceId: Id)
    ensures Detach(s, socket, deviceId) == s.(byDevice := Detach(s, socket, deviceId).byDevice)
  {
  }

  lemma PresenceMarks(s: State, deviceId: Id, online: bool)
    ensures SetPresence(s, deviceId, online).devices
         == if deviceId in s.devices
            then s.devices[deviceId := s.devices[deviceId].(online := online, lastSeenAt := Some(s.clock))]
            else s.devices
  {
  }

  /** A close event shows the device of its socket offline. The device is reachable all the same just if it had already
      greeted over another socket that is still open. */
  lemma CloseAnswers(s: State, socket: Socket)
    requires socket in s.bySocket && s.bySocket[socket] in s.devices
    ensures var (s', d) := (Disconnect(s, socket), s.bySocket[socket]);
      && d in s'.devices && !s'.devices[d].online
      && (Connected(s', d) <==> Connected(s, d) && s.byDevice[d] != socket)
  {
    hide Disconnect;
    CloseDetaches(s, socket);
    CloseMarks(s, socket);
  }

  // ---------------------------------------------------------------- presence over runs

  /** Whether the step shows the device online or offline. */
  function Mark(s: State, step: Step, deviceId: Id): Option<bool> {
    if deviceId !in s.devices then None
    else match step
    case DoHello(_, d, valid) => if d == deviceId && valid then Some(true) else None
    case DoHeartbeat(socket, d) =>
      if d == deviceId && socket in s.bySocket && s.bySocket[socket] == d then Some(true) else None
    case DoDisconnect(socket) => if socket in s.bySocket && s.bySocket[socket] == deviceId then Some(false) else None
    case _ => None
  }

  lemma PlainPresence(s: State, step: Step)
    requires Filed(s) && Possible(s, step) && !Call(step) && !step.DoHello?
    ensures var s' := Apply(s, step).0;
      s'.devices
      == match step
         case DoRegister(userId, deviceId, kind, tools) =>
           s.devices[deviceId := Device(userId, kind, tools, false, None)]
         case DoHeartbeat(socket, d) => Heartbeat(s, socket, d).devices
         case DoDisconnect(socket) => Disconnect(s, socket).devices
         case _ => s.devices
  {
    hide Filed, Disconnect, Heartbeat;
    if step.DoSignal? {
      SignalAnswers(s, step.socket, step.deviceId, step.signal);
    }
  }

  lemma HeartbeatMarks(s: State, socket: Socket, deviceId: Id)
    ensures Heartbeat(s, socket, deviceId).devices
         == if socket in s.bySocket && s.bySocket[socket] == deviceId && deviceId in s.devices
            then s.devices[deviceId := s.devices[deviceId].(online := true, lastSeenAt := Some(s.clock))]
            else s.devices
  {
  }

  /** Presence changes just with an accepted hello of the device, a heartbeat over a socket that speaks for it, and the
      close event of a socket that spoke for it; nothing else about a device ever changes. */
  lemma PresenceAnswers(s: State, step: Step, deviceId: Id)
    requires Filed(s) && Possible(s, step) && deviceId in s.devices
    ensures var (s', mark) := (Apply(s, step).0, Mark(s, step, deviceId));
      && deviceId in s'.devices
      && s'.devices[deviceId] == if mark.None? then s.devices[deviceId]
                                 else s.devices[deviceId].(online := mark.value, lastSeenAt := Some(s.clock))
  {
    if Call(step) {
      hide Filed, Apply;
      CallLeaves(s, step);
    } else if step.DoHello? {
      hide Filed, Hello;
      HelloAnswers(s, step.socket, step.deviceId, step.valid);
    } else {
      hide Filed, Apply, Disconnect, Heartbeat;
      PlainPresence(s, step);
      if step.DoHeartbeat? {
        HeartbeatMarks(s, step.socket, step.deviceId);
      } else if step.DoDisconnect? {
        CloseMarks(s, step.socket);
      }
    }
  }

  lemma Newcomer(s: State, step: Step, deviceId: Id)
    requires Filed(s) && Possible(s, step) && deviceId !in s.devices && deviceId in Apply(s, step).0.devices
    ensures step.DoRegister? && step.deviceId == deviceId && !Apply(s, step).0.devices[deviceId].online
    ensures var d := Apply(s, step).0.devices[deviceId];
      d.kind == step.kind && d.tools == step.tools && d.userId == step.userId
  {
    if Call(step) {
      hide Filed, Apply;
      CallLeaves(s, step);
    } else if step.DoHello? {
      hide Filed, Hello;
      HelloAnswers(s, step.socket, step.deviceId, step.valid);
    } else {
      hide Filed, Apply, Disconnect, Heartbeat;
      PlainPresence(s, step);
      if step.DoHeartbeat? {
        HeartbeatMarks(s, step.socket, step.deviceId);
      } else if step.DoDisconnect? {
        CloseMarks(s, step.socket);
      }
    }
  }

  /** The last step of a run that showed the device online or offline. */
  ghost function LastMark(s: State, steps: seq<Step>, deviceId: Id): Option<bool>
    decreases |steps|
  {
    if steps == [] || !Filed(s) || !Possible(s, steps[0]) then None
    else
      var later := LastMark(Apply(s, steps[0]).0, steps[1..], deviceId);
      if later.Some? then later else Mark(s, steps[0], deviceId)
  }

  ghost predicate Shown(s: State, deviceId: Id) {
    deviceId in s.devices && s.devices[deviceId].online
  }

  lemma {:induction false} RunShows(s: State, steps: seq<Step>, s': State, deviceId: Id)
    requires Filed(s) && Leads(s, steps, s')
    ensures var last := LastMark(s, steps, deviceId);
      Shown(s', deviceId) <==> if last.Some? then last.value else Shown(s, deviceId)
    decreases |steps|
  {
    hide Filed, Possible, Apply, Mark;
    if steps != [] {
      RunShows(Apply(s, steps[0]).0, steps[1..], s', deviceId);
      StepShows(s, steps[0], deviceId);
    }
  }

  lemma StepShows(s: State, step: Step, deviceId: Id)
    requires Filed(s) && Possible(s, step)
    ensures var mark := Mark(s, step, deviceId);
      Shown(Apply(s, step).0, deviceId) <==> if mark.Some? then mark.value else Shown(s, deviceId)
  {
    hide Filed, Apply;
    if deviceId in s.devices {
      PresenceAnswers(s, step, deviceId);
    } else if deviceId in Apply(s, step).0.devices {
      Newcomer(s, step, deviceId);
    }
  }

  /** In every reachable state a device is shown online just if the last of its hellos, heartbeats and close events was
      no close event. */
  lemma OnlineIsLastMark(steps: seq<Step>, s: State, deviceId: Id)
    requires Leads(EMPTY, steps, s)
    ensures deviceId in s.devices && s.devices[deviceId].online <==> LastMark(EMPTY, steps, deviceId) == Some(true)
  {
    RunShows(EMPTY, steps, s, deviceId);
  }

  // ---------------------------------------------------------------- what presence does not tell

  lemma {:induction false} StepsOn(s: State, steps: seq<Step>, s': State, step: Step)
    requires Leads(s, steps, s') && Filed(s') && Possible(s', step)
    ensures Leads(s, steps + [step], Apply(s', step).0)
    decreases |steps|
  {
    hide Filed, Possible, Apply;
    if steps == [] {
      assert [step][1..] == [] && steps + [step] == [step];
      assert Leads(Apply(s, step).0, [], Apply(s', step).0);
    } else {
      StepsOn(Apply(s, steps[0]).0, steps[1..], s', step);
      assert (steps + [step])[1..] == steps[1..] + [step];
    }
  }

  lemma Goes(s: State, step: Step) returns (s': State)
    requires Reachable(s) && Filed(s) && Possible(s, step)
    ensures Reachable(s') && Filed(s') && s' == Apply(s, step).0
  {
    var steps :| Leads(EMPTY, steps, s);
    hide Filed, Possible, Apply;
    StepsOn(EMPTY, steps, s, step);
    s' := Apply(s, step).0;
  }

  /** A controller greets over this new socket. */
  lemma Greets(s: State, socket: Socket, deviceId: Id) returns (s': State)
    requires Reachable(s) && Filed(s) && socket !in s.everOpen && socket !in s.bySocket
    requires deviceId in s.devices && s.devices[deviceId].kind == ControllerDevice
    ensures Reachable(s') && Filed(s') && Connected(s', deviceId) && s'.byDevice[deviceId] == socket
    ensures s'.everOpen == s.everOpen + {socket} && s'.bySocket == s.bySocket[socket := deviceId]
    ensures deviceId in s'.devices && s'.devices[deviceId].kind == ControllerDevice && s'.devices[deviceId].online
  {
    hide Reachable, Filed;
    s' := Goes(s, Connect(socket));
    assert s'.devices == s.devices && socket in s'.open;
    HelloAnswers(s', socket, deviceId, true);
    var s2 := Goes(s', DoHello(socket, deviceId, true));
    assert s2.everOpen == s'.everOpen;
    s' := s2;
  }

  lemma Begins() returns (s: State)
    ensures Reachable(s) && Filed(s) && s.everOpen == {} && s.bySocket == map[]
    ensures 1 in s.devices && s.devices[1].kind == ControllerDevice
  {
    assert Leads(EMPTY, [], EMPTY);
    assert Reachable(EMPTY);
    hide Reachable;
    s := Goes(EMPTY, DoRegister(7, 1, ControllerDevice, {}));
  }

  lemma Closes(s: State, socket: Socket) returns (s': State)
    requires Reachable(s) && Filed(s)
    ensures Reachable(s') && s' == Disconnect(s, socket)
  {
    hide Reachable, Filed, Disconnect;
    s' := Goes(s, DoDisconnect(socket));
  }

  /** It happens: a device greets over a second socket, then the close event of its first is handled. It is shown
      offline from then on, while it can be reached. */
  lemma LateCloseShowsOffline() returns (s: State)
    ensures Reachable(s) && 1 in s.devices && !s.devices[1].online && Connected(s, 1)
  {
    hide Reachable, Filed, Apply, Disconnect;
    var s0 := Begins();
    var s1 := Greets(s0, 5, 1);
    var s2 := Greets(s1, 6, 1);
    CloseAnswers(s2, 5);
    s := Closes(s2, 5);
  }
}
