/** The connection registry over runs of the control plane: it is what the accepted hellos and the handled
    close events make of it, and nothing else touches it. */
module RegistryRuns {
  import opened Wrappers
  import opened Protocol
  import opened RegistryHistory
  import opened Server
  import P = ServerPresence
  import R = ServerRuns

  function Wires(s: State): Registry {
    Registry(s.byDevice, s.bySocket)
  }

  /** The events of the registry's history that a step of the control plane stands for. */
  function EventsOf(s: State, step: Step): seq<Event> {
    match step
    case DoHello(socket, deviceId, valid) => if deviceId in s.devices && valid then [Attached(deviceId, socket)] else []
    case DoDisconnect(socket) => [Detached(socket)]
    case _ => []
  }

  function History(s: State, steps: seq<Step>): seq<Event>
    requires Filed(s)
    decreases |steps|
  {
    if steps == [] || !Possible(s, steps[0]) then []
    else EventsOf(s, steps[0]) + History(Apply(s, steps[0]).0, steps[1..])
  }

  lemma HelloWires(s: State, socket: Socket, deviceId: Id, valid: bool)
    requires Filed(s)
    ensures Wires(Hello(s, socket, deviceId, valid))
         == if deviceId in s.devices && valid then Update(Wires(s), Attached(deviceId, socket)) else Wires(s)
  {
    hide Hello;
    P.HelloAnswers(s, socket, deviceId, valid);
  }

  lemma PlainWires(s: State, step: Step)
    requires Filed(s) && Possible(s, step) && (step.DoSignal? || step.DoHeartbeat? || step.DoRegister? || step.Tick?)
    ensures EventsOf(s, step) == [] && Wires(Apply(s, step).0) == Wires(s)
  {
    hide Filed;
  }

  lemma PresenceWires(s: State, d: Id, online: bool)
    ensures Wires(SetPresence(s, d, online)) == Wires(s)
  {
  }

  lemma DisconnectWires(s: State, socket: Socket)
    ensures Wires(Disconnect(s, socket)) == Update(Wires(s), Detached(socket))
  {
    hide SetPresence;
    if socket in s.bySocket {
      var d := s.bySocket[socket];
      PresenceWires(Detach(s.(open := s.open - {socket}), socket, d), d, false);
    }
  }

  lemma SocketWires(s: State, step: Step)
    requires Filed(s) && Possible(s, step) && (step.Connect? || step.Shut? || step.DoDisconnect?)
    ensures var es := EventsOf(s, step);
            Wires(Apply(s, step).0) == if es == [] then Wires(s) else Update(Wires(s), es[0])
  {
    hide Filed, Disconnect, Update;
    if step.DoDisconnect? {
      DisconnectWires(s, step.socket);
    }
  }

  lemma CallWires(s: State, step: Step)
    requires Filed(s) && Possible(s, step) && P.Call(step)
    ensures EventsOf(s, step) == [] && Wires(Apply(s, step).0) == Wires(s)
  {
    hide Filed, Apply;
    P.CallLeaves(s, step);
  }

  lemma StepWires(s: State, step: Step)
    requires Filed(s) && Possible(s, step)
    ensures var es := EventsOf(s, step);
            Wires(Apply(s, step).0) == if es == [] then Wires(s) else Update(Wires(s), es[0])
  {
    if step.DoHello? {
      hide Filed, Hello, Wires;
      HelloWires(s, step.socket, step.deviceId, step.valid);
    } else {
      hide Filed, Apply, Wires, EventsOf, Possible;
      if step.DoSignal? || step.DoHeartbeat? || step.DoRegister? || step.Tick? {
        PlainWires(s, step);
      } else if step.Connect? || step.Shut? || step.DoDisconnect? {
        SocketWires(s, step);
      } else {
        CallWires(s, step);
      }
    }
  }

  lemma StepHistory(s: State, step: Step, log: seq<Event>)
    requires Filed(s) && Possible(s, step) && Wires(s) == After(log)
    ensures Wires(Apply(s, step).0) == After(log + EventsOf(s, step))
  {
    hide Filed, Apply, EventsOf, Possible, Update, Wires;
    StepWires(s, step);
    var es := EventsOf(s, step);
    if es == [] {
      assert log + es == log;
    } else {
      assert |es| == 1 by { OneEvent(s, step); }
      assert (log + es)[..|log|] == log && (log + es)[|log|] == es[0];
    }
  }

  lemma OneEvent(s: State, step: Step)
    ensures |EventsOf(s, step)| <= 1
  {
  }

  /** Over any run, the registry is what the history of hellos and close events makes of it. */
  lemma {:induction false} RunWires(s: State, steps: seq<Step>, s': State, log: seq<Event>)
    requires Filed(s) && R.Leads(s, steps, s') && Wires(s) == After(log)
    ensures Wires(s') == After(log + History(s, steps))
    decreases |steps|
  {
    hide EventsOf, Apply, Filed, Possible, Wires, After;
    if steps == [] {
      assert log + [] == log;
    } else {
      var es, s1 := EventsOf(s, steps[0]), Apply(s, steps[0]).0;
      StepHistory(s, steps[0], log);
      RunWires(s1, steps[1..], s', log + es);
      assert log + es + History(s1, steps[1..]) == log + History(s, steps);
    }
  }

  /** In every reachable state, if each socket said hello for one device only, a device is mapped to a socket just
      when that socket was the last to say hello for it and has not been closed since. */
  lemma ReachableRegistry(steps: seq<Step>, s: State, deviceId: Id, socket: Socket)
    requires R.Leads(EMPTY, steps, s) && OneDevicePerSocket(History(EMPTY, steps))
    ensures Lookup(s.byDevice, deviceId) == Some(socket) <==> Holds(History(EMPTY, steps), deviceId, socket)
  {
    RunWires(EMPTY, steps, s, []);
    assert [] + History(EMPTY, steps) == History(EMPTY, steps);
    RegistryHoldsLast(History(EMPTY, steps), deviceId, socket);
  }
}
