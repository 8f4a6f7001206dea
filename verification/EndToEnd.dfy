/** The whole protocol: the control plane, one first-in first-out channel per socket that may lose what
    is in flight, and the machines at the far ends. Results reaching the server are arbitrary. */
module EndToEnd {
  import opened Wrappers
  import opened Protocol
  import opened Server
  import opened ServerInvariant
  import opened ServerSteps
  import opened ServerMoves
  import opened ServerRuns
  import opened ReplayCache
  import X = Executor

  type MachineId = nat

  /** An execution begun by a machine, for the message at index `message` of the server's sent log. */
  datatype Execution = Execution(machine: MachineId, command: Command, message: nat)

  /** `channel` holds, per socket, the indices of the messages still under way. */
  datatype System = System(
    server: State,
    channel: map<Socket, seq<nat>>,
    host: map<Socket, MachineId>,
    machines: map<MachineId, X.Machine>,
    executions: seq<Execution>)

  datatype Event =
    | ServerDoes(step: Step)
    | Install(machine: MachineId)
    | Launch(machine: MachineId, socket: Socket)
    | Deliver(socket: Socket)
    | Lose(socket: Socket)
    | Finish(machine: MachineId, job: nat, outcome: X.Outcome)

  const NEW_MACHINE := X.Machine(Missing, X.Idle, None, {}, [], [], [])
  const START := System(EMPTY, map[], map[], map[], [])

  function Channel(y: System, socket: Socket): seq<nat> {
    if socket in y.channel then y.channel[socket] else []
  }

  /** The server's new messages enter the channels of their sockets in order. */
  function Carry(channel: map<Socket, seq<nat>>, sent: seq<Sent>, from: nat): map<Socket, seq<nat>>
    decreases |sent| - from
  {
    if from >= |sent| then channel
    else
      var socket := sent[from].socket;
      Carry(channel[socket := (if socket in channel then channel[socket] else []) + [from]], sent, from + 1)
  }

  function MessageOf(m: Sent): X.ServerMessage {
    match m.message
    case DispatchOf(c) => X.Dispatch(c)
    case SignalFrom(_, _) => X.Other
  }

  ghost predicate CanHappen(y: System, e: Event) {
    match e
    case ServerDoes(step) => Filed(y.server) && Possible(y.server, step)
    case Install(machine) => machine !in y.machines
    case Launch(machine, socket) => machine in y.machines && socket !in y.host
    case Deliver(socket) =>
      && Channel(y, socket) != [] && Channel(y, socket)[0] < |y.server.sent|
      && socket in y.host && y.host[socket] in y.machines
    case Lose(socket) => true
    case Finish(machine, job, _) => machine in y.machines && job < |y.machines[machine].jobs|
  }

  function Happen(y: System, e: Event): System
    requires CanHappen(y, e)
  {
    match e
    case ServerDoes(step) =>
      var server' := Apply(y.server, step).0;
      y.(server := server', channel := Carry(y.channel, server'.sent, |y.server.sent|))
    case Install(machine) => y.(machines := y.machines[machine := NEW_MACHINE])
    case Launch(machine, socket) =>
      y.(host := y.host[socket := machine],
         machines := y.machines[machine := X.Start(y.machines[machine], socket, true)])
    case Deliver(socket) =>
      var k := Channel(y, socket)[0];
      var machine := y.host[socket];
      var message := MessageOf(y.server.sent[k]);
      y.(channel := y.channel[socket := Channel(y, socket)[1..]],
         machines := y.machines[machine := X.Received(y.machines[machine], socket, message)],
         executions := if X.Executes(y.machines[machine], socket, message)
                       then y.executions + [Execution(machine, message.command, k)] else y.executions)
    case Lose(socket) => y.(channel := y.channel[socket := []])
    case Finish(machine, job, outcome) =>
      y.(machines := y.machines[machine := X.Completed(y.machines[machine], job, outcome)])
  }

  // ---------------------------------------------------------------- the invariant

  ghost predicate Sorted(s: seq<nat>) {
    forall i, j :: 0 <= i < j < |s| ==> s[i] < s[j]
  }

  ghost predicate Addressed(c: seq<nat>, sent: seq<Sent>, socket: Socket) {
    Sorted(c) && forall i :: 0 <= i < |c| ==> c[i] < |sent| && sent[c[i]].socket == socket
  }

  /** If the execution was caused by a message over this socket, it was an earlier one than message `k`. */
  predicate Earlier(x: Execution, sent: seq<Sent>, socket: Socket, k: nat) {
    x.message < |sent| && sent[x.message].socket == socket ==> x.message < k
  }

  /** A channel carries, in order, messages the server sent over its socket and nobody received yet. */
  ghost predicate ChannelOk(y: System, socket: Socket) {
    var c := Channel(y, socket);
    && Addressed(c, y.server.sent, socket)
    && (forall n, i :: 0 <= n < |y.executions| && 0 <= i < |c| ==>
          Earlier(y.executions[n], y.server.sent, socket, c[i]))
  }

  ghost predicate ExecutionOk(y: System, x: Execution) {
    x.message < |y.server.sent| && y.server.sent[x.message].message == DispatchOf(x.command)
  }

  ghost predicate Good(y: System) {
    && Inv(y.server)
    && (forall socket :: ChannelOk(y, socket))
    && (forall n :: 0 <= n < |y.executions| ==> ExecutionOk(y, y.executions[n]))
    && (forall n, n' :: 0 <= n < n' < |y.executions| ==> y.executions[n].message != y.executions[n'].message)
    && (forall machine :: machine in y.machines ==> X.Sound(y.machines[machine]))
  }

  function In(channel: map<Socket, seq<nat>>, socket: Socket): seq<nat> {
    if socket in channel then channel[socket] else []
  }

  lemma {:induction false} CarryKeeps(channel: map<Socket, seq<nat>>, sent: seq<Sent>, from: nat, socket: Socket)
    requires from <= |sent| && Addressed(In(channel, socket), sent, socket)
    requires forall i :: 0 <= i < |In(channel, socket)| ==> In(channel, socket)[i] < from
    ensures var c := In(Carry(channel, sent, from), socket);
      && Addressed(c, sent, socket)
      && (forall i :: 0 <= i < |c| ==> c[i] in In(channel, socket) || from <= c[i])
    decreases |sent| - from
  {
    hide Addressed;
    if from < |sent| {
      var target := sent[from].socket;
      var channel' := channel[target := In(channel, target) + [from]];
      assert Carry(channel, sent, from) == Carry(channel', sent, from + 1);
      if target == socket {
        AddressedMore(In(channel, socket), sent, socket, from);
      }
      CarryKeeps(channel', sent, from + 1, socket);
    }
  }

  lemma AddressedMore(c: seq<nat>, sent: seq<Sent>, socket: Socket, k: nat)
    requires Addressed(c, sent, socket) && k < |sent| && sent[k].socket == socket
    requires forall i :: 0 <= i < |c| ==> c[i] < k
    ensures Addressed(c + [k], sent, socket)
  {
  }

  lemma ServerChannelOk(y: System, step: Step, socket: Socket)
    requires CanHappen(y, ServerDoes(step)) && ChannelOk(y, socket)
    requires forall n :: 0 <= n < |y.executions| ==> ExecutionOk(y, y.executions[n])
    requires y.server.sent <= Apply(y.server, step).0.sent
    ensures ChannelOk(Happen(y, ServerDoes(step)), socket)
  {
    hide Apply, CanHappen, Happen, Carry, Addressed, Earlier, ExecutionOk, Filed, Possible;
    ServerDoesIs(y, step);
    var y' := Happen(y, ServerDoes(step));
    var sent := Apply(y.server, step).0.sent;
    var c, c' := In(y.channel, socket), In(y'.channel, socket);
    AddressedLater(c, y.server.sent, sent, socket);
    CarryKeeps(y.channel, sent, |y.server.sent|, socket);
    forall n, i | 0 <= n < |y.executions| && 0 <= i < |c'|
      ensures Earlier(y.executions[n], sent, socket, c'[i])
    {
      if c'[i] in c {
        var j :| 0 <= j < |c| && c[j] == c'[i];
        EarlierKept(y, y.executions[n], sent, socket, c[j]);
      } else {
        EarlierNew(y, y.executions[n], sent, socket, c'[i]);
      }
    }
  }

  lemma ServerDoesIs(y: System, step: Step)
    requires CanHappen(y, ServerDoes(step))
    ensures Filed(y.server) && Possible(y.server, step)
    ensures var s' := Apply(y.server, step).0;
      Happen(y, ServerDoes(step)) == y.(server := s', channel := Carry(y.channel, s'.sent, |y.server.sent|))
  {
    hide Apply, Filed, Possible, Carry;
  }

  lemma AddressedLater(c: seq<nat>, sent: seq<Sent>, sent': seq<Sent>, socket: Socket)
    requires Addressed(c, sent, socket) && sent <= sent'
    ensures Addressed(c, sent', socket) && forall i :: 0 <= i < |c| ==> c[i] < |sent|
  {
  }

  lemma EarlierKept(y: System, x: Execution, sent: seq<Sent>, socket: Socket, k: nat)
    requires ExecutionOk(y, x) && y.server.sent <= sent && Earlier(x, y.server.sent, socket, k)
    ensures Earlier(x, sent, socket, k)
  {
  }

  lemma EarlierNew(y: System, x: Execution, sent: seq<Sent>, socket: Socket, k: nat)
    requires ExecutionOk(y, x) && |y.server.sent| <= k
    ensures Earlier(x, sent, socket, k)
  {
  }

  lemma ServerGood(y: System, step: Step)
    requires Good(y) && CanHappen(y, ServerDoes(step))
    ensures Good(Happen(y, ServerDoes(step)))
  {
    StepInv(y.server, step);
    var y' := Happen(y, ServerDoes(step));
    assert y.server.sent <= y'.server.sent by { hide *; GrowsSent(y.server, y'.server); }
    assert y'.server == Apply(y.server, step).0;
    hide Inv, Apply, ChannelOk, CanHappen;
    forall socket ensures ChannelOk(y', socket) {
      ServerChannelOk(y, step, socket);
    }
    forall n | 0 <= n < |y'.executions| ensures ExecutionOk(y', y'.executions[n]) {
      assert ExecutionOk(y, y.executions[n]);
    }
  }

  lemma GrowsSent(s: State, s': State)
    requires Grows(s, s')
    ensures s.sent <= s'.sent
  {
  }

  lemma MachinesSound(y: System, e: Event)
    requires CanHappen(y, e) && forall machine :: machine in y.machines ==> X.Sound(y.machines[machine])
    ensures forall machine :: machine in Happen(y, e).machines ==> X.Sound(Happen(y, e).machines[machine])
  {
    hide Apply, Carry, Channel;
    match e
    case Launch(machine, socket) =>
      X.StepsSound(y.machines[machine], socket, true, 0, X.Other);
    case Deliver(socket) =>
      var m := y.machines[y.host[socket]];
      var message := MessageOf(y.server.sent[Channel(y, socket)[0]]);
      X.StepsSound(m, socket, true, 0, message);
    case Finish(machine, job, outcome) =>
      X.CompletedSound(y.machines[machine], job, outcome);
    case _ =>
  }

  lemma DeliverChannels(y: System, socket: Socket, s: Socket)
    requires CanHappen(y, Deliver(socket)) && ChannelOk(y, s) && ChannelOk(y, socket)
    ensures ChannelOk(Happen(y, Deliver(socket)), s)
  {
    var y' := Happen(y, Deliver(socket));
    var c, c' := Channel(y, s), Channel(y', s);
    assert s == socket ==> c' == c[1..];
    assert s != socket ==> c' == c;
  }

  /** A delivery begins at most one execution, caused by the message delivered, which caused none before. */
  lemma DeliverBegins(y: System, socket: Socket)
    requires CanHappen(y, Deliver(socket)) && ChannelOk(y, socket)
    requires forall n :: 0 <= n < |y.executions| ==> ExecutionOk(y, y.executions[n])
    ensures var (y', k) := (Happen(y, Deliver(socket)), Channel(y, socket)[0]);
      && y'.server == y.server && y.executions <= y'.executions && |y'.executions| <= |y.executions| + 1
      && (|y'.executions| > |y.executions| ==>
            y'.executions[|y.executions|].message == k && ExecutionOk(y', y'.executions[|y.executions|]))
      && forall n :: 0 <= n < |y.executions| ==> y.executions[n].message != k
  {
    hide X.Received, Has;
    forall n | 0 <= n < |y.executions| ensures y.executions[n].message != Channel(y, socket)[0] {
      assert ExecutionOk(y, y.executions[n]);
      assert Earlier(y.executions[n], y.server.sent, socket, Channel(y, socket)[0]);
    }
  }

  lemma OkKept(y: System, y': System, x: Execution)
    requires ExecutionOk(y, x) && y'.server == y.server
    ensures ExecutionOk(y', x)
  {
  }

  lemma DeliverGood(y: System, socket: Socket)
    requires Good(y) && CanHappen(y, Deliver(socket))
    ensures Good(Happen(y, Deliver(socket)))
  {
    hide Inv, ChannelOk, ExecutionOk, X.Sound, Happen, CanHappen;
    var y' := Happen(y, Deliver(socket));
    MachinesSound(y, Deliver(socket));
    DeliverBegins(y, socket);
    forall s ensures ChannelOk(y', s) {
      DeliverChannels(y, socket, s);
    }
    forall n | 0 <= n < |y'.executions| ensures ExecutionOk(y', y'.executions[n]) {
      if n < |y.executions| {
        OkKept(y, y', y.executions[n]);
      }
    }
    forall n, n' | 0 <= n < n' < |y'.executions|
      ensures y'.executions[n].message != y'.executions[n'].message
    {
      assert y'.executions[n] == y.executions[n];
    }
    assert Inv(y'.server);
    assert (forall socket :: ChannelOk(y', socket));
    assert (forall n :: 0 <= n < |y'.executions| ==> ExecutionOk(y', y'.executions[n]));
    assert (forall machine :: machine in y'.machines ==> X.Sound(y'.machines[machine]));
  }

  lemma LoseChannels(y: System, socket: Socket, s: Socket)
    requires ChannelOk(y, s)
    ensures ChannelOk(Happen(y, Lose(socket)), s)
  {
    hide Inv;
  }

  lemma LoseGood(y: System, socket: Socket)
    requires Good(y)
    ensures Good(Happen(y, Lose(socket)))
  {
    hide Inv, ChannelOk, X.Sound;
    var y' := Happen(y, Lose(socket));
    forall s ensures ChannelOk(y', s) {
      LoseChannels(y, socket, s);
    }
    forall n | 0 <= n < |y'.executions| ensures ExecutionOk(y', y'.executions[n]) {
      assert ExecutionOk(y, y.executions[n]);
    }
  }

  lemma LocalGood(y: System, e: Event)
    requires Good(y) && CanHappen(y, e) && (e.Install? || e.Launch? || e.Finish?)
    ensures Good(Happen(y, e))
  {
    var y' := Happen(y, e);
    MachinesSound(y, e);
    forall s ensures ChannelOk(y', s) {
      assert ChannelOk(y, s);
    }
    forall n | 0 <= n < |y'.executions| ensures ExecutionOk(y', y'.executions[n]) {
      assert ExecutionOk(y, y.executions[n]);
    }
    hide Inv, ChannelOk, ExecutionOk;
  }

  ghost predicate Runs(y: System, events: seq<Event>, y': System)
    decreases |events|
  {
    if events == [] then y' == y
    else CanHappen(y, events[0]) && Runs(Happen(y, events[0]), events[1..], y')
  }

  lemma EventGood(y: System, e: Event)
    requires Good(y) && CanHappen(y, e)
    ensures Good(Happen(y, e))
  {
    hide Good, CanHappen, Happen;
    match e {
      case ServerDoes(step) => ServerGood(y, step);
      case Deliver(socket) => DeliverGood(y, socket);
      case Lose(socket) => LoseGood(y, socket);
      case _ => LocalGood(y, e);
    }
  }

  lemma {:induction false} RunGood(y: System, events: seq<Event>, y': System)
    requires Good(y) && Runs(y, events, y')
    ensures Good(y')
    decreases |events|
  {
    hide Good, CanHappen, Happen;
    if events != [] {
      EventGood(y, events[0]);
      RunGood(Happen(y, events[0]), events[1..], y');
    }
  }

  lemma StartGood()
    ensures Good(START)
  {
    EmptyInv();
  }

  // ---------------------------------------------------------------- what a run guarantees

  lemma GoodServer(y: System)
    requires Good(y)
    ensures Inv(y.server)
  {
    hide Inv, ChannelOk, ExecutionOk;
  }

  lemma GoodMachines(y: System)
    requires Good(y)
    ensures forall machine :: machine in y.machines ==> X.Sound(y.machines[machine])
  {
    hide Inv, ChannelOk, ExecutionOk, X.Sound;
  }

  lemma ExecutionIs(y: System, n: nat)
    requires Good(y) && n < |y.executions|
    ensures y.executions[n].message < |y.server.sent|
    ensures y.server.sent[y.executions[n].message].message == DispatchOf(y.executions[n].command)
    ensures Dispatches(y.server.sent[y.executions[n].message], y.executions[n].command.id)
  {
    hide Inv, ChannelOk;
    assert ExecutionOk(y, y.executions[n]);
  }

  /** End to end: every execution any machine ever began was caused by a dispatch of that very command
      which the server was entitled to send. */
  lemma ExecutionsAuthorised(events: seq<Event>, y: System, n: nat)
    requires Runs(START, events, y) && n < |y.executions|
    ensures var x := y.executions[n];
      && x.message < |y.server.sent|
      && y.server.sent[x.message].message == DispatchOf(x.command)
      && Authorised(y.server, y.server.sent[x.message])
  {
    hide Runs, Good, Inv, Authorised;
    StartGood();
    RunGood(START, events, y);
    ExecutionIs(y, n);
    GoodServer(y);
    SendAuthorised(y.server, y.executions[n].message);
  }

  function StepsOf(events: seq<Event>): seq<Step> {
    if events == [] then []
    else (if events[0].ServerDoes? then [events[0].step] else []) + StepsOf(events[1..])
  }

  /** What an event means to the server. */
  lemma ServerAfter(y: System, e: Event)
    requires CanHappen(y, e)
    ensures e.ServerDoes? ==>
      Filed(y.server) && Possible(y.server, e.step) && Happen(y, e).server == Apply(y.server, e.step).0
    ensures !e.ServerDoes? ==> Happen(y, e).server == y.server
  {
    hide Apply, Carry, Possible, Filed;
  }

  lemma {:induction false} RunLeads(y: System, events: seq<Event>, y': System)
    requires Runs(y, events, y')
    ensures Leads(y.server, StepsOf(events), y'.server)
    decreases |events|
  {
    hide Apply, Carry, Possible, Filed, Happen, CanHappen;
    if events != [] {
      RunLeads(Happen(y, events[0]), events[1..], y');
      ServerAfter(y, events[0]);
      if events[0].ServerDoes? {
        assert StepsOf(events)[0] == events[0].step && StepsOf(events)[1..] == StepsOf(events[1..]);
      } else {
        assert StepsOf(events) == StepsOf(events[1..]);
      }
    }
  }

  function Count(executions: seq<Execution>, id: Id): nat {
    if executions == [] then 0
    else Count(executions[..|executions| - 1], id)
         + if executions[|executions| - 1].command.id == id then 1 else 0
  }

  function Dispatchers(sent: seq<Sent>, id: Id): set<nat> {
    set k | 0 <= k < |sent| && Dispatches(sent[k], id)
  }

  lemma {:induction false} DispatchersMany(sent: seq<Sent>, id: Id)
    ensures |Dispatchers(sent, id)| == |SendsOf(sent, id)|
  {
    if sent != [] {
      var front, n := sent[..|sent| - 1], |sent| - 1;
      DispatchersMany(front, id);
      if Dispatches(sent[n], id) {
        assert Dispatchers(sent, id) == Dispatchers(front, id) + {n};
      } else {
        assert Dispatchers(sent, id) == Dispatchers(front, id);
      }
    }
  }

  /** Executions with distinct causes are at most as many as the causes. */
  lemma {:induction false} CountBound(executions: seq<Execution>, id: Id, causes: set<nat>)
    requires forall n :: 0 <= n < |executions| && executions[n].command.id == id ==> executions[n].message in causes
    requires forall n, n' :: 0 <= n < n' < |executions| ==> executions[n].message != executions[n'].message
    ensures Count(executions, id) <= |causes|
  {
    if executions != [] {
      var front, last := executions[..|executions| - 1], executions[|executions| - 1];
      if last.command.id == id {
        CountBound(front, id, causes - {last.message});
      } else {
        CountBound(front, id, causes);
      }
    }
  }

  lemma ExecutionsPerSend(y: System, id: Id)
    requires Good(y)
    ensures Count(y.executions, id) <= |SendsOf(y.server.sent, id)|
  {
    hide Inv;
    forall n | 0 <= n < |y.executions| && y.executions[n].command.id == id
      ensures y.executions[n].message in Dispatchers(y.server.sent, id)
    {
      assert ExecutionOk(y, y.executions[n]);
    }
    CountBound(y.executions, id, Dispatchers(y.server.sent, id));
    DispatchersMany(y.server.sent, id);
  }

  /** Execution bound: over all machines, a command is executed at most once per hello of its device
      since its creation, and once more. */
  lemma ExecutionBound(y: System, events: seq<Event>, y': System, id: Id)
    requires Good(y) && Runs(y, events, y') && id !in y.server.commands && id in y'.server.commands
    ensures var d := y'.server.commands[id].request.targetDeviceId;
      Count(y'.executions, id) <= 1 + Epoch(y'.server, d) - Epoch(y.server, d)
  {
    hide *;
    GoodServer(y);
    RunGood(y, events, y');
    RunLeads(y, events, y');
    ExecutionsPerSend(y', id);
    DispatchBound(y.server, StepsOf(events), y'.server, id);
  }

  lemma SendsGrow(sent: seq<Sent>, sent': seq<Sent>, id: Id)
    requires sent <= sent'
    ensures |SendsOf(sent, id)| <= |SendsOf(sent', id)|
    decreases |sent'|
  {
    if sent != sent' {
      SendsGrow(sent, sent'[..|sent'| - 1], id);
    }
  }

  /** As long as the dispatches of a command stay the same, no later message is one. */
  lemma {:induction false} NoneSince(sent: seq<Sent>, sent': seq<Sent>, id: Id, k: nat)
    requires sent <= sent' && SendsOf(sent', id) == SendsOf(sent, id) && k < |sent'| && Dispatches(sent'[k], id)
    ensures k < |sent|
    decreases |sent'|
  {
    if sent != sent' {
      var front := sent'[..|sent'| - 1];
      SendsGrow(sent, front, id);
      NoneSince(sent, front, id, k);
    }
  }

  /** Once the server has accepted a result for a command, only dispatches already sent can still make it execute:
      every execution, past or to come, was caused by one of them, and no two by the same. */
  lemma NoNewCauseOnceReported(y: System, events: seq<Event>, y': System, id: Id)
    requires Good(y) && Runs(y, events, y') && id in y.server.commands && id in y.server.results
    ensures forall n :: 0 <= n < |y'.executions| && y'.executions[n].command.id == id ==>
      && y'.executions[n].message < |y.server.sent|
      && y.server.sent[y'.executions[n].message].message == DispatchOf(y'.executions[n].command)
    ensures Count(y'.executions, id) <= |SendsOf(y.server.sent, id)|
  {
    hide *;
    GoodServer(y);
    RunGood(y, events, y');
    RunLeads(y, events, y');
    ExecutionsPerSend(y', id);
    NeverSentOnceReported(y.server, StepsOf(events), y'.server, id);
    ServerRuns.RunKeeps(y.server, StepsOf(events), y'.server);
    GrowsSent(y.server, y'.server);
    forall n | 0 <= n < |y'.executions| && y'.executions[n].command.id == id
      ensures y'.executions[n].message < |y.server.sent|
      ensures y.server.sent[y'.executions[n].message].message == DispatchOf(y'.executions[n].command)
    {
      ExecutionIs(y', n);
      NoneSince(y.server.sent, y'.server.sent, id, y'.executions[n].message);
    }
  }

  /** A command delivered again while the machine's cache still answers for it is not executed again;
      the machine repeats the last result it had for it. */
  lemma RedeliveryReplays(y: System, socket: Socket)
    requires Good(y) && CanHappen(y, Deliver(socket))
    requires y.server.sent[Channel(y, socket)[0]].message.DispatchOf?
    requires var m := y.machines[y.host[socket]]; socket in m.live
    requires var age := Age(y.machines[y.host[socket]].log, y.server.sent[Channel(y, socket)[0]].message.command.id);
      age.Some? && age.value < 500
    ensures var machine := y.host[socket];
      var id := y.server.sent[Channel(y, socket)[0]].message.command.id;
      var y' := Happen(y, Deliver(socket));
      && y'.executions == y.executions && y'.machines[machine].jobs == y.machines[machine].jobs
      && LastResult(y.machines[machine].log, id).Some?
      && y'.machines[machine].outbox == y.machines[machine].outbox
           + [(socket, X.Result(LastResult(y.machines[machine].log, id).value))]
  {
    hide Inv, ChannelOk, ExecutionOk, Age, After, LastResult;
    var m := y.machines[y.host[socket]];
    X.ReplayOrExecute(m, socket, y.server.sent[Channel(y, socket)[0]].message.command);
  }

  /** A signal that reaches a machine changes nothing in its executor. */
  lemma SignalIsIgnored(y: System, socket: Socket)
    requires CanHappen(y, Deliver(socket)) && y.server.sent[Channel(y, socket)[0]].message.SignalFrom?
    ensures var y' := Happen(y, Deliver(socket)); y'.machines == y.machines && y'.executions == y.executions
  {
    hide Has, Find;
  }
}
