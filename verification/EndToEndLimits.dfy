/** What the protocol does not guarantee: a command may execute twice. */
module EndToEndLimits {
  import opened Wrappers
  import opened Protocol
  import opened Lifecycle
  import opened Ordering
  import opened Server
  import opened ServerInvariant
  import opened ServerRuns
  import opened ServerSteps
  import opened EndToEnd
  import ReplayCache
  import X = Executor

  ghost predicate Reached(y: System) {
    exists events :: Runs(START, events, y)
  }

  lemma {:induction false} RunsOn(y: System, events: seq<Event>, y': System, e: Event)
    requires Runs(y, events, y') && CanHappen(y', e)
    ensures Runs(y, events + [e], Happen(y', e))
    decreases |events|
  {
    hide Happen, CanHappen;
    if events == [] {
      assert Runs(Happen(y, e), [], Happen(y, e));
      assert [e][1..] == [] && events + [e] == [e];
    } else {
      RunsOn(Happen(y, events[0]), events[1..], y', e);
      assert (events + [e])[1..] == events[1..] + [e];
    }
  }

  lemma Then(y: System, e: Event) returns (y': System)
    requires Reached(y) && CanHappen(y, e)
    ensures Reached(y') && y' == Happen(y, e)
  {
    var events :| Runs(START, events, y);
    hide Happen, CanHappen;
    RunsOn(START, events, y, e);
    y' := Happen(y, e);
  }

  const ME: Id := 7
  const PC: Id := 1
  const CMD: Id := 0
  const REQUEST := Request(PC, FileRead, "", "k", 1000)
  const QUEUED := Command(CMD, ME, REQUEST, Risk.Read, Queued, 0, 0)
  const SENT := QUEUED.(status := Dispatched)

  /** One executor, online over the socket `wire`. */
  ghost predicate Online(s: State, wire: Socket, hellos: nat) {
    && s.clock == 0 && s.byDevice == map[PC := wire] && s.open == {wire} && Epoch(s, PC) == hellos
    && (forall k :: k > wire ==> k !in s.everOpen)
    && PC in s.devices && s.devices[PC].userId == ME && s.devices[PC].kind == ExecutorDevice
    && FileRead in s.devices[PC].tools
  }

  lemma Serves(y: System, step: Step) returns (y': System)
    requires Reached(y) && Filed(y.server) && Possible(y.server, step)
    ensures Reached(y') && y'.server == Apply(y.server, step).0
    ensures y' == y.(server := y'.server, channel := Carry(y.channel, y'.server.sent, |y.server.sent|))
  {
    hide Reached, Apply, Possible, Filed, Carry;
    y' := Then(y, ServerDoes(step));
  }

  /** The first machine once it is started and has opened socket 5. */
  const LAUNCHED := START.(host := map[5 := 0], machines := map[0 := X.Start(NEW_MACHINE, 5, true)])

  /** The executor is registered, started, and has its socket open; it has not said hello. */
  ghost predicate Connected(s: State) {
    && s.clock == 0 && s.commands == map[] && s.order == [] && s.sent == [] && s.byDevice == map[]
    && s.open == {5} && s.everOpen == {5} && s.hellos == map[]
    && s.devices == map[PC := Device(ME, ExecutorDevice, {FileRead}, false, None)]
  }

  lemma Registers(y0: System) returns (y: System)
    requires y0 == START
    ensures Reached(y) && Filed(y.server)
    ensures y == START.(server := EMPTY.(devices := map[PC := Device(ME, ExecutorDevice, {FileRead}, false, None)]))
  {
    assert Runs(START, [], START);
    assert Reached(START);
    hide Reached;
    y := Serves(START, DoRegister(ME, PC, ExecutorDevice, {FileRead}));
  }

  lemma Starts(y0: System) returns (y: System)
    requires Reached(y0) && y0 == START.(server := y0.server)
    ensures Reached(y) && y == LAUNCHED.(server := y0.server)
  {
    hide Reached;
    y := Then(y0, Install(0));
    y := Then(y, Launch(0, 5));
  }

  lemma FirstSocket() returns (y: System)
    ensures Reached(y) && Filed(y.server) && Connected(y.server) && y == LAUNCHED.(server := y.server)
  {
    hide Reached;
    y := Registers(START);
    y := Starts(y);
    y := Serves(y, Connect(5));
  }

  lemma FirstHelloIs(s: State)
    requires Filed(s) && Connected(s)
    ensures var s' := Hello(s, 5, PC, true);
      Online(s', 5, 1) && s'.commands == map[] && s'.order == [] && s'.sent == []
  {
    hide DispatchAll, ListDispatchable;
    NothingPending(s);
  }

  lemma FirstHello() returns (y: System)
    ensures Reached(y) && Online(y.server, 5, 1) && Filed(y.server)
    ensures y.server.commands == map[] && y.server.order == [] && y.server.sent == []
    ensures y == LAUNCHED.(server := y.server)
  {
    hide Reached, Filed, Apply, Hello, Online;
    var y0 := FirstSocket();
    FirstHelloIs(y0.server);
    ApplyHello(y0.server, 5, PC);
    y := Serves(y0, DoHello(5, PC, true));
  }

  lemma NothingPending(s: State)
    requires Filed(s) && s.commands == map[]
    ensures forall s': State | s'.order == s.order && Filed(s') ::
              ListDispatchable(s', PC) == [] && DispatchAll(s', []) == s'
  {
  }

  /** The request is admitted and sent at once. */
  ghost predicate SentOnce(s: State) {
    && s.commands == map[CMD := SENT] && s.order == [CMD]
    && |s.sent| == 1 && s.sent[0].socket == 5 && s.sent[0].message == DispatchOf(SENT)
  }

  lemma FirstAdmit(s: State)
    requires Filed(s) && Online(s, 5, 1) && s.commands == map[] && s.order == [] && s.sent == []
    ensures Admission(s, ME, REQUEST) == Ok(None)
    ensures var s1 := Admit(s, ME, REQUEST, CMD);
      && s1 == s.(commands := map[CMD := QUEUED], order := [CMD], audit := s1.audit) && Filed(s1)
  {
    assert FindByKey(s, ME, "k") == None;
  }

  /** No approval is consumed. */
  lemma ClaimsPlain(s: State, c: Command)
    requires Filed(s) && c.id in s.commands && !NeedsApproval(c.request.tool)
    ensures Claim(s, c).approvals == s.approvals
  {
    hide Filed, PolicyForTool;
  }

  /** Queued or sent before, the command goes out over the open socket of its device. */
  lemma SendsIt(s: State, c: Command, wire: Socket)
    requires Filed(s) && s.commands == map[CMD := c] && c in {QUEUED, SENT}
    requires s.clock == 0 && Link(s, PC) == Some(wire)
    ensures var s' := TryDispatch(s, CMD);
      && s' == s.(commands := map[CMD := SENT], audit := s'.audit, sent := s'.sent)
      && |s'.sent| == |s.sent| + 1 && s'.sent[|s.sent|].socket == wire
      && s'.sent[|s.sent|].message == DispatchOf(SENT)
  {
    hide HandOver, Filed, Link, TryDispatch, Epoch, Claim;
    TryDispatchHands(s, CMD, wire);
    ClaimsPlain(s, c);
    HandOverFrame(s, CMD, wire);
    HandOverLogs(s, CMD, wire);
  }

  lemma FirstSend(s: State)
    requires Filed(s) && Online(s, 5, 1) && s.commands == map[CMD := QUEUED] && s.order == [CMD] && s.sent == []
    ensures SentOnce(TryDispatch(s, CMD)) && Online(TryDispatch(s, CMD), 5, 1)
  {
    hide Filed, TryDispatch;
    SendsIt(s, QUEUED, 5);
  }

  lemma FirstCreate(s: State)
    requires Filed(s) && Online(s, 5, 1) && s.commands == map[] && s.order == [] && s.sent == []
    ensures Possible(s, DoCreate(ME, REQUEST, CMD))
    ensures var s' := Apply(s, DoCreate(ME, REQUEST, CMD)).0; SentOnce(s') && Online(s', 5, 1)
  {
    hide Admit, TryDispatch, Admission, SentOnce;
    FirstAdmit(s);
    FirstSend(Admit(s, ME, REQUEST, CMD));
  }

  lemma FirstDispatch(y0: System) returns (y: System)
    requires Reached(y0) && Online(y0.server, 5, 1) && Filed(y0.server) && y0 == LAUNCHED.(server := y0.server)
    requires y0.server.commands == map[] && y0.server.order == [] && y0.server.sent == []
    ensures Reached(y) && Online(y.server, 5, 1) && Filed(y.server)
    ensures y.server.commands == map[CMD := SENT] && y.server.order == [CMD]
    ensures |y.server.sent| == 1 && y.server.sent[0].socket == 5 && y.server.sent[0].message == DispatchOf(SENT)
    ensures y == LAUNCHED.(server := y.server, channel := map[5 := [0]])
  {
    hide Reached, Filed, Apply, Online, Possible, Carry;
    FirstCreate(y0.server);
    y := Serves(y0, DoCreate(ME, REQUEST, CMD));
    CarryFirst(y.server.sent);
  }

  lemma CarryFirst(sent: seq<Sent>)
    requires |sent| == 1 && sent[0].socket == 5
    ensures Carry(map[], sent, 0) == map[5 := [0]]
  {
    var next: map<Socket, seq<nat>> := map[5 := [0]];
    assert [] + [0] == [0];
    assert Carry(map[], sent, 0) == Carry(next, sent, 1);
  }

  lemma FirstExecution(y0: System) returns (y: System)
    requires Reached(y0) && y0 == LAUNCHED.(server := y0.server, channel := map[5 := [0]])
    requires |y0.server.sent| == 1 && y0.server.sent[0].message == DispatchOf(SENT)
    ensures Reached(y) && y.server == y0.server && y.channel == map[5 := []] && y.host == map[5 := 0]
    ensures y.executions == [Execution(0, SENT, 0)]
    ensures y.machines.Keys == {0} && y.machines[0].storage == ReplayCache.Missing && y.machines[0].current == Some(5)
  {
    hide Reached;
    y := Then(y0, Deliver(5));
  }

  /** The machine is started again and opens another socket; the job goes on. */
  lemma SecondLaunch(y0: System) returns (y: System)
    requires Reached(y0) && y0.host == map[5 := 0]
    requires y0.machines.Keys == {0} && y0.machines[0].storage == ReplayCache.Missing
    ensures Reached(y) && y == y0.(host := map[5 := 0, 6 := 0], machines := y.machines)
    ensures y.machines.Keys == {0} && y.machines[0].storage == ReplayCache.Missing && 6 in y.machines[0].live
  {
    hide Reached;
    y := Then(y0, Launch(0, 6));
  }

  /** The connection is replaced before the result is there: the command, still dispatched, is sent again. */
  lemma SecondDispatch(y0: System) returns (y: System)
    requires Reached(y0) && Online(y0.server, 5, 1) && Filed(y0.server) && y0.channel == map[5 := []]
    requires y0.server.commands == map[CMD := SENT] && y0.server.order == [CMD] && |y0.server.sent| == 1
    ensures Reached(y) && Repeated(y.server) && y == y0.(server := y.server, channel := map[5 := [], 6 := [1]])
  {
    hide Reached, Filed;
    y := SecondSocket(y0);
    y := SecondHello(y);
  }

  lemma SecondHello(y0: System) returns (y: System)
    requires Reached(y0) && Filed(y0.server) && y0.channel == map[5 := []] && 6 in y0.server.everOpen
    requires ReadyToRepeat(y0.server)
    ensures Reached(y) && Repeated(y.server) && y == y0.(server := y.server, channel := map[5 := [], 6 := [1]])
  {
    HelloStep(y0.server);
    hide Reached, Filed, Apply, ReadyToRepeat, Carry, Epoch;
    y := Serves(y0, DoHello(6, PC, true));
    CarryOne(map[5 := []], y.server.sent);
  }

  ghost predicate Repeated(s: State) {
    && s.commands == map[CMD := SENT] && Epoch(s, PC) == 2
    && |s.sent| == 2 && s.sent[1].socket == 6 && s.sent[1].message == DispatchOf(SENT)
  }

  lemma HelloStep(s: State)
    requires Filed(s) && ReadyToRepeat(s) && Possible(s, DoHello(6, PC, true))
    ensures |s.sent| == 1 && Repeated(Apply(s, DoHello(6, PC, true)).0)
  {
    assert |s.sent| == 1;
    hide *;
    HelloSends(s);
    ApplyHello(s, 6, PC);
  }

  lemma ApplyHello(s: State, socket: Socket, deviceId: Id)
    requires Filed(s) && Possible(s, DoHello(socket, deviceId, true))
    ensures Apply(s, DoHello(socket, deviceId, true)).0 == Hello(s, socket, deviceId, true)
  {
    hide Hello, Filed;
  }

  ghost predicate ReadyToRepeat(s: State) {
    && s.clock == 0 && PC in s.devices && s.devices[PC].kind == ExecutorDevice && 6 in s.open
    && PC in s.byDevice && s.byDevice[PC] == 5 && Epoch(s, PC) == 1
    && s.commands == map[CMD := SENT] && s.order == [CMD] && |s.sent| == 1
  }

  lemma SecondSocket(y0: System) returns (y: System)
    requires Reached(y0) && Online(y0.server, 5, 1) && Filed(y0.server)
    ensures Reached(y) && Filed(y.server) && 6 in y.server.everOpen
    ensures y == y0.(server := y0.server.(open := y0.server.open + {6}, everOpen := y0.server.everOpen + {6}))
  {
    hide Reached, Filed;
    y := Serves(y0, Connect(6));
    hide Online;
    assert Carry(y0.channel, y0.server.sent, |y0.server.sent|) == y0.channel;
    FiledAlike(y0.server, y.server);
  }

  lemma FiledAlike(s: State, s': State)
    requires Filed(s) && s'.commands == s.commands && s'.order == s.order
    ensures Filed(s')
  {
  }

  lemma CarryOne(channel: map<Socket, seq<nat>>, sent: seq<Sent>)
    requires |sent| == 2 && sent[1].socket == 6 && channel == map[5 := []]
    ensures Carry(channel, sent, 1) == map[5 := [], 6 := [1]]
  {
    var next: map<Socket, seq<nat>> := channel[6 := [1]];
    assert [] + [1] == [1];
    assert Carry(channel, sent, 1) == Carry(next, sent, 2);
    assert Carry(next, sent, 2) == next;
  }

  lemma GreetedAgain(s: State)
    requires Filed(s) && ReadyToRepeat(s)
    ensures var s1 := Greeted(s, 6, PC);
      && Filed(s1) && s1.commands == map[CMD := SENT] && s1.order == [CMD] && s1.clock == 0 && s1.sent == s.sent
      && Link(s1, PC) == Some(6) && Epoch(s1, PC) == 2
      && Hello(s, 6, PC, true) == DispatchAll(s1, ListDispatchable(s1, PC))
  {
    hide ListDispatchable, DispatchAll;
    FiledAlike(s, Greeted(s, 6, PC));
    hide Filed;
  }

  lemma ListsIt(s: State)
    requires s.commands == map[CMD := SENT] && s.order == [CMD] && s.clock == 0
    ensures ListDispatchable(s, PC) == [CMD]
  {
    hide Filter;
    FilterOne<Id>(CMD, Ready(s.commands, PC, s.clock));
  }

  lemma DispatchesOne(s: State)
    requires Filed(s) && CMD in s.commands
    ensures DispatchAll(s, [CMD]) == TryDispatch(s, CMD)
  {
    hide TryDispatch, Filed;
    assert [CMD][..0] == [];
    assert DispatchAll(s, []) == s;
  }

  lemma HelloSends(s: State)
    requires Filed(s) && ReadyToRepeat(s)
    ensures Repeated(Hello(s, 6, PC, true))
  {
    hide ListDispatchable, DispatchAll, TryDispatch, Greeted, Hello, Link, Filed;
    var s1 := Greeted(s, 6, PC);
    GreetedAgain(s);
    ListsIt(s1);
    DispatchesOne(s1);
    SendsIt(s1, SENT, 6);
  }

  lemma SecondExecution(y0: System) returns (y: System)
    requires Reached(y0) && y0.channel == map[5 := [], 6 := [1]] && y0.host == map[5 := 0, 6 := 0]
    requires |y0.server.sent| == 2 && y0.server.sent[1].message == DispatchOf(SENT)
    requires y0.machines.Keys == {0} && y0.machines[0].storage == ReplayCache.Missing && 6 in y0.machines[0].live
    ensures Reached(y) && y.server == y0.server && y.executions == y0.executions + [Execution(0, SENT, 1)]
  {
    hide Reached;
    y := Then(y0, Deliver(6));
  }

  /** "Replayed commands never execute twice" does not hold: a command whose connection is replaced before its result
      is cached is sent again and executes again. With two hellos, two executions are all the bound allows. */
  lemma CommandExecutesTwice() returns (y: System)
    ensures Reached(y) && CMD in y.server.commands && y.server.commands[CMD].status == Dispatched
    ensures Count(y.executions, CMD) == 2 && Epoch(y.server, PC) == 2
  {
    hide Reached;
    y := FirstHello();
    y := FirstDispatch(y);
    y := FirstExecution(y);
    y := SecondLaunch(y);
    y := SecondDispatch(y);
    y := SecondExecution(y);
    var one, two := Execution(0, SENT, 0), Execution(0, SENT, 1);
    assert y.executions == [one, two] && [one, two][..1] == [one] && [one][..0] == [];
    assert Count([one], CMD) == 1;
  }
}
