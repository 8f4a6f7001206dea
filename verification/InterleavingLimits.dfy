/** What interleaving breaks, and when it does not: stale copies rewrite finished commands, and two decisions
    at once can leave an approved command behind. */
module InterleavingLimits {
  import opened Wrappers
  import opened Protocol
  import opened Ordering
  import opened ServerInvariant
  import opened Interleaving
  import opened InterleavingSafety
  import opened InterleavingSettled
  import opened InterleavingApprovals
  import D = InterleavingDispatch
  import S = Server

  const ME: Id := 7
  const PC: Id := 1
  const WIRE: Socket := 5
  const CMD: Id := 0
  const NEW: Id := 8

  function Asking(tool: Tool): Command {
    Command(CMD, ME, Request(PC, tool, "", "k", 1000), PolicyForTool(tool).risk, InitialStatus(tool), 0, 0)
  }

  /** One executor, online over one socket; nobody's clock has moved. */
  ghost predicate Stage(s: S.State) {
    && s.clock == 0 && s.byDevice == map[PC := WIRE] && s.bySocket == map[WIRE := PC] && s.open == {WIRE}
    && PC in s.devices && s.devices[PC].userId == ME && s.devices[PC].kind == ExecutorDevice
    && s.devices[PC].tools == {FileRead, FileWrite}
  }

  ghost predicate Bare(s: S.State) {
    s.commands == map[] && s.order == [] && s.approvals == map[]
  }

  ghost predicate Holds(s: S.State, c: Command) {
    c.id == CMD && s.commands == map[CMD := c] && s.order == [CMD]
  }

  /** The executor said hello, and the handler has attached it but not yet listed its commands. */
  lemma Greeted() returns (w: World)
    ensures Reachable(w) && Stage(w.s) && Bare(w.s)
    ensures w.tasks == map[0 := Task(Greeting, HelloAttached(PC, ExecutorDevice), [])]
  {
    LeadsSelf(START);
    hide Leads, Decides, Creates, Tries, Reports;
    w := MovesOn(START, START, Register(ME, PC, ExecutorDevice, {FileRead, FileWrite}));
    w := MovesOn(START, w, Connect(WIRE));
    w := MovesOn(START, w, Spawn(0, HelloStart(WIRE, PC, true)));
    assert w.tasks == map[0 := Task(Greeting, HelloStart(WIRE, PC, true), [])];
    w := GoesOn(START, w, 0, CMD);
    assert w.tasks == map[0 := Task(Greeting, HelloKnown(WIRE, PC, Some(w.s.devices[PC])), [])];
    w := GoesOn(START, w, 0, CMD);
  }

  lemma Created(w0: World, tool: Tool) returns (w: World)
    requires Reachable(w0) && Stage(w0.s) && Bare(w0.s) && 1 !in w0.tasks && tool in {FileRead, FileWrite}
    ensures Reachable(w) && Stage(w.s) && Holds(w.s, Asking(tool)) && w.s.approvals == map[]
    ensures w.tasks == w0.tasks[1 := Task(Creating, CreateStored(Asking(tool)), [])]
  {
    hide Leads, Decides, Greets, Tries, Reports;
    w := MovesOn(START, w0, Spawn(1, CreateStart(ME, Asking(tool).request)));
    w := GoesOn(START, w, 1, CMD);
    w := GoesOn(START, w, 1, CMD);
    w := GoesOn(START, w, 1, CMD);
  }

  lemma ListsIt(s: S.State, c: Command)
    requires Stage(s) && Holds(s, c) && S.Dispatchable(c, PC, s.clock)
    ensures Copies(s.commands, S.ListDispatchable(s, PC)) == [c] && NEW !in s.commands
  {
    hide Copies, Filter;
    FilterOne<Id>(CMD, S.Ready(s.commands, PC, s.clock));
    CopiesOne(s.commands, CMD);
  }

  lemma CopiesOne(commands: map<Id, Command>, id: Id)
    requires id in commands
    ensures Copies(commands, [id]) == [commands[id]]
  {
    assert [id][..0] == [];
  }

  /** The hello lists the queued command and keeps its copy. */
  lemma Listed(w0: World) returns (w: World)
    requires Reachable(w0) && Stage(w0.s) && Holds(w0.s, Asking(FileRead))
    requires w0.tasks == map[0 := Task(Greeting, HelloAttached(PC, ExecutorDevice), []),
                             1 := Task(Creating, CreateStored(Asking(FileRead)), [])]
    ensures Reachable(w) && w.s == w0.s && w.tasks == w0.tasks[0 := COPY]
  {
    hide Leads, Moved, Interleaving.Possible, S.ListDispatchable, Copies, Creates, Decides, Tries, Reports;
    ListsIt(w0.s, Asking(FileRead));
    assert [Asking(FileRead)][1..] == [];
    w := GoesOn(START, w0, 0, NEW);
  }

  const COPY := Task(Greeting, Try(Asking(FileRead)), [])
  const AGAIN := Asking(FileRead).(status := Dispatched, updatedAt := 0)

  lemma Records(w0: World) returns (w: World)
    requires Reachable(w0) && Stage(w0.s) && Holds(w0.s, Asking(FileRead))
    requires w0.tasks == map[0 := COPY, 1 := Task(Creating, CreateStored(Asking(FileRead)), [])]
    ensures Reachable(w) && Stage(w.s) && Holds(w.s, Asking(FileRead))
    ensures w.tasks == map[0 := COPY, 1 := Task(Creating, Try(Asking(FileRead)), [])]
  {
    hide Leads, Moved, Interleaving.Possible, Decides, Tries, Greets, Reports;
    w := GoesOn(START, w0, 1, NEW);
  }

  lemma ClaimsIt(w0: World) returns (w: World)
    requires Reachable(w0) && Stage(w0.s) && Holds(w0.s, Asking(FileRead))
    requires w0.tasks == map[0 := COPY, 1 := Task(Creating, Try(Asking(FileRead)), [])]
    ensures Reachable(w) && Stage(w.s) && Holds(w.s, AGAIN)
    ensures w.tasks == map[0 := COPY, 1 := Task(Creating, TrySending(AGAIN), [])]
  {
    hide Leads, Moved, Interleaving.Possible, Decides, Creates, Greets, Reports;
    w := GoesOn(START, w0, 1, NEW);
  }

  lemma SendsIt(w0: World) returns (w: World)
    requires Reachable(w0) && Stage(w0.s) && Holds(w0.s, AGAIN)
    requires w0.tasks == map[0 := COPY, 1 := Task(Creating, TrySending(AGAIN), [])]
    ensures Reachable(w) && Stage(w.s) && Holds(w.s, AGAIN) && w.tasks == map[0 := COPY]
  {
    hide Leads, Moved, Interleaving.Possible, Decides, Creates, Greets, Reports;
    w := GoesOn(START, w0, 1, NEW);
  }

  /** The create sends the command. */
  lemma SentOut(w0: World) returns (w: World)
    requires Reachable(w0) && Stage(w0.s) && Holds(w0.s, Asking(FileRead))
    requires w0.tasks == map[0 := COPY, 1 := Task(Creating, CreateStored(Asking(FileRead)), [])]
    ensures Reachable(w) && Stage(w.s) && Holds(w.s, AGAIN) && w.tasks == map[0 := COPY]
  {
    hide Reachable, Stage, Holds, Asking;
    w := Records(w0);
    w := ClaimsIt(w);
    w := SendsIt(w);
  }

  const DONE := ActionResult(CMD, Succeeded, None, "")

  /** The result comes in. */
  lemma ResultComes(w0: World) returns (w: World)
    requires Reachable(w0) && Stage(w0.s) && Holds(w0.s, AGAIN)
    requires w0.tasks == map[0 := COPY]
    ensures Reachable(w) && w.s == w0.s
    ensures w.tasks == w0.tasks[2 := Task(Other, ResultGot(PC, Some(AGAIN), DONE), [])]
  {
    hide Leads, S.ListDispatchable, Copies, Decides, Greets, Creates, Tries;
    w := MovesOn(START, w0, Spawn(2, ResultStart(WIRE, DONE)));
    assert w == w0.(tasks := w0.tasks[2 := Task(Other, ResultStart(WIRE, DONE), [])]);
    hide Moved, Interleaving.Possible;
    w := GoesOn(START, w, 2, NEW);
  }

  lemma ResultSaves(w0: World) returns (w: World)
    requires Reachable(w0) && Stage(w0.s) && Holds(w0.s, AGAIN)
    requires w0.tasks == map[0 := COPY,
                             2 := Task(Other, ResultGot(PC, Some(AGAIN), DONE), [])]
    ensures Reachable(w) && Stage(w.s) && Holds(w.s, AGAIN)
    ensures w.tasks == w0.tasks[2 := Task(Other, ResultSaved(AGAIN, DONE), [])]
  {
    hide Leads, S.ListDispatchable, Copies, Decides, Greets, Creates, Tries, Moved, Interleaving.Possible;
    w := GoesOn(START, w0, 2, NEW);
  }

  lemma ResultStores(w0: World) returns (w: World)
    requires Reachable(w0) && Stage(w0.s) && Holds(w0.s, AGAIN)
    requires w0.tasks == map[0 := COPY,
                             2 := Task(Other, ResultSaved(AGAIN, DONE), [])]
    ensures Reachable(w) && Stage(w.s) && Holds(w.s, Asking(FileRead).(status := Succeeded))
    ensures Lookup(w.tasks, 0) == Some(COPY)
  {
    hide Leads, S.ListDispatchable, Copies, Decides, Greets, Creates, Tries, Moved, Interleaving.Possible;
    w := GoesOn(START, w0, 2, NEW);
  }

  /** The command has succeeded, and a hello still holds the copy it listed while the command was queued. */
  lemma Finished() returns (w: World)
    ensures Reachable(w) && Stage(w.s) && Holds(w.s, Asking(FileRead).(status := Succeeded))
    ensures Lookup(w.tasks, 0) == Some(COPY)
  {
    hide Reachable, Stage, Holds, Bare, Asking;
    w := Greeted();
    w := Created(w, FileRead);
    w := Listed(w);
    w := SentOut(w);
    w := ResultComes(w);
    w := ResultSaves(w);
    w := ResultStores(w);
  }

  lemma SegmentAgain(s: S.State)
    requires Stage(s) && Holds(s, Asking(FileRead).(status := Succeeded))
    ensures Segment(s, COPY, NEW) == (PutCommand(AGAIN), Some(Task(Greeting, TrySending(AGAIN), [])))
  {
    hide Creates, Decides, Greets, Reports;
  }

  lemma ClaimsAgain(w: World)
    requires Stage(w.s) && Holds(w.s, Asking(FileRead).(status := Succeeded)) && Lookup(w.tasks, 0) == Some(COPY)
    ensures Interleaving.Possible(w, Advance(0, NEW))
    ensures var w' := Moved(w, Advance(0, NEW));
      && Stage(w'.s) && Holds(w'.s, AGAIN) && w'.history == w.history
      && Lookup(w'.tasks, 0) == Some(Task(Greeting, TrySending(AGAIN), []))
  {
    hide Segment, Moved, COPY, AGAIN;
    SegmentAgain(w.s);
    AdvancedIs(w, 0, NEW);
    AgainStored(w.s);
    assert w.history + [] == w.history;
  }

  lemma AgainStored(s: S.State)
    requires Stage(s) && Holds(s, Asking(FileRead).(status := Succeeded))
    ensures Stage(S.Put(s, AGAIN)) && Holds(S.Put(s, AGAIN), AGAIN)
  {
  }

  lemma SendsAgain(w: World)
    requires Stage(w.s) && Holds(w.s, AGAIN) && Lookup(w.tasks, 0) == Some(Task(Greeting, TrySending(AGAIN), []))
    ensures Interleaving.Possible(w, Advance(0, NEW))
    ensures Moved(w, Advance(0, NEW)).history == w.history + [Handed(AGAIN)]
  {
    hide Creates, Decides, Greets, Reports;
  }

  /** At this granularity terminal states do not absorb: a hello that listed the command while it was queued
      stores it as dispatched after it succeeded, and sends it once more. */
  lemma FinishedCommandReopens() returns (w: World, m: Move)
    ensures Reachable(w) && CMD in w.s.commands && w.s.commands[CMD].status == Succeeded
    ensures Interleaving.Possible(w, m) && CMD in Moved(w, m).s.commands
    ensures Moved(w, m).s.commands[CMD].status == Dispatched
    ensures Interleaving.Possible(Moved(w, m), m)
    ensures exists c :: Moved(Moved(w, m), m).history == w.history + [Handed(c)] && c.id == CMD
  {
    hide Reachable, Moved, Interleaving.Possible, Stage;
    w := Finished();
    m := Advance(0, NEW);
    ClaimsAgain(w);
    SendsAgain(Moved(w, m));
  }

  const GUARDED := Asking(FileWrite)
  const OPEN := Approval(CMD, ME, Pending, false, false, None, None, 0)

  function Ruling(approve: bool): Decision {
    Decision(approve, true)
  }

  function Verdicts(approve: bool): Approval {
    OPEN.(decision := if approve then Granted else Denied, biometricVerified := true, decidedAt := Some(0))
  }

  function Outcome(approve: bool): Command {
    GUARDED.(status := if approve then Queued else Cancelled)
  }

  lemma HelloOver(w0: World) returns (w: World)
    requires Reachable(w0) && Stage(w0.s) && Bare(w0.s)
    requires w0.tasks == map[0 := Task(Greeting, HelloAttached(PC, ExecutorDevice), [])]
    ensures Reachable(w) && w.s == w0.s && w.tasks == map[]
  {
    assert S.ListDispatchable(w0.s, PC) == [];
    hide Leads, S.ListDispatchable, Moved, Interleaving.Possible, Reports, Decides, Creates, Tries;
    w := GoesOn(START, w0, 0, CMD);
  }

  lemma Guarded(w0: World) returns (w: World)
    requires Reachable(w0) && Stage(w0.s) && Holds(w0.s, GUARDED)
    requires w0.tasks == map[1 := Task(Creating, CreateStored(GUARDED), [])]
    ensures Reachable(w) && Stage(w.s) && Holds(w.s, GUARDED) && w.s.approvals == w0.s.approvals[CMD := OPEN]
    ensures w.tasks == map[1 := Task(Creating, CreateGuarded(GUARDED), [])]
  {
    hide Leads, Moved, Interleaving.Possible, Reports, Decides, Greets, Tries;
    w := GoesOn(START, w0, 1, NEW);
  }

  /** The hello is over, and the command awaits approval. */
  lemma Awaiting() returns (w: World)
    ensures Reachable(w) && Stage(w.s) && Holds(w.s, GUARDED) && w.s.approvals == map[CMD := OPEN]
    ensures w.tasks == map[]
  {
    hide Leads, S.ListDispatchable, Copies, Moved, Interleaving.Possible, Reports, Decides, Greets;
    w := Greeted();
    w := HelloOver(w);
    w := Created(w, FileWrite);
    w := Guarded(w);
    w := GoesOn(START, w, 1, NEW);
    w := GoesOn(START, w, 1, NEW);
  }

  lemma Asks(w0: World, t: nat, approve: bool) returns (w: World)
    requires Reachable(w0) && t !in w0.tasks
    ensures Reachable(w)
    ensures w == w0.(tasks := w0.tasks[t := Task(Deciding, GetStart(ME, CMD, Some(Ruling(approve))), [])])
  {
    hide Leads;
    w := MovesOn(START, w0, Spawn(t, GetStart(ME, CMD, Some(Ruling(approve)))));
  }

  /** A decision comes in and goes as far as to have read that the approval is still pending. */
  lemma Weighed(w0: World, t: nat, approve: bool) returns (w: World)
    requires Reachable(w0) && Stage(w0.s) && Holds(w0.s, GUARDED) && w0.s.approvals == map[CMD := OPEN]
    requires t !in w0.tasks
    ensures Reachable(w) && w.s == w0.s
    ensures w.tasks == w0.tasks[t := Task(Deciding, DecideWeighed(GUARDED, Some(OPEN), Ruling(approve)), [])]
  {
    hide Leads, S.ListDispatchable, Copies, Greets, Creates, Tries, Reports, Moved, Interleaving.Possible;
    w := Asks(w0, t, approve);
    w := GoesOn(START, w, t, NEW);
    w := GoesOn(START, w, t, NEW);
    w := GoesOn(START, w, t, NEW);
  }

  /** It writes its verdict over whatever verdict is stored. */
  lemma Ruled(w0: World, t: nat, approve: bool) returns (w: World)
    requires Reachable(w0) && Stage(w0.s) && Holds(w0.s, GUARDED)
    requires Lookup(w0.tasks, t) == Some(Task(Deciding, DecideWeighed(GUARDED, Some(OPEN), Ruling(approve)), []))
    ensures Reachable(w) && Stage(w.s) && Holds(w.s, GUARDED)
    ensures w.s.approvals == w0.s.approvals[CMD := Verdicts(approve)]
    ensures w.tasks == w0.tasks[t := Task(Deciding, DecideRuled(Outcome(approve), Ruling(approve)), [])]
  {
    hide Leads, S.ListDispatchable, Copies, Greets, Creates, Tries, Reports, Moved, Interleaving.Possible;
    w := GoesOn(START, w0, t, NEW);
  }

  lemma Writes(w0: World, t: nat, approve: bool, c: Command) returns (w: World)
    requires Reachable(w0) && Stage(w0.s) && Holds(w0.s, c)
    requires Lookup(w0.tasks, t) == Some(Task(Deciding, DecideRuled(Outcome(approve), Ruling(approve)), []))
    ensures Reachable(w) && Stage(w.s) && Holds(w.s, Outcome(approve)) && w.s.approvals == w0.s.approvals
    ensures w.tasks == w0.tasks[t := Task(Deciding, DecideStored(Outcome(approve), Ruling(approve)), [])]
  {
    hide Leads, Greets, Creates, Tries, Reports, Moved, Interleaving.Possible;
    w := GoesOn(START, w0, t, NEW);
  }

  lemma Tells(w0: World, t: nat, approve: bool) returns (w: World)
    requires Reachable(w0) && Stage(w0.s) && Holds(w0.s, Outcome(approve))
    requires Lookup(w0.tasks, t) == Some(Task(Deciding, DecideStored(Outcome(approve), Ruling(approve)), []))
    ensures Reachable(w) && Stage(w.s) && Holds(w.s, Outcome(approve)) && w.s.approvals == w0.s.approvals
    ensures w.tasks == w0.tasks[t := Task(Deciding, Try(Outcome(approve)), [])]
  {
    hide Leads, Greets, Creates, Tries, Reports, Moved, Interleaving.Possible;
    w := GoesOn(START, w0, t, NEW);
  }

  /** It writes the command over whatever is stored, and goes on to dispatch it. */
  lemma Released(w0: World, t: nat, approve: bool, c: Command) returns (w: World)
    requires Reachable(w0) && Stage(w0.s) && Holds(w0.s, c)
    requires Lookup(w0.tasks, t) == Some(Task(Deciding, DecideRuled(Outcome(approve), Ruling(approve)), []))
    ensures Reachable(w) && Stage(w.s) && Holds(w.s, Outcome(approve)) && w.s.approvals == w0.s.approvals
    ensures w.tasks == w0.tasks[t := Task(Deciding, Try(Outcome(approve)), [])]
  {
    hide Reachable, Stage, Holds, Outcome;
    w := Writes(w0, t, approve, c);
    w := Tells(w, t, approve);
  }

  /** Dispatching finds the approval denied, and leaves the command as it is. */
  lemma LeftBehind(w0: World) returns (w: World)
    requires Reachable(w0) && Stage(w0.s) && Holds(w0.s, Outcome(true)) && w0.s.approvals == map[CMD := Verdicts(false)]
    requires w0.tasks == map[3 := Task(Deciding, Try(Outcome(true)), []), 4 := Task(Deciding, Try(Outcome(false)), [])]
    ensures Reachable(w) && w.s == w0.s && w.tasks == map[]
  {
    hide Leads, S.ListDispatchable, Copies, Greets, Creates, Decides, Reports, Moved, Interleaving.Possible;
    w := GoesOn(START, w0, 4, NEW);
    assert w.tasks == map[3 := Task(Deciding, Try(Outcome(true)), [])];
    w := DispatchReads(w);
    w := DispatchGivesUp(w);
  }

  lemma DispatchReads(w0: World) returns (w: World)
    requires Reachable(w0) && Stage(w0.s) && Holds(w0.s, Outcome(true)) && w0.s.approvals == map[CMD := Verdicts(false)]
    requires w0.tasks == map[3 := Task(Deciding, Try(Outcome(true)), [])]
    ensures Reachable(w) && w.s == w0.s
    ensures w.tasks == map[3 := Task(Deciding, TryCleared(Outcome(true), Some(Verdicts(false))), [])]
  {
    hide Leads, Greets, Creates, Decides, Reports, Moved, Interleaving.Possible;
    w := GoesOn(START, w0, 3, NEW);
  }

  lemma DispatchGivesUp(w0: World) returns (w: World)
    requires Reachable(w0) && NEW !in w0.s.commands
    requires w0.tasks == map[3 := Task(Deciding, TryCleared(Outcome(true), Some(Verdicts(false))), [])]
    ensures Reachable(w) && w.s == w0.s && w.tasks == map[]
  {
    hide Leads, Greets, Creates, Decides, Reports, Moved, Interleaving.Possible;
    w := GoesOn(START, w0, 3, NEW);
  }

  /** Queued and unexpired, its approval denied, the device online, and nothing in flight. */
  ghost predicate Stranded(w: World, id: Id) {
    && w.tasks == map[] && id in w.s.commands && id in w.s.approvals
    && w.s.commands[id].status == Queued && w.s.approvals[id].decision == Denied
    && w.s.commands[id].request.expiresAt > w.s.clock
    && S.Link(w.s, w.s.commands[id].request.targetDeviceId).Some?
  }

  lemma StrandedIs(w: World)
    requires Stage(w.s) && Holds(w.s, Outcome(true)) && w.s.approvals == map[CMD := Verdicts(false)] && w.tasks == map[]
    ensures Stranded(w, CMD)
  {
  }

  /** An approval and a denial given at the same time: both have written their verdicts. */
  lemma BothRule() returns (w: World)
    ensures Reachable(w) && Stage(w.s) && Holds(w.s, GUARDED) && w.s.approvals == map[CMD := Verdicts(false)]
    ensures w.tasks == map[3 := Task(Deciding, DecideRuled(Outcome(true), Ruling(true)), []),
                           4 := Task(Deciding, DecideRuled(Outcome(false), Ruling(false)), [])]
  {
    hide Reachable, Stage, Holds, Asking, Verdicts;
    w := Awaiting();
    w := Weighed(w, 3, true);
    w := Weighed(w, 4, false);
    w := Ruled(w, 3, true);
    w := Ruled(w, 4, false);
  }

  /** The denial is written to the command first, the approval last. */
  lemma BothDecide() returns (w: World)
    ensures Reachable(w) && Stranded(w, CMD)
  {
    hide Reachable, Stage, Holds, Stranded, Asking, Verdicts;
    w := BothRule();
    w := Released(w, 4, false, GUARDED);
    w := Released(w, 3, true, Outcome(false));
    w := LeftBehind(w);
    StrandedIs(w);
  }

  /** No lost dispatch fails for tools that need approval: an approval and a denial given at the same time can
      leave the command queued, its approval denied, with nothing in flight and the device online; and in no
      continuation is it ever handed out. */
  lemma ApprovedCommandLost() returns (w: World)
    ensures Reachable(w) && Stranded(w, CMD)
    ensures forall w' :: Leads(w, w') ==>
      CMD in w'.s.commands && w'.s.commands[CMD].status in {Queued, Expired} && Unsent(w.history, w'.history, CMD)
  {
    hide Reachable, Leads, Unsent, S.Link;
    w := BothDecide();
    forall w' | Leads(w, w')
      ensures CMD in w'.s.commands && w'.s.commands[CMD].status in {Queued, Expired}
      ensures Unsent(w.history, w'.history, CMD)
    {
      D.LeftBehindForGood(w, CMD, w');
    }
  }
}
