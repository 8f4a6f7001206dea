/** The local executor: the connection it keeps to the server, the commands it is running and its
    replay cache. `Machine` is its state as a value; `LocalExecutor` is the object that changes. */
module Executor {
  import opened Wrappers
  import opened Protocol
  import opened ReplayCache

  datatype ConnectionState = Idle | Connecting | Authenticating | Connected | Disconnected | Faulty

  datatype ClientMessage =
    | Hello(deviceId: Id)
    | Result(result: ActionResult)

  datatype ServerMessage =
    | Accepted
    | ErrorMessage
    | Dispatch(command: Command)
    | Other

  datatype Outcome = Done(output: string) | Threw(error: string)

  /** A command being executed for the connection it came in on. */
  datatype Job = Job(socket: Socket, command: Command)

  /** `log` is the history of all results ever cached; nothing reads it. */
  datatype Machine = Machine(
    storage: Stored,
    state: ConnectionState,
    current: Option<Socket>,   // the connection that would be stopped by the next start
    live: set<Socket>,         // the connections that have not been stopped
    jobs: seq<Job>,
    outbox: seq<(Socket, ClientMessage)>,
    log: seq<ActionResult>)

  ghost predicate Sound(m: Machine) {
    && m.live == (if m.current.Some? then {m.current.value} else {})
    && CachedResults(m.storage) == After(m.log)
  }

  function Stop(m: Machine, socket: Socket): Machine {
    if socket !in m.live then m
    else m.(live := m.live - {socket}, current := if m.current == Some(socket) then None else m.current)
  }

  /** Starting stops the connection before it; `opens` says whether the new socket could be made. */
  function Start(m: Machine, socket: Socket, opens: bool): Machine {
    var m' := if m.current.Some? then Stop(m, m.current.value) else m;
    if opens then m'.(state := Connecting, current := Some(socket), live := m'.live + {socket})
    else m'.(state := Faulty)
  }

  function Opened(m: Machine, socket: Socket, deviceId: Id): Machine {
    if socket !in m.live then m
    else m.(state := Authenticating, outbox := m.outbox + [(socket, Hello(deviceId))])
  }

  function RunningResult(command: Command): ActionResult {
    ActionResult(command.id, Running, None, "")
  }

  function OutcomeResult(command: Command, outcome: Outcome): ActionResult {
    match outcome
    case Done(output) => ActionResult(command.id, Succeeded, None, output)
    case Threw(error) => ActionResult(command.id, Failed, Some(error), "")
  }

  /** A message from the server. A dispatched command with a cached result is answered from the cache;
      any other is reported as running and begins to execute. */
  function Received(m: Machine, socket: Socket, message: ServerMessage): Machine {
    if socket !in m.live then m
    else match message
      case Accepted => m.(state := Connected)
      case ErrorMessage => m.(state := Faulty)
      case Other => m
      case Dispatch(command) =>
        var previous := Find(CachedResults(m.storage), command.id);
        if previous.Some? then m.(outbox := m.outbox + [(socket, Result(previous.value))])
        else m.(outbox := m.outbox + [(socket, Result(RunningResult(command)))],
                jobs := m.jobs + [Job(socket, command)])
  }

  /** A job ends: its result is cached, then sent on the connection the command came in on. */
  function Completed(m: Machine, k: nat, outcome: Outcome): Machine
    requires k < |m.jobs|
  {
    var result := OutcomeResult(m.jobs[k].command, outcome);
    m.(storage := CacheResult(m.storage, result), log := m.log + [result],
       outbox := m.outbox + [(m.jobs[k].socket, Result(result))],
       jobs := m.jobs[..k] + m.jobs[k + 1..])
  }

  function Closed(m: Machine, socket: Socket): Machine {
    if socket in m.live && m.state != Faulty then m.(state := Disconnected) else m
  }

  /** Whether receiving this message starts an execution. */
  predicate Executes(m: Machine, socket: Socket, message: ServerMessage) {
    socket in m.live && message.Dispatch? && !Has(CachedResults(m.storage), message.command.id)
  }

  // ---------------------------------------------------------------- properties

  /** At most one connection is live, whatever the sockets do. */
  lemma StepsSound(m: Machine, socket: Socket, opens: bool, deviceId: Id, message: ServerMessage)
    requires Sound(m)
    ensures Sound(Stop(m, socket)) && Sound(Start(m, socket, opens)) && Sound(Opened(m, socket, deviceId))
    ensures Sound(Received(m, socket, message)) && Sound(Closed(m, socket))
  {
    hide After, Find, Has;
  }

  lemma FindIsHas(entries: Entries, message: ServerMessage)
    ensures message.Dispatch? ==> (Find(entries, message.command.id).Some? <==> Has(entries, message.command.id))
  {
  }

  /** A message begins what it executes, and ends nothing. */
  lemma ReceivedBegins(m: Machine, socket: Socket, message: ServerMessage)
    ensures var m' := Received(m, socket, message);
      && m'.jobs == m.jobs + (if Executes(m, socket, message) then [Job(socket, message.command)] else [])
      && m'.log == m.log
  {
    FindIsHas(CachedResults(m.storage), message);
    hide Find, Has;
  }

  /** The cache stays what the log of results makes it. */
  lemma CompletedSound(m: Machine, k: nat, outcome: Outcome)
    requires Sound(m) && k < |m.jobs|
    ensures Sound(Completed(m, k, outcome))
  {
    var result := OutcomeResult(m.jobs[k].command, outcome);
    assert (m.log + [result])[..|m.log|] == m.log;
    assert After(m.log + [result]) == LastEntries(Assign(After(m.log), result));
    hide After, LastEntries, Assign, OutcomeResult;
  }

  /** The result tells how the execution of the command ended. */
  predicate Tells(result: ActionResult, command: Command, outcome: Outcome) {
    && result.commandId == command.id
    && match outcome
       case Done(output) => result.status == Succeeded && result.error == None && result.body == output
       case Threw(error) => result.status == Failed && result.error == Some(error) && result.body == ""
  }

  /** The end of a job is told truthfully: one result is logged, it is the one found in the cache from then on, and it
      goes out over the connection the command came in on; the other jobs go on. */
  lemma CompletedTells(m: Machine, k: nat, outcome: Outcome)
    requires Sound(m) && k < |m.jobs|
    ensures var (m', job) := (Completed(m, k, outcome), m.jobs[k]);
      && |m'.log| == |m.log| + 1 && m'.log[..|m.log|] == m.log
      && Tells(m'.log[|m.log|], job.command, outcome)
      && Find(CachedResults(m'.storage), job.command.id) == Some(m'.log[|m.log|])
      && m'.outbox == m.outbox + [(job.socket, Result(m'.log[|m.log|]))]
      && m'.jobs == m.jobs[..k] + m.jobs[k + 1..]
      && (m'.state, m'.current, m'.live) == (m.state, m.current, m.live)
  {
    CompletedSound(m, k, outcome);
    JustCached(m.log, OutcomeResult(m.jobs[k].command, outcome));
    hide After, Find, CacheResult;
  }

  /** Whatever was said about a command over any connection: that it is running, and then it had begun, or a result
      from the log. */
  ghost predicate Truthful(m: Machine, begun: set<Id>) {
    forall i :: 0 <= i < |m.outbox| ==> Said(m.log, begun, m.outbox[i].1)
  }

  ghost predicate Said(log: seq<ActionResult>, begun: set<Id>, message: ClientMessage) {
    message.Result? ==>
      message.result in log
      || (message.result.commandId in begun
          && message.result == ActionResult(message.result.commandId, Running, None, ""))
  }

  lemma StepsTruthful(m: Machine, begun: set<Id>, socket: Socket, opens: bool, deviceId: Id)
    requires Truthful(m, begun)
    ensures Truthful(Stop(m, socket), begun) && Truthful(Start(m, socket, opens), begun)
    ensures Truthful(Opened(m, socket, deviceId), begun) && Truthful(Closed(m, socket), begun)
  {
  }

  lemma ReceivedTruthful(m: Machine, begun: set<Id>, socket: Socket, message: ServerMessage)
    requires Sound(m) && Truthful(m, begun)
    ensures Truthful(Received(m, socket, message),
                     begun + if Executes(m, socket, message) then {message.command.id} else {})
  {
    if socket in m.live && message.Dispatch? {
      var id := message.command.id;
      CacheAnswers(m.log, id);
      LastIsLogged(m.log, id);
      hide After, Find, Has, Age, LastResult, DistinctIds;
      if Executes(m, socket, message) {
        assert ActionResult(id, Running, None, "").commandId == id;
      }
    }
  }

  lemma CompletedTruthful(m: Machine, begun: set<Id>, k: nat, outcome: Outcome)
    requires Truthful(m, begun) && k < |m.jobs|
    ensures Truthful(Completed(m, k, outcome), begun)
  {
    hide CacheResult, OutcomeResult;
    var m' := Completed(m, k, outcome);
    forall i | 0 <= i < |m'.outbox|
      ensures Said(m'.log, begun, m'.outbox[i].1)
    {
      if i < |m.outbox| {
        assert Said(m.log, begun, m.outbox[i].1);
      }
    }
  }

  /** Starting leaves no other connection live, and shows whether a new one is under way. */
  lemma StartShows(m: Machine, socket: Socket, opens: bool)
    requires Sound(m)
    ensures var m' := Start(m, socket, opens);
      && m'.live == (if opens then {socket} else {}) && m'.current == (if opens then Some(socket) else None)
      && m' == m.(state := if opens then Connecting else Faulty, live := m'.live, current := m'.current)
  {
    hide After;
  }

  /** What a connection shows while it has not been stopped; one that has been stopped changes nothing any more. */
  lemma ConnectionShows(m: Machine, socket: Socket, deviceId: Id, message: ServerMessage)
    ensures socket !in m.live ==>
      Opened(m, socket, deviceId) == m && Received(m, socket, message) == m && Closed(m, socket) == m
    ensures socket in m.live ==>
      && Opened(m, socket, deviceId).state == Authenticating
      && Opened(m, socket, deviceId).outbox == m.outbox + [(socket, Hello(deviceId))]
      && Received(m, socket, message).state
         == (if message.Accepted? then Connected else if message.ErrorMessage? then Faulty else m.state)
      && Closed(m, socket) == m.(state := if m.state == Faulty then Faulty else Disconnected)
    ensures message.Other? || message.Accepted? || message.ErrorMessage? ==>
      Received(m, socket, message) == m.(state := Received(m, socket, message).state)
  {
  }

  /** Duplicate dispatch: while fewer than 500 other results have displaced it, a repeated command is
      answered with its last result and not executed; otherwise it is reported as running, and executes. */
  lemma ReplayOrExecute(m: Machine, socket: Socket, command: Command)
    requires Sound(m) && socket in m.live
    ensures var m' := Received(m, socket, Dispatch(command));
      var age := Age(m.log, command.id);
      if age.Some? && age.value < 500
      then && !Executes(m, socket, Dispatch(command)) && m'.jobs == m.jobs
           && LastResult(m.log, command.id).Some?
           && m'.outbox == m.outbox + [(socket, Result(LastResult(m.log, command.id).value))]
      else && Executes(m, socket, Dispatch(command)) && m'.jobs == m.jobs + [Job(socket, command)]
           && m'.outbox == m.outbox + [(socket, Result(ActionResult(command.id, Running, None, "")))]
  {
    CacheAnswers(m.log, command.id);
    hide After, Age, LastResult, Find, DistinctIds;
  }

  /** A result stays replayable until 500 results of commands not cached at the time have followed it. */
  lemma {:induction false} AgeBound(log: seq<ActionResult>, later: seq<ActionResult>, id: Id)
    requires Age(log, id).Some?
    ensures Age(log + later, id).Some? && Age(log + later, id).value <= Age(log, id).value + |later|
  {
    if later != [] {
      var front := later[..|later| - 1];
      assert (log + later)[..|log + later| - 1] == log + front;
      AgeBound(log, front, id);
    } else {
      assert log + later == log;
    }
  }

  // ---------------------------------------------------------------- the executor object

  class LocalExecutor {
    var storage: Stored
    var state: ConnectionState
    var stopActive: Option<Socket>
    var unstopped: set<Socket>
    var jobs: seq<Job>
    var outbox: seq<(Socket, ClientMessage)>
    ghost var log: seq<ActionResult>

    ghost function Model(): Machine
      reads this
    {
      Machine(storage, state, stopActive, unstopped, jobs, outbox, log)
    }

    ghost predicate Valid()
      reads this
    {
      Sound(Model())
    }

    /** The storage may hold what earlier sessions cached, which `log` remembers. */
    constructor (storage: Stored, ghost log: seq<ActionResult>)
      requires CachedResults(storage) == After(log)
      ensures Valid() && this.storage == storage && this.log == log
      ensures state == Idle && jobs == [] && outbox == [] && unstopped == {}
    {
      this.storage, state, stopActive, unstopped := storage, Idle, None, {};
      this.log, jobs, outbox := log, [], [];
    }

    method StopConnection(socket: Socket)
      requires Valid()
      modifies this
      ensures Valid() && Model() == Stop(old(Model()), socket)
    {
      StepsSound(Model(), socket, false, 0, Other);
      if socket in unstopped {
        unstopped := unstopped - {socket};
        if stopActive == Some(socket) {
          stopActive := None;
        }
      }
    }

    method StartLocalExecutor(socket: Socket, opens: bool)
      requires Valid()
      modifies this
      ensures Valid() && Model() == Start(old(Model()), socket, opens)
      ensures unstopped == (if opens then {socket} else {})
      ensures state == if opens then Connecting else Faulty
    {
      StepsSound(Model(), socket, opens, 0, Other);
      if stopActive.Some? {
        StopConnection(stopActive.value);
      }
      state := Connecting;
      if !opens {
        state := Faulty;
        return;
      }
      unstopped := unstopped + {socket};
      stopActive := Some(socket);
    }

    method OnMessage(socket: Socket, message: ServerMessage) returns (executes: bool)
      requires Valid()
      modifies this
      ensures Valid() && Model() == Received(old(Model()), socket, message)
      ensures executes == old(Executes(Model(), socket, message))
    {
      StepsSound(Model(), socket, false, 0, message);
      hide Sound, Find, Has;
      FindIsHas(CachedResults(storage), message);
      executes := false;
      if socket !in unstopped {
        return;
      }
      if message.Accepted? {
        state := Connected;
        return;
      }
      if message.ErrorMessage? {
        state := Faulty;
        return;
      }
      if !message.Dispatch? {
        return;
      }
      var previous := Find(CachedResults(storage), message.command.id);
      if previous.Some? {
        outbox := outbox + [(socket, Result(previous.value))];
        return;
      }
      executes := true;
      outbox := outbox + [(socket, Result(RunningResult(message.command)))];
      jobs := jobs + [Job(socket, message.command)];
    }

    method OnCompleted(k: nat, outcome: Outcome)
      requires Valid() && k < |jobs|
      modifies this
      ensures Valid() && Model() == Completed(old(Model()), k, outcome)
      ensures |log| == |old(log)| + 1 && log[..|old(log)|] == old(log)
      ensures Tells(log[|old(log)|], old(jobs)[k].command, outcome)
      ensures Find(CachedResults(storage), old(jobs)[k].command.id) == Some(log[|old(log)|])
      ensures outbox == old(outbox) + [(old(jobs)[k].socket, Result(log[|old(log)|]))]
    {
      CompletedSound(Model(), k, outcome);
      CompletedTells(Model(), k, outcome);
      CacheAnswers(log, 0);
      assert CachedResults(storage) == After(log);
      hide Sound, DistinctIds, LastEntries, After, Age, LastResult, Find, Assign, CacheResult, OutcomeResult, Tells;
      var job := jobs[k];
      var result := OutcomeResult(job.command, outcome);
      WriteCache(result);
      outbox := outbox + [(job.socket, Result(result))];
      jobs := jobs[..k] + jobs[k + 1..];
    }

    /** Reads the cache, assigns the entry by scanning for its key, and stores the last 500 entries. */
    method WriteCache(result: ActionResult)
      requires DistinctIds(CachedResults(storage))
      modifies this`storage, this`log
      ensures storage == CacheResult(old(storage), result) && log == old(log) + [result]
    {
      var cache := CachedResults(storage);
      var i := 0;
      while i < |cache| && cache[i].commandId != result.commandId
        invariant i <= |cache|
        invariant forall k :: 0 <= k < i ==> cache[k].commandId != result.commandId
      {
        i := i + 1;
      }
      if i < |cache| {
        AssignPresent(cache, result);
        assert cache[i := result] == Assign(cache, result);
        cache := cache[i := result];
      } else {
        AssignAbsent(cache, result);
        cache := cache + [result];
      }
      storage := Saved(LastEntries(cache));
      log := log + [result];
    }
  }
}
