/** What the machines say over whole runs: every result tells truthfully how an execution of its command ended, and
    every execution is still going on or has ended once. */
module EndToEndResults {
  import opened Wrappers
  import opened Protocol
  import opened Server
  import opened EndToEnd
  import X = Executor

  /** A job that ended, and how. */
  datatype Ended = Ended(command: Command, outcome: X.Outcome)

  function LogOf(y: System, machine: MachineId): seq<ActionResult> {
    if machine in y.machines then y.machines[machine].log else []
  }

  function Commands(jobs: seq<X.Job>): seq<Command> {
    seq(|jobs|, i requires 0 <= i < |jobs| => jobs[i].command)
  }

  function JobsOf(y: System, machine: MachineId): multiset<Command> {
    if machine in y.machines then multiset(Commands(y.machines[machine].jobs)) else multiset{}
  }

  /** What ends on the machine with this event. */
  ghost function EndOf(y: System, e: Event, machine: MachineId): seq<Ended>
    requires CanHappen(y, e)
  {
    if e.Finish? && e.machine == machine then [Ended(y.machines[machine].jobs[e.job].command, e.outcome)] else []
  }

  /** What ends on the machine over a run, in order. */
  ghost function Ends(y: System, events: seq<Event>, machine: MachineId): seq<Ended>
    decreases |events|
  {
    if events == [] || !CanHappen(y, events[0]) then []
    else EndOf(y, events[0], machine) + Ends(Happen(y, events[0]), events[1..], machine)
  }

  function EndedCommands(ends: seq<Ended>): multiset<Command> {
    multiset(seq(|ends|, i requires 0 <= i < |ends| => ends[i].command))
  }

  function BegunBy(executions: seq<Execution>, machine: MachineId): multiset<Command> {
    if executions == [] then multiset{}
    else
      var last := executions[|executions| - 1];
      BegunBy(executions[..|executions| - 1], machine)
      + if last.machine == machine then multiset{last.command} else multiset{}
  }

  function BegunIds(executions: seq<Execution>, machine: MachineId): set<Id> {
    set n | 0 <= n < |executions| && executions[n].machine == machine :: executions[n].command.id
  }

  /** The results, one for each end and in the same order, tell how the jobs ended. */
  ghost predicate AllTold(results: seq<ActionResult>, ends: seq<Ended>) {
    |results| == |ends|
    && forall k :: 0 <= k < |ends| ==> X.Tells(results[k], ends[k].command, ends[k].outcome)
  }

  // ---------------------------------------------------------------- one event

  lemma EventTold(y: System, e: Event, machine: MachineId)
    requires Good(y) && CanHappen(y, e)
    ensures LogOf(y, machine) <= LogOf(Happen(y, e), machine)
    ensures AllTold(LogOf(Happen(y, e), machine)[|LogOf(y, machine)|..], EndOf(y, e, machine))
  {
    hide Good, Apply, Carry, Channel, Possible, X.Sound, X.Completed, X.Tells, X.Received;
    GoodMachines(y);
    if e.Deliver? {
      X.ReceivedBegins(y.machines[y.host[e.socket]], e.socket, MessageOf(y.server.sent[Channel(y, e.socket)[0]]));
    }
    if e.Finish? {
      X.CompletedTells(y.machines[e.machine], e.job, e.outcome);
    }
  }

  lemma JobRemoved(jobs: seq<X.Job>, k: nat)
    requires k < |jobs|
    ensures multiset(Commands(jobs)) == multiset(Commands(jobs[..k] + jobs[k + 1..])) + multiset{jobs[k].command}
  {
    var all := Commands(jobs);
    assert Commands(jobs[..k] + jobs[k + 1..]) == all[..k] + all[k + 1..];
    assert all == all[..k] + [all[k]] + all[k + 1..];
  }

  lemma JobAdded(jobs: seq<X.Job>, job: X.Job)
    ensures multiset(Commands(jobs + [job])) == multiset(Commands(jobs)) + multiset{job.command}
  {
    assert Commands(jobs + [job]) == Commands(jobs) + [job.command];
  }

  lemma BegunMore(executions: seq<Execution>, x: Execution, machine: MachineId)
    ensures BegunBy(executions + [x], machine)
         == BegunBy(executions, machine) + if x.machine == machine then multiset{x.command} else multiset{}
  {
    assert (executions + [x])[..|executions|] == executions;
  }

  lemma DeliverConserves(y: System, socket: Socket, machine: MachineId)
    requires CanHappen(y, Deliver(socket))
    ensures BegunBy(Happen(y, Deliver(socket)).executions, machine) + JobsOf(y, machine)
         == BegunBy(y.executions, machine) + JobsOf(Happen(y, Deliver(socket)), machine)
  {
    hide X.Received, Commands;
    var host, k := y.host[socket], Channel(y, socket)[0];
    var message := MessageOf(y.server.sent[k]);
    var jobs := y.machines[host].jobs;
    X.ReceivedBegins(y.machines[host], socket, message);
    if X.Executes(y.machines[host], socket, message) {
      BegunMore(y.executions, Execution(host, message.command, k), machine);
      JobAdded(jobs, X.Job(socket, message.command));
    } else {
      assert jobs + [] == jobs;
    }
  }

  lemma FinishConserves(y: System, machine: MachineId, k: nat, outcome: X.Outcome)
    requires CanHappen(y, Finish(machine, k, outcome))
    ensures var (y', command) := (Happen(y, Finish(machine, k, outcome)), y.machines[machine].jobs[k].command);
      && y'.executions == y.executions && JobsOf(y, machine) == JobsOf(y', machine) + multiset{command}
      && forall m :: m != machine ==> JobsOf(y', m) == JobsOf(y, m)
  {
    hide Commands;
    JobRemoved(y.machines[machine].jobs, k);
  }

  lemma ElseConserves(y: System, e: Event, machine: MachineId)
    requires CanHappen(y, e) && !e.Deliver? && !e.Finish?
    ensures Happen(y, e).executions == y.executions && JobsOf(Happen(y, e), machine) == JobsOf(y, machine)
  {
    hide Apply, Carry, Possible;
  }

  lemma NoneEnded()
    ensures EndedCommands([]) == multiset{}
  {
  }

  lemma OneEnded(ended: Ended)
    ensures EndedCommands([ended]) == multiset{ended.command}
  {
    assert seq(1, i requires 0 <= i < 1 => [ended][i].command) == [ended.command];
  }

  /** What begins is added to the jobs, what ends is taken from them. */
  lemma EventConserves(y: System, e: Event, machine: MachineId)
    requires CanHappen(y, e)
    ensures BegunBy(Happen(y, e).executions, machine) + JobsOf(y, machine)
         == BegunBy(y.executions, machine) + JobsOf(Happen(y, e), machine) + EndedCommands(EndOf(y, e, machine))
  {
    hide Happen, CanHappen, JobsOf, BegunBy, EndedCommands;
    NoneEnded();
    if e.Deliver? {
      DeliverConserves(y, e.socket, machine);
    } else if e.Finish? {
      FinishConserves(y, e.machine, e.job, e.outcome);
      EndIs(y, e, machine);
    } else {
      ElseConserves(y, e, machine);
    }
  }

  lemma EndIs(y: System, e: Event, machine: MachineId)
    requires CanHappen(y, e) && e.Finish?
    ensures e.machine in y.machines && e.job < |y.machines[e.machine].jobs|
    ensures EndedCommands(EndOf(y, e, machine))
         == if e.machine == machine then multiset{y.machines[machine].jobs[e.job].command} else multiset{}
  {
    hide EndedCommands;
    NoneEnded();
    OneEnded(Ended(y.machines[e.machine].jobs[e.job].command, e.outcome));
  }

  lemma IdsBegun(executions: seq<Execution>, x: Execution, machine: MachineId)
    ensures BegunIds(executions + [x], machine)
         == BegunIds(executions, machine) + if x.machine == machine then {x.command.id} else {}
  {
    var more := executions + [x];
    assert more[|executions|] == x;
    forall n | 0 <= n < |executions| && executions[n].machine == machine
      ensures executions[n].command.id in BegunIds(more, machine)
    {
      assert more[n] == executions[n];
    }
  }

  lemma DeliverTruthful(y: System, socket: Socket, machine: MachineId)
    requires Good(y) && CanHappen(y, Deliver(socket))
    requires machine in y.machines ==> X.Truthful(y.machines[machine], BegunIds(y.executions, machine))
    ensures var y' := Happen(y, Deliver(socket));
      machine in y'.machines ==> X.Truthful(y'.machines[machine], BegunIds(y'.executions, machine))
  {
    hide Good, X.Sound, X.Received, X.Truthful, BegunIds;
    GoodMachines(y);
    var host, k := y.host[socket], Channel(y, socket)[0];
    var message := MessageOf(y.server.sent[k]);
    if host == machine {
      X.ReceivedTruthful(y.machines[host], BegunIds(y.executions, host), socket, message);
    }
    assert BegunIds(y.executions, machine) + {} == BegunIds(y.executions, machine);
    if X.Executes(y.machines[host], socket, message) {
      IdsBegun(y.executions, Execution(host, message.command, k), machine);
    }
  }

  lemma EventTruthful(y: System, e: Event, machine: MachineId)
    requires Good(y) && CanHappen(y, e)
    requires machine in y.machines ==> X.Truthful(y.machines[machine], BegunIds(y.executions, machine))
    ensures var y' := Happen(y, e);
      machine in y'.machines ==> X.Truthful(y'.machines[machine], BegunIds(y'.executions, machine))
  {
    hide Good, Apply, Carry, Possible, X.Start, X.Completed, BegunIds;
    match e
    case Deliver(socket) => DeliverTruthful(y, socket, machine);
    case Launch(m, socket) =>
      if m == machine {
        X.StepsTruthful(y.machines[m], BegunIds(y.executions, m), socket, true, 0);
      }
    case Finish(m, job, outcome) =>
      if m == machine {
        X.CompletedTruthful(y.machines[m], BegunIds(y.executions, m), job, outcome);
      }
    case _ =>
  }

  // ---------------------------------------------------------------- whole runs

  lemma {:induction false} RunTold(y: System, events: seq<Event>, y': System, machine: MachineId)
    requires Good(y) && Runs(y, events, y')
    ensures LogOf(y, machine) <= LogOf(y', machine)
    ensures AllTold(LogOf(y', machine)[|LogOf(y, machine)|..], Ends(y, events, machine))
    decreases |events|
  {
    hide Good, CanHappen, Happen, EndOf, LogOf, X.Tells;
    if events != [] {
      var y1 := Happen(y, events[0]);
      EventGood(y, events[0]);
      EventTold(y, events[0], machine);
      RunTold(y1, events[1..], y', machine);
      var a, b, c := LogOf(y, machine), LogOf(y1, machine), LogOf(y', machine);
      assert c[|a|..] == b[|a|..] + c[|b|..];
    }
  }

  lemma EndedTogether(some: seq<Ended>, more: seq<Ended>)
    ensures EndedCommands(some + more) == EndedCommands(some) + EndedCommands(more)
  {
    var all := some + more;
    assert seq(|all|, i requires 0 <= i < |all| => all[i].command)
        == seq(|some|, i requires 0 <= i < |some| => some[i].command)
           + seq(|more|, i requires 0 <= i < |more| => more[i].command);
  }

  lemma Cancel<T>(b: multiset<T>, b1: multiset<T>, b2: multiset<T>, j: multiset<T>, j1: multiset<T>, j2: multiset<T>,
                  e1: multiset<T>, e2: multiset<T>)
    requires b1 + j == b + j1 + e1 && b2 + j1 == b1 + j2 + e2
    ensures b2 + j == b + j2 + (e1 + e2)
  {
    forall x: T
      ensures (b2 + j)[x] == (b + j2 + (e1 + e2))[x]
    {
      assert (b1 + j)[x] == (b + j1 + e1)[x] && (b2 + j1)[x] == (b1 + j2 + e2)[x];
    }
  }

  lemma {:induction false} RunConserves(y: System, events: seq<Event>, y': System, machine: MachineId)
    requires Runs(y, events, y')
    ensures BegunBy(y'.executions, machine) + JobsOf(y, machine)
         == BegunBy(y.executions, machine) + JobsOf(y', machine) + EndedCommands(Ends(y, events, machine))
    decreases |events|
  {
    hide CanHappen, Happen, EndOf, BegunBy, JobsOf, EndedCommands;
    NoneEnded();
    if events == [] {
      assert Ends(y, events, machine) == [];
    } else {
      var y1 := Happen(y, events[0]);
      EventConserves(y, events[0], machine);
      RunConserves(y1, events[1..], y', machine);
      EndedTogether(EndOf(y, events[0], machine), Ends(y1, events[1..], machine));
      Cancel(BegunBy(y.executions, machine), BegunBy(y1.executions, machine), BegunBy(y'.executions, machine),
             JobsOf(y, machine), JobsOf(y1, machine), JobsOf(y', machine),
             EndedCommands(EndOf(y, events[0], machine)), EndedCommands(Ends(y1, events[1..], machine)));
    }
  }

  lemma {:induction false} RunTruthful(y: System, events: seq<Event>, y': System, machine: MachineId)
    requires Good(y) && Runs(y, events, y')
    requires machine in y.machines ==> X.Truthful(y.machines[machine], BegunIds(y.executions, machine))
    ensures machine in y'.machines ==> X.Truthful(y'.machines[machine], BegunIds(y'.executions, machine))
    decreases |events|
  {
    hide Good, CanHappen, Happen, X.Truthful, BegunIds;
    if events != [] {
      EventGood(y, events[0]);
      EventTruthful(y, events[0], machine);
      RunTruthful(Happen(y, events[0]), events[1..], y', machine);
    }
  }

  lemma AtStart(machine: MachineId)
    ensures LogOf(START, machine) == [] && machine !in START.machines
    ensures BegunBy(START.executions, machine) == multiset{} && JobsOf(START, machine) == multiset{}
  {
  }

  /** Every execution a machine began is still going on or has ended, as often as it was begun; for each that ended
      exactly one result was logged, in the order of the ends, which tells how it ended. Whatever the machine ever said
      of a command is such a result, or that it is running, after it had begun. */
  lemma ResultsAreTrue(events: seq<Event>, y: System, machine: MachineId)
    requires Runs(START, events, y) && machine in y.machines
    ensures var (m, ends) := (y.machines[machine], Ends(START, events, machine));
      && AllTold(m.log, ends)
      && BegunBy(y.executions, machine) == multiset(Commands(m.jobs)) + EndedCommands(ends)
      && X.Truthful(m, BegunIds(y.executions, machine))
  {
    hide Runs, Good, Ends, Commands, EndedCommands, X.Truthful, AllTold, BegunIds;
    StartGood();
    AtStart(machine);
    RunTold(START, events, y, machine);
    RunConserves(START, events, y, machine);
    RunTruthful(START, events, y, machine);
    var m, begun := y.machines[machine], BegunBy(y.executions, machine);
    var ended := EndedCommands(Ends(START, events, machine));
    assert m.log[0..] == m.log;
    assert begun + multiset{} == begun && multiset{} + JobsOf(y, machine) + ended == JobsOf(y, machine) + ended;
  }

  lemma {:induction false} BegunBefore(executions: seq<Execution>, machine: MachineId, command: Command)
    requires command in BegunBy(executions, machine)
    ensures exists n :: 0 <= n < |executions| && executions[n].machine == machine && executions[n].command == command
  {
    var front, last := executions[..|executions| - 1], executions[|executions| - 1];
    if command in BegunBy(front, machine) {
      BegunBefore(front, machine, command);
      var n :| 0 <= n < |front| && front[n].machine == machine && front[n].command == command;
      assert executions[n] == front[n];
    } else {
      assert executions[|executions| - 1].command == command;
    }
  }

  /** A success that any machine ever reported was earned: it had begun to execute that command, for a dispatch of the
      server, and an execution of it ended with that output. A failure likewise ended with that error. */
  lemma SuccessIsEarned(events: seq<Event>, y: System, machine: MachineId, i: nat) returns (ended: Ended, n: nat)
    requires Runs(START, events, y) && machine in y.machines && i < |y.machines[machine].outbox|
    requires y.machines[machine].outbox[i].1.Result? && y.machines[machine].outbox[i].1.result.status != Running
    ensures var r := y.machines[machine].outbox[i].1.result;
      && ended in Ends(START, events, machine) && ended.command.id == r.commandId
      && (r.status == Succeeded ==> ended.outcome == X.Done(r.body))
      && (r.status == Failed ==> r.error.Some? && ended.outcome == X.Threw(r.error.value))
    ensures n < |y.executions| && y.executions[n].machine == machine && y.executions[n].command == ended.command
  {
    hide Runs, Ends, BegunBy, BegunIds, Commands;
    ResultsAreTrue(events, y, machine);
    var m, ends, r := y.machines[machine], Ends(START, events, machine), y.machines[machine].outbox[i].1.result;
    assert X.Said(m.log, BegunIds(y.executions, machine), m.outbox[i].1);
    var k :| 0 <= k < |m.log| && m.log[k] == r;
    ended := ends[k];
    var commands := seq(|ends|, j requires 0 <= j < |ends| => ends[j].command);
    assert commands[k] == ended.command && ended.command in commands;
    assert ended.command in EndedCommands(ends);
    BegunBefore(y.executions, machine, ended.command);
    n :| 0 <= n < |y.executions| && y.executions[n].machine == machine && y.executions[n].command == ended.command;
  }
}
