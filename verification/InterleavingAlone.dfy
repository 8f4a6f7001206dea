/** A call that no other call interrupts does, segment by segment, exactly what the whole call does in one step. */
module InterleavingAlone {
  import opened Wrappers
  import opened Protocol
  import opened Ordering
  import opened ServerInvariant
  import opened Interleaving
  import S = Server
  import T = ServerSteps

  /** Alone from here on, the call ends after `n` segments with this state. */
  ghost predicate Ends(s: S.State, task: Option<Task>, id: Id, s': S.State, n: nat)
    decreases n
  {
    if task.None? then n == 0 && s' == s
    else n > 0 && var (e, next) := Segment(s, task.value, id); Ends(Perform(s, e), next, id, s', n - 1)
  }

  /** One segment more in front. */
  lemma Before(s: S.State, task: Task, id: Id, s1: S.State, next: Option<Task>, s': S.State, n: nat) returns (m: nat)
    requires Segment(s, task, id).1 == next && Perform(s, Segment(s, task, id).0) == s1
    requires Ends(s1, next, id, s', n)
    ensures Ends(s, Some(task), id, s', m)
  {
    hide Segment, Perform;
    m := n + 1;
  }

  /** Approvals are filed under their commands. */
  ghost predicate Keyed(s: S.State) {
    forall id :: id in s.approvals ==> s.approvals[id].commandId == id
  }

  // ---------------------------------------------------------------- expiry

  lemma ExpiryStored(s: S.State, c: Command)
    requires S.Filed(s) && c.id in s.commands && s.commands[c.id] == c && Overdue(c, s.clock)
    ensures Perform(Perform(s, PutCommand(c.(status := Expired, updatedAt := s.clock))), Record(c, HasExpired))
         == S.ExpireIfNeeded(s, c.id)
  {
    hide S.Filed;
  }

  /** An overdue command is written and logged as expired, then the call goes on. */
  lemma ExpiresThen(s: S.State, task: Task, c: Command, id: Id, s': S.State, n: nat) returns (m: nat)
    requires S.Filed(s) && c.id in s.commands && s.commands[c.id] == c && Overdue(c, s.clock)
    requires Segment(s, task, id)
          == (PutCommand(c.(status := Expired, updatedAt := s.clock)), Some(task.(pc := ExpireStored(c))))
    requires Ends(S.ExpireIfNeeded(s, c.id), Done(task), id, s', n)
    ensures Ends(s, Some(task), id, s', m)
  {
    hide S.Filed, Perform, Segment, Ends, S.ExpireIfNeeded, Done, Overdue;
    var s1 := Perform(s, PutCommand(c.(status := Expired, updatedAt := s.clock)));
    var task1 := task.(pc := ExpireStored(c));
    ExpiryStored(s, c);
    ExpirySegment(s1, task, c, id);
    m := Before(s1, task1, id, S.ExpireIfNeeded(s, c.id), Done(task), s', n);
    m := Before(s, task, id, s1, Some(task1), s', m);
  }

  lemma ExpirySegment(s: S.State, task: Task, c: Command, id: Id)
    ensures Segment(s, task.(pc := ExpireStored(c)), id) == (Record(c, HasExpired), Done(task))
  {
  }

  // ---------------------------------------------------------------- dispatch

  /** The approval is consumed first, unless it was before, then the command is claimed. */
  function Consumed(s: S.State, c: Command): S.State {
    if NeedsApproval(c.request.tool) && c.id in s.approvals && s.approvals[c.id].consumedAt.None?
    then s.(approvals := s.approvals[c.id := s.approvals[c.id].(consumedAt := Some(s.clock))]) else s
  }

  lemma ClaimedSame(s: S.State, c: Command)
    requires S.Filed(s) && c.id in s.commands
    ensures S.Put(Consumed(s, c), c.(status := Dispatched, updatedAt := s.clock)) == S.Claim(s, c)
  {
    hide S.Filed, PolicyForTool;
  }

  lemma HandOutSame(s: S.State, c: Command, socket: Socket)
    requires S.Filed(s) && c.id in s.commands && s.commands[c.id] == c
    requires S.Link(s, c.request.targetDeviceId) == Some(socket) && c.status in {Queued, Dispatched}
    ensures var gone := c.(status := Dispatched, updatedAt := s.clock);
      && (c.status == Dispatched ==> Perform(s, HandOut(c)) == S.HandOver(s, c.id, socket))
      && (c.status == Queued ==>
            Perform(S.Put(Consumed(s, c), gone), HandOut(gone)) == S.HandOver(s, c.id, socket))
  {
    ClaimedSame(s, c);
    hide S.Filed, PolicyForTool, S.Epoch, Consumed;
    var gone := c.(status := Dispatched, updatedAt := s.clock);
    if c.status == Queued {
      ClaimFrame(s, c.id);
      assert S.Link(S.Claim(s, c), c.request.targetDeviceId) == Some(socket);
    }
  }

  lemma ClaimSegments(s: S.State, task: Task, c: Command, id: Id)
    requires task.pc == TryClaiming(c) || Segment(s, task, id) == Claims(s, task, c)
    ensures var gone := c.(status := Dispatched, updatedAt := s.clock);
      && Segment(s, task, id) == (PutCommand(gone), Some(task.(pc := TrySending(gone))))
      && Perform(s, PutCommand(gone)) == S.Put(s, gone)
      && Segment(S.Put(s, gone), task.(pc := TrySending(gone)), id) == (HandOut(gone), Done(task))
  {
    hide S.Put;
  }

  lemma ClaimThen(s: S.State, task: Task, c: Command, socket: Socket, id: Id, s': S.State, n: nat) returns (m: nat)
    requires S.Filed(s) && c.id in s.commands && s.commands[c.id] == c && c.status == Queued
    requires S.Link(s, c.request.targetDeviceId) == Some(socket)
    requires Ends(S.HandOver(s, c.id, socket), Done(task), id, s', n)
    requires task.pc == TryClaiming(c) || Segment(Consumed(s, c), task, id) == Claims(Consumed(s, c), task, c)
    ensures Ends(Consumed(s, c), Some(task), id, s', m)
  {
    hide S.Filed, Perform, Segment, Ends, S.HandOver, Done, S.Put, S.Link, Claims, PolicyForTool;
    HandOutSame(s, c, socket);
    var s1 := Consumed(s, c);
    assert s1.clock == s.clock;
    ClaimSegments(s1, task, c, id);
    var gone := c.(status := Dispatched, updatedAt := s.clock);
    m := Before(S.Put(s1, gone), task.(pc := TrySending(gone)), id, S.HandOver(s, c.id, socket), Done(task), s', n);
    m := Before(s1, task, id, S.Put(s1, gone), Some(task.(pc := TrySending(gone))), s', m);
  }

  lemma ClearSegment(s: S.State, task: Task, c: Command, id: Id)
    requires Keyed(s) && NeedsApproval(c.request.tool) && c.status == Queued
    requires task.pc == TryCleared(c, S.GetApproval(s, c.userId, c.id))
    ensures !S.Cleared(s, c) ==> Segment(s, task, id) == (Nothing, Done(task))
    ensures S.Cleared(s, c) && Consumed(s, c) != s ==>
      && Segment(s, task, id).1 == Some(task.(pc := TryClaiming(c)))
      && Perform(s, Segment(s, task, id).0) == Consumed(s, c)
    ensures S.Cleared(s, c) && Consumed(s, c) == s ==> Segment(s, task, id) == Claims(s, task, c)
    ensures Perform(s, Nothing) == s && Done(task.(pc := TryClaiming(c))) == Done(task)
  {
    hide PolicyForTool;
    if S.Cleared(s, c) && s.approvals[c.id].consumedAt.None? {
      assert Consumed(s, c).approvals[c.id] != s.approvals[c.id];
    }
  }

  lemma ClearThen(s: S.State, task: Task, c: Command, socket: Socket, id: Id, s': S.State, n: nat) returns (m: nat)
    requires S.Filed(s) && Keyed(s) && c.id in s.commands && s.commands[c.id] == c && c.status == Queued
    requires S.Link(s, c.request.targetDeviceId) == Some(socket) && NeedsApproval(c.request.tool)
    requires task.pc == TryCleared(c, S.GetApproval(s, c.userId, c.id))
    requires Ends(if S.Cleared(s, c) then S.HandOver(s, c.id, socket) else s, Done(task), id, s', n)
    ensures Ends(s, Some(task), id, s', m)
  {
    hide S.Filed, Keyed, Perform, Segment, Ends, S.HandOver, Done, S.Link, S.Cleared, S.GetApproval, Claims, Consumed;
    hide PolicyForTool;
    ClearSegment(s, task, c, id);
    if !S.Cleared(s, c) {
      m := Before(s, task, id, s, Done(task), s', n);
    } else if Consumed(s, c) != s {
      var task1 := task.(pc := TryClaiming(c));
      m := ClaimThen(s, task1, c, socket, id, s', n);
      m := Before(s, task, id, Consumed(s, c), Some(task1), s', m);
    } else {
      m := ClaimThen(s, task, c, socket, id, s', n);
    }
  }

  /** What the first segment of an attempt does, and what the whole attempt comes to. */
  lemma TrySegment(s: S.State, task: Task, c: Command, id: Id)
    requires S.Filed(s) && c.id in s.commands && s.commands[c.id] == c && task.pc == Try(c)
    ensures Perform(s, Nothing) == s
    ensures var (link, due) := (S.Link(s, c.request.targetDeviceId), c.request.expiresAt <= s.clock);
      && (c.status !in {Queued, Dispatched} || (!due && link.None?) ==>
            Segment(s, task, id) == (Nothing, Done(task)) && S.TryDispatch(s, c.id) == s)
      && (c.status in {Queued, Dispatched} && due ==>
            && Segment(s, task, id)
               == (PutCommand(c.(status := Expired, updatedAt := s.clock)), Some(task.(pc := ExpireStored(c))))
            && Overdue(c, s.clock) && S.TryDispatch(s, c.id) == S.ExpireIfNeeded(s, c.id))
      && (c.status in {Queued, Dispatched} && !due && link.Some? ==>
            && S.TryDispatch(s, c.id) == (if S.Cleared(s, c) then S.HandOver(s, c.id, link.value) else s)
            && (c.status == Dispatched || !NeedsApproval(c.request.tool) ==> S.Cleared(s, c))
            && Segment(s, task, id)
               == if c.status == Dispatched then (HandOut(c), Done(task))
                  else if NeedsApproval(c.request.tool)
                  then (Nothing, Some(task.(pc := TryCleared(c, S.GetApproval(s, c.userId, c.id)))))
                  else Claims(s, task, c))
  {
    hide S.Filed, S.Link, S.HandOver, S.ExpireIfNeeded, S.GetApproval, PolicyForTool, Claims, Done;
  }

  lemma OriginKept(task: Task, pc: Pc)
    ensures Done(task.(pc := pc)) == Done(task)
  {
  }

  lemma NothingConsumed(s: S.State, c: Command)
    ensures !NeedsApproval(c.request.tool) ==> Consumed(s, c) == s
  {
  }

  /** An attempt to dispatch, then the call goes on. */
  lemma TryThen(s: S.State, task: Task, c: Command, id: Id, s': S.State, n: nat) returns (m: nat)
    requires S.Filed(s) && Keyed(s) && c.id in s.commands && s.commands[c.id] == c && task.pc == Try(c)
    requires Ends(S.TryDispatch(s, c.id), Done(task), id, s', n)
    ensures Ends(s, Some(task), id, s', m)
  {
    hide S.Filed, Keyed, Perform, Segment, Ends, S.HandOver, Done, S.Link, S.Cleared, S.GetApproval, Claims, Consumed;
    hide PolicyForTool, S.TryDispatch, S.ExpireIfNeeded, NeedsApproval, Overdue;
    TrySegment(s, task, c, id);
    NothingConsumed(s, c);
    var link := S.Link(s, c.request.targetDeviceId);
    if c.status in {Queued, Dispatched} && c.request.expiresAt <= s.clock {
      m := ExpiresThen(s, task, c, id, s', n);
    } else if c.status !in {Queued, Dispatched} || link.None? {
      m := Before(s, task, id, s, Done(task), s', n);
    } else if c.status == Dispatched {
      HandOutSame(s, c, link.value);
      m := Before(s, task, id, S.HandOver(s, c.id, link.value), Done(task), s', n);
    } else if NeedsApproval(c.request.tool) {
      var task1 := task.(pc := TryCleared(c, S.GetApproval(s, c.userId, c.id)));
      OriginKept(task, task1.pc);
      m := ClearThen(s, task1, c, link.value, id, s', n);
      m := Before(s, task, id, s, Some(task1), s', m);
    } else {
      m := ClaimThen(s, task, c, link.value, id, s', n);
    }
  }

  // ---------------------------------------------------------------- loops over a listing

  /** A command that the loop has not come to yet is as it was listed. */
  lemma {:induction false} StillListed(s: S.State, ids: seq<Id>, id: Id)
    requires S.Filed(s) && id in s.commands && id !in ids && forall i :: i in ids ==> i in s.commands
    ensures var (t, u) := (S.ExpireAll(s, ids), S.DispatchAll(s, ids));
      && id in t.commands && t.commands[id] == s.commands[id] && id in u.commands && u.commands[id] == s.commands[id]
    decreases |ids|
  {
    hide S.Filed, S.TryDispatch, S.ExpireIfNeeded;
    if ids != [] {
      var front, last := ids[..|ids| - 1], ids[|ids| - 1];
      StillListed(s, front, id);
      KnownListed(s, front, last);
      T.ExpireOthers(S.ExpireAll(s, front), last);
      T.TryDispatchOthers(S.DispatchAll(s, front), last);
    }
  }

  lemma KnownListed(s: S.State, ids: seq<Id>, id: Id)
    requires S.Filed(s) && id in s.commands && forall i :: i in ids ==> i in s.commands
    ensures id in S.ExpireAll(s, ids).commands && id in S.DispatchAll(s, ids).commands
  {
    hide S.ExpireAll, S.DispatchAll;
  }

  lemma KeyedKept(s: S.State, id: Id)
    requires S.Filed(s) && Keyed(s) && id in s.commands
    ensures Keyed(S.TryDispatch(s, id)) && Keyed(S.ExpireIfNeeded(s, id))
  {
    hide S.TryDispatch, S.HandOver, S.ExpireIfNeeded, S.Filed;
    ExpireKeeps(s, id);
    var socket := TryDispatchCases(s, id);
    if socket.Some? {
      HandOverKeyed(s, id, socket.value);
    }
  }

  lemma ExpireKeeps(s: S.State, id: Id)
    requires S.Filed(s) && id in s.commands
    ensures S.ExpireIfNeeded(s, id).approvals == s.approvals
  {
    hide S.Filed;
  }

  lemma HandOverKeyed(s: S.State, id: Id, socket: Socket)
    requires S.Filed(s) && Keyed(s) && id in s.commands
    ensures Keyed(S.HandOver(s, id, socket))
  {
    FiledAt(s, id);
    hide S.HandOver, S.Filed;
    HandOverFrame(s, id, socket);
  }

  lemma {:induction false} AllKeyed(s: S.State, ids: seq<Id>)
    requires S.Filed(s) && Keyed(s) && forall i :: i in ids ==> i in s.commands
    ensures Keyed(S.DispatchAll(s, ids))
    decreases |ids|
  {
    hide S.Filed, S.TryDispatch, Keyed;
    if ids != [] {
      AllKeyed(s, ids[..|ids| - 1]);
      KnownListed(s, ids[..|ids| - 1], ids[|ids| - 1]);
      KeyedKept(S.DispatchAll(s, ids[..|ids| - 1]), ids[|ids| - 1]);
    }
  }

  /** The element of the loop at hand, with those still to come in its queue. */
  lemma NextIs(queue: seq<Command>, origin: Origin, k: nat)
    requires k < |queue|
    ensures Next(origin, queue[k..])
         == Some(Task(origin, if origin == Listing then Expire(queue[k]) else Try(queue[k]), queue[k + 1..]))
  {
  }

  lemma OneOnward(s: S.State, ids: seq<Id>, k: nat)
    requires S.Filed(s) && (forall i :: i in ids ==> i in s.commands) && k < |ids|
    ensures ids[k] in S.ExpireAll(s, ids[..k]).commands && ids[k] in S.DispatchAll(s, ids[..k]).commands
    ensures S.ExpireAll(s, ids[..k + 1]) == S.ExpireIfNeeded(S.ExpireAll(s, ids[..k]), ids[k])
    ensures S.DispatchAll(s, ids[..k + 1]) == S.TryDispatch(S.DispatchAll(s, ids[..k]), ids[k])
  {
    hide S.Filed, S.ExpireIfNeeded, S.TryDispatch;
    KnownListed(s, ids[..k], ids[k]);
    assert ids[..k + 1][..k] == ids[..k] && ids[..k + 1][k] == ids[k];
  }

  lemma ExpireSegment(s: S.State, task: Task, c: Command, id: Id)
    requires S.Filed(s) && c.id in s.commands && s.commands[c.id] == c && task.pc == Expire(c)
    ensures Perform(s, Nothing) == s
    ensures if Overdue(c, s.clock)
            then Segment(s, task, id)
                 == (PutCommand(c.(status := Expired, updatedAt := s.clock)), Some(task.(pc := ExpireStored(c))))
            else Segment(s, task, id) == (Nothing, Done(task)) && S.ExpireIfNeeded(s, c.id) == s
  {
    hide S.Filed, Done;
  }

  lemma {:induction false} ExpiresRest(s: S.State, ids: seq<Id>, k: nat, id: Id) returns (n: nat)
    requires S.Filed(s) && Distinct(ids) && k <= |ids| && forall i :: i in ids ==> i in s.commands
    ensures Ends(S.ExpireAll(s, ids[..k]), Next(Listing, Copies(s.commands, ids)[k..]), id, S.ExpireAll(s, ids), n)
    decreases |ids| - k
  {
    hide S.ExpireIfNeeded, S.ExpireAll, Copies, Segment, Perform, Overdue, S.Filed;
    if k == |ids| {
      assert ids[..k] == ids;
      n := 0;
    } else {
      hide Ends;
      n := ExpiresRest(s, ids, k + 1, id);
      var t, c, queue := S.ExpireAll(s, ids[..k]), s.commands[ids[k]], Copies(s.commands, ids);
      NextIs(queue, Listing, k);
      OneOnward(s, ids, k);
      FiledAt(s, ids[k]);
      StillListed(s, ids[..k], ids[k]);
      var task := Task(Listing, Expire(c), queue[k + 1..]);
      hide Next;
      ExpireSegment(t, task, c, id);
      if Overdue(c, t.clock) {
        n := ExpiresThen(t, task, c, id, S.ExpireAll(s, ids), n);
      } else {
        n := Before(t, task, id, t, Done(task), S.ExpireAll(s, ids), n);
      }
    }
  }

  lemma {:induction false} DispatchesRest(s: S.State, ids: seq<Id>, k: nat, id: Id) returns (n: nat)
    requires S.Filed(s) && Keyed(s) && Distinct(ids) && k <= |ids| && forall i :: i in ids ==> i in s.commands
    ensures Ends(S.DispatchAll(s, ids[..k]), Next(Greeting, Copies(s.commands, ids)[k..]), id,
                 S.DispatchAll(s, ids), n)
    decreases |ids| - k
  {
    hide S.TryDispatch, S.DispatchAll, Copies, Keyed, S.Filed;
    if k == |ids| {
      assert ids[..k] == ids;
      n := 0;
    } else {
      hide Ends;
      n := DispatchesRest(s, ids, k + 1, id);
      var t, c, queue := S.DispatchAll(s, ids[..k]), s.commands[ids[k]], Copies(s.commands, ids);
      NextIs(queue, Greeting, k);
      OneOnward(s, ids, k);
      FiledAt(s, ids[k]);
      StillListed(s, ids[..k], ids[k]);
      AllKeyed(s, ids[..k]);
      n := TryThen(t, Task(Greeting, Try(c), queue[k + 1..]), c, id, S.DispatchAll(s, ids), n);
    }
  }

  // ---------------------------------------------------------------- the calls

  lemma ReachedKeyed(s: S.State)
    requires Inv(s)
    ensures S.Filed(s) && Keyed(s)
  {
    forall id | id in s.approvals
      ensures s.approvals[id].commandId == id
    {
      CoreAt(s, id);
    }
  }

  /** Listing, alone. */
  lemma ListAlone(s: S.State, userId: Id, limit: int, id: Id) returns (n: nat)
    requires S.Filed(s)
    ensures Ends(s, Some(Task(Listing, ListStart(userId, limit), [])), id, S.List(s, userId, limit).0, n)
  {
    hide S.Filed, S.ExpireIfNeeded, S.ListCommands, S.ListLimit, Ends, Copies, Next;
    var ids := S.ListCommands(s, userId, S.ListLimit(limit));
    T.ListCommandsDistinct(s, userId, S.ListLimit(limit));
    n := ExpiresRest(s, ids, 0, id);
    assert ids[..0] == [] && Copies(s.commands, ids)[0..] == Copies(s.commands, ids);
    var task := Task(Listing, ListStart(userId, limit), []);
    n := Before(s, task, id, s, Next(Listing, Copies(s.commands, ids)), S.ExpireAll(s, ids), n);
  }

  /** The last segment. */
  lemma Last(s: S.State, task: Task, id: Id, s': S.State)
    requires Segment(s, task, id).1.None? && Perform(s, Segment(s, task, id).0) == s'
    ensures Ends(s, Some(task), id, s', 1)
  {
    hide Segment, Perform;
    assert Ends(s', None, id, s', 0);
  }

  lemma ReportSegments(s: S.State, task: Task, c: Command, result: ActionResult, id: Id)
    requires S.Filed(s) && c.id in s.commands && s.commands[c.id] == c && result.commandId == c.id
    ensures var (saved, c') := (s.(results := s.results[c.id := result]),
                                c.(status := result.status, updatedAt := s.clock));
      && Perform(s, PutResult(result)) == saved
      && Segment(saved, task.(pc := ResultSaved(c, result)), id)
         == (PutCommand(c'), Some(task.(pc := ResultStored(c, result))))
      && Perform(saved, PutCommand(c')) == S.Put(saved, c')
      && Segment(S.Put(saved, c'), task.(pc := ResultStored(c, result)), id)
         == (Record(c, HasReported(result.status, result.error)), None)
      && Perform(S.Put(saved, c'), Record(c, HasReported(result.status, result.error))) == S.Settle(s, c, result)
  {
    hide S.Filed;
  }

  /** A result, alone. */
  lemma ReportAlone(s: S.State, socket: Socket, result: ActionResult, id: Id) returns (n: nat)
    requires S.Filed(s)
    ensures Ends(s, Some(Task(Other, ResultStart(socket, result), [])), id, S.Report(s, socket, result).0, n)
  {
    hide S.Filed, Ends, S.Settle, S.Put;
    var task := Task(Other, ResultStart(socket, result), []);
    if socket !in s.bySocket {
      Last(s, task, id, s);
      return 1;
    }
    var command := Lookup(s.commands, result.commandId);
    var got := task.(pc := ResultGot(s.bySocket[socket], command, result));
    if command.None? || command.value.request.targetDeviceId != s.bySocket[socket]
       || command.value.status !in {Dispatched, Running} {
      Last(s, got, id, s);
      n := 1;
    } else {
      var c := command.value;
      FiledAt(s, result.commandId);
      ReportSegments(s, task, c, result, id);
      var saved, c' := s.(results := s.results[c.id := result]), c.(status := result.status, updatedAt := s.clock);
      Last(S.Put(saved, c'), task.(pc := ResultStored(c, result)), id, S.Settle(s, c, result));
      n := Before(saved, task.(pc := ResultSaved(c, result)), id, S.Put(saved, c'),
                  Some(task.(pc := ResultStored(c, result))), S.Settle(s, c, result), 1);
      n := Before(s, got, id, saved, Some(task.(pc := ResultSaved(c, result))), S.Settle(s, c, result), n);
    }
    n := Before(s, task, id, s, Some(got), S.Report(s, socket, result).0, n);
  }

  lemma GetSegment(s: S.State, task: Task, c: Command, purpose: Option<Decision>, id: Id)
    requires task.pc == GetGot(Some(c), purpose)
    ensures Perform(s, Nothing) == s
    ensures Segment(s, task, id)
         == if Overdue(c, s.clock)
            then (PutCommand(c.(status := Expired, updatedAt := s.clock)), Some(task.(pc := ExpireStored(c))))
            else (Nothing, if purpose.Some? then Some(task.(pc := DecideGot(c, purpose.value))) else None)
  {
  }

  /** A read, alone. */
  lemma GetAlone(s: S.State, userId: Id, commandId: Id, id: Id) returns (n: nat)
    requires S.Filed(s)
    ensures Ends(s, Some(Task(Other, GetStart(userId, commandId, None), [])), id, S.Get(s, userId, commandId).0, n)
  {
    hide S.Filed, Ends, S.ExpireIfNeeded, Overdue;
    var task := Task(Other, GetStart(userId, commandId, None), []);
    var command := S.GetCommand(s, userId, commandId);
    var got := task.(pc := GetGot(command, None));
    var s' := S.Get(s, userId, commandId).0;
    if command.None? {
      Last(s, got, id, s');
      n := 1;
    } else {
      FiledAt(s, commandId);
      GetSegment(s, got, command.value, None, id);
      n := GotEnds(s, got, command.value, id);
    }
    n := Before(s, task, id, s, Some(got), s', n);
  }

  /** The end of a call that goes no further once its command is there: the command expires first if it is overdue. */
  lemma GotEnds(s: S.State, task: Task, c: Command, id: Id) returns (n: nat)
    requires S.Filed(s) && c.id in s.commands && s.commands[c.id] == c && Done(task) == None
    requires Segment(s, task, id)
          == if Overdue(c, s.clock)
             then (PutCommand(c.(status := Expired, updatedAt := s.clock)), Some(task.(pc := ExpireStored(c))))
             else (Nothing, None)
    ensures Ends(s, Some(task), id, S.ExpireIfNeeded(s, c.id), n)
  {
    hide S.Filed, Segment, Overdue, Ends;
    if Overdue(c, s.clock) {
      n := OverdueEnds(s, task, c, id);
    } else {
      Last(s, task, id, S.ExpireIfNeeded(s, c.id));
      n := 1;
    }
  }

  lemma RuleSegments(s: S.State, task: Task, c: Command, a: Approval, d: Decision, id: Id)
    requires S.Filed(s) && Keyed(s) && c.id in s.commands && s.commands[c.id] == c
    requires S.GetApproval(s, c.userId, c.id) == Some(a)
    ensures var a' := a.(decision := if d.approve then Granted else Denied, biometricVerified := d.verified,
                         decidedAt := Some(s.clock));
      var c' := c.(status := if d.approve then Queued else Cancelled, updatedAt := s.clock);
      var (s1, kind) := (s.(approvals := s.approvals[c.id := a']),
                         if d.approve then WasApproved(d.verified) else WasDenied(d.verified));
      var s2 := S.Put(s1, c');
      && Perform(s, PutApproval(a')) == s1
      && Segment(s1, task.(pc := DecideRuled(c', d)), id) == (PutCommand(c'), Some(task.(pc := DecideStored(c', d))))
      && Perform(s1, PutCommand(c')) == s2
      && Segment(s2, task.(pc := DecideStored(c', d)), id) == (Record(c', kind), Some(task.(pc := Try(c'))))
      && Perform(s2, Record(c', kind)) == S.Rule(s, c, a, d.approve, d.verified)
      && c'.id in S.Rule(s, c, a, d.approve, d.verified).commands
      && S.Rule(s, c, a, d.approve, d.verified).commands[c'.id] == c'
      && Keyed(S.Rule(s, c, a, d.approve, d.verified))
  {
    hide S.Filed;
  }

  /** A verdict that is accepted, from its first write on. */
  lemma RuleThen(s: S.State, task: Task, c: Command, a: Approval, d: Decision, id: Id) returns (n: nat)
    requires S.Filed(s) && Keyed(s) && c.id in s.commands && s.commands[c.id] == c
    requires S.GetApproval(s, c.userId, c.id) == Some(a) && Done(task) == None
    requires var a' := a.(decision := if d.approve then Granted else Denied, biometricVerified := d.verified,
                          decidedAt := Some(s.clock));
      var c' := c.(status := if d.approve then Queued else Cancelled, updatedAt := s.clock);
      Segment(s, task, id) == (PutApproval(a'), Some(task.(pc := DecideRuled(c', d))))
    ensures c.id in S.Rule(s, c, a, d.approve, d.verified).commands
    ensures Ends(s, Some(task), id, S.TryDispatch(S.Rule(s, c, a, d.approve, d.verified), c.id), n)
  {
    hide S.Filed, Keyed, Segment, Perform, S.Rule, S.Put, S.TryDispatch;
    var a' := a.(decision := if d.approve then Granted else Denied, biometricVerified := d.verified,
                 decidedAt := Some(s.clock));
    var c' := c.(status := if d.approve then Queued else Cancelled, updatedAt := s.clock);
    RuleSegments(s, task, c, a, d, id);
    var s1 := s.(approvals := s.approvals[c.id := a']);
    var s2, s3 := S.Put(s1, c'), S.Rule(s, c, a, d.approve, d.verified);
    var s' := S.TryDispatch(s3, c.id);
    assert Ends(s', None, id, s', 0);
    hide Ends;
    var tries := task.(pc := Try(c'));
    n := TryThen(s3, tries, c', id, s', 0);
    n := Before(s2, task.(pc := DecideStored(c', d)), id, s3, Some(tries), s', n);
    n := Before(s1, task.(pc := DecideRuled(c', d)), id, s2, Some(task.(pc := DecideStored(c', d))), s', n);
    n := Before(s, task, id, s1, Some(task.(pc := DecideRuled(c', d))), s', n);
  }

  /** The decision may be made now. */
  predicate Allowed(approval: Option<Approval>, d: Decision) {
    approval.Some? && approval.value.decision == Pending
    && !(approval.value.biometricRequired && d.approve && !d.verified)
  }

  /** What the segments of a decision come to before its first write. */
  lemma WeighSegments(s: S.State, task: Task, c: Command, d: Decision, id: Id)
    ensures Perform(s, Nothing) == s
    ensures Segment(s, task.(pc := DecideGot(c, d)), id)
         == (Nothing, if c.status == AwaitingApproval
                      then Some(task.(pc := DecideWeighed(c, S.GetApproval(s, c.userId, c.id), d))) else None)
  {
    hide S.GetApproval;
  }

  lemma WeighedSegment(s: S.State, task: Task, c: Command, approval: Option<Approval>, d: Decision, id: Id)
    requires task.pc == DecideWeighed(c, approval, d)
    ensures Segment(s, task, id)
         == if !Allowed(approval, d) then (Nothing, None)
            else (PutApproval(approval.value.(decision := if d.approve then Granted else Denied,
                                              biometricVerified := d.verified, decidedAt := Some(s.clock))),
                  Some(task.(pc := DecideRuled(c.(status := if d.approve then Queued else Cancelled,
                                                  updatedAt := s.clock), d))))
  {
  }

  lemma DecideIs(s: S.State, c: Command, d: Decision)
    requires S.Filed(s) && c.id in s.commands && s.commands[c.id] == c && !Overdue(c, s.clock)
    ensures var approval := S.GetApproval(s, c.userId, c.id);
      S.Decide(s, c.userId, c.id, d.approve, d.verified).0
      == if c.status == AwaitingApproval && Allowed(approval, d)
         then S.TryDispatch(S.Rule(s, c, approval.value, d.approve, d.verified), c.id) else s
  {
    hide S.Filed, S.Rule, S.TryDispatch;
  }

  lemma DecideOverdue(s: S.State, c: Command, d: Decision)
    requires S.Filed(s) && c.id in s.commands && s.commands[c.id] == c && Overdue(c, s.clock)
    ensures S.Decide(s, c.userId, c.id, d.approve, d.verified).0 == S.ExpireIfNeeded(s, c.id)
  {
    hide S.Filed, S.Rule, S.TryDispatch;
  }

  lemma DecideRest(s: S.State, task: Task, c: Command, d: Decision, id: Id) returns (n: nat)
    requires S.Filed(s) && Keyed(s) && c.id in s.commands && s.commands[c.id] == c && !Overdue(c, s.clock)
    requires task.pc == DecideGot(c, d) && Done(task) == None
    ensures Ends(s, Some(task), id, S.Decide(s, c.userId, c.id, d.approve, d.verified).0, n)
  {
    hide S.Filed, Keyed, Ends, S.Rule, S.TryDispatch, S.Decide, Segment, Overdue, S.GetApproval, Perform;
    WeighSegments(s, task, c, d, id);
    DecideIs(s, c, d);
    var approval := S.GetApproval(s, c.userId, c.id);
    var weighed := task.(pc := DecideWeighed(c, approval, d));
    WeighedSegment(s, weighed, c, approval, d, id);
    OriginKept(task, weighed.pc);
    var s' := S.Decide(s, c.userId, c.id, d.approve, d.verified).0;
    if c.status != AwaitingApproval {
      Last(s, task, id, s');
      n := 1;
    } else {
      if Allowed(approval, d) {
        n := RuleThen(s, weighed, c, approval.value, d, id);
      } else {
        Last(s, weighed, id, s');
        n := 1;
      }
      n := Before(s, task, id, s, Some(weighed), s', n);
    }
  }

  /** A decision, alone. */
  lemma DecideAlone(s: S.State, userId: Id, commandId: Id, d: Decision, id: Id) returns (n: nat)
    requires S.Filed(s) && Keyed(s)
    ensures Ends(s, Some(Task(Deciding, GetStart(userId, commandId, Some(d)), [])), id,
                 S.Decide(s, userId, commandId, d.approve, d.verified).0, n)
  {
    hide S.Filed, Keyed, Ends, S.ExpireIfNeeded, S.Rule, S.TryDispatch, Overdue;
    var task := Task(Deciding, GetStart(userId, commandId, Some(d)), []);
    var command := S.GetCommand(s, userId, commandId);
    var got := task.(pc := GetGot(command, Some(d)));
    var s' := S.Decide(s, userId, commandId, d.approve, d.verified).0;
    if command.None? {
      Last(s, got, id, s');
      n := 1;
    } else {
      var c := command.value;
      FiledAt(s, commandId);
      GetSegment(s, got, c, Some(d), id);
      hide S.Decide, Segment, Perform;
      if Overdue(c, s.clock) {
        DecideOverdue(s, c, d);
        n := OverdueEnds(s, got, c, id);
      } else {
        n := DecideRest(s, got.(pc := DecideGot(c, d)), c, d, id);
        n := Before(s, got, id, s, Some(got.(pc := DecideGot(c, d))), s', n);
      }
    }
    StartSegment(s, task, userId, commandId, Some(d), id);
    n := Before(s, task, id, s, Some(got), s', n);
  }

  lemma StartSegment(s: S.State, task: Task, userId: Id, commandId: Id, purpose: Option<Decision>, id: Id)
    requires task.pc == GetStart(userId, commandId, purpose)
    ensures Perform(s, Nothing) == s
    ensures Segment(s, task, id) == (Nothing, Some(task.(pc := GetGot(S.GetCommand(s, userId, commandId), purpose))))
  {
  }

  lemma OverdueEnds(s: S.State, task: Task, c: Command, id: Id) returns (n: nat)
    requires S.Filed(s) && c.id in s.commands && s.commands[c.id] == c && Overdue(c, s.clock) && Done(task) == None
    requires Segment(s, task, id)
          == (PutCommand(c.(status := Expired, updatedAt := s.clock)), Some(task.(pc := ExpireStored(c))))
    ensures Ends(s, Some(task), id, S.ExpireIfNeeded(s, c.id), n)
  {
    hide S.Filed, Segment, S.ExpireIfNeeded, Overdue;
    var s' := S.ExpireIfNeeded(s, c.id);
    assert Ends(s', None, id, s', 0);
    n := ExpiresThen(s, task, c, id, s', 0);
  }

  lemma CreateSegments(s: S.State, task: Task, userId: Id, request: Request, id: Id)
    requires S.Filed(s) && id !in s.commands
    ensures Perform(s, Nothing) == s
    ensures var late := request.expiresAt <= s.clock || request.expiresAt - s.clock > MAX_COMMAND_LIFETIME_MS;
      var found := S.FindByKey(s, userId, request.idempotencyKey);
      var d := request.targetDeviceId;
      var target := if d in s.devices && s.devices[d].userId == userId then Some(s.devices[d]) else None;
      && Segment(s, task.(pc := CreateStart(userId, request)), id)
         == (Nothing, if late then None
                      else Some(task.(pc := CreateFound(userId, request,
                                                        if found.Some? then Some(s.commands[found.value]) else None))))
      && Segment(s, task.(pc := CreateFound(userId, request, None)), id)
         == (Nothing, Some(task.(pc := CreateTargeted(userId, request, target))))
  {
    hide S.Filed, S.FindByKey;
  }

  lemma FoundSegment(s: S.State, task: Task, userId: Id, request: Request, c: Command, id: Id)
    requires task.pc == CreateFound(userId, request, Some(c))
    ensures Segment(s, task, id)
         == if c.request != request then (Nothing, None)
            else if Overdue(c, s.clock)
            then (PutCommand(c.(status := Expired, updatedAt := s.clock)), Some(task.(pc := ExpireStored(c))))
            else (Nothing, None)
  {
  }

  lemma AdmitSegments(s: S.State, task: Task, userId: Id, request: Request, id: Id)
    requires S.Filed(s) && id !in s.commands
    ensures var c := S.NewCommand(s, userId, request, id);
      var (s1, stored) := (S.Put(s, c), task.(pc := CreateStored(c)));
      var s2 := s1.(approvals := s1.approvals[id := S.NewApproval(s, userId, request, id)]);
      && c.id == id && Perform(s, PutCommand(c)) == s1
      && (NeedsApproval(request.tool) ==>
            && Segment(s1, stored, id)
               == (PutApproval(S.NewApproval(s, userId, request, id)), Some(task.(pc := CreateGuarded(c))))
            && Perform(s1, PutApproval(S.NewApproval(s, userId, request, id))) == s2
            && Segment(s2, task.(pc := CreateGuarded(c)), id)
               == (Record(c, WasCreated(c.status)), Some(task.(pc := Try(c))))
            && Perform(s2, Record(c, WasCreated(c.status))) == S.Admit(s, userId, request, id))
      && (!NeedsApproval(request.tool) ==>
            && Segment(s1, stored, id) == (Record(c, WasCreated(c.status)), Some(task.(pc := Try(c))))
            && Perform(s1, Record(c, WasCreated(c.status))) == S.Admit(s, userId, request, id))
  {
    hide S.Filed, PolicyForTool, InitialStatus;
  }

  lemma TargetSegment(s: S.State, task: Task, userId: Id, request: Request, target: Option<Device>, id: Id)
    requires task.pc == CreateTargeted(userId, request, target)
    ensures var c := S.NewCommand(s, userId, request, id);
      Segment(s, task, id)
      == if target.None? || target.value.kind != ExecutorDevice || request.tool !in target.value.tools
         then (Nothing, None) else (PutCommand(c), Some(task.(pc := CreateStored(c))))
  {
    hide PolicyForTool, InitialStatus;
  }

  lemma AdmitKeyed(s: S.State, userId: Id, request: Request, id: Id)
    requires S.Filed(s) && Keyed(s) && id !in s.commands
    ensures var s1 := S.Admit(s, userId, request, id);
      Keyed(s1) && id in s1.commands && s1.commands[id] == S.NewCommand(s, userId, request, id)
  {
    hide S.Filed, PolicyForTool, InitialStatus;
  }

  /** A new command, from its first write on. */
  lemma AdmitThen(s: S.State, task: Task, userId: Id, request: Request, id: Id) returns (n: nat)
    requires S.Filed(s) && Keyed(s) && id !in s.commands && Done(task) == None
    requires var c := S.NewCommand(s, userId, request, id);
      Segment(s, task, id) == (PutCommand(c), Some(task.(pc := CreateStored(c))))
    ensures id in S.Admit(s, userId, request, id).commands
    ensures Ends(s, Some(task), id, S.TryDispatch(S.Admit(s, userId, request, id), id), n)
  {
    hide S.Filed, Keyed, Segment, Perform, S.Admit, S.Put, S.TryDispatch, NeedsApproval, S.NewCommand, S.NewApproval;
    var c := S.NewCommand(s, userId, request, id);
    AdmitSegments(s, task, userId, request, id);
    AdmitKeyed(s, userId, request, id);
    var s1, s3 := S.Put(s, c), S.Admit(s, userId, request, id);
    var stored, tries := task.(pc := CreateStored(c)), task.(pc := Try(c));
    var s' := S.TryDispatch(s3, id);
    assert Ends(s', None, id, s', 0);
    hide Ends;
    n := TryThen(s3, tries, c, id, s', 0);
    if NeedsApproval(request.tool) {
      var s2 := s1.(approvals := s1.approvals[id := S.NewApproval(s, userId, request, id)]);
      var guarded := task.(pc := CreateGuarded(c));
      n := Before(s2, guarded, id, s3, Some(tries), s', n);
      n := Before(s1, stored, id, s2, Some(guarded), s', n);
    } else {
      n := Before(s1, stored, id, s3, Some(tries), s', n);
    }
    n := Before(s, task, id, s1, Some(stored), s', n);
  }

  /** What creating comes to. */
  lemma CreateIs(s: S.State, userId: Id, request: Request, id: Id)
    requires S.Filed(s) && id !in s.commands
    ensures var late := request.expiresAt <= s.clock || request.expiresAt - s.clock > MAX_COMMAND_LIFETIME_MS;
      var found := S.FindByKey(s, userId, request.idempotencyKey);
      var d := request.targetDeviceId;
      var served := && d in s.devices && s.devices[d].userId == userId && s.devices[d].kind == ExecutorDevice
                    && request.tool in s.devices[d].tools;
      S.Create(s, userId, request, id).0
      == if late then s
         else if found.Some? then
           if s.commands[found.value].request != request then s else S.ExpireIfNeeded(s, found.value)
         else if served then S.TryDispatch(S.Admit(s, userId, request, id), id)
         else s
  {
    hide S.Filed, S.FindByKey, S.TryDispatch, S.Admit, S.ExpireIfNeeded;
  }

  lemma FoundKnown(s: S.State, userId: Id, key: string)
    ensures S.FindByKey(s, userId, key).Some? ==> S.FindByKey(s, userId, key).value in s.commands
  {
  }

  /** Creating, alone. */
  lemma CreateAlone(s: S.State, userId: Id, request: Request, id: Id) returns (n: nat)
    requires S.Filed(s) && Keyed(s) && id !in s.commands
    ensures Ends(s, Some(Task(Creating, CreateStart(userId, request), [])), id,
                 S.Create(s, userId, request, id).0, n)
  {
    hide S.Filed, Keyed, Ends, Segment, Perform, S.FindByKey, S.TryDispatch, S.Admit, S.ExpireIfNeeded, S.Create;
    hide S.NewCommand, Overdue;
    var start := Task(Creating, CreateStart(userId, request), []);
    FoundKnown(s, userId, request.idempotencyKey);
    CreateIs(s, userId, request, id);
    CreateSegments(s, start, userId, request, id);
    var s' := S.Create(s, userId, request, id).0;
    if request.expiresAt <= s.clock || request.expiresAt - s.clock > MAX_COMMAND_LIFETIME_MS {
      Last(s, start, id, s');
      return 1;
    }
    var key := S.FindByKey(s, userId, request.idempotencyKey);
    var found := start.(pc := CreateFound(userId, request, if key.Some? then Some(s.commands[key.value]) else None));
    if key.Some? {
      var c := s.commands[key.value];
      FiledAt(s, key.value);
      FoundSegment(s, found, userId, request, c, id);
      if c.request != request {
        Last(s, found, id, s');
        n := 1;
      } else {
        n := GotEnds(s, found, c, id);
      }
    } else {
      var d := request.targetDeviceId;
      var target := if d in s.devices && s.devices[d].userId == userId then Some(s.devices[d]) else None;
      var targeted := start.(pc := CreateTargeted(userId, request, target));
      TargetSegment(s, targeted, userId, request, target, id);
      if target.None? || target.value.kind != ExecutorDevice || request.tool !in target.value.tools {
        Last(s, targeted, id, s');
        n := 1;
      } else {
        n := AdmitThen(s, targeted, userId, request, id);
      }
      n := Before(s, found, id, s, Some(targeted), s', n);
    }
    n := Before(s, start, id, s, Some(found), s', n);
  }

  lemma HelloSegment(s: S.State, task: Task, socket: Socket, deviceId: Id, matches: bool, id: Id)
    requires task.pc == HelloStart(socket, deviceId, matches)
    ensures var device := if matches then Lookup(s.devices, deviceId) else None;
      Segment(s, task, id) == (Nothing, Some(task.(pc := HelloKnown(socket, deviceId, device))))
    ensures Perform(s, Nothing) == s
  {
  }

  lemma KnownSegment(s: S.State, task: Task, socket: Socket, deviceId: Id, device: Option<Device>, id: Id)
    requires task.pc == HelloKnown(socket, deviceId, device)
    ensures device.None? ==> Segment(s, task, id) == (TurnAway(socket), None)
    ensures device.Some? ==>
      Segment(s, task, id) == (Greet(socket, deviceId), Some(task.(pc := HelloAttached(deviceId, device.value.kind))))
    ensures Perform(s, TurnAway(socket)) == s.(open := s.open - {socket})
    ensures Perform(s, Greet(socket, deviceId)) == T.Greeted(s, socket, deviceId)
  {
    hide S.Attach, S.SetPresence;
  }

  lemma AttachedSegment(s: S.State, task: Task, deviceId: Id, kind: DeviceKind, id: Id)
    requires task.pc == HelloAttached(deviceId, kind)
    ensures Perform(s, Nothing) == s
    ensures forall i :: i in S.ListDispatchable(s, deviceId) ==> i in s.commands
    ensures Segment(s, task, id)
         == (Nothing, if kind != ExecutorDevice then None
                      else Next(Greeting, Copies(s.commands, S.ListDispatchable(s, deviceId))))
  {
    hide Copies, Next;
  }

  lemma HelloIs(s: S.State, socket: Socket, deviceId: Id, matches: bool)
    requires S.Filed(s)
    ensures var s1 := T.Greeted(s, socket, deviceId);
      && S.Filed(s1) && (forall i :: i in S.ListDispatchable(s1, deviceId) ==> i in s1.commands)
      && S.Hello(s, socket, deviceId, matches)
         == if deviceId !in s.devices || !matches then s.(open := s.open - {socket})
            else if s.devices[deviceId].kind != ExecutorDevice then s1
            else S.DispatchAll(s1, S.ListDispatchable(s1, deviceId))
  {
    var s1 := T.Greeted(s, socket, deviceId);
    assert s1.commands == s.commands && s1.order == s.order;
    hide S.DispatchAll;
  }

  lemma GreetedFiled(s: S.State, socket: Socket, deviceId: Id)
    requires S.Filed(s) && Keyed(s)
    ensures var s1 := T.Greeted(s, socket, deviceId);
      && S.Filed(s1) && Keyed(s1) && Distinct(S.ListDispatchable(s1, deviceId))
      && forall i :: i in S.ListDispatchable(s1, deviceId) ==> i in s1.commands
  {
    var s1 := T.Greeted(s, socket, deviceId);
    assert s1.commands == s.commands && s1.order == s.order && s1.approvals == s.approvals;
    FilterDistinct(s1.order, S.Ready(s1.commands, deviceId, s1.clock));
  }

  /** A hello, alone. */
  lemma HelloAlone(s: S.State, socket: Socket, deviceId: Id, matches: bool, id: Id) returns (n: nat)
    requires S.Filed(s) && Keyed(s)
    ensures Ends(s, Some(Task(Greeting, HelloStart(socket, deviceId, matches), [])), id,
                 S.Hello(s, socket, deviceId, matches), n)
  {
    hide S.Filed, Keyed, Ends, Segment, Perform, T.Greeted, S.ListDispatchable, S.DispatchAll, S.Hello, Copies, Next;
    var start := Task(Greeting, HelloStart(socket, deviceId, matches), []);
    HelloSegment(s, start, socket, deviceId, matches, id);
    HelloIs(s, socket, deviceId, matches);
    var s' := S.Hello(s, socket, deviceId, matches);
    var device := if matches then Lookup(s.devices, deviceId) else None;
    var known := start.(pc := HelloKnown(socket, deviceId, device));
    KnownSegment(s, known, socket, deviceId, device, id);
    if device.None? {
      Last(s, known, id, s');
      n := 1;
    } else {
      var s1, attached := T.Greeted(s, socket, deviceId), start.(pc := HelloAttached(deviceId, device.value.kind));
      GreetedFiled(s, socket, deviceId);
      AttachedSegment(s1, attached, deviceId, device.value.kind, id);
      if device.value.kind != ExecutorDevice {
        Last(s1, attached, id, s');
        n := 1;
      } else {
        n := DispatchesAll(s1, S.ListDispatchable(s1, deviceId), id);
        n := Before(s1, attached, id, s1, Next(Greeting, Copies(s1.commands, S.ListDispatchable(s1, deviceId))), s', n);
      }
      n := Before(s, known, id, s1, Some(attached), s', n);
    }
    n := Before(s, start, id, s, Some(known), s', n);
  }

  lemma DispatchesAll(s: S.State, ids: seq<Id>, id: Id) returns (n: nat)
    requires S.Filed(s) && Keyed(s) && Distinct(ids) && forall i :: i in ids ==> i in s.commands
    ensures Ends(s, Next(Greeting, Copies(s.commands, ids)), id, S.DispatchAll(s, ids), n)
  {
    hide S.Filed, Keyed, Ends, Copies, Next, S.TryDispatch;
    n := DispatchesRest(s, ids, 0, id);
    assert ids[..0] == [] && Copies(s.commands, ids)[0..] == Copies(s.commands, ids);
  }

  /** The state that the whole call leaves behind, by the state machine of whole calls. */
  function Whole(s: S.State, pc: Pc, id: Id): S.State
    requires S.Filed(s) && Starts(pc) && id !in s.commands
  {
    match pc
    case CreateStart(userId, request) => S.Create(s, userId, request, id).0
    case GetStart(userId, commandId, None) => S.Get(s, userId, commandId).0
    case GetStart(userId, commandId, Some(d)) => S.Decide(s, userId, commandId, d.approve, d.verified).0
    case ListStart(userId, limit) => S.List(s, userId, limit).0
    case HelloStart(socket, deviceId, matches) => S.Hello(s, socket, deviceId, matches)
    case ResultStart(socket, result) => S.Report(s, socket, result).0
  }

  /** A call that comes in, in a state that keeps the invariant, and goes on from `await` to `await` with no other move
      in between, comes to its end and leaves exactly the state of the whole call. */
  lemma AloneIsWhole(s: S.State, pc: Pc, id: Id) returns (n: nat)
    requires Inv(s) && Starts(pc) && id !in s.commands
    ensures S.Filed(s) && Ends(s, Some(Task(OriginOf(pc), pc, [])), id, Whole(s, pc, id), n)
  {
    hide Inv, S.Filed, Keyed, Ends, S.Create, S.Get, S.Decide, S.List, S.Hello, S.Report;
    ReachedKeyed(s);
    match pc {
      case CreateStart(userId, request) => n := CreateAlone(s, userId, request, id);
      case GetStart(userId, commandId, None) => n := GetAlone(s, userId, commandId, id);
      case GetStart(userId, commandId, Some(d)) => n := DecideAlone(s, userId, commandId, d, id);
      case ListStart(userId, limit) => n := ListAlone(s, userId, limit, id);
      case HelloStart(socket, deviceId, matches) => n := HelloAlone(s, socket, deviceId, matches, id);
      case ResultStart(socket, result) => n := ReportAlone(s, socket, result, id);
    }
  }
}
