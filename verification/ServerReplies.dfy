/** What the calls of the control plane answer and bring about in every reachable state, told without their bodies. */
module ServerReplies {
  import opened Wrappers
  import opened Protocol
  import opened Lifecycle
  import opened Ordering
  import opened Server
  import opened ServerInvariant
  import opened ServerSteps
  import opened ServerPresence
  import opened ServerRuns

  // ---------------------------------------------------------------- one attempt to dispatch

  /** The command may go out: it is queued with its approval, if it needs one, granted, or was sent before. */
  ghost predicate MayGo(s: State, id: Id) {
    id in s.commands && s.commands[id].status in {Queued, Dispatched} && s.clock < s.commands[id].request.expiresAt
    && Cleared(s, s.commands[id])
  }

  /** The command as it goes out. */
  function Gone(c: Command, now: Instant): Command {
    if c.status == Queued then c.(status := Dispatched, updatedAt := now) else c
  }

  /** The command went out: exactly one message more, over this socket, and no other command is touched. */
  ghost predicate OneMore(s: State, s': State, id: Id, socket: Socket)
    requires id in s.commands
  {
    && s'.commands == s.commands[id := Gone(s.commands[id], s.clock)] && s'.approvals.Keys == s.approvals.Keys
    && (forall j :: j in s.approvals && j != id ==> s'.approvals[j] == s.approvals[j])
    && s'.clock == s.clock && s'.byDevice == s.byDevice && s'.open == s.open
    && |s'.sent| == |s.sent| + 1 && s.sent <= s'.sent
    && s'.sent[|s.sent|].socket == socket && s'.sent[|s.sent|].message == DispatchOf(Gone(s.commands[id], s.clock))
  }

  lemma SentOver(s: State, id: Id, socket: Socket)
    requires Filed(s) && MayGo(s, id) && Link(s, s.commands[id].request.targetDeviceId) == Some(socket)
    ensures OneMore(s, TryDispatch(s, id), id, socket)
  {
    hide Filed, HandOver, TryDispatch, Epoch;
    MayGoIs(s, id, socket);
    hide Cleared, Link;
    HandOverLogs(s, id, socket);
    HandOverFrame(s, id, socket);
  }

  lemma MayGoIs(s: State, id: Id, socket: Socket)
    requires Filed(s) && MayGo(s, id) && Link(s, s.commands[id].request.targetDeviceId) == Some(socket)
    ensures TryDispatch(s, id) == HandOver(s, id, socket)
  {
    hide Filed, HandOver, TryDispatch, Link, Cleared;
    TryDispatchHands(s, id, socket);
  }

  lemma NotSent(s: State, id: Id)
    requires Filed(s) && id in s.commands
    requires Link(s, s.commands[id].request.targetDeviceId).None? || s.commands[id].status !in {Queued, Dispatched}
    requires s.clock < s.commands[id].request.expiresAt
    ensures TryDispatch(s, id) == s
  {
  }

  /** What an unexpired command is after an attempt to dispatch it, and what was sent. */
  ghost predicate Tried(s: State, s': State, id: Id)
    requires id in s.commands
  {
    var socket := Link(s, s.commands[id].request.targetDeviceId);
    if MayGo(s, id) && socket.Some? then OneMore(s, s', id, socket.value) else s' == s
  }

  lemma TryDispatchTried(s: State, id: Id)
    requires Filed(s) && id in s.commands && s.clock < s.commands[id].request.expiresAt && Cleared(s, s.commands[id])
    ensures Tried(s, TryDispatch(s, id), id)
  {
    var socket := Link(s, s.commands[id].request.targetDeviceId);
    if MayGo(s, id) && socket.Some? {
      hide Filed, TryDispatch;
      SentOver(s, id, socket.value);
    } else {
      NotSent(s, id);
    }
  }

  /** The command was overdue and has expired; nothing else changed. */
  ghost predicate Lapsed(s: State, s': State, id: Id) {
    && id in s.commands && s.commands[id].request.expiresAt <= s.clock
    && s.commands[id].status !in {Succeeded, Failed, Cancelled, Expired}
    && |s'.audit| == |s.audit| + 1
    && s' == s.(commands := s.commands[id := s.commands[id].(status := Expired, updatedAt := s.clock)],
                audit := s'.audit)
  }

  lemma ExpireLapses(s: State, id: Id)
    requires Filed(s) && id in s.commands
    ensures if Overdue(s.commands[id], s.clock) then Lapsed(s, ExpireIfNeeded(s, id), id)
            else ExpireIfNeeded(s, id) == s
  {
    assert s.commands[id].id == id;
    hide Filed;
  }

  // ---------------------------------------------------------------- create

  /** The device is an executor of this user and advertises the tool. */
  ghost predicate Serves(s: State, userId: Id, request: Request) {
    var d := request.targetDeviceId;
    && d in s.devices && s.devices[d].userId == userId && s.devices[d].kind == ExecutorDevice
    && request.tool in s.devices[d].tools
  }

  /** A request under a new key is accepted just if it expires within the next day and its device serves it. What is
      stored is the request itself, for this user, with the risk of its tool; it waits for approval if the tool
      needs one, is with the device at once if that is online, and is queued otherwise. It is refused as not found
      just if it is timely and its device is no executor of the user. */
  lemma CreateAnswers(s: State, userId: Id, request: Request, id: Id)
    requires Inv(s) && Filed(s) && id !in s.commands && KeyUnused(s, userId, request.idempotencyKey)
    ensures var (s', reply) := Create(s, userId, request, id);
      var online := Connected(s, request.targetDeviceId);
      && (reply.Ok? <==> s.clock < request.expiresAt <= s.clock + 86_400_000 && Serves(s, userId, request))
      && (reply.Refused? ==> s' == s && reply.reason in {BadRequest, NotFound})
      && (reply == Refused(NotFound) <==> s.clock < request.expiresAt <= s.clock + 86_400_000
                                          && !(request.targetDeviceId in s.devices
                                               && s.devices[request.targetDeviceId].userId == userId
                                               && s.devices[request.targetDeviceId].kind == ExecutorDevice))
      && (reply.Ok? ==>
            && reply.value == Asked(s, userId, request, id, if NeedsApproval(request.tool) then AwaitingApproval
                                                            else if online then Dispatched else Queued)
            && s'.commands == s.commands[id := reply.value]
            && (id in s'.approvals <==> NeedsApproval(request.tool))
            && (id in s'.approvals ==>
                  s'.approvals[id] == Approval(id, userId, Pending, NeedsBiometric(request.tool), false, None, None,
                                               s.clock))
            && |s'.sent| == |s.sent| + if online && !NeedsApproval(request.tool) then 1 else 0)
  {
    AdmissionIs(s, userId, request);
    CreateCases(s, userId, request, id);
    if Admission(s, userId, request) == Ok(None) {
      AdmittedTried(s, userId, request, id);
    }
    hide Create, Admission, Inv, Filed, Admit, TryDispatch, Asked, Link;
  }

  lemma AdmissionIs(s: State, userId: Id, request: Request)
    requires Filed(s) && KeyUnused(s, userId, request.idempotencyKey)
    ensures Admission(s, userId, request) == Ok(None) <==>
              s.clock < request.expiresAt <= s.clock + MAX_COMMAND_LIFETIME_MS && Serves(s, userId, request)
    ensures Admission(s, userId, request) == Ok(None) || Admission(s, userId, request).Refused?
    ensures Admission(s, userId, request).Refused? ==> Admission(s, userId, request).reason in {BadRequest, NotFound}
    ensures Admission(s, userId, request) == Refused(NotFound)
       <==> s.clock < request.expiresAt <= s.clock + 86_400_000
            && !(request.targetDeviceId in s.devices && s.devices[request.targetDeviceId].userId == userId
                 && s.devices[request.targetDeviceId].kind == ExecutorDevice)
  {
    FindByKeyFinds(s, userId, request.idempotencyKey);
    hide Filed, FindByKey;
  }

  function Asked(s: State, userId: Id, request: Request, id: Id, status: Status): Command {
    Command(id, userId, request, PolicyForTool(request.tool).risk, status, s.clock, s.clock)
  }

  /** The approval of a new command, on which nothing has been ruled. */
  function Unruled(c: Command): Approval {
    Approval(c.id, c.userId, Pending, NeedsBiometric(c.request.tool), false, None, None, c.createdAt)
  }

  /** A new command was stored, with an approval if its tool needs one; sockets and messages are as before. */
  ghost predicate Stored(s: State, s': State, c: Command) {
    && s'.commands == s.commands[c.id := c]
    && (c.id in s'.approvals <==> NeedsApproval(c.request.tool))
    && (c.id in s'.approvals ==> s'.approvals[c.id] == Unruled(c))
    && s'.sent == s.sent && s'.clock == s.clock && s'.byDevice == s.byDevice && s'.open == s.open
  }

  lemma AdmitStores(s: State, userId: Id, request: Request, id: Id)
    requires Filed(s) && id !in s.commands && id !in s.approvals
    ensures Stored(s, Admit(s, userId, request, id), Asked(s, userId, request, id, InitialStatus(request.tool)))
  {
    hide Filed;
  }

  lemma ClearedAtFirst(s: State, c: Command)
    requires c.status == InitialStatus(c.request.tool)
    ensures Cleared(s, c)
  {
  }

  lemma StoredTried(s: State, s1: State, s': State, c: Command)
    requires c.id !in s.commands && Stored(s, s1, c) && c.status == InitialStatus(c.request.tool)
    requires s.clock < c.request.expiresAt && Tried(s1, s', c.id)
    ensures var online := Link(s, c.request.targetDeviceId).Some?;
      && s'.commands == s.commands[c.id := if online && !NeedsApproval(c.request.tool)
                                           then WithStatus(c, Dispatched, s.clock) else c]
      && (c.id in s'.approvals <==> NeedsApproval(c.request.tool))
      && (c.id in s'.approvals ==> s'.approvals[c.id] == Unruled(c))
      && |s'.sent| == |s.sent| + if online && !NeedsApproval(c.request.tool) then 1 else 0
  {
    assert Link(s1, c.request.targetDeviceId) == Link(s, c.request.targetDeviceId);
    ClearedAtFirst(s1, c);
    hide Link, Cleared, PolicyForTool;
  }

  lemma AdmittedTried(s: State, userId: Id, request: Request, id: Id)
    requires Inv(s) && Filed(s) && id !in s.commands && s.clock < request.expiresAt
    ensures var s' := TryDispatch(Admit(s, userId, request, id), id);
      var online := Link(s, request.targetDeviceId).Some?;
      && s'.commands == s.commands[id := Asked(s, userId, request, id,
                                               if NeedsApproval(request.tool) then AwaitingApproval
                                               else if online then Dispatched else Queued)]
      && (id in s'.approvals <==> NeedsApproval(request.tool))
      && (id in s'.approvals ==>
            s'.approvals[id] == Approval(id, userId, Pending, NeedsBiometric(request.tool), false, None, None, s.clock))
      && |s'.sent| == |s.sent| + if online && !NeedsApproval(request.tool) then 1 else 0
  {
    assert id !in s.approvals;
    var s1 := Admit(s, userId, request, id);
    var c := Asked(s, userId, request, id, InitialStatus(request.tool));
    AdmitStores(s, userId, request, id);
    assert s1.commands[id] == c && s1.clock == s.clock;
    ClearedAtFirst(s1, c);
    hide Inv, Filed, Admit, TryDispatch, Tried, Stored, Link, Cleared;
    TryDispatchTried(s1, id);
    StoredTried(s, s1, TryDispatch(s1, id), c);
  }

  // ---------------------------------------------------------------- decide

  /** The user may rule this way on the command, now. */
  ghost predicate MayRule(s: State, userId: Id, id: Id, approve: bool, verified: bool) {
    && id in s.commands && s.commands[id].userId == userId && s.commands[id].status == AwaitingApproval
    && s.clock < s.commands[id].request.expiresAt
    && (approve && NeedsBiometric(s.commands[id].request.tool) ==> verified)
  }

  /** What a verdict brings about: a denied command is cancelled; an approved one is with its device at once if that is
      online, and queued otherwise. No other command changes. */
  ghost predicate RuledOn(s: State, s': State, id: Id, approve: bool, verified: bool)
    requires id in s.commands
  {
    var c := s.commands[id];
    var online := Connected(s, c.request.targetDeviceId);
    var status := if !approve then Cancelled else if online then Dispatched else Queued;
    && s'.commands == s.commands[id := c.(status := status, updatedAt := s.clock)]
    && id in s'.approvals && s'.approvals[id].decision == (if approve then Granted else Denied)
    && s'.approvals[id].biometricVerified == verified && s'.approvals[id].decidedAt == Some(s.clock)
    && |s'.sent| == |s.sent| + if approve && online then 1 else 0
  }

  lemma PendingWhileAwaiting(s: State, id: Id)
    requires Inv(s) && id in s.commands && s.commands[id].status == AwaitingApproval
    ensures id in s.approvals && s.approvals[id].decision == Pending && s.approvals[id].userId == s.commands[id].userId
    ensures s.approvals[id].biometricRequired == NeedsBiometric(s.commands[id].request.tool)
    ensures s.commands[id].id == id
  {
    CoreAt(s, id);
    assert Lawful(RecOf(s, id));
    hide Replay, Trail, SendsOf;
  }

  lemma RuleStores(s: State, id: Id, approve: bool, verified: bool)
    requires Filed(s) && Rulable(s, id, approve, verified)
    ensures var s' := Rule(s, s.commands[id], s.approvals[id], approve, verified);
      && s'.commands == s.commands[id := WithStatus(s.commands[id], if approve then Queued else Cancelled, s.clock)]
      && s'.approvals == s.approvals[id := s.approvals[id].(decision := if approve then Granted else Denied,
                                                            biometricVerified := verified, decidedAt := Some(s.clock))]
      && s'.sent == s.sent && s'.clock == s.clock && s'.byDevice == s.byDevice && s'.open == s.open
  {
    hide Filed;
  }

  ghost predicate ApprovalStands(s: State, s': State, id: Id)
    requires id in s.approvals
  {
    id in s'.approvals && s'.approvals[id] == s.approvals[id].(consumedAt := s'.approvals[id].consumedAt)
  }

  lemma HandOverApproval(s: State, id: Id, socket: Socket)
    requires Filed(s) && id in s.commands && id in s.approvals
    ensures ApprovalStands(s, HandOver(s, id, socket), id)
  {
    assert s.commands[id].id == id;
    hide Filed;
  }

  lemma ExpireApproval(s: State, id: Id)
    requires Filed(s) && id in s.commands && id in s.approvals
    ensures ApprovalStands(s, ExpireIfNeeded(s, id), id) && ApprovalStands(s, s, id)
  {
    hide Filed;
  }

  lemma ApprovalTried(s: State, id: Id)
    requires Filed(s) && id in s.commands && id in s.approvals
    ensures ApprovalStands(s, TryDispatch(s, id), id)
  {
    hide Filed, TryDispatch, HandOver, ExpireIfNeeded, ApprovalStands;
    ExpireApproval(s, id);
    var socket := TryDispatchCases(s, id);
    if socket.Some? {
      HandOverApproval(s, id, socket.value);
    }
  }

  lemma RulingTried(s: State, id: Id, approve: bool, verified: bool)
    requires Filed(s) && Rulable(s, id, approve, verified) && s.clock < s.commands[id].request.expiresAt
    requires s.approvals[id].userId == s.commands[id].userId
    ensures RuledOn(s, TryDispatch(Rule(s, s.commands[id], s.approvals[id], approve, verified), id), id,
                    approve, verified)
  {
    hide Filed, Rule, TryDispatch;
    var s1 := Rule(s, s.commands[id], s.approvals[id], approve, verified);
    RuleStores(s, id, approve, verified);
    TryDispatchTried(s1, id);
    ApprovalTried(s1, id);
  }

  /** A decision is accepted just if the command is this user's, awaits approval, has not expired, and an approval that
      must be verified is. The command then has its verdict. Otherwise nothing changes but that an overdue command of
      the user expires; the reason is `NotFound` just for a command that is not theirs, and `Forbidden` just when
      nothing but the verification is missing. */
  lemma DecideAnswers(s: State, userId: Id, id: Id, approve: bool, verified: bool)
    requires Inv(s) && Filed(s)
    ensures var (s', reply) := Decide(s, userId, id, approve, verified);
      && (reply.Ok? <==> MayRule(s, userId, id, approve, verified))
      && (reply.Ok? ==> RuledOn(s, s', id, approve, verified) && reply.value == s'.commands[id])
      && (reply.Refused? ==> s' == s || (Theirs(s, userId, id) && Lapsed(s, s', id)))
      && (reply == Refused(NotFound) <==> !Theirs(s, userId, id))
      && (reply == Refused(Forbidden) <==>
            MayRule(s, userId, id, approve, true) && !MayRule(s, userId, id, approve, verified))
  {
    hide Decide, Inv, Filed, Rule, TryDispatch, RuledOn, ExpireIfNeeded, Lapsed;
    if id in s.commands {
      ExpireLapses(s, id);
    }
    if id in s.commands && s.commands[id].status == AwaitingApproval {
      PendingWhileAwaiting(s, id);
    }
    DecideReply(s, userId, id, approve, verified);
    if MayRule(s, userId, id, approve, verified) {
      RulingTried(s, id, approve, verified);
    }
  }

  predicate Theirs(s: State, userId: Id, id: Id) {
    id in s.commands && s.commands[id].userId == userId
  }

  lemma DecideReply(s: State, userId: Id, id: Id, approve: bool, verified: bool)
    requires Filed(s)
    requires id in s.commands && s.commands[id].status == AwaitingApproval ==>
      id in s.approvals && s.approvals[id].decision == Pending && s.approvals[id].userId == s.commands[id].userId
      && s.approvals[id].biometricRequired == NeedsBiometric(s.commands[id].request.tool)
    ensures var (s', reply) := Decide(s, userId, id, approve, verified);
      if !Theirs(s, userId, id) then s' == s && reply == Refused(NotFound)
      else if Overdue(s.commands[id], s.clock) then s' == ExpireIfNeeded(s, id) && reply == Refused(Conflict)
      else if s.commands[id].status != AwaitingApproval then s' == s && reply == Refused(Conflict)
      else if !MayRule(s, userId, id, approve, verified) then s' == s && reply == Refused(Forbidden)
      else s' == TryDispatch(Rule(s, s.commands[id], s.approvals[id], approve, verified), id)
           && id in s'.commands && reply == Ok(s'.commands[id])
  {
    if Theirs(s, userId, id) {
      assert Overdue(s.commands[id], s.clock) ==> Get(s, userId, id).1 == Ok(Aged(s.commands[id], s.clock));
    }
    hide Rule, TryDispatch, Filed;
  }

  // ---------------------------------------------------------------- get

  /** A user is shown their own command, which expires first if it is overdue, and no other. */
  lemma GetAnswers(s: State, userId: Id, id: Id)
    requires Filed(s)
    ensures var (s', reply) := Get(s, userId, id);
      && (reply.Ok? <==> id in s.commands && s.commands[id].userId == userId)
      && (reply.Ok? ==> id in s'.commands && reply.value == s'.commands[id] && (s' == s || Lapsed(s, s', id))
                        && !(reply.value.request.expiresAt <= s.clock
                             && reply.value.status !in {Succeeded, Failed, Cancelled, Expired}))
      && (reply.Refused? ==> s' == s && reply.reason == NotFound)
  {
    if id in s.commands {
      ExpireLapses(s, id);
      assert s.commands[id].id == id;
    }
    hide Filed, ExpireIfNeeded;
  }

  // ---------------------------------------------------------------- results

  /** A result is accepted just if its command was sent to the device the socket speaks for and has no end yet, or has
      just this end; only in the first case anything changes, and then just the command, its result and the log. */
  lemma ReportAnswers(s: State, socket: Socket, result: ActionResult)
    requires Filed(s)
    ensures var (s', reply) := Report(s, socket, result);
      var id := result.commandId;
      var known := socket in s.bySocket && id in s.commands
                   && s.commands[id].request.targetDeviceId == s.bySocket[socket];
      && (reply.Ok? <==> known && (s.commands[id].status in {Dispatched, Running}
                                   || (Terminal(s.commands[id].status) && s.commands[id].status == result.status)))
      && (if known && s.commands[id].status in {Dispatched, Running}
          then s' == s.(commands := s.commands[id := s.commands[id].(status := result.status, updatedAt := s.clock)],
                        results := s.results[id := result], audit := s'.audit)
               && reply.value == s'.commands[id] && |s'.audit| == |s.audit| + 1
          else s' == s)
      && (reply == Refused(Forbidden) <==> socket !in s.bySocket)
      && (reply == Refused(NotFound) <==> socket in s.bySocket && !known)
  {
  }

  // ---------------------------------------------------------------- hello

  /** All these commands went out over the socket, one message each, in this order; nothing else changed. */
  ghost predicate AllGone(s: State, s': State, ids: seq<Id>, socket: Socket)
    requires forall id :: id in ids ==> id in s.commands
  {
    && s'.clock == s.clock && s'.byDevice == s.byDevice && s'.open == s.open
    && s'.commands.Keys == s.commands.Keys && s.sent <= s'.sent && |s'.sent| == |s.sent| + |ids|
    && (forall k :: 0 <= k < |ids| ==> Went(s, s', ids[k], s'.sent[|s.sent| + k], socket))
    && (forall id {:trigger id in s.commands} :: id in s.commands && id !in ids ==> s'.commands[id] == s.commands[id])
    && (forall id {:trigger id in s.approvals} :: id in s.approvals && id !in ids ==>
          id in s'.approvals && s'.approvals[id] == s.approvals[id])
  }

  ghost predicate Went(s: State, s': State, id: Id, m: Sent, socket: Socket)
    requires id in s.commands
  {
    && id in s'.commands && s'.commands[id] == Gone(s.commands[id], s.clock)
    && m.socket == socket && m.message == DispatchOf(s'.commands[id])
  }

  ghost predicate Goes(s: State, id: Id, socket: Socket) {
    MayGo(s, id) && Link(s, s.commands[id].request.targetDeviceId) == Some(socket)
  }

  lemma GoesNeeds(s: State, id: Id, socket: Socket)
    requires Filed(s) && Goes(s, id, socket)
    ensures id in s.commands && s.commands[id].id == id
    ensures NeedsApproval(s.commands[id].request.tool) && s.commands[id].status == Queued ==> id in s.approvals
  {
    assert s.commands[id].id == id;
  }

  /** One more after the others: it still goes, as nothing it depends on was touched. */
  lemma GoesAfter(s: State, t: State, ids: seq<Id>, id: Id, socket: Socket)
    requires forall i :: i in ids ==> i in s.commands
    requires AllGone(s, t, ids, socket) && Goes(s, id, socket) && id !in ids && s.commands[id].id == id
    requires NeedsApproval(s.commands[id].request.tool) && s.commands[id].status == Queued ==> id in s.approvals
    ensures Goes(t, id, socket) && t.commands[id] == s.commands[id]
  {
    hide Went, Gone;
    assert id in s.commands && t.commands[id] == s.commands[id];
    assert id in s.approvals ==> id in t.approvals && t.approvals[id] == s.approvals[id];
    assert MayGo(t, id);
  }

  lemma AllGoneMore(s: State, t: State, s': State, ids: seq<Id>, id: Id, socket: Socket)
    requires id in s.commands && forall i :: i in ids ==> i in s.commands
    requires AllGone(s, t, ids, socket) && id !in ids && id in t.commands && t.commands[id] == s.commands[id]
    requires OneMore(t, s', id, socket)
    ensures AllGone(s, s', ids + [id], socket)
  {
    forall k | 0 <= k < |ids| + 1
      ensures Went(s, s', (ids + [id])[k], s'.sent[|s.sent| + k], socket)
    {
      if k < |ids| {
        assert Went(s, t, ids[k], t.sent[|s.sent| + k], socket) && ids[k] in ids;
        assert s'.sent[|s.sent| + k] == t.sent[|s.sent| + k];
      }
    }
    assert forall i :: i in s.approvals && i !in ids + [id] ==> i !in ids && i != id;
  }

  lemma {:induction false} AllSent(s: State, ids: seq<Id>, socket: Socket)
    requires Filed(s) && Distinct(ids)
    requires forall id :: id in ids ==> id in s.commands && Goes(s, id, socket)
    ensures forall id :: id in ids ==> id in s.commands
    ensures AllGone(s, DispatchAll(s, ids), ids, socket)
  {
    if ids == [] {
    } else {
      var front, id := ids[..|ids| - 1], ids[|ids| - 1];
      assert ids == front + [id] && id !in front && id in ids && Distinct(front);
      var t := DispatchAll(s, front);
      hide Goes, AllGone, Filed, TryDispatch;
      AllSent(s, front, socket);
      GoesNeeds(s, id, socket);
      GoesAfter(s, t, front, id, socket);
      GoesSends(t, id, socket);
      AllGoneMore(s, t, TryDispatch(t, id), front, id, socket);
    }
  }

  lemma GoesSends(s: State, id: Id, socket: Socket)
    requires Filed(s) && Goes(s, id, socket)
    ensures id in s.commands && OneMore(s, TryDispatch(s, id), id, socket)
  {
    hide Filed, TryDispatch, OneMore;
    SentOver(s, id, socket);
  }

  lemma QueuedIsCleared(s: State, id: Id)
    requires Inv(s) && id in s.commands && s.commands[id].status in {Queued, Dispatched}
    ensures Cleared(s, s.commands[id])
  {
    CoreAt(s, id);
    assert Lawful(RecOf(s, id)) && s.commands[id].id == id;
    hide Replay, Trail, SendsOf;
  }

  /** An accepted hello of an executor over an open socket sends it, over that socket and in the order in which they
      were created, exactly the device's unexpired commands that are queued or were sent without having started. */
  lemma HelloSendsPending(s: State, socket: Socket, deviceId: Id)
    requires Inv(s) && Filed(s)
    requires deviceId in s.devices && s.devices[deviceId].kind == ExecutorDevice && socket in s.open
    ensures forall id :: id in ListDispatchable(s, deviceId) ==> id in s.commands
    ensures forall id :: id in ListDispatchable(s, deviceId) <==>
              id in s.commands && s.commands[id].request.targetDeviceId == deviceId
              && s.commands[id].status in {Queued, Dispatched} && s.clock < s.commands[id].request.expiresAt
    ensures AllGone(Greeted(s, socket, deviceId), Hello(s, socket, deviceId, true), ListDispatchable(s, deviceId),
                    socket)
    ensures Greeted(s, socket, deviceId).commands == s.commands && Greeted(s, socket, deviceId).sent == s.sent
  {
    var pending := ListDispatchable(s, deviceId);
    ListDispatchableIs(s, deviceId);
    HelloIs(s, socket, deviceId);
    hide Filed, DispatchAll, ListDispatchable, Greeted, AllGone, Goes, Hello;
    forall id | id in pending
      ensures id in s.commands && Goes(Greeted(s, socket, deviceId), id, socket)
    {
      QueuedIsCleared(s, id);
      GreetedGoes(s, socket, deviceId, id);
    }
    AllSent(Greeted(s, socket, deviceId), pending, socket);
  }

  lemma HelloIs(s: State, socket: Socket, deviceId: Id)
    requires Filed(s) && deviceId in s.devices && s.devices[deviceId].kind == ExecutorDevice
    ensures var s1 := Greeted(s, socket, deviceId);
      && Filed(s1) && s1.commands == s.commands && s1.sent == s.sent
      && (forall id :: id in ListDispatchable(s, deviceId) ==> id in s1.commands)
      && Hello(s, socket, deviceId, true) == DispatchAll(s1, ListDispatchable(s, deviceId))
  {
    var s1 := Greeted(s, socket, deviceId);
    assert s1.commands == s.commands && s1.order == s.order && s1.clock == s.clock && s1.sent == s.sent;
    assert ListDispatchable(s1, deviceId) == ListDispatchable(s, deviceId);
    ListDispatchableIs(s, deviceId);
    FiledAs(s, s1);
    hide DispatchAll, ListDispatchable, Filed;
  }

  lemma FiledAs(s: State, s': State)
    requires Filed(s) && s'.commands == s.commands && s'.order == s.order
    ensures Filed(s')
  {
  }

  lemma GreetedGoes(s: State, socket: Socket, deviceId: Id, id: Id)
    requires socket in s.open && id in s.commands && Dispatchable(s.commands[id], deviceId, s.clock)
    requires Cleared(s, s.commands[id])
    ensures Goes(Greeted(s, socket, deviceId), id, socket)
  {
  }

  // ---------------------------------------------------------------- listings

  /** An overdue command is shown as expired, any other as it is. */
  predicate ShownAs(c: Command, shown: Command, now: Instant) {
    if c.request.expiresAt <= now && c.status !in {Succeeded, Failed, Cancelled, Expired}
    then shown == c.(status := Expired, updatedAt := now) else shown == c
  }

  lemma AgedShows(c: Command, now: Instant)
    ensures ShownAs(c, Aged(c, now), now)
  {
  }

  /** A listing shows the user's newest commands, each once, newest first, as many as asked for (from 1 to 500) if there
      are as many; none of them is overdue, and none that is left out is newer than one that is shown. */
  lemma ListAnswers(s: State, userId: Id, limit: int)
    requires Filed(s)
    ensures var shown := List(s, userId, limit).1;
      var most := if limit < 1 then 1 else if limit > 500 then 500 else limit;
      && (forall k :: 0 <= k < |shown| ==> shown[k].userId == userId && shown[k].id in s.commands
                                           && ShownAs(s.commands[shown[k].id], shown[k], s.clock))
      && (forall j, k :: 0 <= j < k < |shown| ==>
            shown[j].id != shown[k].id && shown[j].createdAt >= shown[k].createdAt)
      && |shown| <= most
      && (forall id :: Theirs(s, userId, id) && (forall k :: 0 <= k < |shown| ==> shown[k].id != id) ==>
            |shown| == most
            && forall k :: 0 <= k < |shown| ==> s.commands[id].createdAt <= shown[k].createdAt)
  {
    hide List, ListCommands, Aged, Filed, ShownAs;
    var ids := ListCommands(s, userId, ListLimit(limit));
    var shown := List(s, userId, limit).1;
    ListIs(s, userId, limit);
    NewestIs(s, userId, ListLimit(limit));
    forall k | 0 <= k < |shown|
      ensures shown[k].id in s.commands && ShownAs(s.commands[shown[k].id], shown[k], s.clock)
    {
      AgedShows(s.commands[ids[k]], s.clock);
    }
    forall id | Theirs(s, userId, id) && (forall k :: 0 <= k < |shown| ==> shown[k].id != id)
      ensures |shown| == ListLimit(limit)
      ensures forall k :: 0 <= k < |shown| ==> s.commands[id].createdAt <= shown[k].createdAt
    {
      assert id !in ids;
    }
  }

  /** The commands of a listing, one by one. */
  lemma ListIs(s: State, userId: Id, limit: int)
    requires Filed(s)
    ensures var ids, shown := ListCommands(s, userId, ListLimit(limit)), List(s, userId, limit).1;
      |shown| == |ids| && forall k :: 0 <= k < |shown| ==> ListedAs(s, userId, ids[k], shown[k])
  {
    hide Filed, ListCommands, ListLimit, Aged, ListedAs;
    var ids, shown := ListCommands(s, userId, ListLimit(limit)), List(s, userId, limit).1;
    forall k | 0 <= k < |shown| ensures ListedAs(s, userId, ids[k], shown[k]) {
      assert ids[k] in ids;
      AgedIs(s, userId, ids[k]);
    }
  }

  ghost predicate ListedAs(s: State, userId: Id, id: Id, c: Command) {
    && id in s.commands && c == Aged(s.commands[id], s.clock)
    && c.id == id && c.userId == userId && c.createdAt == s.commands[id].createdAt
  }

  lemma AgedIs(s: State, userId: Id, id: Id)
    requires Filed(s) && id in s.commands && s.commands[id].userId == userId
    ensures ListedAs(s, userId, id, Aged(s.commands[id], s.clock))
  {
    hide Distinct;
  }

  lemma OwnNewest(s: State, userId: Id)
    requires Filed(s)
    ensures var own := Own(s.commands, s.order, userId);
      var byAge := (id: Id) => if id in s.commands then s.commands[id].createdAt else 0;
      var mine := NewestFirst(own, byAge);
      && (forall id :: id in mine <==> Theirs(s, userId, id))
      && forall j, k :: 0 <= j < k < |mine| ==> byAge(mine[j]) >= byAge(mine[k])
  {
    var own := Own(s.commands, s.order, userId);
    var byAge := (id: Id) => if id in s.commands then s.commands[id].createdAt else 0;
    var mine := NewestFirst(own, byAge);
    NewestFirstSorts(own, byAge);
    NewestFirstMembers(own, byAge);
    assert forall id :: Theirs(s, userId, id) ==> id in s.order && id in own;
    hide NewestFirst, Own;
  }

  lemma NewestIs(s: State, userId: Id, limit: nat)
    requires Filed(s)
    ensures var ids := ListCommands(s, userId, limit);
      && |ids| <= limit && Distinct(ids)
      && (forall j, k :: 0 <= j < k < |ids| ==> s.commands[ids[j]].createdAt >= s.commands[ids[k]].createdAt)
      && (forall id :: Theirs(s, userId, id) && id !in ids ==>
            |ids| == limit && forall k :: 0 <= k < |ids| ==> s.commands[id].createdAt <= s.commands[ids[k]].createdAt)
  {
    var own := Own(s.commands, s.order, userId);
    var mine := NewestFirst(own, (id: Id) => if id in s.commands then s.commands[id].createdAt else 0);
    var ids := ListCommands(s, userId, limit);
    OwnNewest(s, userId);
    ListCommandsDistinct(s, userId, limit);
    assert ids == if limit <= |mine| then mine[..limit] else mine;
    assert forall k :: 0 <= k < |mine| ==> mine[k] in mine;
    hide NewestFirst, ListCommands, Own, Filed;
    forall id | Theirs(s, userId, id) && id !in ids
      ensures |ids| == limit && forall k :: 0 <= k < |ids| ==> s.commands[id].createdAt <= s.commands[ids[k]].createdAt
    {
      assert id in mine;
      var j :| 0 <= j < |mine| && mine[j] == id;
      assert limit <= j;
    }
  }
}
