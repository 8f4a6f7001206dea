/** Expiry is lazy: an overdue command is marked only when some call looks at it. This module compares
    that with an eager server, which expires every overdue command at once whenever the clock moves. */
module EagerExpiry {
  import opened Wrappers
  import opened Protocol
  import opened Lifecycle
  import opened Ordering
  import opened Server
  import opened ServerInvariant
  import opened ServerSteps
  import opened ServerMoves
  import opened ServerRuns

  /** One step of the eager server. */
  function EagerApply(e: State, step: Step): (r: (State, Response))
    requires Filed(e) && Possible(e, step)
    ensures Filed(r.0)
  {
    var (e', response) := Apply(e, step);
    if step.Tick? then (ExpireAll(e', e'.order), response) else (e', response)
  }

  // ---------------------------------------------------------------- what a caller can tell apart

  /** The moment at which an expired command was marked is the one thing that may differ. */
  function Blur(c: Command): Command {
    if c.status == Expired then c.(updatedAt := 0) else c
  }

  predicate SameReply(a: Reply<Command>, b: Reply<Command>) {
    (a.Refused? && a == b) || (a.Ok? && b.Ok? && Blur(a.value) == Blur(b.value))
  }

  predicate SameResponse(a: Response, b: Response) {
    match a
    case Silent => b == Silent
    case One(reply) => b.One? && SameReply(reply, b.reply)
    case Many(listed) =>
      b.Many? && |b.commands| == |listed| && forall k :: 0 <= k < |listed| ==> Blur(listed[k]) == Blur(b.commands[k])
  }

  /** The messages agree in everything but their place in the audit log. */
  predicate SameSent(a: seq<Sent>, b: seq<Sent>) {
    |a| == |b| && forall k :: 0 <= k < |a| ==> a[k].(mark := 0) == b[k].(mark := 0)
  }

  // ---------------------------------------------------------------- the simulation

  ghost predicate SameEnvironment(l: State, e: State) {
    e == l.(commands := e.commands, audit := e.audit, sent := e.sent)
  }

  ghost predicate Alike(l: State, e: State, id: Id)
    requires id in l.commands && id in e.commands
  {
    Blur(Aged(l.commands[id], l.clock)) == Blur(e.commands[id])
  }

  /** The eager state is the lazy one with everything overdue expired. */
  ghost predicate Twins(l: State, e: State) {
    && SameEnvironment(l, e) && l.commands.Keys == e.commands.Keys
    && Filed(l) && Filed(e)
    && SameSent(l.sent, e.sent)
    && forall id {:trigger id in l.commands} :: id in l.commands ==> Alike(l, e, id)
  }

  lemma AlikeMeans(l: State, e: State, id: Id)
    requires Twins(l, e) && id in l.commands
    ensures id in e.commands && !Overdue(e.commands[id], e.clock)
    ensures Overdue(l.commands[id], l.clock) ==> e.commands[id].status == Expired
    ensures (!Overdue(l.commands[id], l.clock) && l.commands[id].status != Expired) ==>
              e.commands[id] == l.commands[id]
    ensures !Overdue(l.commands[id], l.clock) ==> e.commands[id].status == l.commands[id].status
    ensures SameIdentity(l.commands[id], e.commands[id])
  {
    assert Alike(l, e, id);
  }

  ghost predicate ChangedAt(s: State, s': State, id: Id) {
    && id in s'.commands && Filed(s')
    && s' == s.(commands := s.commands[id := s'.commands[id]], approvals := s'.approvals, results := s'.results,
                audit := s'.audit, sent := s'.sent)
  }

  /** Only the command `id` of both states changes, alike, and the rest of both changes alike. */
  lemma TwinsAt(l: State, e: State, l': State, e': State, id: Id)
    requires Twins(l, e) && id in l.commands && ChangedAt(l, l', id) && ChangedAt(e, e', id)
    requires e'.approvals == l'.approvals && e'.results == l'.results && SameSent(l'.sent, e'.sent)
    requires Blur(Aged(l'.commands[id], l'.clock)) == Blur(e'.commands[id])
    ensures Twins(l', e')
  {
    hide Filed, SameSent;
    forall j | j in l'.commands ensures Alike(l', e', j) {
      assert j in l.commands && Alike(l, e, j);
    }
  }

  lemma ExpireIs(s: State, id: Id)
    requires Filed(s) && id in s.commands
    ensures var s' := ExpireIfNeeded(s, id);
      s' == s.(commands := s.commands[id := Aged(s.commands[id], s.clock)], audit := s'.audit) && ChangedAt(s, s', id)
    ensures !Overdue(s.commands[id], s.clock) ==> ExpireIfNeeded(s, id) == s
  {
    assert s.commands[id := s.commands[id]] == s.commands;
  }

  lemma ExpireTwins(l: State, e: State, id: Id)
    requires Twins(l, e) && id in l.commands
    ensures Twins(ExpireIfNeeded(l, id), e)
  {
    ExpireIs(l, id);
    AlikeMeans(l, e, id);
    assert Alike(l, e, id) && e.commands[id := e.commands[id]] == e.commands;
    var l' := ExpireIfNeeded(l, id);
    assert ChangedAt(e, e, id);
    hide ExpireIfNeeded, Filed, ChangedAt;
    TwinsAt(l, e, l', e, id);
  }

  lemma HandOverIs(s: State, id: Id, socket: Socket)
    requires Filed(s) && id in s.commands
    ensures var c, s' := s.commands[id], HandOver(s, id, socket);
      && ChangedAt(s, s', id) && s'.results == s.results && s'.clock == s.clock
      && s'.approvals == (if c.status == Queued then Claim(s, c) else s).approvals
  {
    hide Filed, HandOver, Claim;
    HandOverFrame(s, id, socket);
  }

  lemma SameSentMore(a: seq<Sent>, b: seq<Sent>, m: Sent, n: Sent)
    requires SameSent(a, b) && m.(mark := 0) == n.(mark := 0)
    ensures SameSent(a + [m], b + [n])
  {
  }

  lemma HandOverSent(l: State, e: State, id: Id, socket: Socket)
    requires Twins(l, e) && id in l.commands && id in e.commands && e.commands[id] == l.commands[id]
    ensures SameSent(HandOver(l, id, socket).sent, HandOver(e, id, socket).sent)
    ensures HandOver(e, id, socket).commands[id] == HandOver(l, id, socket).commands[id]
  {
    HandOverLogs(l, id, socket);
    HandOverLogs(e, id, socket);
    var l', e' := HandOver(l, id, socket), HandOver(e, id, socket);
    hide HandOver, Filed;
    SameSentMore(l.sent, e.sent, l'.sent[|l.sent|], e'.sent[|e.sent|]);
  }

  lemma HandOverAlike(l: State, e: State, id: Id, socket: Socket)
    requires Twins(l, e) && id in l.commands && id in e.commands && e.commands[id] == l.commands[id]
    requires l.commands[id].status in {Queued, Dispatched}
    ensures var l', e' := HandOver(l, id, socket), HandOver(e, id, socket);
      Blur(Aged(l'.commands[id], l'.clock)) == Blur(e'.commands[id])
  {
    AlikeMeans(l, e, id);
    HandOverLogs(l, id, socket);
    HandOverIs(l, id, socket);
    HandOverSent(l, e, id, socket);
    hide HandOver, Filed, Twins, SameSent, ChangedAt, Claim;
  }

  lemma HandOverApprovals(l: State, e: State, id: Id, socket: Socket)
    requires Twins(l, e) && id in l.commands && id in e.commands && e.commands[id] == l.commands[id]
    ensures Filed(l) && Filed(e)
    ensures HandOver(e, id, socket).approvals == HandOver(l, id, socket).approvals
    ensures HandOver(e, id, socket).results == HandOver(l, id, socket).results
  {
    ClaimSame(l, e, l.commands[id]);
    hide Twins, Claim, HandOver, Filed, ChangedAt;
    HandOverIs(l, id, socket);
    HandOverIs(e, id, socket);
  }

  lemma ClaimSame(l: State, e: State, c: Command)
    requires Twins(l, e) && c.id in l.commands && l.commands[c.id] == c
    ensures c.id in e.commands && Filed(l) && Filed(e) && l.approvals == e.approvals && l.results == e.results
    ensures Claim(l, c).approvals == Claim(e, c).approvals
  {
    hide Filed;
    assert Filed(l) && Filed(e);
  }

  lemma HandOverTwins(l: State, e: State, id: Id, socket: Socket)
    requires Twins(l, e) && id in l.commands && id in e.commands && e.commands[id] == l.commands[id]
    requires l.commands[id].status in {Queued, Dispatched}
    ensures Filed(l) && Filed(e)
    ensures Twins(HandOver(l, id, socket), HandOver(e, id, socket))
  {
    hide *;
    HandOverApprovals(l, e, id, socket);
    HandOverIs(l, id, socket);
    HandOverIs(e, id, socket);
    HandOverSent(l, e, id, socket);
    HandOverAlike(l, e, id, socket);
    ChangedAtIs(l, HandOver(l, id, socket), id);
    TwinsAt(l, e, HandOver(l, id, socket), HandOver(e, id, socket), id);
  }

  lemma ChangedAtIs(s: State, s': State, id: Id)
    requires ChangedAt(s, s', id)
    ensures id in s'.commands
  {
  }

  lemma ClearedSame(l: State, e: State, id: Id)
    requires Twins(l, e) && id in l.commands && id in e.commands && e.commands[id] == l.commands[id]
    ensures Cleared(l, l.commands[id]) == Cleared(e, e.commands[id])
    ensures Link(l, l.commands[id].request.targetDeviceId) == Link(e, l.commands[id].request.targetDeviceId)
    ensures l.clock == e.clock
  {
  }

  lemma TryDispatchTwins(l: State, e: State, id: Id)
    requires Twins(l, e) && id in l.commands
    ensures id in e.commands && Filed(l) && Filed(e) && Twins(TryDispatch(l, id), TryDispatch(e, id))
  {
    AlikeMeans(l, e, id);
    ExpireTwins(l, e, id);
    assert Filed(l) && Filed(e) && l.clock == e.clock;
    var c := l.commands[id];
    hide Filed, HandOver, ExpireIfNeeded, Twins, Cleared, Link;
    if c.status !in {Queued, Dispatched} {
    } else if c.request.expiresAt <= l.clock {
    } else {
      ClearedSame(l, e, id);
      var socket := Link(l, c.request.targetDeviceId);
      if socket.Some? && Cleared(l, c) {
        HandOverTwins(l, e, id, socket.value);
      }
    }
  }

  lemma {:induction false} DispatchAllTwins(l: State, e: State, ids: seq<Id>)
    requires Twins(l, e) && forall id :: id in ids ==> id in l.commands
    ensures Filed(l) && Filed(e) && forall id :: id in ids ==> id in e.commands
    ensures Twins(DispatchAll(l, ids), DispatchAll(e, ids))
  {
    hide TryDispatch;
    if ids != [] {
      var front := ids[..|ids| - 1];
      DispatchAllTwins(l, e, front);
      TryDispatchTwins(DispatchAll(l, front), DispatchAll(e, front), ids[|ids| - 1]);
    }
  }

  lemma {:induction false} ExpireAllTwins(l: State, e: State, ids: seq<Id>)
    requires Twins(l, e) && forall id :: id in ids ==> id in l.commands
    ensures Filed(l) && Twins(ExpireAll(l, ids), e)
  {
    hide ExpireIfNeeded;
    if ids != [] {
      var front := ids[..|ids| - 1];
      ExpireAllTwins(l, e, front);
      ExpireTwins(ExpireAll(l, front), e, ids[|ids| - 1]);
    }
  }

  // ---------------------------------------------------------------- calls

  /** Whatever is listed lists the same commands, which differ at most in status and time of change. */
  lemma OrderTwins(l: State, e: State)
    requires Twins(l, e)
    ensures l.order == e.order && l.clock == e.clock
    ensures forall id :: id in l.order ==> id in l.commands && id in e.commands && Alike(l, e, id)
  {
    hide SameSent, Alike, Distinct;
  }

  lemma KeySame(l: State, e: State, userId: Id, key: string)
    requires Twins(l, e)
    ensures FindByKey(l, userId, key) == FindByKey(e, userId, key)
  {
    hide Twins, FindFirst;
    OrderTwins(l, e);
    FindFirstSame(l.order, Keyed(l.commands, userId, key), Keyed(e.commands, userId, key));
  }

  lemma PendingSame(l: State, e: State, deviceId: Id)
    requires Twins(l, e)
    ensures ListDispatchable(l, deviceId) == ListDispatchable(e, deviceId)
    ensures forall id :: id in ListDispatchable(l, deviceId) ==> id in l.commands && id in e.commands
  {
    hide Twins;
    OrderTwins(l, e);
    FilterSame(l.order, Ready(l.commands, deviceId, l.clock), Ready(e.commands, deviceId, e.clock));
  }

  lemma ListingSame(l: State, e: State, userId: Id, limit: nat)
    requires Twins(l, e)
    ensures ListCommands(l, userId, limit) == ListCommands(e, userId, limit)
  {
    hide Twins, NewestFirst, Filter;
    OrderTwins(l, e);
    var p := (id: Id) => id in l.commands && l.commands[id].userId == userId;
    var q := (id: Id) => id in e.commands && e.commands[id].userId == userId;
    FilterSame(l.order, p, q);
    NewestFirstSame(Filter(l.order, p), (id: Id) => if id in l.commands then l.commands[id].createdAt else 0,
                                        (id: Id) => if id in e.commands then e.commands[id].createdAt else 0);
  }

  lemma SettledTwins(l: State, e: State, id: Id)
    requires Twins(l, e) && id in l.commands
    ensures id in e.commands && Twins(Settled(l, id).0, Settled(e, id).0)
    ensures SameReply(Settled(l, id).1, Settled(e, id).1)
  {
    ExpireTwins(l, e, id);
    AlikeMeans(l, e, id);
    ExpireIs(e, id);
    assert Alike(l, e, id);
    hide ExpireIfNeeded, Filed;
  }

  lemma GetTwins(l: State, e: State, userId: Id, id: Id)
    requires Twins(l, e)
    ensures Twins(Get(l, userId, id).0, Get(e, userId, id).0)
    ensures SameReply(Get(l, userId, id).1, Get(e, userId, id).1)
  {
    if id in l.commands {
      SettledTwins(l, e, id);
      AlikeMeans(l, e, id);
    }
    hide Settled, Filed;
  }

  function Listed(s: State, ids: seq<Id>): seq<Command>
    requires forall id :: id in ids ==> id in s.commands
  {
    seq(|ids|, i requires 0 <= i < |ids| => Aged(s.commands[ids[i]], s.clock))
  }

  lemma ListedSame(l: State, e: State, ids: seq<Id>)
    requires Twins(l, e) && forall id :: id in ids ==> id in l.commands
    ensures forall id :: id in ids ==> id in e.commands
    ensures SameResponse(Many(Listed(l, ids)), Many(Listed(e, ids)))
  {
    hide Filed, Aged, Blur;
    forall k | 0 <= k < |ids| ensures Blur(Listed(l, ids)[k]) == Blur(Listed(e, ids)[k]) {
      AgedSame(l, e, ids[k]);
    }
  }

  lemma AgedSame(l: State, e: State, id: Id)
    requires Twins(l, e) && id in l.commands
    ensures id in e.commands && Blur(Aged(l.commands[id], l.clock)) == Blur(Aged(e.commands[id], e.clock))
  {
    AlikeMeans(l, e, id);
    assert Alike(l, e, id);
  }

  lemma ListTwins(l: State, e: State, userId: Id, limit: int)
    requires Twins(l, e)
    ensures Twins(List(l, userId, limit).0, List(e, userId, limit).0)
    ensures SameResponse(Many(List(l, userId, limit).1), Many(List(e, userId, limit).1))
  {
    ListingSame(l, e, userId, ListLimit(limit));
    var ids := ListCommands(l, userId, ListLimit(limit));
    assert List(l, userId, limit) == (ExpireAll(l, ids), Listed(l, ids));
    assert List(e, userId, limit) == (ExpireAll(e, ids), Listed(e, ids));
    assert forall id :: id in ids ==> id in e.commands;
    hide *;
    ExpireAllTwins(l, e, ids);
    EagerExpiresNothing(l, e, ids);
    ListedSame(l, e, ids);
  }

  lemma {:induction false} EagerExpiresNothing(l: State, e: State, ids: seq<Id>)
    requires Twins(l, e) && Filed(e) && forall id :: id in ids ==> id in e.commands
    ensures ExpireAll(e, ids) == e
  {
    if ids != [] {
      EagerExpiresNothing(l, e, ids[..|ids| - 1]);
      AlikeMeans(l, e, ids[|ids| - 1]);
      ExpireIs(e, ids[|ids| - 1]);
      hide ExpireIfNeeded, Filed;
    }
  }

  lemma AdmitTwins(l: State, e: State, userId: Id, request: Request, id: Id)
    requires Twins(l, e) && id !in l.commands && l.clock < request.expiresAt
    ensures Twins(Admit(l, userId, request, id), Admit(e, userId, request, id))
    ensures id in Admit(l, userId, request, id).commands
  {
    AdmitIs(l, userId, request, id);
    AdmitIs(e, userId, request, id);
    var l', e' := Admit(l, userId, request, id), Admit(e, userId, request, id);
    assert Filed(l') && Filed(e');
    hide Admit, Filed;
    forall j | j in l'.commands ensures Alike(l', e', j) {
      if j != id {
        assert j in l.commands && Alike(l, e, j);
      }
    }
  }

  lemma StatusTwins(l: State, e: State, id: Id)
    requires Twins(l, e) && id in l.commands && l.clock < l.commands[id].request.expiresAt
    ensures id in e.commands && Blur(l.commands[id]) == Blur(e.commands[id])
  {
    assert Alike(l, e, id);
  }

  lemma AdmissionSame(l: State, e: State, userId: Id, request: Request)
    requires Twins(l, e)
    ensures Admission(l, userId, request) == Admission(e, userId, request)
  {
    KeySame(l, e, userId, request.idempotencyKey);
    FindByKeyFinds(l, userId, request.idempotencyKey);
    var found := FindByKey(l, userId, request.idempotencyKey);
    hide FindByKey, Filed;
    if found.Some? {
      AlikeMeans(l, e, found.value);
    }
  }

  lemma AdmitExpiry(s: State, userId: Id, request: Request, id: Id)
    requires Filed(s) && id !in s.commands && Admission(s, userId, request) == Ok(None)
    ensures id in Admit(s, userId, request, id).commands
    ensures var s' := TryDispatch(Admit(s, userId, request, id), id);
      id in s'.commands && s'.clock < s'.commands[id].request.expiresAt
  {
    AdmitIs(s, userId, request, id);
    var s1 := Admit(s, userId, request, id);
    assert s1.clock == s.clock < s1.commands[id].request.expiresAt;
    hide Admit, Filed, Admission;
    TryDispatchRequest(s1, id);
  }

  lemma TryDispatchRequest(s: State, id: Id)
    requires Filed(s) && id in s.commands
    ensures id in TryDispatch(s, id).commands && TryDispatch(s, id).clock == s.clock
    ensures TryDispatch(s, id).commands[id].request == s.commands[id].request
  {
    ExpireIs(s, id);
    var socket := TryDispatchCases(s, id);
    if socket.Some? {
      HandOverLogs(s, id, socket.value);
      HandOverIs(s, id, socket.value);
    }
    hide HandOver, Filed, TryDispatch, ExpireIfNeeded;
  }

  lemma CreateTwins(l: State, e: State, userId: Id, request: Request, id: Id)
    requires Twins(l, e) && id !in l.commands
    ensures Filed(l) && Filed(e) && id !in e.commands
    ensures Twins(Create(l, userId, request, id).0, Create(e, userId, request, id).0)
    ensures SameReply(Create(l, userId, request, id).1, Create(e, userId, request, id).1)
  {
    assert Filed(l) && Filed(e) && id !in e.commands;
    AdmissionSame(l, e, userId, request);
    hide Admit, TryDispatch, Settled, Filed, Admission, Twins, Blur;
    match Admission(l, userId, request)
    case Refused(_) =>
    case Ok(Some(found)) => SettledTwins(l, e, found);
    case Ok(None) =>
      AdmitExpiry(l, userId, request, id);
      AdmissionTime(l, userId, request);
      AdmitTwins(l, e, userId, request, id);
      var l1, e1 := Admit(l, userId, request, id), Admit(e, userId, request, id);
      TryDispatchTwins(l1, e1, id);
      StatusTwins(TryDispatch(l1, id), TryDispatch(e1, id), id);
  }

  lemma AdmissionTime(s: State, userId: Id, request: Request)
    requires Admission(s, userId, request) == Ok(None)
    ensures s.clock < request.expiresAt
  {
  }

  lemma RuleTwins(l: State, e: State, id: Id, approve: bool, verified: bool)
    requires Twins(l, e) && Rulable(l, id, approve, verified) && l.clock < l.commands[id].request.expiresAt
    ensures Rulable(e, id, approve, verified) && e.commands[id] == l.commands[id]
    ensures var l' := Rule(l, l.commands[id], l.approvals[id], approve, verified);
      var e' := Rule(e, e.commands[id], e.approvals[id], approve, verified);
      && Twins(l', e') && id in l'.commands && l'.clock < l'.commands[id].request.expiresAt
  {
    AlikeMeans(l, e, id);
    var l' := Rule(l, l.commands[id], l.approvals[id], approve, verified);
    var e' := Rule(e, e.commands[id], e.approvals[id], approve, verified);
    assert ChangedAt(l, l', id) && ChangedAt(e, e', id);
    hide Filed, ChangedAt;
    TwinsAt(l, e, l', e', id);
  }

  lemma DecideIs(s: State, userId: Id, id: Id, approve: bool, verified: bool)
    requires Filed(s)
    ensures var (s', reply) := Decide(s, userId, id, approve, verified);
      if GetCommand(s, userId, id).None? then s' == s && reply == Refused(NotFound)
      else if Aged(s.commands[id], s.clock).status != AwaitingApproval
        then s' == ExpireIfNeeded(s, id) && reply == Refused(Conflict)
      else
        var a := GetApproval(s, userId, id);
        && !Overdue(s.commands[id], s.clock)
        && if a.None? || a.value.decision != Pending then s' == s && reply == Refused(Conflict)
           else if a.value.biometricRequired && approve && !verified then s' == s && reply == Refused(Forbidden)
           else
             && Rulable(s, id, approve, verified)
             && s' == TryDispatch(Rule(s, s.commands[id], s.approvals[id], approve, verified), id)
             && id in s'.commands && reply == Ok(s'.commands[id])
  {
    if id in s.commands {
      ExpireIs(s, id);
    }
    hide ExpireIfNeeded, Rule, TryDispatch, Filed;
  }

  lemma DecideTwins(l: State, e: State, userId: Id, id: Id, approve: bool, verified: bool)
    requires Twins(l, e)
    ensures Filed(l) && Filed(e)
    ensures Twins(Decide(l, userId, id, approve, verified).0, Decide(e, userId, id, approve, verified).0)
    ensures SameReply(Decide(l, userId, id, approve, verified).1, Decide(e, userId, id, approve, verified).1)
  {
    hide Filed, Twins, Decide, ExpireIfNeeded, Rule, TryDispatch, Blur, Rulable;
    TwinsMean(l, e);
    DecideIs(l, userId, id, approve, verified);
    DecideIs(e, userId, id, approve, verified);
    if id in l.commands {
      AlikeMeans(l, e, id);
      ExpireTwins(l, e, id);
      ExpireIs(e, id);
    }
    if GetCommand(l, userId, id).Some? && Rulable(l, id, approve, verified)
       && Aged(l.commands[id], l.clock).status == AwaitingApproval {
      RulableTime(l, id, approve, verified);
      RuledTwins(l, e, id, approve, verified);
    }
  }

  lemma RuledTwins(l: State, e: State, id: Id, approve: bool, verified: bool)
    requires Twins(l, e) && Rulable(l, id, approve, verified) && l.clock < l.commands[id].request.expiresAt
    ensures Filed(l) && Filed(e) && Rulable(e, id, approve, verified)
    ensures var l' := TryDispatch(Rule(l, l.commands[id], l.approvals[id], approve, verified), id);
      var e' := TryDispatch(Rule(e, e.commands[id], e.approvals[id], approve, verified), id);
      Twins(l', e') && id in l'.commands && id in e'.commands && Blur(l'.commands[id]) == Blur(e'.commands[id])
  {
    RuleTwins(l, e, id, approve, verified);
    var l1 := Rule(l, l.commands[id], l.approvals[id], approve, verified);
    var e1 := Rule(e, e.commands[id], e.approvals[id], approve, verified);
    hide *;
    TryDispatchTwins(l1, e1, id);
    TryDispatchRequest(l1, id);
    StatusTwins(TryDispatch(l1, id), TryDispatch(e1, id), id);
  }

  lemma RulableTime(s: State, id: Id, approve: bool, verified: bool)
    requires Rulable(s, id, approve, verified) && Aged(s.commands[id], s.clock).status == AwaitingApproval
    ensures s.clock < s.commands[id].request.expiresAt && id in s.approvals && s.commands[id].id == id
  {
  }

  /** A result of the target device that arrives at or after the expiry of its command, which is still in flight. */
  predicate Divides(s: State, step: Step) {
    step.DoReport? && LateInFlight(s, step.socket, step.result)
  }

  predicate LateInFlight(s: State, socket: Socket, result: ActionResult) {
    && result.commandId in s.commands
    && var c := s.commands[result.commandId];
    && c.status in {Dispatched, Running} && c.request.expiresAt <= s.clock
    && socket in s.bySocket && s.bySocket[socket] == c.request.targetDeviceId
  }

  /** A late result for a command still in flight is accepted by the lazy server and refused by the eager one. */
  lemma LateResultTellsThemApart(l: State, e: State, socket: Socket, result: ActionResult)
    requires Twins(l, e) && LateInFlight(l, socket, result)
    ensures Filed(l) && Filed(e)
    ensures Report(l, socket, result).1.Ok? && Report(e, socket, result).1 == Refused(Conflict)
  {
    hide SameSent;
    AlikeMeans(l, e, result.commandId);
  }

  /** Such a result, and no other, is answered differently: the lazy server accepts it, the eager one refuses it. */
  lemma ReportTwins(l: State, e: State, socket: Socket, result: ActionResult)
    requires Twins(l, e)
    ensures Filed(l) && Filed(e)
    ensures SameReply(Report(l, socket, result).1, Report(e, socket, result).1) <==> !LateInFlight(l, socket, result)
    ensures !LateInFlight(l, socket, result) ==> Twins(Report(l, socket, result).0, Report(e, socket, result).0)
  {
    TwinsMean(l, e);
    var id := result.commandId;
    if LateInFlight(l, socket, result) {
      LateResultTellsThemApart(l, e, socket, result);
    } else if id in l.commands && socket in l.bySocket && l.bySocket[socket] == l.commands[id].request.targetDeviceId {
      KnownReportTwins(l, e, socket, result);
    } else {
      ForeignReportTwins(l, e, socket, result);
    }
  }

  lemma TwinsMean(l: State, e: State)
    requires Twins(l, e)
    ensures Filed(l) && Filed(e) && SameEnvironment(l, e) && l.commands.Keys == e.commands.Keys
  {
    hide Filed, SameSent, Alike;
  }

  lemma ForeignReportTwins(l: State, e: State, socket: Socket, result: ActionResult)
    requires Twins(l, e) && Filed(l) && Filed(e)
    requires result.commandId in l.commands && socket in l.bySocket ==>
               l.bySocket[socket] != l.commands[result.commandId].request.targetDeviceId
    ensures Report(l, socket, result).0 == l && Report(e, socket, result).0 == e
    ensures SameReply(Report(l, socket, result).1, Report(e, socket, result).1)
  {
    hide Filed, SameSent, Settle, Blur, Overdue;
    if result.commandId in l.commands {
      AlikeMeans(l, e, result.commandId);
    }
  }

  /** A result of the target device, in time or for a command not in flight. */
  lemma KnownReportTwins(l: State, e: State, socket: Socket, result: ActionResult)
    requires Twins(l, e) && Filed(l) && Filed(e) && !LateInFlight(l, socket, result)
    requires result.commandId in l.commands && socket in l.bySocket
    requires l.bySocket[socket] == l.commands[result.commandId].request.targetDeviceId
    ensures Twins(Report(l, socket, result).0, Report(e, socket, result).0)
    ensures SameReply(Report(l, socket, result).1, Report(e, socket, result).1)
  {
    hide Filed, SameSent, Settle, Alike;
    AlikeMeans(l, e, result.commandId);
    if l.commands[result.commandId].status in {Dispatched, Running} {
      SettleTwins(l, e, result);
    }
  }

  lemma SettleTwins(l: State, e: State, result: ActionResult)
    requires Twins(l, e) && result.commandId in l.commands && result.commandId in e.commands
    requires e.commands[result.commandId] == l.commands[result.commandId]
    requires l.clock < l.commands[result.commandId].request.expiresAt
    ensures Filed(l) && Filed(e)
    ensures Twins(Settle(l, l.commands[result.commandId], result), Settle(e, e.commands[result.commandId], result))
  {
    var id := result.commandId;
    var l', e' := Settle(l, l.commands[id], result), Settle(e, e.commands[id], result);
    assert l.commands[id].id == id && Filed(l') && Filed(e');
    assert ChangedAt(l, l', id) && ChangedAt(e, e', id);
    hide Filed, ChangedAt;
    TwinsAt(l, e, l', e', id);
  }

  // ---------------------------------------------------------------- gateway and clock

  lemma EnvironmentTwins(l: State, e: State, l': State, e': State)
    requires Twins(l, e) && Environment(l, l') && Environment(e, e') && SameEnvironment(l', e') && l'.clock == l.clock
    ensures Twins(l', e')
  {
    assert Filed(l') && Filed(e');
    hide Filed, SameSent;
    forall j | j in l'.commands ensures Alike(l', e', j) {
      assert j in l.commands && Alike(l, e, j);
    }
  }

  lemma GreetedTwins(l: State, e: State, socket: Socket, deviceId: Id)
    requires Twins(l, e)
    ensures Twins(Greeted(l, socket, deviceId), Greeted(e, socket, deviceId))
  {
    hide *;
    TwinsMean(l, e);
    GreetedSame(l, e, socket, deviceId);
    GreetingEnvironment(l, socket, deviceId);
    GreetingEnvironment(e, socket, deviceId);
    EnvironmentTwins(l, e, Greeted(l, socket, deviceId), Greeted(e, socket, deviceId));
  }

  lemma GreetedSame(l: State, e: State, socket: Socket, deviceId: Id)
    requires SameEnvironment(l, e)
    ensures SameEnvironment(Greeted(l, socket, deviceId), Greeted(e, socket, deviceId))
  {
    hide SetPresence;
    AttachSame(l, e, deviceId, socket);
    hide Attach;
    PresenceSame(Attach(l, deviceId, socket), Attach(e, deviceId, socket), deviceId, true);
  }

  lemma AttachSame(l: State, e: State, deviceId: Id, socket: Socket)
    requires SameEnvironment(l, e)
    ensures SameEnvironment(Attach(l, deviceId, socket), Attach(e, deviceId, socket))
  {
  }

  lemma GreetingEnvironment(s: State, socket: Socket, deviceId: Id)
    requires Filed(s)
    ensures Environment(s, Greeted(s, socket, deviceId)) && Greeted(s, socket, deviceId).clock == s.clock
  {
    hide Filed;
  }

  lemma HelloTwins(l: State, e: State, socket: Socket, deviceId: Id, valid: bool)
    requires Twins(l, e)
    ensures Filed(l) && Filed(e)
    ensures Twins(Hello(l, socket, deviceId, valid), Hello(e, socket, deviceId, valid))
  {
    assert Filed(l) && Filed(e) && l.devices == e.devices;
    hide Filed, Twins, DispatchAll, ListDispatchable, SetPresence, Attach;
    if deviceId !in l.devices || !valid {
      ShutTwins(l, e, {socket});
    } else {
      GreetedTwins(l, e, socket, deviceId);
      PendingTwins(Greeted(l, socket, deviceId), Greeted(e, socket, deviceId), deviceId);
    }
  }

  lemma PendingTwins(l: State, e: State, deviceId: Id)
    requires Twins(l, e)
    ensures Filed(l) && Filed(e)
    ensures Twins(DispatchAll(l, ListDispatchable(l, deviceId)), DispatchAll(e, ListDispatchable(e, deviceId)))
  {
    hide *;
    TwinsMean(l, e);
    PendingSame(l, e, deviceId);
    DispatchAllTwins(l, e, ListDispatchable(l, deviceId));
  }

  lemma ShutTwins(l: State, e: State, sockets: set<Socket>)
    requires Twins(l, e)
    ensures Twins(l.(open := l.open - sockets), e.(open := e.open - sockets))
  {
    hide Filed, SameSent;
    EnvironmentTwins(l, e, l.(open := l.open - sockets), e.(open := e.open - sockets));
  }

  lemma SignalTwins(l: State, e: State, socket: Socket, deviceId: Id, signal: string)
    requires Twins(l, e)
    ensures Twins(Signal(l, socket, deviceId, signal), Signal(e, socket, deviceId, signal))
  {
    hide Filed, SameSent, Twins;
    TwinsMean(l, e);
    var l', e' := Signal(l, socket, deviceId, signal), Signal(e, socket, deviceId, signal);
    if l' != l {
      var m, n := l'.sent[|l.sent|], e'.sent[|e.sent|];
      assert l' == l.(sent := l.sent + [m]) && e' == e.(sent := e.sent + [n]);
      SentTwins(l, e, m, n);
    }
  }

  /** Both servers send the same message, but for its place in the audit log. */
  lemma SentTwins(l: State, e: State, m: Sent, n: Sent)
    requires Twins(l, e) && m.(mark := 0) == n.(mark := 0)
    ensures Twins(l.(sent := l.sent + [m]), e.(sent := e.sent + [n]))
  {
    hide SameSent;
    SameSentMore(l.sent, e.sent, m, n);
    forall j | j in l.commands ensures Alike(l.(sent := l.sent + [m]), e.(sent := e.sent + [n]), j) {
      assert Alike(l, e, j);
    }
  }

  lemma {:induction false} ExpireAllIs(s: State, ids: seq<Id>)
    requires Filed(s) && forall id :: id in ids ==> id in s.commands
    ensures var s' := ExpireAll(s, ids);
      && s' == s.(commands := s'.commands, audit := s'.audit) && s'.commands.Keys == s.commands.Keys
      && (forall id {:trigger id in s.commands} :: id in s.commands ==>
            s'.commands[id] == if id in ids then Aged(s.commands[id], s.clock) else s.commands[id])
  {
    if ids != [] {
      var front, last := ids[..|ids| - 1], ids[|ids| - 1];
      assert ids == front + [last];
      ExpireAllIs(s, front);
      ExpireIs(ExpireAll(s, front), last);
      assert forall c: Command {:trigger Aged(c, s.clock)} :: Aged(Aged(c, s.clock), s.clock) == Aged(c, s.clock);
      hide ExpireIfNeeded, Filed, Aged, ChangedAt;
    }
  }

  /** A listing marks exactly the overdue commands that it shows; the store then has them as shown, and all others as
      before. */
  lemma ListExpires(s: State, userId: Id, limit: int)
    requires Filed(s)
    ensures var (s', shown) := List(s, userId, limit);
      && s' == s.(commands := s'.commands, audit := s'.audit) && s'.commands.Keys == s.commands.Keys
      && (forall k :: 0 <= k < |shown| ==> shown[k].id in s'.commands && s'.commands[shown[k].id] == shown[k])
      && forall id {:trigger id in s.commands} :: id in s.commands && (forall k :: 0 <= k < |shown| ==> shown[k].id != id)
           ==> s'.commands[id] == s.commands[id]
  {
    var ids := ListCommands(s, userId, ListLimit(limit));
    var (s', shown) := List(s, userId, limit);
    assert forall id :: id in ids ==> id in s.commands;
    hide ListCommands, ListLimit, ExpireAll, Aged;
    ExpireAllIs(s, ids);
    forall k | 0 <= k < |shown|
      ensures shown[k].id == ids[k] && ids[k] in s.commands && s'.commands[ids[k]] == shown[k]
    {
      assert ids[k] in ids && s.commands[ids[k]].id == ids[k];
      AgedKeepsId(s.commands[ids[k]], s.clock);
    }
    forall id | id in ids
      ensures exists k :: 0 <= k < |shown| && shown[k].id == id
    {
      var k :| 0 <= k < |ids| && ids[k] == id;
      assert shown[k].id == id;
    }
  }

  lemma AgedKeepsId(c: Command, now: Instant)
    ensures Aged(c, now).id == c.id
  {
  }

  lemma TickTwins(l: State, e: State, to: Instant)
    requires Twins(l, e)
    ensures Filed(l) && Filed(e)
    ensures Twins(Apply(l, Tick(to)).0, EagerApply(e, Tick(to)).0)
  {
    assert Filed(l) && Filed(e);
    var l', e1 := Apply(l, Tick(to)).0, Apply(e, Tick(to)).0;
    var e' := EagerApply(e, Tick(to)).0;
    assert l'.clock == e1.clock >= l.clock && Filed(l') && Filed(e');
    ExpireAllIs(e1, e1.order);
    forall j | j in l'.commands
      ensures j in e'.commands && Blur(Aged(l'.commands[j], l'.clock)) == Blur(e'.commands[j])
    {
      assert j in l.commands && Alike(l, e, j) && j in e1.order && j in e1.commands;
      AgedLater(l.commands[j], e.commands[j], l.clock, l'.clock);
    }
    hide Filed, ExpireAll, Aged, Blur;
    forall j | j in l'.commands ensures Alike(l', e', j) {
    }
  }

  lemma AgedLater(c: Command, d: Command, t: Instant, u: Instant)
    requires Blur(Aged(c, t)) == Blur(d) && t <= u
    ensures Blur(Aged(c, u)) == Blur(Aged(d, u))
  {
  }

  ghost predicate Minor(step: Step) {
    step.DoRegister? || step.Connect? || step.DoHeartbeat? || step.Shut? || step.DoDisconnect?
  }

  lemma DisconnectSame(l: State, e: State, socket: Socket)
    requires SameEnvironment(l, e)
    ensures SameEnvironment(Disconnect(l, socket), Disconnect(e, socket))
  {
    hide Detach, SetPresence;
    var l1, e1 := l.(open := l.open - {socket}), e.(open := e.open - {socket});
    assert SameEnvironment(l1, e1);
    if socket in l.bySocket {
      var d := l.bySocket[socket];
      DetachSame(l1, e1, socket, d);
      PresenceSame(Detach(l1, socket, d), Detach(e1, socket, d), d, false);
    }
  }

  lemma DetachSame(l: State, e: State, socket: Socket, d: Id)
    requires SameEnvironment(l, e)
    ensures SameEnvironment(Detach(l, socket, d), Detach(e, socket, d))
  {
  }

  lemma PresenceSame(l: State, e: State, d: Id, online: bool)
    requires SameEnvironment(l, e)
    ensures SameEnvironment(SetPresence(l, d, online), SetPresence(e, d, online))
  {
  }

  lemma MinorSame(l: State, e: State, step: Step)
    requires SameEnvironment(l, e) && Filed(l) && Filed(e) && Possible(l, step) && Possible(e, step) && Minor(step)
    ensures SameEnvironment(Apply(l, step).0, Apply(e, step).0)
  {
    hide Filed, Disconnect, SetPresence;
    match step {
      case DoDisconnect(socket) => DisconnectSame(l, e, socket);
      case DoHeartbeat(_, d) => PresenceSame(l, e, d, true);
      case _ =>
    }
  }

  lemma MinorEnvironment(s: State, step: Step)
    requires Filed(s) && Possible(s, step) && Minor(step)
    ensures Environment(s, Apply(s, step).0) && Apply(s, step).0.clock == s.clock && Apply(s, step).1 == Silent
  {
    hide Filed;
  }

  lemma MinorTwins(l: State, e: State, step: Step)
    requires Twins(l, e) && Filed(l) && Filed(e) && Possible(l, step) && Possible(e, step) && Minor(step)
    ensures Twins(Apply(l, step).0, Apply(e, step).0)
  {
    assert SameEnvironment(l, e);
    hide *;
    MinorSame(l, e, step);
    MinorEnvironment(l, step);
    MinorEnvironment(e, step);
    EnvironmentTwins(l, e, Apply(l, step).0, Apply(e, step).0);
  }

  // ---------------------------------------------------------------- runs

  /** One step of both servers: they answer alike, and stay alike, just if it is not a late result for a command in
      flight. */
  lemma StepTwins(l: State, e: State, step: Step)
    requires Twins(l, e)
    ensures Filed(l) && Filed(e) && (Possible(l, step) <==> Possible(e, step))
    ensures Possible(l, step) ==> StepAlike(l, e, step)
  {
    hide Filed, Twins, Apply, EagerApply, Possible, StepAlike, SameEnvironment;
    TwinsMean(l, e);
    PossibleSame(l, e, step);
    if Possible(l, step) {
      match step
      case Tick(to) => TickAlike(l, e, to);
      case DoCreate(userId, request, id) => CreateAlike(l, e, userId, request, id);
      case DoDecide(userId, id, approve, verified) => DecideAlike(l, e, userId, id, approve, verified);
      case DoGet(userId, id) => GetAlike(l, e, userId, id);
      case DoList(userId, limit) => ListAlike(l, e, userId, limit);
      case DoHello(socket, deviceId, valid) => HelloAlike(l, e, socket, deviceId, valid);
      case DoReport(socket, result) => ReportAlike(l, e, socket, result);
      case DoSignal(socket, deviceId, signal) => SignalAlike(l, e, socket, deviceId, signal);
      case _ => MinorAlike(l, e, step);
    }
  }

  /** Both servers answer this step alike just if it does not divide them, and then they stay twins. */
  ghost predicate StepAlike(l: State, e: State, step: Step)
    requires Filed(l) && Filed(e) && Possible(l, step) && Possible(e, step)
  {
    && (SameResponse(Apply(l, step).1, EagerApply(e, step).1) <==> !Divides(l, step))
    && (!Divides(l, step) ==> Twins(Apply(l, step).0, EagerApply(e, step).0))
  }

  lemma TickAlike(l: State, e: State, to: Instant)
    requires Twins(l, e) && Filed(l) && Filed(e) && Possible(l, Tick(to)) && Possible(e, Tick(to))
    ensures StepAlike(l, e, Tick(to))
  {
    hide Filed, Twins, ExpireAll;
    TickTwins(l, e, to);
  }

  lemma CreateAlike(l: State, e: State, userId: Id, request: Request, id: Id)
    requires Twins(l, e) && Filed(l) && Filed(e)
    requires Possible(l, DoCreate(userId, request, id)) && Possible(e, DoCreate(userId, request, id))
    ensures StepAlike(l, e, DoCreate(userId, request, id))
  {
    hide Filed, Twins, Create, SameReply;
    CreateTwins(l, e, userId, request, id);
  }

  lemma DecideAlike(l: State, e: State, userId: Id, id: Id, approve: bool, verified: bool)
    requires Twins(l, e) && Filed(l) && Filed(e)
    ensures var step := DoDecide(userId, id, approve, verified);
      Possible(l, step) && Possible(e, step) && StepAlike(l, e, step)
  {
    hide Filed, Twins, Decide, SameReply;
    DecideTwins(l, e, userId, id, approve, verified);
  }

  lemma GetAlike(l: State, e: State, userId: Id, id: Id)
    requires Twins(l, e) && Filed(l) && Filed(e)
    ensures Possible(l, DoGet(userId, id)) && Possible(e, DoGet(userId, id)) && StepAlike(l, e, DoGet(userId, id))
  {
    hide Filed, Twins, Get, SameReply;
    GetTwins(l, e, userId, id);
  }

  lemma ListAlike(l: State, e: State, userId: Id, limit: int)
    requires Twins(l, e) && Filed(l) && Filed(e)
    ensures Possible(l, DoList(userId, limit)) && Possible(e, DoList(userId, limit))
    ensures StepAlike(l, e, DoList(userId, limit))
  {
    hide Filed, Twins, List, Blur;
    ListTwins(l, e, userId, limit);
  }

  lemma HelloAlike(l: State, e: State, socket: Socket, deviceId: Id, valid: bool)
    requires Twins(l, e) && Filed(l) && Filed(e)
    requires Possible(l, DoHello(socket, deviceId, valid)) && Possible(e, DoHello(socket, deviceId, valid))
    ensures StepAlike(l, e, DoHello(socket, deviceId, valid))
  {
    hide Filed, Twins, Hello;
    HelloTwins(l, e, socket, deviceId, valid);
  }

  lemma ReportAlike(l: State, e: State, socket: Socket, result: ActionResult)
    requires Twins(l, e) && Filed(l) && Filed(e)
    requires Possible(l, DoReport(socket, result)) && Possible(e, DoReport(socket, result))
    ensures StepAlike(l, e, DoReport(socket, result))
  {
    hide Filed, Twins, Report, SameReply, LateInFlight;
    ReportTwins(l, e, socket, result);
  }

  lemma SignalAlike(l: State, e: State, socket: Socket, deviceId: Id, signal: string)
    requires Twins(l, e) && Filed(l) && Filed(e)
    requires Possible(l, DoSignal(socket, deviceId, signal)) && Possible(e, DoSignal(socket, deviceId, signal))
    ensures StepAlike(l, e, DoSignal(socket, deviceId, signal))
  {
    hide Filed, Twins, Signal;
    SignalTwins(l, e, socket, deviceId, signal);
  }

  lemma MinorAlike(l: State, e: State, step: Step)
    requires Twins(l, e) && Filed(l) && Filed(e) && Possible(l, step) && Possible(e, step) && Minor(step)
    ensures StepAlike(l, e, step)
  {
    hide Filed, Twins, Apply, Environment;
    MinorTwins(l, e, step);
    MinorEnvironment(l, step);
    MinorEnvironment(e, step);
  }

  /** A run of either server: its last state and what its steps answered. It stops at a step that is
      not possible. */
  ghost function Behave(s: State, steps: seq<Step>, eager: bool): (State, seq<Response>)
    decreases |steps|
  {
    if steps == [] || !Filed(s) || !Possible(s, steps[0]) then (s, [])
    else
      var (s1, response) := if eager then EagerApply(s, steps[0]) else Apply(s, steps[0]);
      var (s', rest) := Behave(s1, steps[1..], eager);
      (s', [response] + rest)
  }

  /** No result for a command in flight arrives from its device at or after the expiry. */
  ghost predicate OnTime(s: State, steps: seq<Step>)
    decreases |steps|
  {
    steps != [] && Filed(s) && Possible(s, steps[0]) ==>
      !Divides(s, steps[0]) && OnTime(Apply(s, steps[0]).0, steps[1..])
  }

  ghost predicate SameResponses(a: seq<Response>, b: seq<Response>) {
    |a| == |b| && forall k :: 0 <= k < |a| ==> SameResponse(a[k], b[k])
  }

  lemma SameResponsesMore(a: seq<Response>, b: seq<Response>, x: Response, y: Response)
    ensures SameResponses([x] + a, [y] + b) <==> SameResponse(x, y) && SameResponses(a, b)
  {
    hide SameResponse;
    if SameResponses([x] + a, [y] + b) {
      assert ([x] + a)[0] == x && ([y] + b)[0] == y;
      forall k | 0 <= k < |a| ensures SameResponse(a[k], b[k]) {
        assert ([x] + a)[k + 1] == a[k] && ([y] + b)[k + 1] == b[k];
      }
    }
  }

  /** Lazy expiry refines eager expiry, exactly on the runs without a late result for a command in flight: there, and
      only there, both servers answer every call alike, and then they also send the same messages. */
  lemma {:induction false} LazyRefinesEager(l: State, e: State, steps: seq<Step>)
    requires Twins(l, e)
    ensures var (l', a) := Behave(l, steps, false);
      var (e', b) := Behave(e, steps, true);
      (SameResponses(a, b) <==> OnTime(l, steps)) && (OnTime(l, steps) ==> Twins(l', e'))
    decreases |steps|
  {
    hide Filed, Twins, Apply, EagerApply, Possible, Divides, SameResponse, SameResponses;
    TwinsMean(l, e);
    if steps == [] {
      NoResponses();
    } else {
      StepTwins(l, e, steps[0]);
      if Possible(l, steps[0]) {
        var l1, e1 := Apply(l, steps[0]).0, EagerApply(e, steps[0]).0;
        SameResponsesMore(Behave(l1, steps[1..], false).1, Behave(e1, steps[1..], true).1,
                          Apply(l, steps[0]).1, EagerApply(e, steps[0]).1);
        if !Divides(l, steps[0]) {
          LazyRefinesEager(l1, e1, steps[1..]);
        }
      } else {
        NoResponses();
      }
    }
  }

  lemma NoResponses()
    ensures SameResponses([], [])
  {
  }

  lemma PossibleSame(l: State, e: State, step: Step)
    requires Twins(l, e)
    ensures Possible(l, step) <==> Possible(e, step)
  {
  }

  /** The same of the two servers as they start. */
  lemma FromTheStart(steps: seq<Step>)
    ensures var (l, a) := Behave(EMPTY, steps, false);
      var (e, b) := Behave(EMPTY, steps, true);
      (SameResponses(a, b) <==> OnTime(EMPTY, steps)) && (OnTime(EMPTY, steps) ==> SameSent(l.sent, e.sent))
  {
    assert Twins(EMPTY, EMPTY);
    LazyRefinesEager(EMPTY, EMPTY, steps);
  }
}
