/** What one call can do to the records: they only advance, every change is audited, and only the
    records of the acting account change. */
module ServerMoves {
  import opened Wrappers
  import opened Protocol
  import opened Lifecycle
  import opened Ordering
  import opened Server
  import opened ServerInvariant
  import opened ServerSteps

  // ---------------------------------------------------------------- records only advance

  /** A record changes only together with its audit trail; a decision and a consumption, once made,
      stay as they are; nothing sent or logged is forgotten. */
  ghost predicate Advances(r: Rec, r': Rec) {
    && (r'.trail == r.trail ==> r' == r)
    && r.trail <= r'.trail && r.sends <= r'.sends
    && SameIdentity(r.command, r'.command)
    && (r.approval.Some? <==> r'.approval.Some?)
    && (r.approval.Some? ==> Steadfast(r.approval.value, r'.approval.value))
  }

  predicate Steadfast(a: Approval, a': Approval) {
    && (a.decision != Pending ==> a' == a.(consumedAt := a'.consumedAt))
    && (a.consumedAt.Some? ==> a'.consumedAt == a.consumedAt)
  }

  lemma AdvancesSelf(r: Rec)
    ensures Advances(r, r)
  {
  }

  lemma AdvancesChain(r: Rec, r1: Rec, r2: Rec)
    requires Advances(r, r1) && Advances(r1, r2)
    ensures Advances(r, r2)
  {
    assert |r.trail| <= |r1.trail| <= |r2.trail|;
    if r2.trail == r.trail {
      assert r1.trail == r.trail;
    }
  }

  lemma LapseAdvances(r: Rec, now: Instant)
    ensures Advances(r, Lapse(r, now))
  {
  }

  lemma SentOutAdvances(r: Rec, socket: Socket, now: Instant, epoch: nat, mark: nat, authed: bool)
    ensures Advances(r, SentOut(r, socket, now, epoch, mark, authed))
  {
    assert |SentOut(r, socket, now, epoch, mark, authed).trail| == |r.trail| + 1;
  }

  lemma DecidedAdvances(r: Rec, approve: bool, verified: bool, now: Instant)
    requires r.approval.Some? && r.approval.value.decision == Pending && r.approval.value.consumedAt.None?
    ensures Advances(r, Decided(r, approve, verified, now))
  {
    assert |Decided(r, approve, verified, now).trail| == |r.trail| + 1;
  }

  lemma ReportedAdvances(r: Rec, result: ActionResult, now: Instant)
    ensures Advances(r, Reported(r, result, now))
  {
    assert |Reported(r, result, now).trail| == |r.trail| + 1;
  }

  // ---------------------------------------------------------------- calls

  /** Every record advances; new messages carry the current epoch or a later one. */
  ghost predicate Forward(s: State, s': State) {
    && s.audit <= s'.audit && s.sent <= s'.sent
    && (forall id {:trigger id in s.commands} :: id in s.commands ==>
          id in s'.commands && Advances(RecOf(s, id), RecOf(s', id)))
    && (forall d :: Epoch(s, d) <= Epoch(s', d))
    && (forall k :: |s.sent| <= k < |s'.sent| ==> Epoch(s, s'.sent[k].deviceId) <= s'.sent[k].epoch)
  }

  /** Whatever is new or changed belongs to `user`: commands, events, devices and addressees. */
  ghost predicate Within(s: State, s': State, user: Id) {
    && s.audit <= s'.audit && s.sent <= s'.sent
    && (forall k :: |s.audit| <= k < |s'.audit| ==> s'.audit[k].userId == user)
    && (forall k :: |s.sent| <= k < |s'.sent| ==>
          s'.sent[k].deviceId in s'.devices && s'.devices[s'.sent[k].deviceId].userId == user)
    && (forall id {:trigger id in s.commands} :: id in s.commands ==>
          id in s'.commands && s'.commands[id].userId == s.commands[id].userId
          && (s.commands[id].userId != user ==> RecOf(s', id) == RecOf(s, id)))
    && (forall id :: id in s'.commands && id !in s.commands ==> s'.commands[id].userId == user)
    && (forall d {:trigger d in s.devices} :: d in s.devices ==>
          d in s'.devices && s'.devices[d].userId == s.devices[d].userId
          && (s.devices[d].userId != user ==>
                s'.devices[d] == s.devices[d] && Lookup(s'.byDevice, d) == Lookup(s.byDevice, d)))
    && (forall d :: d in s'.devices && d !in s.devices ==> s'.devices[d].userId == user)
  }

  ghost predicate Moves(s: State, s': State, user: Id) {
    Forward(s, s') && Within(s, s', user)
  }

  lemma MovesIs(s: State, s': State, user: Id)
    ensures Moves(s, s', user) <==> Forward(s, s') && Within(s, s', user)
  {
  }

  lemma MovesSelf(s: State, user: Id)
    ensures Moves(s, s, user)
  {
  }

  lemma ForwardChain(s: State, s1: State, s2: State)
    requires Forward(s, s1) && Forward(s1, s2)
    ensures Forward(s, s2)
  {
    hide Advances;
    forall id | id in s.commands ensures id in s2.commands && Advances(RecOf(s, id), RecOf(s2, id)) {
      assert id in s1.commands;
      AdvancesChain(RecOf(s, id), RecOf(s1, id), RecOf(s2, id));
    }
    forall k | |s.sent| <= k < |s2.sent| ensures Epoch(s, s2.sent[k].deviceId) <= s2.sent[k].epoch {
      if k < |s1.sent| {
        assert s2.sent[k] == s1.sent[k];
      } else {
        assert Epoch(s1, s2.sent[k].deviceId) <= s2.sent[k].epoch;
      }
    }
    forall d ensures Epoch(s, d) <= Epoch(s2, d) {
      assert Epoch(s, d) <= Epoch(s1, d);
    }
  }

  lemma WithinChain(s: State, s1: State, s2: State, user: Id)
    requires Within(s, s1, user) && Within(s1, s2, user)
    ensures Within(s, s2, user)
  {
    hide RecOf;
    forall k | |s.sent| <= k < |s2.sent|
      ensures s2.sent[k].deviceId in s2.devices && s2.devices[s2.sent[k].deviceId].userId == user
    {
      if k < |s1.sent| {
        assert s2.sent[k] == s1.sent[k] && s1.sent[k].deviceId in s1.devices;
      }
    }
    forall k | |s.audit| <= k < |s2.audit| ensures s2.audit[k].userId == user {
      if k < |s1.audit| {
        assert s2.audit[k] == s1.audit[k];
      }
    }
    forall id | id in s2.commands && id !in s.commands ensures s2.commands[id].userId == user {
      if id in s1.commands {
        assert s1.commands[id].userId == user;
      }
    }
    forall d | d in s2.devices && d !in s.devices ensures s2.devices[d].userId == user {
      if d in s1.devices {
        assert s1.devices[d].userId == user;
      }
    }
  }

  lemma MovesChain(s: State, s1: State, s2: State, user: Id)
    requires Moves(s, s1, user) && Moves(s1, s2, user)
    ensures Moves(s, s2, user)
  {
    hide Forward, Within;
    ForwardChain(s, s1, s2);
    WithinChain(s, s1, s2, user);
  }

  /** New events name the owner of `id`; new messages go to its target device. */
  ghost predicate OwnNews(s: State, s': State, id: Id)
    requires id in s.commands
  {
    && (forall k :: |s.audit| <= k < |s'.audit| ==> s'.audit[k].userId == s.commands[id].userId)
    && (forall k :: |s.sent| <= k < |s'.sent| ==>
          s'.sent[k].deviceId == s.commands[id].request.targetDeviceId
          && Epoch(s, s'.sent[k].deviceId) <= s'.sent[k].epoch)
  }

  /** A change of one record moves it, if it advances and the news are its owner's. */
  lemma OnlyMoves(s: State, s': State, id: Id)
    requires Only(s, s', id) && id in s.commands && Owned(s, s.commands[id])
    requires Advances(RecOf(s, id), RecOf(s', id)) && OwnNews(s, s', id)
    ensures Moves(s, s', s.commands[id].userId)
  {
    hide Trail, SendsOf;
    forall j | j in s.commands ensures
      j in s'.commands && Advances(RecOf(s, j), RecOf(s', j)) && s'.commands[j].userId == s.commands[j].userId
      && (j != id ==> RecOf(s', j) == RecOf(s, j))
    {
      if j != id {
        assert RecOf(s', j) == RecOf(s, j) && s'.commands[j] == RecOf(s', j).command;
      }
    }
  }

  lemma ExpireNews(s: State, id: Id)
    requires Filed(s) && id in s.commands
    ensures OwnNews(s, ExpireIfNeeded(s, id), id)
  {
  }

  lemma HandOverNews(s: State, id: Id, socket: Socket)
    requires Filed(s) && id in s.commands
    ensures OwnNews(s, HandOver(s, id, socket), id)
  {
    HandOverLogs(s, id, socket);
    hide HandOver, Filed;
  }

  lemma ExpireMoves(s: State, id: Id)
    requires Core(s) && id in s.commands
    ensures Filed(s) && Moves(s, ExpireIfNeeded(s, id), s.commands[id].userId)
  {
    hide *;
    CoreAt(s, id);
    ExpireOnly(s, id);
    ExpireNews(s, id);
    LapseAdvances(RecOf(s, id), s.clock);
    OnlyMoves(s, ExpireIfNeeded(s, id), id);
  }

  lemma HandOverMoves(s: State, id: Id, socket: Socket)
    requires Core(s) && id in s.commands && s.commands[id].status in {Queued, Dispatched}
    ensures Filed(s) && Moves(s, HandOver(s, id, socket), s.commands[id].userId)
  {
    assert Advances(RecOf(s, id), SentNow(s, id, socket)) by {
      var d := s.commands[id].request.targetDeviceId;
      SentOutAdvances(RecOf(s, id), socket, s.clock, Epoch(s, d), |s.audit|, (socket, d) in s.authed);
    }
    hide *;
    CoreAt(s, id);
    HandOverOnly(s, id, socket);
    HandOverNews(s, id, socket);
    OnlyMoves(s, HandOver(s, id, socket), id);
  }

  lemma TryDispatchMoves(s: State, id: Id)
    requires Core(s) && id in s.commands
    ensures Filed(s) && Moves(s, TryDispatch(s, id), s.commands[id].userId)
  {
    hide *;
    CoreAt(s, id);
    MovesSelf(s, s.commands[id].userId);
    ExpireMoves(s, id);
    var socket := TryDispatchCases(s, id);
    if socket.Some? {
      OfferableMeans(s, id, socket.value);
      HandOverMoves(s, id, socket.value);
    }
  }

  ghost predicate OwnedBy(s: State, ids: seq<Id>, user: Id) {
    forall id :: id in ids ==> id in s.commands && s.commands[id].userId == user
  }

  lemma OwnedByKept(s: State, s': State, ids: seq<Id>, user: Id)
    requires Grows(s, s') && OwnedBy(s, ids, user)
    ensures OwnedBy(s', ids, user)
  {
  }

  lemma {:induction false} ExpireAllMoves(s: State, ids: seq<Id>, user: Id)
    requires Inv(s) && OwnedBy(s, ids, user)
    ensures Filed(s) && forall id :: id in ids ==> id in s.commands
    ensures Moves(s, ExpireAll(s, ids), user)
  {
    assert Filed(s) && forall id :: id in ids ==> id in s.commands;
    if ids == [] {
      MovesSelf(s, user);
    } else {
      var front, id := ids[..|ids| - 1], ids[|ids| - 1];
      assert OwnedBy(s, front, user) && OwnedBy(s, [id], user);
      var s1 := ExpireAll(s, front);
      assert ExpireAll(s, ids) == ExpireIfNeeded(s1, id);
      hide *;
      ExpireAllMoves(s, front, user);
      ExpireAllInv(s, front);
      OwnedByKept(s, s1, [id], user);
      InvIs(s1);
      OwnerIs(s1, id, user);
      ExpireMoves(s1, id);
      MovesChain(s, s1, ExpireIfNeeded(s1, id), user);
    }
  }

  lemma OwnerIs(s: State, id: Id, user: Id)
    requires OwnedBy(s, [id], user)
    ensures id in s.commands && s.commands[id].userId == user
  {
    assert id in [id];
  }

  lemma {:induction false} DispatchAllMoves(s: State, ids: seq<Id>, user: Id)
    requires Core(s) && Distinct(ids) && Unsent(s, ids) && OwnedBy(s, ids, user)
    ensures Filed(s) && forall id :: id in ids ==> id in s.commands
    ensures Moves(s, DispatchAll(s, ids), user)
  {
    CoreFiled(s);
    UnsentKnown(s, ids);
    if ids == [] {
      MovesSelf(s, user);
    } else {
      var front, id := ids[..|ids| - 1], ids[|ids| - 1];
      assert ids == front + [id] && id !in front && Distinct(front);
      assert OwnedBy(s, front, user) && OwnedBy(s, [id], user);
      var s1 := DispatchAll(s, front);
      assert DispatchAll(s, ids) == TryDispatch(s1, id);
      hide *;
      AmongSelf(s, front);
      AmongUnsent(s, s, front, id);
      DispatchAllMoves(s, front, user);
      DispatchAllCore(s, front);
      OwnedByKept(s, s1, [id], user);
      OwnerIs(s1, id, user);
      TryDispatchMoves(s1, id);
      MovesChain(s, s1, TryDispatch(s1, id), user);
    }
  }

  // ---------------------------------------------------------------- service calls

  lemma AdmitSame(s: State, userId: Id, request: Request, id: Id)
    requires Known(s) && id !in s.commands
    ensures var s' := Admit(s, userId, request, id);
      forall j {:trigger j in s.commands} :: j in s.commands ==> j in s'.commands && RecOf(s', j) == RecOf(s, j)
  {
    assert Filed(s);
    AdmitGrows(s, userId, request, id);
    hide RecOf, Admit, Known, Filed, Grows;
    var s' := Admit(s, userId, request, id);
    forall j | j in s.commands ensures j in s'.commands && RecOf(s', j) == RecOf(s, j) {
      AdmitOthers(s, userId, request, id, j);
    }
  }

  lemma AdmitForward(s: State, userId: Id, request: Request, id: Id)
    requires Known(s) && id !in s.commands
    ensures Forward(s, Admit(s, userId, request, id))
  {
    AdmitIs(s, userId, request, id);
    AdmitSame(s, userId, request, id);
    var s' := Admit(s, userId, request, id);
    hide Admit, Known, RecOf, Filed, Advances;
    forall j | j in s.commands ensures j in s'.commands && Advances(RecOf(s, j), RecOf(s', j)) {
      AdvancesSelf(RecOf(s, j));
    }
  }

  lemma AdmitWithin(s: State, userId: Id, request: Request, id: Id)
    requires Known(s) && id !in s.commands
    ensures Within(s, Admit(s, userId, request, id), userId)
  {
    AdmitIs(s, userId, request, id);
    AdmitSame(s, userId, request, id);
    hide Admit, Known, RecOf, Filed;
  }

  lemma AdmitThenMoves(s: State, userId: Id, request: Request, id: Id)
    requires Inv(s) && id !in s.commands && Admissible(s, userId, request)
    ensures Filed(s) && Moves(s, TryDispatch(Admit(s, userId, request, id), id), userId)
  {
    InvWired(s);
    InvIs(s);
    var s1 := Admit(s, userId, request, id);
    AdmitIs(s, userId, request, id);
    assert s1.commands[id].userId == userId;
    hide *;
    AdmitCore(s, userId, request, id);
    AdmitForward(s, userId, request, id);
    AdmitWithin(s, userId, request, id);
    MovesIs(s, s1, userId);
    TryDispatchMoves(s1, id);
    MovesChain(s, s1, TryDispatch(s1, id), userId);
  }

  lemma CreateMoves(s: State, userId: Id, request: Request, id: Id)
    requires Inv(s) && id !in s.commands
    ensures Filed(s) && Moves(s, Create(s, userId, request, id).0, userId)
  {
    hide *;
    InvIs(s);
    InvWired(s);
    MovesSelf(s, userId);
    AdmissionMeans(s, userId, request);
    CreateCases(s, userId, request, id);
    match Admission(s, userId, request)
    case Refused(_) =>
    case Ok(Some(found)) => ExpireMoves(s, found);
    case Ok(None) => AdmitThenMoves(s, userId, request, id);
  }

  lemma GetMoves(s: State, userId: Id, id: Id)
    requires Inv(s)
    ensures Filed(s) && Moves(s, Get(s, userId, id).0, userId)
  {
    hide *;
    InvIs(s);
    InvWired(s);
    MovesSelf(s, userId);
    GetCases(s, userId, id);
    if id in s.commands && s.commands[id].userId == userId {
      ExpireMoves(s, id);
    }
  }

  lemma ListMoves(s: State, userId: Id, limit: int)
    requires Inv(s)
    ensures Filed(s) && Moves(s, List(s, userId, limit).0, userId)
  {
    InvWired(s);
    var ids := ListCommands(s, userId, ListLimit(limit));
    assert List(s, userId, limit).0 == ExpireAll(s, ids);
    assert OwnedBy(s, ids, userId);
    hide *;
    ExpireAllMoves(s, ids, userId);
  }

  lemma RuleNews(s: State, id: Id, approve: bool, verified: bool)
    requires Filed(s) && Rulable(s, id, approve, verified)
    ensures OwnNews(s, Rule(s, s.commands[id], s.approvals[id], approve, verified), id)
  {
  }

  lemma RuleMoves(s: State, id: Id, approve: bool, verified: bool)
    requires Core(s) && Rulable(s, id, approve, verified)
    ensures Filed(s)
    ensures var s' := TryDispatch(Rule(s, s.commands[id], s.approvals[id], approve, verified), id);
      Moves(s, s', s.commands[id].userId)
  {
    CoreAt(s, id);
    RuleOnly(s, id, approve, verified);
    var s1 := Rule(s, s.commands[id], s.approvals[id], approve, verified);
    var r := RecOf(s, id);
    assert r.approval == Some(s.approvals[id]);
    assert r.approval.value.consumedAt.None?;
    assert id in s1.commands && s1.commands[id].userId == s.commands[id].userId && s1.sent == s.sent;
    hide *;
    RuleNews(s, id, approve, verified);
    RuleOk(s, s1, id, approve, verified);
    OnlyCore(s, s1, id);
    DecidedAdvances(r, approve, verified, s.clock);
    OnlyMoves(s, s1, id);
    TryDispatchMoves(s1, id);
    MovesChain(s, s1, TryDispatch(s1, id), s.commands[id].userId);
  }

  lemma DecideMoves(s: State, userId: Id, id: Id, approve: bool, verified: bool)
    requires Inv(s)
    ensures Filed(s) && Moves(s, Decide(s, userId, id, approve, verified).0, userId)
  {
    assert Rulable(s, id, approve, verified) ==> id in s.commands;
    hide *;
    InvIs(s);
    InvWired(s);
    MovesSelf(s, userId);
    DecideCases(s, userId, id, approve, verified);
    if id in s.commands && s.commands[id].userId == userId {
      ExpireMoves(s, id);
      if Rulable(s, id, approve, verified) {
        RuleMoves(s, id, approve, verified);
      }
    }
  }

  lemma SettleNews(s: State, id: Id, result: ActionResult)
    requires Filed(s) && id in s.commands
    ensures OwnNews(s, Settle(s, s.commands[id], result), id)
  {
  }

  lemma SettleMoves(s: State, id: Id, result: ActionResult)
    requires Core(s) && id in s.commands
    ensures Filed(s) && s.commands[id].id == id
    ensures Moves(s, Settle(s, s.commands[id], result), s.commands[id].userId)
  {
    assert Filed(s) && s.commands[id].id == id;
    hide *;
    CoreAt(s, id);
    SettleOnly(s, id, result);
    SettleNews(s, id, result);
    ReportedAdvances(RecOf(s, id), result, s.clock);
    OnlyMoves(s, Settle(s, s.commands[id], result), id);
  }

  // ---------------------------------------------------------------- gateway handlers

  /** A change of the environment that leaves the devices and links of other accounts alone. */
  ghost predicate Local(s: State, s': State, user: Id) {
    && Environment(s, s')
    && (forall d :: Epoch(s, d) <= Epoch(s', d))
    && (forall d {:trigger d in s.devices} :: d in s.devices ==>
          d in s'.devices && s'.devices[d].userId == s.devices[d].userId
          && (s.devices[d].userId != user ==>
                s'.devices[d] == s.devices[d] && Lookup(s'.byDevice, d) == Lookup(s.byDevice, d)))
    && (forall d :: d in s'.devices && d !in s.devices ==> s'.devices[d].userId == user)
  }

  lemma LocalMoves(s: State, s': State, user: Id)
    requires Local(s, s', user)
    ensures Moves(s, s', user)
  {
    hide Trail, SendsOf;
    forall id | id in s.commands ensures RecOf(s', id) == RecOf(s, id) {
    }
  }

  lemma PendingOwned(s: State, s1: State, deviceId: Id)
    requires AllRecsOk(s) && Filed(s1) && s1.commands == s.commands && deviceId in s.devices
    ensures OwnedBy(s1, ListDispatchable(s1, deviceId), s.devices[deviceId].userId)
  {
    ListDispatchableIs(s1, deviceId);
    hide ListDispatchable, Filed;
    forall id | id in ListDispatchable(s1, deviceId)
      ensures id in s1.commands && s1.commands[id].userId == s.devices[deviceId].userId
    {
      assert RecOk(s, id) && Owned(s, s.commands[id]);
      hide RecOk;
    }
  }

  lemma GreetedLocal(s: State, socket: Socket, deviceId: Id)
    requires deviceId in s.devices
    ensures Local(s, Greeted(s, socket, deviceId), s.devices[deviceId].userId)
  {
  }

  lemma WelcomeMoves(s: State, socket: Socket, deviceId: Id)
    requires Inv(s) && Filed(s) && socket in s.everOpen && deviceId in s.devices
    ensures Moves(s, Welcomed(s, socket, deviceId), s.devices[deviceId].userId)
  {
    var s1 := Greeted(s, socket, deviceId);
    var s2 := Welcomed(s, socket, deviceId);
    var user := s.devices[deviceId].userId;
    assert Filed(s1) && s1.commands == s.commands && s1.open <= s.open && s1.everOpen == s.everOpen;
    GreetedLocal(s, socket, deviceId);
    assert s.devices[deviceId].kind == ExecutorDevice ==> s2 == DispatchAll(s1, ListDispatchable(s1, deviceId));
    assert s.devices[deviceId].kind != ExecutorDevice ==> s2 == s1;
    hide *;
    InvIs(s);
    InvWired(s);
    GreetedEnvironment(s, socket, deviceId);
    EnvironmentCore(s, s1);
    LocalMoves(s, s1, user);
    if s.devices[deviceId].kind == ExecutorDevice {
      GreetedUnsent(s, socket, deviceId);
      PendingOwned(s, s1, deviceId);
      DispatchAllMoves(s1, ListDispatchable(s1, deviceId), user);
      MovesChain(s, s1, s2, user);
    }
  }

  /** The account on whose behalf a step acts; a socket acts for the device it is bound to. */
  function Actor(s: State, step: Step): Option<Id> {
    match step
    case DoRegister(userId, _, _, _) => Some(userId)
    case DoCreate(userId, _, _) => Some(userId)
    case DoDecide(userId, _, _, _) => Some(userId)
    case DoGet(userId, _) => Some(userId)
    case DoList(userId, _) => Some(userId)
    case DoHello(_, deviceId, valid) =>
      if valid && deviceId in s.devices then Some(s.devices[deviceId].userId) else None
    case DoReport(socket, _) => OwnerOf(s, socket)
    case DoHeartbeat(socket, _) => OwnerOf(s, socket)
    case DoSignal(socket, _, _) => OwnerOf(s, socket)
    case DoDisconnect(socket) => OwnerOf(s, socket)
    case _ => None
  }

  function OwnerOf(s: State, socket: Socket): Option<Id> {
    if socket in s.bySocket && s.bySocket[socket] in s.devices then Some(s.devices[s.bySocket[socket]].userId) else None
  }

  lemma ReportMoves(s: State, socket: Socket, result: ActionResult, user: Id)
    requires Inv(s) && OwnerOf(s, socket) in {None, Some(user)}
    ensures Filed(s) && Moves(s, Report(s, socket, result).0, user)
  {
    InvIs(s);
    InvWired(s);
    MovesSelf(s, user);
    ReportCases(s, socket, result);
    var id := result.commandId;
    if id in s.commands && socket in s.bySocket && s.commands[id].request.targetDeviceId == s.bySocket[socket] {
      CoreAt(s, id);
      assert s.commands[id].userId == user;
      hide *;
      SettleMoves(s, id, result);
    }
  }

  lemma SentMoves(s: State, m: Sent, user: Id)
    requires m.message.SignalFrom? && Epoch(s, m.deviceId) <= m.epoch
    requires m.deviceId in s.devices && s.devices[m.deviceId].userId == user
    ensures Moves(s, s.(sent := s.sent + [m]), user)
  {
    var s' := s.(sent := s.sent + [m]);
    forall id | id in s.commands ensures RecOf(s', id) == RecOf(s, id) {
      SendsAppend(s.sent, m, id);
    }
    hide RecOf;
  }

  lemma SignalMoves(s: State, socket: Socket, deviceId: Id, signal: string, user: Id)
    requires Inv(s) && OwnerOf(s, socket) in {None, Some(user)}
    ensures Moves(s, Signal(s, socket, deviceId, signal), user)
  {
    MovesSelf(s, user);
    InvWired(s);
    hide Inv, Forward, Within, Known, AllRecsOk, AllJustified, Filed;
    var m := SignalCases(s, socket, deviceId, signal);
    if m.Some? {
      assert Signal(s, socket, deviceId, signal).sent[|s.sent|] == m.value;
      SentMoves(s, m.value, user);
    }
  }

  /** The account theorem: a step changes only what belongs to the account it acts for, and records
      only advance. Steps that act for nobody satisfy this for every account. */
  lemma StepMoves(s: State, step: Step, user: Id)
    requires Inv(s) && Filed(s) && Possible(s, step) && Actor(s, step) in {None, Some(user)}
    ensures Moves(s, Apply(s, step).0, user)
  {
    hide Inv, Filed, Forward, Within, Create, Decide, Get, List, Report, Signal, DispatchAll, ListDispatchable, Local;
    match step
    case DoCreate(userId, request, id) => CreateMoves(s, userId, request, id);
    case DoDecide(userId, id, approve, verified) => DecideMoves(s, userId, id, approve, verified);
    case DoGet(userId, id) => GetMoves(s, userId, id);
    case DoList(userId, limit) => ListMoves(s, userId, limit);
    case DoHello(socket, deviceId, valid) =>
      if valid && deviceId in s.devices {
        WelcomeMoves(s, socket, deviceId);
      } else {
        LocalStep(s, step, user);
        LocalMoves(s, Apply(s, step).0, user);
      }
    case DoReport(socket, result) => ReportMoves(s, socket, result, user);
    case DoSignal(socket, deviceId, signal) => SignalMoves(s, socket, deviceId, signal, user);
    case _ =>
      LocalStep(s, step, user);
      LocalMoves(s, Apply(s, step).0, user);
  }

  lemma PresenceLocal(s: State, s1: State, deviceId: Id, online: bool, user: Id)
    requires Local(s, s1, user) && (deviceId in s.devices ==> s.devices[deviceId].userId == user)
    ensures Local(s, SetPresence(s1, deviceId, online), user)
  {
  }

  lemma DetachLocal(s: State, socket: Socket, user: Id)
    requires OwnerOf(s, socket) in {None, Some(user)} && Wired(s)
    ensures Local(s, Disconnect(s, socket), user)
  {
    var s0 := s.(open := s.open - {socket});
    assert Local(s, s0, user);
    if socket in s.bySocket {
      var d := s.bySocket[socket];
      var s1 := if d in s.byDevice && s.byDevice[d] == socket then s0.(byDevice := s0.byDevice - {d}) else s0;
      assert d in s.devices && s.devices[d].userId == user;
      assert Local(s, s1, user);
      hide Local;
      PresenceLocal(s, s1, d, false, user);
    }
  }

  lemma LocalStep(s: State, step: Step, user: Id)
    requires Inv(s) && Filed(s) && Possible(s, step) && Actor(s, step) in {None, Some(user)}
    requires !step.DoCreate? && !step.DoDecide? && !step.DoGet? && !step.DoList? && !step.DoReport? && !step.DoSignal?
    requires step.DoHello? ==> Actor(s, step) == None
    ensures Local(s, Apply(s, step).0, user)
  {
    hide Inv, Known, AllRecsOk, AllJustified, Filed, DispatchAll, ListDispatchable, Attach;
    InvWired(s);
    match step
    case DoDisconnect(socket) => hide Local; DetachLocal(s, socket, user);
    case DoHeartbeat(socket, d) =>
      assert Local(s, s, user);
      hide Local, SetPresence;
      if socket in s.bySocket && s.bySocket[socket] == d {
        PresenceLocal(s, s, d, true, user);
      }
    case _ => hide Wired;
  }
}
