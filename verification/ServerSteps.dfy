/** Every step of the control plane keeps the invariant, from every state that satisfies it. */
module ServerSteps {
  import opened Wrappers
  import opened Protocol
  import opened Lifecycle
  import opened Ordering
  import opened Server
  import opened ServerInvariant

  // ---------------------------------------------------------------- composing

  lemma GrowsSelf(s: State)
    ensures Grows(s, s)
  {
  }

  lemma GrowsChain(s: State, s1: State, s2: State)
    requires Grows(s, s1) && Grows(s1, s2)
    ensures Grows(s, s2)
  {
    forall id | id in s.commands ensures id in s2.commands && SameIdentity(s.commands[id], s2.commands[id]) {
      assert SameIdentity(s.commands[id], s1.commands[id]);
    }
    forall d ensures Epoch(s, d) <= Epoch(s2, d) {
      assert Epoch(s, d) <= Epoch(s1, d);
    }
    forall d | d in s.devices ensures d in s2.devices && SameDevice(s.devices[d], s2.devices[d]) {
      assert SameDevice(s.devices[d], s1.devices[d]);
    }
  }

  ghost predicate Quiet(s: State) {
    forall id :: id in s.commands ==> !Waiting(s, id)
  }

  lemma OnlyQuiet(s: State, s': State, id: Id)
    requires Only(s, s', id) && Quiet(s) && id in s.commands && !Waiting(s', id)
    ensures Quiet(s')
  {
    forall j | j in s'.commands ensures !Waiting(s', j) {
      if j != id {
        assert RecOf(s', j) == RecOf(s, j) && !Waiting(s, j);
      }
    }
  }

  lemma InvIs(s: State)
    ensures Inv(s) <==> Core(s) && Quiet(s)
  {
  }

  /** A change of clock, devices, registry or sockets only. */
  ghost predicate Environment(s: State, s': State) {
    s' == s.(clock := s'.clock, devices := s'.devices, byDevice := s'.byDevice, bySocket := s'.bySocket,
             open := s'.open, everOpen := s'.everOpen, hellos := s'.hellos, authed := s'.authed)
  }

  lemma EnvironmentCore(s: State, s': State)
    requires Core(s) && Environment(s, s') && Grows(s, s') && Wired(s') && s'.open <= s'.everOpen
    ensures Core(s')
  {
    EnvironmentKnown(s, s');
    hide *;
    EnvironmentRecs(s, s');
    SentJustified(s, s');
    CoreIs(s');
  }

  lemma CoreIs(s: State)
    requires Known(s) && Wired(s) && KeysUnique(s) && AllRecsOk(s) && AllJustified(s)
    ensures Core(s)
  {
  }

  lemma EnvironmentKnown(s: State, s': State)
    requires Core(s) && Environment(s, s') && s'.open <= s'.everOpen
    ensures Known(s') && KeysUnique(s') && AllRecsOk(s) && AllJustified(s)
    ensures forall k :: |s.sent| <= k < |s'.sent| ==> Justified(s', s'.sent[k])
  {
    hide AllRecsOk, AllJustified, Wired, Justified;
  }

  lemma EnvironmentRecs(s: State, s': State)
    requires AllRecsOk(s) && Environment(s, s') && Grows(s, s')
    ensures AllRecsOk(s')
  {
    assert s'.commands == s.commands;
    hide RecOk, Grows, Environment;
    forall id | id in s'.commands ensures RecOk(s', id) {
      EnvironmentRec(s, s', id);
    }
  }

  lemma EnvironmentRec(s: State, s': State, id: Id)
    requires id in s.commands && RecOk(s, id) && Environment(s, s') && Grows(s, s')
    ensures RecOk(s', id)
  {
    assert RecOf(s', id) == RecOf(s, id);
    var d := s.commands[id].request.targetDeviceId;
    assert Epoch(s, d) <= Epoch(s', d) && SameDevice(s.devices[d], s'.devices[d]);
    hide Lawful, Trail, SendsOf;
  }

  // ---------------------------------------------------------------- expiry

  lemma ExpireInv(s: State, id: Id)
    requires Inv(s) && id in s.commands
    ensures Inv(ExpireIfNeeded(s, id)) && Grows(s, ExpireIfNeeded(s, id))
    ensures ExpireIfNeeded(s, id).commands.Keys == s.commands.Keys
  {
    assert Known(s);
    assert !Waiting(s, id) && !Waiting(ExpireIfNeeded(s, id), id);
    hide *;
    InvIs(s);
    ExpireOnly(s, id);
    ExpireCore(s, id);
    OnlyQuiet(s, ExpireIfNeeded(s, id), id);
    InvIs(ExpireIfNeeded(s, id));
    OnlyKeys(s, ExpireIfNeeded(s, id), id);
  }

  lemma OnlyKeys(s: State, s': State, id: Id)
    requires Only(s, s', id)
    ensures s'.commands.Keys == s.commands.Keys
  {
  }

  lemma {:induction false} ExpireAllInv(s: State, ids: seq<Id>)
    requires Inv(s) && forall id :: id in ids ==> id in s.commands
    ensures Inv(ExpireAll(s, ids)) && Grows(s, ExpireAll(s, ids))
    ensures ExpireAll(s, ids).commands.Keys == s.commands.Keys
  {
    assert Filed(s);
    hide Inv, Grows, ExpireIfNeeded, Filed;
    if ids == [] {
      GrowsSelf(s);
    } else {
      var front := ids[..|ids| - 1];
      ExpireAllInv(s, front);
      ExpireInv(ExpireAll(s, front), ids[|ids| - 1]);
      GrowsChain(s, ExpireAll(s, front), ExpireAll(s, ids));
    }
  }

  // ---------------------------------------------------------------- dispatching all pending commands

  /** Epochs of the sends of every command for the device lie before its current one. */
  ghost predicate Unsent(s: State, ids: seq<Id>) {
    forall id :: id in ids ==>
      id in s.commands && SentBefore(RecOf(s, id), Epoch(s, s.commands[id].request.targetDeviceId))
  }

  /** From `s` to `s'` at most the records of `ids`, the audit log and the sent log have changed. */
  ghost predicate Among(s: State, s': State, ids: seq<Id>) {
    && s' == s.(commands := s'.commands, approvals := s'.approvals, results := s'.results,
                audit := s'.audit, sent := s'.sent)
    && s'.commands.Keys == s.commands.Keys
    && (forall j {:trigger RecOf(s', j)} :: j in s.commands && j !in ids ==> RecOf(s', j) == RecOf(s, j))
  }

  ghost predicate AllSettled(s: State, ids: seq<Id>) {
    forall id :: id in ids ==> id in s.commands && !Waiting(s, id)
  }

  lemma AmongThenOnly(s: State, s1: State, s2: State, ids: seq<Id>, id: Id)
    requires Among(s, s1, ids) && Only(s1, s2, id) && id in s.commands && id !in ids
    requires AllSettled(s1, ids) && !Waiting(s2, id)
    ensures Among(s, s2, ids + [id]) && AllSettled(s2, ids + [id])
  {
    forall j | j in ids + [id] ensures j in s2.commands && !Waiting(s2, j) {
      if j != id {
        assert RecOf(s2, j) == RecOf(s1, j) && !Waiting(s1, j);
      }
    }
  }

  lemma AmongUnsent(s: State, s': State, ids: seq<Id>, id: Id)
    requires Among(s, s', ids) && Unsent(s, ids + [id]) && id !in ids
    ensures id in s'.commands && SentBefore(RecOf(s', id), Epoch(s', s'.commands[id].request.targetDeviceId))
    ensures Unsent(s, ids)
  {
    assert id in ids + [id] && forall j :: j in ids ==> j in ids + [id];
    assert RecOf(s', id) == RecOf(s, id);
    hide SentBefore, Trail, SendsOf;
  }

  lemma UnsentKnown(s: State, ids: seq<Id>)
    requires Unsent(s, ids)
    ensures forall id :: id in ids ==> id in s.commands
  {
  }

  lemma CoreFiled(s: State)
    requires Core(s)
    ensures Filed(s)
  {
  }

  lemma {:induction false} DispatchAllCore(s: State, ids: seq<Id>)
    requires Core(s) && Filed(s) && Distinct(ids) && Unsent(s, ids)
    ensures forall id :: id in ids ==> id in s.commands
    ensures var s' := DispatchAll(s, ids);
      Core(s') && Grows(s, s') && Among(s, s', ids) && AllSettled(s', ids)
  {
    UnsentKnown(s, ids);
    if ids == [] {
      GrowsSelf(s);
    } else {
      var front, id := ids[..|ids| - 1], ids[|ids| - 1];
      assert ids == front + [id] && id !in front && Distinct(front);
      assert DispatchAll(s, ids) == TryDispatch(DispatchAll(s, front), id);
      hide *;
      AmongUnsent(s, s, front, id) by { assert Among(s, s, front) by { AmongSelf(s, front); } }
      DispatchAllCore(s, front);
      var s1 := DispatchAll(s, front);
      AmongUnsent(s, s1, front, id);
      TryDispatchCore(s1, id);
      CoreAt(s1, id);
      TryDispatchSettles(s1, id);
      GrowsChain(s, s1, TryDispatch(s1, id));
      AmongThenOnly(s, s1, TryDispatch(s1, id), front, id);
    }
  }

  lemma AmongSelf(s: State, ids: seq<Id>)
    ensures Among(s, s, ids)
  {
  }

  // ---------------------------------------------------------------- creating

  lemma {:induction false} TrailOfUnknown(audit: seq<AuditEvent>, id: Id)
    requires forall k :: 0 <= k < |audit| ==> audit[k].commandId != id
    ensures Trail(audit, id) == []
  {
    if audit != [] {
      TrailOfUnknown(audit[..|audit| - 1], id);
    }
  }

  lemma {:induction false} SendsOfUnknown(sent: seq<Sent>, id: Id)
    requires forall k :: 0 <= k < |sent| ==> !Dispatches(sent[k], id)
    ensures SendsOf(sent, id) == []
  {
    if sent != [] {
      SendsOfUnknown(sent[..|sent| - 1], id);
    }
  }

  function NewRec(c: Command, approval: Approval): Rec {
    Rec(c, if NeedsApproval(c.request.tool) then Some(approval) else None, None, [WasCreated(c.status)], [])
  }

  lemma NewRecLawful(s: State, userId: Id, request: Request, id: Id)
    requires s.clock < request.expiresAt <= s.clock + MAX_COMMAND_LIFETIME_MS
    ensures Lawful(NewRec(NewCommand(s, userId, request, id), NewApproval(s, userId, request, id)))
  {
    var c := NewCommand(s, userId, request, id);
    ReplayAppend(request.tool, [], WasCreated(c.status));
    DispatchingsAppend([], WasCreated(c.status));
    assert [] + [WasCreated(c.status)] == [WasCreated(c.status)];
  }

  function CreationEvent(s: State, userId: Id, request: Request, id: Id): AuditEvent {
    AuditEvent(userId, WasCreated(InitialStatus(request.tool)), request.targetDeviceId, id, s.clock)
  }

  lemma AdmitIs(s: State, userId: Id, request: Request, id: Id)
    requires Filed(s) && id !in s.commands
    ensures Admit(s, userId, request, id)
         == s.(commands := s.commands[id := NewCommand(s, userId, request, id)], order := s.order + [id],
               approvals := if NeedsApproval(request.tool)
                            then s.approvals[id := NewApproval(s, userId, request, id)] else s.approvals,
               audit := s.audit + [CreationEvent(s, userId, request, id)])
  {
  }

  lemma AdmitRec(s: State, userId: Id, request: Request, id: Id)
    requires Known(s) && id !in s.commands
    ensures var s' := Admit(s, userId, request, id);
      && id in s'.commands
      && RecOf(s', id) == NewRec(NewCommand(s, userId, request, id), NewApproval(s, userId, request, id))
  {
    UnknownRec(s, id);
    TrailAppend(s.audit, CreationEvent(s, userId, request, id), id);
    AdmitIs(s, userId, request, id);
    hide Trail, SendsOf, Known, Admit, Filed;
  }

  lemma UnknownRec(s: State, id: Id)
    requires Known(s) && id !in s.commands
    ensures id !in s.approvals && id !in s.results && Trail(s.audit, id) == [] && SendsOf(s.sent, id) == []
  {
    TrailOfUnknown(s.audit, id);
    SendsOfUnknown(s.sent, id);
  }

  lemma AdmitOthers(s: State, userId: Id, request: Request, id: Id, j: Id)
    requires Known(s) && id !in s.commands && j in s.commands
    ensures j in Admit(s, userId, request, id).commands
    ensures RecOf(Admit(s, userId, request, id), j) == RecOf(s, j)
  {
    TrailAppend(s.audit, CreationEvent(s, userId, request, id), j);
    AdmitIs(s, userId, request, id);
    hide Trail, SendsOf, Known, Admit;
  }

  lemma AdmitKnown(s: State, userId: Id, request: Request, id: Id)
    requires Known(s) && id !in s.commands
    ensures Known(Admit(s, userId, request, id))
  {
    hide Admit;
    AdmitIs(s, userId, request, id);
  }

  lemma AdmitGrows(s: State, userId: Id, request: Request, id: Id)
    requires Filed(s) && id !in s.commands
    ensures Grows(s, Admit(s, userId, request, id))
    ensures Admit(s, userId, request, id).commands.Keys == s.commands.Keys + {id}
    ensures Wired(s) ==> Wired(Admit(s, userId, request, id))
  {
    AdmitIs(s, userId, request, id);
    hide Admit, Filed;
  }

  /** No stored command answers to the user's key. */
  ghost predicate KeyUnused(s: State, userId: Id, key: string) {
    forall j | j in s.commands :: !(s.commands[j].userId == userId && s.commands[j].request.idempotencyKey == key)
  }

  lemma FindByKeyFinds(s: State, userId: Id, key: string)
    requires Filed(s)
    ensures FindByKey(s, userId, key).None? ==> KeyUnused(s, userId, key)
    ensures var id := FindByKey(s, userId, key);
      id.Some? ==> id.value in s.commands && s.commands[id.value].userId == userId
                   && s.commands[id.value].request.idempotencyKey == key
  {
    assert forall id :: id in s.commands ==> id in s.order;
  }

  ghost predicate Admissible(s: State, userId: Id, request: Request) {
    && s.clock < request.expiresAt <= s.clock + MAX_COMMAND_LIFETIME_MS
    && KeyUnused(s, userId, request.idempotencyKey)
    && RequireExecutor(s, userId, request.targetDeviceId).Some?
    && request.tool in RequireExecutor(s, userId, request.targetDeviceId).value.tools
  }

  lemma AdmitOk(s: State, userId: Id, request: Request, id: Id)
    requires Known(s) && id !in s.commands && Admissible(s, userId, request)
    ensures var s' := Admit(s, userId, request, id);
      && id in s'.commands && RecOk(s', id) && KeyUnused(s, userId, request.idempotencyKey)
      && SentBefore(RecOf(s', id), Epoch(s', s'.commands[id].request.targetDeviceId))
  {
    AdmitRec(s, userId, request, id);
    AdmitIs(s, userId, request, id);
    NewRecLawful(s, userId, request, id);
    hide Known, Admit, Lawful, Trail, SendsOf;
  }

  lemma AdmitRecs(s: State, userId: Id, request: Request, id: Id)
    requires Known(s) && AllRecsOk(s) && id !in s.commands && Admissible(s, userId, request)
    ensures AllRecsOk(Admit(s, userId, request, id))
  {
    AdmitOk(s, userId, request, id);
    AdmitGrows(s, userId, request, id);
    AdmitIs(s, userId, request, id);
    var s' := Admit(s, userId, request, id);
    hide Known, Admit, RecOk, RecOf, SentBefore, Admissible;
    forall j | j in s'.commands ensures RecOk(s', j) {
      if j != id {
        AdmitOthers(s, userId, request, id, j);
        SameRecOk(s, s', j);
      }
    }
  }

  lemma SameRecOk(s: State, s': State, id: Id)
    requires id in s.commands && id in s'.commands && RecOk(s, id) && RecOf(s', id) == RecOf(s, id)
    requires s'.clock == s.clock && s'.devices == s.devices && s'.hellos == s.hellos
    ensures RecOk(s', id)
  {
    assert s'.commands[id] == RecOf(s', id).command;
    hide Lawful, Trail, SendsOf;
  }

  lemma AdmitKeys(s: State, userId: Id, request: Request, id: Id)
    requires Filed(s) && KeysUnique(s) && id !in s.commands && KeyUnused(s, userId, request.idempotencyKey)
    ensures KeysUnique(Admit(s, userId, request, id))
  {
    AdmitIs(s, userId, request, id);
    hide Admit, Filed;
  }

  lemma AdmitCore(s: State, userId: Id, request: Request, id: Id)
    requires Core(s) && id !in s.commands && Admissible(s, userId, request)
    ensures Filed(s) && Core(Admit(s, userId, request, id)) && Grows(s, Admit(s, userId, request, id))
  {
    assert Known(s) && Filed(s) && Wired(s) && KeysUnique(s) && AllRecsOk(s) && AllJustified(s);
    assert KeyUnused(s, userId, request.idempotencyKey);
    var s' := Admit(s, userId, request, id);
    assert s'.sent == s.sent;
    hide *;
    AdmitKnown(s, userId, request, id);
    AdmitGrows(s, userId, request, id);
    AdmitRecs(s, userId, request, id);
    AdmitKeys(s, userId, request, id);
    SentJustified(s, s');
    CoreIs(s');
  }

  /** Admitting one command makes no other command wait. */
  lemma AdmitQuiet(s: State, userId: Id, request: Request, id: Id, s2: State)
    requires Known(s) && Quiet(s) && id !in s.commands
    requires Only(Admit(s, userId, request, id), s2, id) && id in s2.commands && !Waiting(s2, id)
    ensures Quiet(s2)
  {
    var s1 := Admit(s, userId, request, id);
    AdmitIs(s, userId, request, id);
    hide Admit, Known;
    forall j | j in s2.commands ensures !Waiting(s2, j) {
      if j != id {
        assert j in s.commands && !Waiting(s, j);
        assert RecOf(s2, j) == RecOf(s1, j);
        assert s2.commands[j] == s1.commands[j];
      }
    }
  }

  lemma AdmitSettled(s: State, userId: Id, request: Request, id: Id)
    requires Inv(s) && id !in s.commands && Admissible(s, userId, request)
    ensures Filed(s)
    ensures var s' := TryDispatch(Admit(s, userId, request, id), id);
      Inv(s') && Grows(s, s')
  {
    InvIs(s);
    assert Known(s);
    var s1 := Admit(s, userId, request, id);
    hide *;
    AdmitCore(s, userId, request, id);
    AdmitOk(s, userId, request, id);
    TryDispatchCore(s1, id);
    CoreAt(s1, id);
    TryDispatchSettles(s1, id);
    var s2 := TryDispatch(s1, id);
    OnlyKeys(s1, s2, id);
    AdmitQuiet(s, userId, request, id, s2);
    GrowsChain(s, s1, s2);
    InvIs(s2);
  }

  lemma AdmissionMeans(s: State, userId: Id, request: Request)
    requires Filed(s)
    ensures var r := Admission(s, userId, request);
      && (r == Ok(None) ==> Admissible(s, userId, request))
      && (r.Ok? && r.value.Some? ==>
            r.value.value in s.commands && s.commands[r.value.value].userId == userId
            && s.commands[r.value.value].request == request)
  {
    FindByKeyFinds(s, userId, request.idempotencyKey);
    hide Filed, Keyed;
  }

  /** What creating can do to the state: nothing, expire the command found, or admit a new one. */
  lemma CreateCases(s: State, userId: Id, request: Request, id: Id)
    requires Filed(s) && id !in s.commands
    ensures var (s', reply) := Create(s, userId, request, id);
      match Admission(s, userId, request)
      case Refused(reason) => s' == s && reply == Refused(reason)
      case Ok(Some(found)) => s' == ExpireIfNeeded(s, found) && reply == Ok(Aged(s.commands[found], s.clock))
      case Ok(None) =>
        && s' == TryDispatch(Admit(s, userId, request, id), id)
        && id in s'.commands && reply == Ok(s'.commands[id])
  {
    if Admission(s, userId, request) == Ok(None) {
      var s' := TryDispatch(Admit(s, userId, request, id), id);
      assert id in s'.order by { hide TryDispatch, Admit; }
      assert id in s'.commands by { hide TryDispatch, Admit; }
    }
    hide Filed, Admission, ExpireIfNeeded, TryDispatch, Admit;
  }

  lemma CreateInv(s: State, userId: Id, request: Request, id: Id)
    requires Inv(s) && id !in s.commands
    ensures Filed(s)
    ensures Inv(Create(s, userId, request, id).0) && Grows(s, Create(s, userId, request, id).0)
  {
    assert Filed(s);
    hide *;
    GrowsSelf(s);
    AdmissionMeans(s, userId, request);
    CreateCases(s, userId, request, id);
    match Admission(s, userId, request)
    case Refused(_) =>
    case Ok(Some(found)) => ExpireInv(s, found);
    case Ok(None) => AdmitSettled(s, userId, request, id);
  }

  // ---------------------------------------------------------------- reading and deciding

  lemma GetCases(s: State, userId: Id, id: Id)
    requires Filed(s)
    ensures var s' := Get(s, userId, id).0;
      s' == s || (id in s.commands && s.commands[id].userId == userId && s' == ExpireIfNeeded(s, id))
  {
    hide ExpireIfNeeded;
  }

  lemma GetInv(s: State, userId: Id, id: Id)
    requires Inv(s)
    ensures Filed(s) && Inv(Get(s, userId, id).0) && Grows(s, Get(s, userId, id).0)
  {
    assert Filed(s);
    hide *;
    GrowsSelf(s);
    GetCases(s, userId, id);
    if id in s.commands {
      ExpireInv(s, id);
    }
  }

  lemma ListInv(s: State, userId: Id, limit: int)
    requires Inv(s)
    ensures Filed(s) && Inv(List(s, userId, limit).0) && Grows(s, List(s, userId, limit).0)
  {
    assert Filed(s);
    var ids := ListCommands(s, userId, ListLimit(limit));
    assert List(s, userId, limit).0 == ExpireAll(s, ids);
    assert forall id :: id in ids ==> id in s.commands;
    hide *;
    ExpireAllInv(s, ids);
  }

  ghost predicate Rulable(s: State, id: Id, approve: bool, verified: bool) {
    && id in s.commands && s.commands[id].id == id && s.commands[id].status == AwaitingApproval
    && id in s.approvals && s.approvals[id].decision == Pending
    && (s.approvals[id].biometricRequired && approve ==> verified)
  }

  lemma DecideCases(s: State, userId: Id, id: Id, approve: bool, verified: bool)
    requires Filed(s)
    ensures var s' := Decide(s, userId, id, approve, verified).0;
      || s' == s || (id in s.commands && s.commands[id].userId == userId && s' == ExpireIfNeeded(s, id))
      || (Rulable(s, id, approve, verified) && s.commands[id].userId == userId
          && s' == TryDispatch(Rule(s, s.commands[id], s.approvals[id], approve, verified), id))
  {
    GetCases(s, userId, id);
    hide Rule, TryDispatch;
  }

  lemma RuleOnly(s: State, id: Id, approve: bool, verified: bool)
    requires Known(s) && Rulable(s, id, approve, verified)
    ensures var s' := Rule(s, s.commands[id], s.approvals[id], approve, verified);
      Known(s') && Only(s, s', id) && RecOf(s', id) == Decided(RecOf(s, id), approve, verified, s.clock)
      && s'.sent == s.sent && s'.clock == s.clock && s'.hellos == s.hellos
  {
    var c := s.commands[id];
    assert c.id == id && RecOf(s, id).approval == Some(s.approvals[id]);
    var a := s.approvals[id].(decision := if approve then Granted else Denied, biometricVerified := verified,
                              decidedAt := Some(s.clock));
    var s1 := s.(approvals := s.approvals[id := a]);
    var c' := WithStatus(c, if approve then Queued else Cancelled, s.clock);
    var k := if approve then WasApproved(verified) else WasDenied(verified);
    hide Known, Only, Trail, SendsOf, Filed;
    ApprovalOnly(s, id, a);
    PutOnly(s1, c');
    NoteOnly(Put(s1, c'), c, k);
    OnlyChain(s, s1, Put(s1, c'), id);
    OnlyChain(s, Put(s1, c'), Note(Put(s1, c'), c, k), id);
  }

  lemma RuleOk(s: State, s': State, id: Id, approve: bool, verified: bool)
    requires Rulable(s, id, approve, verified) && RecOk(s, id) && Only(s, s', id)
    requires RecOf(s, id).approval.Some? && RecOf(s', id) == Decided(RecOf(s, id), approve, verified, s.clock)
    ensures RecOk(s', id) && SameIdentity(s.commands[id], s'.commands[id])
    ensures SentBefore(RecOf(s', id), Epoch(s', s'.commands[id].request.targetDeviceId))
  {
    assert RecOf(s', id).command == s'.commands[id];
    DecidedLawful(RecOf(s, id), approve, verified, s.clock);
    hide Trail, SendsOf;
  }

  lemma RuleSettled(s: State, id: Id, approve: bool, verified: bool)
    requires Inv(s) && Rulable(s, id, approve, verified)
    ensures Filed(s)
    ensures var s' := TryDispatch(Rule(s, s.commands[id], s.approvals[id], approve, verified), id);
      Inv(s') && Grows(s, s')
  {
    InvIs(s);
    CoreAt(s, id);
    RuleOnly(s, id, approve, verified);
    var s1 := Rule(s, s.commands[id], s.approvals[id], approve, verified);
    assert RecOf(s, id).approval.Some?;
    assert s1.sent == s.sent;
    assert !Waiting(s, id);
    var s2 := TryDispatch(s1, id);
    hide *;
    RuleOk(s, s1, id, approve, verified);
    OnlyCore(s, s1, id);
    TryDispatchCore(s1, id);
    CoreAt(s1, id);
    TryDispatchSettles(s1, id);
    GrowsChain(s, s1, s2);
    OnlyChain(s, s1, s2, id);
    OnlyQuiet(s, s2, id);
    InvIs(s2);
  }

  lemma DecideInv(s: State, userId: Id, id: Id, approve: bool, verified: bool)
    requires Inv(s)
    ensures Filed(s)
    ensures var s' := Decide(s, userId, id, approve, verified).0; Inv(s') && Grows(s, s')
  {
    assert Filed(s);
    hide *;
    GrowsSelf(s);
    DecideCases(s, userId, id, approve, verified);
    if id in s.commands {
      ExpireInv(s, id);
    }
    if Rulable(s, id, approve, verified) {
      RuleSettled(s, id, approve, verified);
    }
  }

  // ---------------------------------------------------------------- results

  lemma SettleOnly(s: State, id: Id, result: ActionResult)
    requires Known(s) && id in s.commands
    ensures var s' := Settle(s, s.commands[id], result);
      Known(s') && Only(s, s', id) && RecOf(s', id) == Reported(RecOf(s, id), result, s.clock)
      && s'.sent == s.sent && s'.commands[id].status == result.status
  {
    var c := s.commands[id];
    assert c.id == id;
    var s1 := s.(results := s.results[id := result]);
    assert Known(s1) && Only(s, s1, id) && RecOf(s1, id) == RecOf(s, id).(result := Some(result));
    var c' := WithStatus(c, result.status, s.clock);
    hide Known, Only, Trail, SendsOf, Filed;
    PutOnly(s1, c');
    NoteOnly(Put(s1, c'), c, HasReported(result.status, result.error));
    OnlyChain(s, s1, Put(s1, c'), id);
    OnlyChain(s, Put(s1, c'), Note(Put(s1, c'), c, HasReported(result.status, result.error)), id);
  }

  lemma SettleOk(s: State, s': State, id: Id, result: ActionResult)
    requires id in s.commands && s.commands[id].status in {Dispatched, Running} && result.commandId == id
    requires Filed(s) && RecOk(s, id) && Only(s, s', id) && RecOf(s', id) == Reported(RecOf(s, id), result, s.clock)
    ensures RecOk(s', id) && SameIdentity(s.commands[id], s'.commands[id])
  {
    assert RecOf(s', id).command == s'.commands[id];
    ReportedLawful(RecOf(s, id), result, s.clock);
    hide Trail, SendsOf, Lawful;
  }

  lemma SettleInv(s: State, id: Id, result: ActionResult)
    requires Inv(s) && id in s.commands && s.commands[id].status in {Dispatched, Running} && result.commandId == id
    ensures Filed(s)
    ensures var s' := Settle(s, s.commands[id], result); Inv(s') && Grows(s, s')
  {
    InvIs(s);
    CoreAt(s, id);
    SettleOnly(s, id, result);
    var s' := Settle(s, s.commands[id], result);
    assert s'.sent == s.sent;
    assert !Waiting(s', id);
    hide *;
    SettleOk(s, s', id, result);
    OnlyCore(s, s', id);
    OnlyQuiet(s, s', id);
    InvIs(s');
  }

  lemma ReportCases(s: State, socket: Socket, result: ActionResult)
    requires Filed(s)
    ensures var s' := Report(s, socket, result).0; var id := result.commandId;
      s' == s || (id in s.commands && s.commands[id].status in {Dispatched, Running}
                  && socket in s.bySocket && s.commands[id].request.targetDeviceId == s.bySocket[socket]
                  && s' == Settle(s, s.commands[id], result))
  {
    hide Settle;
  }

  lemma ReportInv(s: State, socket: Socket, result: ActionResult)
    requires Inv(s)
    ensures Filed(s) && Inv(Report(s, socket, result).0) && Grows(s, Report(s, socket, result).0)
  {
    assert Filed(s);
    hide *;
    GrowsSelf(s);
    ReportCases(s, socket, result);
    if result.commandId in s.commands && s.commands[result.commandId].status in {Dispatched, Running} {
      SettleInv(s, result.commandId, result);
    }
  }

  // ---------------------------------------------------------------- gateway handlers

  /** Nothing that was offline comes online and nothing becomes queued or unexpired. */
  lemma EnvironmentQuiet(s: State, s': State)
    requires Quiet(s) && Environment(s, s') && s.clock <= s'.clock
    requires forall d :: Link(s', d).Some? ==> Link(s, d).Some?
    ensures Quiet(s')
  {
    forall id | id in s'.commands ensures !Waiting(s', id) {
      assert !Waiting(s, id);
    }
  }

  /** A change of the environment that brings no device online. */
  ghost predicate Eased(s: State, s': State) {
    && Environment(s, s') && Grows(s, s') && Wired(s') && s'.open <= s'.everOpen
    && (forall d :: Link(s', d).Some? ==> Link(s, d).Some?)
  }

  lemma EasedIs(s: State, s': State)
    requires Eased(s, s')
    ensures Environment(s, s') && Grows(s, s') && Wired(s') && s'.open <= s'.everOpen && s.clock <= s'.clock
    ensures forall d :: Link(s', d).Some? ==> Link(s, d).Some?
  {
  }

  lemma EasedInv(s: State, s': State)
    requires Inv(s) && Eased(s, s')
    ensures Inv(s') && Grows(s, s')
  {
    hide *;
    EasedIs(s, s');
    InvIs(s);
    EnvironmentCore(s, s');
    EnvironmentQuiet(s, s');
    InvIs(s');
  }

  lemma InvWired(s: State)
    requires Inv(s)
    ensures Filed(s) && Known(s) && Wired(s) && AllRecsOk(s) && AllJustified(s) && s.open <= s.everOpen
  {
  }

  lemma ShutEased(s: State, sockets: set<Socket>)
    requires Wired(s) && s.open <= s.everOpen
    ensures Eased(s, s.(open := s.open - sockets))
  {
  }

  function Greeted(s: State, socket: Socket, deviceId: Id): State {
    SetPresence(Attach(s, deviceId, socket), deviceId, true)
  }

  lemma GreetedEnvironment(s: State, socket: Socket, deviceId: Id)
    requires Wired(s) && deviceId in s.devices && socket in s.everOpen
    ensures var s' := Greeted(s, socket, deviceId);
      && Environment(s, s') && Grows(s, s') && Wired(s') && s'.open <= s.open && s'.everOpen == s.everOpen
      && s'.clock == s.clock && Epoch(s', deviceId) == Epoch(s, deviceId) + 1
      && (forall d :: d != deviceId && Link(s', d).Some? ==> Link(s, d).Some?)
  {
  }

  lemma ListDispatchableIs(s: State, deviceId: Id)
    requires Filed(s)
    ensures Distinct(ListDispatchable(s, deviceId))
    ensures forall id :: id in ListDispatchable(s, deviceId)
              <==> id in s.commands && Dispatchable(s.commands[id], deviceId, s.clock)
  {
    FilterDistinct(s.order, Ready(s.commands, deviceId, s.clock));
  }

  lemma SentBeforeNext(s: State, s': State, deviceId: Id, id: Id)
    requires id in s.commands && RecOk(s, id) && Environment(s, s')
    requires s.commands[id].request.targetDeviceId == deviceId && Epoch(s', deviceId) == Epoch(s, deviceId) + 1
    ensures SentBefore(RecOf(s', id), Epoch(s', deviceId))
  {
    hide Lawful, Trail, SendsOf;
    assert RecOf(s', id) == RecOf(s, id);
  }

  /** After a hello every past send to the device lies before its new epoch. */
  lemma CoreMeans(s: State)
    requires Core(s)
    ensures Known(s) && Filed(s) && Wired(s) && AllRecsOk(s)
  {
    hide Filed, Wired, AllRecsOk, KeysUnique, AllJustified;
  }

  lemma GreetedKeeps(s: State, socket: Socket, deviceId: Id)
    requires Filed(s)
    ensures Filed(Greeted(s, socket, deviceId)) && Greeted(s, socket, deviceId).commands == s.commands
  {
  }

  lemma GreetedUnsent(s: State, socket: Socket, deviceId: Id)
    requires Core(s) && deviceId in s.devices && socket in s.everOpen
    ensures var s' := Greeted(s, socket, deviceId);
      Unsent(s', ListDispatchable(s', deviceId)) && Distinct(ListDispatchable(s', deviceId))
  {
    hide Core, Filed, Wired, Greeted, ListDispatchable, Grows, RecOf, SentBefore, RecOk, Environment, Epoch;
    CoreMeans(s);
    GreetedKeeps(s, socket, deviceId);
    var s' := Greeted(s, socket, deviceId);
    ListDispatchableIs(s', deviceId);
    var pending := ListDispatchable(s', deviceId);
    GreetedEnvironment(s, socket, deviceId);
    forall id | id in pending
      ensures id in s'.commands && SentBefore(RecOf(s', id), Epoch(s', s'.commands[id].request.targetDeviceId))
    {
      SentBeforeNext(s, s', deviceId, id);
    }
  }

  lemma GreetedQuiet(s: State, s1: State, s2: State, deviceId: Id)
    requires Quiet(s) && Environment(s, s1) && s1.clock == s.clock
    requires forall d :: d != deviceId && Link(s1, d).Some? ==> Link(s, d).Some?
    requires Filed(s1) && Among(s1, s2, ListDispatchable(s1, deviceId))
    requires AllSettled(s2, ListDispatchable(s1, deviceId))
    ensures Quiet(s2)
  {
    var pending := ListDispatchable(s1, deviceId);
    forall id | id in s2.commands ensures !Waiting(s2, id) {
      if id !in pending {
        assert RecOf(s2, id) == RecOf(s1, id) && !Waiting(s, id) && id in s1.order;
        assert s2.commands[id] == s.commands[id];
      }
    }
  }

  lemma GreetedController(s: State, s1: State, deviceId: Id)
    requires Quiet(s) && Environment(s, s1) && s1.clock == s.clock && AllRecsOk(s)
    requires deviceId in s.devices && s.devices[deviceId].kind != ExecutorDevice
    requires forall d :: d != deviceId && Link(s1, d).Some? ==> Link(s, d).Some?
    ensures Quiet(s1)
  {
    forall id | id in s1.commands ensures !Waiting(s1, id) {
      assert !Waiting(s, id) && RecOk(s, id) && Owned(s, s.commands[id]);
      hide Lawful;
    }
  }

  lemma HelloInv(s: State, socket: Socket, deviceId: Id, valid: bool)
    requires Inv(s) && socket in s.everOpen
    ensures Filed(s) && Inv(Hello(s, socket, deviceId, valid)) && Grows(s, Hello(s, socket, deviceId, valid))
  {
    InvWired(s);
    hide Inv, Core, Grows, Wired, AllRecsOk, AllJustified, Known, Filed, DispatchAll, SetPresence, Attach,
         ListDispatchable;
    if deviceId !in s.devices || !valid {
      ShutEased(s, {socket});
      EasedInv(s, s.(open := s.open - {socket}));
    } else {
      WelcomeInv(s, socket, deviceId);
    }
  }

  function Welcomed(s: State, socket: Socket, deviceId: Id): State
    requires Filed(s) && deviceId in s.devices
  {
    var s1 := Greeted(s, socket, deviceId);
    if s.devices[deviceId].kind == ExecutorDevice then DispatchAll(s1, ListDispatchable(s1, deviceId)) else s1
  }

  lemma WelcomeInv(s: State, socket: Socket, deviceId: Id)
    requires Inv(s) && Filed(s) && socket in s.everOpen && deviceId in s.devices
    ensures Inv(Welcomed(s, socket, deviceId)) && Grows(s, Welcomed(s, socket, deviceId))
  {
    var s1 := Greeted(s, socket, deviceId);
    var s2 := Welcomed(s, socket, deviceId);
    assert Filed(s1) && s1.everOpen == s.everOpen && s1.open <= s.open;
    assert s.devices[deviceId].kind == ExecutorDevice ==> s2 == DispatchAll(s1, ListDispatchable(s1, deviceId));
    assert s.devices[deviceId].kind != ExecutorDevice ==> s2 == s1;
    hide *;
    InvIs(s);
    InvWired(s);
    GreetedEnvironment(s, socket, deviceId);
    EnvironmentCore(s, s1);
    GrowsSelf(s1);
    if s.devices[deviceId].kind == ExecutorDevice {
      GreetedUnsent(s, socket, deviceId);
      DispatchAllCore(s1, ListDispatchable(s1, deviceId));
      GreetedQuiet(s, s1, s2, deviceId);
    } else {
      GreetedController(s, s1, deviceId);
    }
    GrowsChain(s, s1, s2);
    InvIs(s2);
  }

  lemma SignalCases(s: State, socket: Socket, deviceId: Id, signal: string) returns (m: Option<Sent>)
    requires Wired(s)
    ensures m.None? ==> Signal(s, socket, deviceId, signal) == s
    ensures m.Some? ==> Signal(s, socket, deviceId, signal) == s.(sent := s.sent + [m.value])
                        && m.value.message.SignalFrom? && Justified(s, m.value)
  {
    var s' := Signal(s, socket, deviceId, signal);
    m := if s' == s then None else Some(s'.sent[|s.sent|]);
  }

  lemma SignalInv(s: State, socket: Socket, deviceId: Id, signal: string)
    requires Inv(s)
    ensures Inv(Signal(s, socket, deviceId, signal)) && Grows(s, Signal(s, socket, deviceId, signal))
  {
    hide *;
    GrowsSelf(s);
    InvWired(s);
    InvIs(s);
    var m := SignalCases(s, socket, deviceId, signal);
    if m.Some? {
      var s' := s.(sent := s.sent + [m.value]);
      SignalRest(s, m.value);
      SignalRecs(s, m.value);
      JustifiedKept(s, s', m.value);
      SentJustified(s, s');
      CoreIs(s');
      InvIs(s');
    }
  }

  lemma SignalRest(s: State, m: Sent)
    requires Core(s) && Quiet(s) && m.message.SignalFrom?
    ensures var s' := s.(sent := s.sent + [m]);
      Known(s') && Wired(s') && KeysUnique(s') && Grows(s, s') && Quiet(s')
  {
    var s' := s.(sent := s.sent + [m]);
    hide AllRecsOk, AllJustified;
    forall id | id in s'.commands ensures !Waiting(s', id) {
      assert !Waiting(s, id);
    }
  }

  lemma SignalRecs(s: State, m: Sent)
    requires AllRecsOk(s) && m.message.SignalFrom?
    ensures AllRecsOk(s.(sent := s.sent + [m]))
  {
    var s' := s.(sent := s.sent + [m]);
    forall id | id in s'.commands ensures RecOk(s', id) {
      SignalRec(s, m, id);
    }
  }

  lemma SignalRec(s: State, m: Sent, id: Id)
    requires id in s.commands && RecOk(s, id) && m.message.SignalFrom?
    ensures RecOk(s.(sent := s.sent + [m]), id)
  {
    SendsAppend(s.sent, m, id);
    assert RecOf(s.(sent := s.sent + [m]), id) == RecOf(s, id);
    hide Lawful, Trail, SendsOf;
  }

  lemma PresenceEased(s: State, s1: State, deviceId: Id, online: bool)
    requires Eased(s, s1)
    ensures Eased(s, SetPresence(s1, deviceId, online))
  {
  }

  lemma DetachEased(s: State, socket: Socket)
    requires Wired(s) && s.open <= s.everOpen
    ensures Eased(s, Disconnect(s, socket))
  {
    ShutEased(s, {socket});
    if socket in s.bySocket {
      var d := s.bySocket[socket];
      var s0 := s.(open := s.open - {socket});
      var s1 := if d in s.byDevice && s.byDevice[d] == socket
                then s0.(byDevice := s0.byDevice - {d}) else s0;
      assert Eased(s, s1);
      hide Eased;
      PresenceEased(s, s1, d, false);
    }
  }

  // ---------------------------------------------------------------- every step

  lemma EasedSelf(s: State)
    requires Wired(s) && s.open <= s.everOpen
    ensures Eased(s, s)
  {
  }

  lemma EasedStep(s: State, step: Step)
    requires Wired(s) && s.open <= s.everOpen && Filed(s) && Possible(s, step)
    requires !step.DoCreate? && !step.DoDecide? && !step.DoGet? && !step.DoList?
    requires !step.DoHello? && !step.DoReport? && !step.DoSignal?
    ensures Eased(s, Apply(s, step).0)
  {
    hide Eased, SetPresence, Disconnect, Wired, Filed;
    EasedSelf(s);
    match step
    case Shut(socket) => ShutEased(s, {socket});
    case DoDisconnect(socket) => DetachEased(s, socket);
    case DoHeartbeat(socket, d) => PresenceEased(s, s, d, true);
    case _ => NewcomerEased(s, step);
  }

  lemma NewcomerEased(s: State, step: Step)
    requires Wired(s) && s.open <= s.everOpen && Filed(s) && Possible(s, step)
    requires step.Tick? || step.DoRegister? || step.Connect?
    ensures Eased(s, Apply(s, step).0)
  {
    hide Filed;
  }

  lemma StepInv(s: State, step: Step)
    requires Inv(s) && Filed(s) && Possible(s, step)
    ensures Inv(Apply(s, step).0) && Grows(s, Apply(s, step).0)
  {
    hide Inv, Grows, Filed, Create, Decide, Get, List, Hello, Report, Signal, Eased, Wired;
    match step
    case DoCreate(userId, request, id) => CreateInv(s, userId, request, id);
    case DoDecide(userId, id, approve, verified) => DecideInv(s, userId, id, approve, verified);
    case DoGet(userId, id) => GetInv(s, userId, id);
    case DoList(userId, limit) => ListInv(s, userId, limit);
    case DoHello(socket, deviceId, valid) => HelloInv(s, socket, deviceId, valid);
    case DoReport(socket, result) => ReportInv(s, socket, result);
    case DoSignal(socket, deviceId, signal) => SignalInv(s, socket, deviceId, signal);
    case _ =>
      InvWired(s);
      EasedStep(s, step);
      EasedInv(s, Apply(s, step).0);
  }

  // ---------------------------------------------------------------- copies of other commands stay good

  ghost predicate OthersSame(s: State, s': State, id: Id) {
    forall j {:trigger j in s.commands} :: j in s.commands && j != id ==>
      j in s'.commands && s'.commands[j] == s.commands[j]
  }

  lemma ExpireOthers(s: State, id: Id)
    requires Filed(s) && id in s.commands
    ensures OthersSame(s, ExpireIfNeeded(s, id), id)
  {
  }

  lemma TryDispatchOthers(s: State, id: Id)
    requires Filed(s) && id in s.commands
    ensures OthersSame(s, TryDispatch(s, id), id)
  {
    ExpireOthers(s, id);
    var socket := TryDispatchCases(s, id);
    if socket.Some? {
      HandOverOthers(s, id, socket.value);
    }
    hide TryDispatch, HandOver, ExpireIfNeeded, Filed;
  }

  lemma HandOverOthers(s: State, id: Id, socket: Socket)
    requires Filed(s) && id in s.commands
    ensures OthersSame(s, HandOver(s, id, socket), id)
  {
    hide Filed, HandOver;
    HandOverFrame(s, id, socket);
  }

  lemma ListCommandsDistinct(s: State, userId: Id, limit: nat)
    requires Filed(s)
    ensures Distinct(ListCommands(s, userId, limit))
  {
    FilterDistinct(s.order, (id: Id) => id in s.commands && s.commands[id].userId == userId);
    NewestFirstDistinct(Own(s.commands, s.order, userId),
                        (id: Id) => if id in s.commands then s.commands[id].createdAt else 0);
  }
}
