/** The inductive invariant of the control plane, kept by every step. */
module ServerInvariant {
  import opened Wrappers
  import opened Protocol
  import opened Lifecycle
  import opened Ordering
  import opened Server

  // ---------------------------------------------------------------- one command's view of the state

  function Trail(audit: seq<AuditEvent>, id: Id): seq<Kind> {
    if audit == [] then []
    else Trail(audit[..|audit| - 1], id)
         + if audit[|audit| - 1].commandId == id then [audit[|audit| - 1].kind] else []
  }

  function SendsOf(sent: seq<Sent>, id: Id): seq<Sent> {
    if sent == [] then []
    else SendsOf(sent[..|sent| - 1], id)
         + if Dispatches(sent[|sent| - 1], id) then [sent[|sent| - 1]] else []
  }

  lemma TrailAppend(audit: seq<AuditEvent>, e: AuditEvent, id: Id)
    ensures Trail(audit + [e], id) == Trail(audit, id) + if e.commandId == id then [e.kind] else []
  {
    assert (audit + [e])[..|audit|] == audit;
  }

  lemma SendsAppend(sent: seq<Sent>, m: Sent, id: Id)
    ensures SendsOf(sent + [m], id) == SendsOf(sent, id) + if Dispatches(m, id) then [m] else []
  {
    assert (sent + [m])[..|sent|] == sent;
  }

  function RecOf(s: State, id: Id): Rec
    requires id in s.commands
  {
    Rec(s.commands[id], Lookup(s.approvals, id), Lookup(s.results, id), Trail(s.audit, id), SendsOf(s.sent, id))
  }

  // ---------------------------------------------------------------- the invariant

  ghost predicate Known(s: State) {
    && Filed(s)
    && s.approvals.Keys <= s.commands.Keys && s.results.Keys <= s.commands.Keys
    && (forall k :: 0 <= k < |s.audit| ==> s.audit[k].commandId in s.commands)
    && (forall k :: 0 <= k < |s.sent| && s.sent[k].message.DispatchOf? ==> s.sent[k].message.command.id in s.commands)
    && s.open <= s.everOpen
  }

  ghost predicate Owned(s: State, c: Command) {
    var d := c.request.targetDeviceId;
    d in s.devices && s.devices[d].userId == c.userId && s.devices[d].kind == ExecutorDevice
    && c.request.tool in s.devices[d].tools
  }

  ghost predicate RecOk(s: State, id: Id)
    requires id in s.commands
  {
    var r := RecOf(s, id);
    && Lawful(r)
    && r.command.createdAt <= s.clock
    && SentBefore(r, Epoch(s, r.command.request.targetDeviceId) + 1)
    && Owned(s, r.command)
  }

  ghost predicate Wired(s: State) {
    && (forall d :: d in s.byDevice ==> (s.byDevice[d], d) in s.authed && s.byDevice[d] in s.everOpen)
    && (forall k :: k in s.bySocket ==> (k, s.bySocket[k]) in s.authed)
    && (forall p :: p in s.authed ==> p.1 in s.devices)
  }

  ghost predicate KeysUnique(s: State) {
    forall i, j | i in s.commands && j in s.commands ::
      (&& s.commands[i].userId == s.commands[j].userId
       && s.commands[i].request.idempotencyKey == s.commands[j].request.idempotencyKey) ==> i == j
  }

  /** What holds of every message ever sent: its socket had authenticated as the addressee, a signal
      stays within one account, and a dispatch was logged at `mark`, when the command's audit trail
      said it was queued or dispatched. */
  ghost predicate Justified(s: State, m: Sent) {
    && m.authed && m.deviceId in s.devices && m.at <= s.clock
    && match m.message
       case SignalFrom(source, _) =>
         source in s.devices && s.devices[source].userId == s.devices[m.deviceId].userId
       case DispatchOf(c) =>
         && c.id in s.commands
         && s.commands[c.id].request == c.request && s.commands[c.id].userId == c.userId
         && m.deviceId == c.request.targetDeviceId
         && m.mark < |s.audit|
         && s.audit[m.mark].kind == WasDispatched && s.audit[m.mark].commandId == c.id
         && Replay(c.request.tool, Trail(s.audit[..m.mark], c.id)) in {At(Queued), At(Dispatched)}
  }

  ghost predicate Core(s: State) {
    && Known(s) && Wired(s) && KeysUnique(s)
    && AllRecsOk(s) && AllJustified(s)
  }

  ghost predicate AllRecsOk(s: State) {
    forall id :: id in s.commands ==> RecOk(s, id)
  }

  ghost predicate AllJustified(s: State) {
    forall k :: 0 <= k < |s.sent| ==> Justified(s, s.sent[k])
  }

  /** An unexpired queued command whose device is online. */
  ghost predicate Waiting(s: State, id: Id)
    requires id in s.commands
  {
    && s.commands[id].status == Queued && s.commands[id].request.expiresAt > s.clock
    && Link(s, s.commands[id].request.targetDeviceId).Some?
  }

  ghost predicate Inv(s: State) {
    Core(s) && forall id :: id in s.commands ==> !Waiting(s, id)
  }

  // ---------------------------------------------------------------- what no step takes back

  predicate SameIdentity(c: Command, c': Command) {
    c' == c.(status := c'.status, updatedAt := c'.updatedAt)
  }

  predicate SameDevice(d: Device, d': Device) {
    d' == d.(online := d'.online, lastSeenAt := d'.lastSeenAt)
  }

  ghost predicate Grows(s: State, s': State) {
    && s.clock <= s'.clock && s.audit <= s'.audit && s.sent <= s'.sent
    && s.authed <= s'.authed && s.everOpen <= s'.everOpen
    && (forall d :: Epoch(s, d) <= Epoch(s', d))
    && (forall id :: id in s.commands ==> id in s'.commands && SameIdentity(s.commands[id], s'.commands[id]))
    && (forall d :: d in s.devices ==> d in s'.devices && SameDevice(s.devices[d], s'.devices[d]))
  }

  lemma JustifiedKept(s: State, s': State, m: Sent)
    requires Justified(s, m) && Grows(s, s')
    ensures Justified(s', m)
  {
    if m.message.DispatchOf? {
      assert s'.audit[..m.mark] == s.audit[..m.mark];
    }
  }

  // ---------------------------------------------------------------- steps on one record

  /** From `s` to `s'` at most the record of `id`, the audit log and the sent log have changed. */
  ghost predicate Only(s: State, s': State, id: Id) {
    && s' == s.(commands := s'.commands, approvals := s'.approvals, results := s'.results,
                audit := s'.audit, sent := s'.sent)
    && s'.commands.Keys == s.commands.Keys
    && s.audit <= s'.audit && s.sent <= s'.sent
    && (forall j {:trigger RecOf(s', j)} :: j in s.commands && j != id ==> RecOf(s', j) == RecOf(s, j))
  }

  lemma OnlySelf(s: State, id: Id)
    ensures Only(s, s, id)
  {
  }

  lemma OnlyChain(s: State, s1: State, s2: State, id: Id)
    requires Only(s, s1, id) && Only(s1, s2, id)
    ensures Only(s, s2, id)
  {
  }

  lemma NoteOnly(s: State, c: Command, kind: Kind)
    requires Known(s) && c.id in s.commands
    ensures Known(Note(s, c, kind)) && Only(s, Note(s, c, kind), c.id)
    ensures RecOf(Note(s, c, kind), c.id) == RecOf(s, c.id).(trail := RecOf(s, c.id).trail + [kind])
  {
    var e := AuditEvent(c.userId, kind, c.request.targetDeviceId, c.id, s.clock);
    forall j | j in s.commands && j != c.id ensures RecOf(Note(s, c, kind), j) == RecOf(s, j) {
      TrailAppend(s.audit, e, j);
    }
    TrailAppend(s.audit, e, c.id);
  }

  lemma TransmitOnly(s: State, socket: Socket, d: Id, c: Command)
    requires Known(s) && c.id in s.commands
    ensures var s' := Transmit(s, socket, d, DispatchOf(c));
      && Known(s') && Only(s, s', c.id)
      && RecOf(s', c.id) == RecOf(s, c.id).(
           sends := RecOf(s, c.id).sends
                    + [Sent(socket, d, DispatchOf(c), s.clock, Epoch(s, d), |s.audit|, (socket, d) in s.authed)])
  {
    var m := Sent(socket, d, DispatchOf(c), s.clock, Epoch(s, d), |s.audit|, (socket, d) in s.authed);
    var s' := Transmit(s, socket, d, DispatchOf(c));
    forall j | j in s.commands && j != c.id ensures RecOf(s', j) == RecOf(s, j) {
      SendsAppend(s.sent, m, j);
    }
    SendsAppend(s.sent, m, c.id);
  }

  lemma PutOnly(s: State, c: Command)
    requires Known(s) && c.id in s.commands
    ensures Known(Put(s, c)) && Only(s, Put(s, c), c.id)
    ensures RecOf(Put(s, c), c.id) == RecOf(s, c.id).(command := c)
  {
  }

  lemma ApprovalOnly(s: State, id: Id, a: Approval)
    requires Known(s) && id in s.commands
    ensures var s' := s.(approvals := s.approvals[id := a]);
      && Known(s') && Only(s, s', id)
      && RecOf(s', id) == RecOf(s, id).(approval := Some(a))
  {
  }

  lemma ExpireOnly(s: State, id: Id)
    requires Known(s) && id in s.commands
    ensures Known(ExpireIfNeeded(s, id)) && Only(s, ExpireIfNeeded(s, id), id)
    ensures RecOf(ExpireIfNeeded(s, id), id) == Lapse(RecOf(s, id), s.clock)
  {
    var c := s.commands[id];
    if Overdue(c, s.clock) {
      hide Known, Only, Trail, SendsOf;
      var s1 := Put(s, WithStatus(c, Expired, s.clock));
      PutOnly(s, WithStatus(c, Expired, s.clock));
      NoteOnly(s1, c, HasExpired);
      OnlyChain(s, s1, Note(s1, c, HasExpired), id);
    }
  }

  ghost predicate ApprovalOwned(s: State, id: Id)
    requires id in s.commands
  {
    && (id in s.approvals <==> NeedsApproval(s.commands[id].request.tool))
    && (id in s.approvals ==> s.approvals[id].userId == s.commands[id].userId)
  }

  lemma ClaimOnly(s: State, id: Id)
    requires Known(s) && id in s.commands && ApprovalOwned(s, id)
    ensures var s' := Claim(s, s.commands[id]);
      Known(s') && Only(s, s', id) && RecOf(s', id) == Claimed(RecOf(s, id), s.clock)
  {
    var c := s.commands[id];
    assert c.id == id;
    hide Known, Only, Trail, SendsOf;
    var claimed := Put(s, WithStatus(c, Dispatched, s.clock));
    PutOnly(s, WithStatus(c, Dispatched, s.clock));
    if id in s.approvals {
      var a := s.approvals[id].(consumedAt := Some(s.clock));
      ApprovalOnly(claimed, id, a);
      OnlyChain(s, claimed, claimed.(approvals := claimed.approvals[id := a]), id);
    }
  }

  lemma SendOnly(s: State, c: Command, socket: Socket)
    requires Known(s) && c.id in s.commands
    ensures var id, d := c.id, c.request.targetDeviceId;
      var s' := Note(Transmit(s, socket, d, DispatchOf(s.commands[id])), c, WasDispatched);
      && Known(s') && Only(s, s', id)
      && RecOf(s', id)
         == Posted(RecOf(s, id), Sent(socket, d, DispatchOf(s.commands[id]), s.clock, Epoch(s, d), |s.audit|,
                                      (socket, d) in s.authed))
  {
    var id, d := c.id, c.request.targetDeviceId;
    var s1 := Transmit(s, socket, d, DispatchOf(s.commands[id]));
    assert s.commands[id].id == id;
    hide Known, Only, RecOf, Note, Transmit;
    TransmitOnly(s, socket, d, s.commands[id]);
    NoteOnly(s1, c, WasDispatched);
    OnlyChain(s, s1, Note(s1, c, WasDispatched), id);
  }

  /** The record of a command once it is handed over on `socket`. */
  function SentNow(s: State, id: Id, socket: Socket): Rec
    requires id in s.commands
  {
    var d := s.commands[id].request.targetDeviceId;
    SentOut(RecOf(s, id), socket, s.clock, Epoch(s, d), |s.audit|, (socket, d) in s.authed)
  }

  lemma HandOverOnly(s: State, id: Id, socket: Socket)
    requires Known(s) && id in s.commands && ApprovalOwned(s, id)
    requires s.commands[id].status in {Queued, Dispatched}
    ensures Known(HandOver(s, id, socket))
    ensures Only(s, HandOver(s, id, socket), id)
    ensures RecOf(HandOver(s, id, socket), id)
         == SentNow(s, id, socket)
  {
    var c := s.commands[id];
    assert c.id == id;
    hide Known, Only, Filed, Trail, SendsOf;
    if c.status == Queued {
      var s1 := Claim(s, c);
      ClaimOnly(s, id);
      hide Put;
      SendOnly(s1, c, socket);
      OnlyChain(s, s1, HandOver(s, id, socket), id);
    } else {
      SendOnly(s, c, socket);
    }
  }

  // ---------------------------------------------------------------- the invariant, one record at a time

  lemma OnlyGrows(s: State, s': State, id: Id)
    requires Only(s, s', id) && id in s.commands && SameIdentity(s.commands[id], s'.commands[id])
    ensures Grows(s, s')
  {
    forall j | j in s.commands ensures SameIdentity(s.commands[j], s'.commands[j]) {
      assert j != id ==> RecOf(s', j) == RecOf(s, j);
    }
  }

  lemma OthersOk(s: State, s': State, id: Id)
    requires Only(s, s', id) && AllRecsOk(s) && id in s'.commands && RecOk(s', id)
    ensures AllRecsOk(s')
  {
    hide Lawful, Trail, SendsOf;
    forall j | j in s.commands && j != id ensures RecOk(s', j) {
      assert RecOf(s', j) == RecOf(s, j) && RecOk(s, j);
    }
  }

  lemma OnlyKeysUnique(s: State, s': State, id: Id)
    requires Only(s, s', id) && Grows(s, s') && KeysUnique(s)
    ensures KeysUnique(s')
  {
    forall i, j | i in s'.commands && j in s'.commands && s'.commands[i].userId == s'.commands[j].userId
                  && s'.commands[i].request.idempotencyKey == s'.commands[j].request.idempotencyKey
      ensures i == j
    {
      assert SameIdentity(s.commands[i], s'.commands[i]) && SameIdentity(s.commands[j], s'.commands[j]);
    }
  }

  lemma SentJustified(s: State, s': State)
    requires Grows(s, s') && AllJustified(s)
    requires forall k :: |s.sent| <= k < |s'.sent| ==> Justified(s', s'.sent[k])
    ensures AllJustified(s')
  {
    forall k | 0 <= k < |s'.sent| ensures Justified(s', s'.sent[k]) {
      if k < |s.sent| {
        assert s'.sent[k] == s.sent[k];
        hide Grows, Justified;
        JustifiedKept(s, s', s.sent[k]);
      }
    }
  }

  lemma OnlyWired(s: State, s': State, id: Id)
    requires Only(s, s', id) && Wired(s)
    ensures Wired(s')
  {
  }

  lemma OnlyCore(s: State, s': State, id: Id)
    requires Core(s) && Known(s') && Only(s, s', id) && id in s.commands && id in s'.commands
    requires RecOk(s', id) && SameIdentity(s.commands[id], s'.commands[id])
    requires forall k :: |s.sent| <= k < |s'.sent| ==> Justified(s', s'.sent[k])
    ensures Core(s') && Grows(s, s')
  {
    hide Known, Only, RecOk, Wired, Grows, KeysUnique, Justified, SameIdentity, AllRecsOk, AllJustified;
    OnlyWired(s, s', id);
    OnlyGrows(s, s', id);
    OthersOk(s, s', id);
    OnlyKeysUnique(s, s', id);
    SentJustified(s, s');
  }

  lemma LapseOk(s: State, s': State, id: Id)
    requires id in s.commands && RecOk(s, id) && Only(s, s', id) && RecOf(s', id) == Lapse(RecOf(s, id), s.clock)
    ensures RecOk(s', id) && SameIdentity(s.commands[id], s'.commands[id])
  {
    assert RecOf(s', id).command == s'.commands[id];
    hide Trail, SendsOf, Lawful;
    LapseLawful(RecOf(s, id), s.clock);
  }

  lemma ExpireCore(s: State, id: Id)
    requires Core(s) && id in s.commands
    ensures Core(ExpireIfNeeded(s, id)) && Grows(s, ExpireIfNeeded(s, id))
  {
    assert RecOk(s, id) && Known(s) && ExpireIfNeeded(s, id).sent == s.sent;
    hide *;
    ExpireOnly(s, id);
    LapseOk(s, ExpireIfNeeded(s, id), id);
    OnlyCore(s, ExpireIfNeeded(s, id), id);
  }

  // ---------------------------------------------------------------- dispatching keeps the invariant

  lemma FiledAt(s: State, id: Id)
    requires Filed(s) && id in s.commands
    ensures s.commands[id].id == id
  {
    hide Distinct;
  }

  /** A claim changes the command and at most its approval. */
  lemma ClaimFrame(s: State, id: Id)
    requires Filed(s) && id in s.commands
    ensures var c, s' := s.commands[id], Claim(s, s.commands[id]);
      && s' == s.(commands := s.commands[id := WithStatus(c, Dispatched, s.clock)], approvals := s'.approvals)
      && s'.approvals.Keys == s.approvals.Keys
      && (forall j :: j in s.approvals && j != id ==> s'.approvals[j] == s.approvals[j])
  {
    hide Filed;
    FiledAt(s, id);
  }

  /** What a dispatch changes: the command, its approval, the audit log and the sent log. */
  lemma HandOverFrame(s: State, id: Id, socket: Socket)
    requires Filed(s) && id in s.commands
    ensures var c, s' := s.commands[id], HandOver(s, id, socket);
      && s' == s.(commands := s.commands[id := s'.commands[id]], approvals := s'.approvals, audit := s'.audit,
                  sent := s'.sent)
      && s'.approvals == (if c.status == Queued then Claim(s, c) else s).approvals
      && s'.approvals.Keys == s.approvals.Keys
      && (forall j :: j in s.approvals && j != id ==> s'.approvals[j] == s.approvals[j])
  {
    hide Filed, Claim;
    FiledAt(s, id);
    ClaimFrame(s, id);
    assert s.commands[id := s.commands[id]] == s.commands;
  }

  /** What a dispatch writes to the logs, and what becomes of the command. */
  lemma HandOverLogs(s: State, id: Id, socket: Socket)
    requires Filed(s) && id in s.commands
    ensures var c, s' := s.commands[id], HandOver(s, id, socket);
      && s'.audit == s.audit + [AuditEvent(c.userId, WasDispatched, c.request.targetDeviceId, id, s.clock)]
      && s'.commands[id] == (if c.status == Queued then WithStatus(c, Dispatched, s.clock) else c)
      && s'.sent == s.sent + [Sent(socket, c.request.targetDeviceId, DispatchOf(s'.commands[id]), s.clock,
                                   Epoch(s, c.request.targetDeviceId), |s.audit|,
                                   (socket, c.request.targetDeviceId) in s.authed)]
  {
    hide Filed, Claim, Epoch;
    FiledAt(s, id);
    ClaimFrame(s, id);
    if s.commands[id].status == Queued {
      EpochSame(s, Claim(s, s.commands[id]), s.commands[id].request.targetDeviceId);
    }
  }

  lemma EpochSame(s: State, s': State, d: Id)
    requires s'.hellos == s.hellos
    ensures Epoch(s', d) == Epoch(s, d)
  {
  }

  lemma HandOverJustified(s: State, id: Id, socket: Socket)
    requires Filed(s) && id in s.commands && Owned(s, s.commands[id])
    requires (socket, s.commands[id].request.targetDeviceId) in s.authed
    requires s.commands[id].status in {Queued, Dispatched}
    requires Replay(s.commands[id].request.tool, Trail(s.audit, id)) == At(s.commands[id].status)
    requires Only(s, HandOver(s, id, socket), id)
    ensures var s' := HandOver(s, id, socket);
      forall k :: |s.sent| <= k < |s'.sent| ==> Justified(s', s'.sent[k])
  {
    HandOverLogs(s, id, socket);
    assert s.commands[id].id == id;
    var s' := HandOver(s, id, socket);
    assert s'.audit[..|s.audit|] == s.audit;
    hide Trail, Replay, HandOver, Filed;
  }

  lemma SentOutOk(s: State, s': State, id: Id, socket: Socket)
    requires id in s.commands && RecOk(s, id) && Only(s, s', id)
    requires s.commands[id].status in {Queued, Dispatched} && s.clock < s.commands[id].request.expiresAt
    requires SentBefore(RecOf(s, id), Epoch(s, s.commands[id].request.targetDeviceId))
    requires RecOf(s', id)
          == SentNow(s, id, socket)
    ensures RecOk(s', id) && SameIdentity(s.commands[id], s'.commands[id])
  {
    assert RecOf(s', id).command == s'.commands[id];
    hide Trail, SendsOf, Lawful;
    var d := s.commands[id].request.targetDeviceId;
    SentOutLawful(RecOf(s, id), socket, s.clock, Epoch(s, d), |s.audit|, (socket, d) in s.authed);
  }

  lemma CoreAt(s: State, id: Id)
    requires Core(s) && id in s.commands
    ensures RecOk(s, id) && Known(s) && Filed(s) && ApprovalOwned(s, id) && Cleared(s, s.commands[id])
    ensures Owned(s, s.commands[id]) && s.commands[id].createdAt <= s.clock
    ensures Replay(s.commands[id].request.tool, Trail(s.audit, id)) == At(s.commands[id].status)
    ensures forall socket :: Link(s, s.commands[id].request.targetDeviceId) == Some(socket)
              ==> (socket, s.commands[id].request.targetDeviceId) in s.authed
  {
    hide Replay, Trail, SendsOf;
    assert RecOk(s, id);
  }

  lemma HandOverCore(s: State, id: Id, socket: Socket)
    requires Core(s) && id in s.commands && s.commands[id].status in {Queued, Dispatched}
    requires s.clock < s.commands[id].request.expiresAt
    requires Link(s, s.commands[id].request.targetDeviceId) == Some(socket)
    requires SentBefore(RecOf(s, id), Epoch(s, s.commands[id].request.targetDeviceId))
    ensures var s' := HandOver(s, id, socket);
      Core(s') && Grows(s, s') && Only(s, s', id) && s'.commands[id].status == Dispatched
  {
    CoreAt(s, id);
    HandOverLogs(s, id, socket);
    hide *;
    HandOverOnly(s, id, socket);
    HandOverJustified(s, id, socket);
    SentOutOk(s, HandOver(s, id, socket), id, socket);
    OnlyCore(s, HandOver(s, id, socket), id);
  }

  ghost predicate Offerable(s: State, id: Id, socket: Socket) {
    && id in s.commands && s.commands[id].status in {Queued, Dispatched}
    && s.clock < s.commands[id].request.expiresAt
    && Link(s, s.commands[id].request.targetDeviceId) == Some(socket)
  }

  /** What can come of an attempt to dispatch. */
  lemma TryDispatchCases(s: State, id: Id) returns (socket: Option<Socket>)
    requires Filed(s) && id in s.commands
    ensures socket.Some? ==> Offerable(s, id, socket.value) && TryDispatch(s, id) == HandOver(s, id, socket.value)
    ensures socket.None? ==> TryDispatch(s, id) == s || TryDispatch(s, id) == ExpireIfNeeded(s, id)
  {
    hide HandOver, ExpireIfNeeded, Filed;
    var c := s.commands[id];
    socket := if c.status in {Queued, Dispatched} && s.clock < c.request.expiresAt && Cleared(s, c)
              then Link(s, c.request.targetDeviceId) else None;
  }

  lemma TryDispatchHands(s: State, id: Id, socket: Socket)
    requires Filed(s) && Offerable(s, id, socket) && Cleared(s, s.commands[id])
    ensures TryDispatch(s, id) == HandOver(s, id, socket)
  {
    hide Filed, HandOver, Link, Cleared;
  }

  lemma TryDispatchCore(s: State, id: Id)
    requires Core(s) && id in s.commands
    requires SentBefore(RecOf(s, id), Epoch(s, s.commands[id].request.targetDeviceId))
    ensures var s' := TryDispatch(s, id);
      Core(s') && Grows(s, s') && Only(s, s', id)
  {
    CoreAt(s, id);
    OnlySelf(s, id);
    OnlyGrows(s, s, id);
    hide *;
    ExpireOnly(s, id);
    ExpireCore(s, id);
    var socket := TryDispatchCases(s, id);
    if socket.Some? {
      OfferableMeans(s, id, socket.value);
      HandOverCore(s, id, socket.value);
    }
  }

  lemma OfferableMeans(s: State, id: Id, socket: Socket)
    requires Offerable(s, id, socket)
    ensures id in s.commands && s.commands[id].status in {Queued, Dispatched}
    ensures s.clock < s.commands[id].request.expiresAt
    ensures Link(s, s.commands[id].request.targetDeviceId) == Some(socket)
  {
  }

  lemma TryDispatchSettles(s: State, id: Id)
    requires Filed(s) && id in s.commands && Cleared(s, s.commands[id])
    ensures !Waiting(TryDispatch(s, id), id)
  {
    var c := s.commands[id];
    assert c.id == id;
    hide Filed;
    if c.status == Queued && s.clock < c.request.expiresAt {
      var socket := Link(s, c.request.targetDeviceId);
      if socket.Some? {
        assert TryDispatch(s, id) == HandOver(s, id, socket.value);
        HandOverLogs(s, id, socket.value);
        hide TryDispatch, HandOver, Cleared;
      } else {
        assert TryDispatch(s, id) == s;
      }
    }
  }
}
