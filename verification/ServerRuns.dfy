/** What holds over whole runs of the control plane. */
module ServerRuns {
  import opened Wrappers
  import opened Protocol
  import opened Lifecycle
  import opened Ordering
  import opened Server
  import opened ServerInvariant
  import opened ServerSteps
  import opened ServerMoves

  /** `steps` leads from `s` to `s'`. */
  ghost predicate Leads(s: State, steps: seq<Step>, s': State)
    decreases |steps|
  {
    if steps == [] then s' == s
    else Filed(s) && Possible(s, steps[0]) && Leads(Apply(s, steps[0]).0, steps[1..], s')
  }

  ghost predicate Reachable(s: State) {
    exists steps :: Leads(EMPTY, steps, s)
  }

  lemma EmptyInv()
    ensures Inv(EMPTY)
  {
  }

  /** Over any run the invariant is kept, nothing is taken back, and every record advances. */
  lemma {:induction false} RunKeeps(s: State, steps: seq<Step>, s': State)
    requires Inv(s) && Leads(s, steps, s')
    ensures Inv(s') && Grows(s, s') && Forward(s, s')
    decreases |steps|
  {
    if steps == [] {
      GrowsSelf(s);
      MovesSelf(s, 0);
    } else {
      var s1 := Apply(s, steps[0]).0;
      var user := match Actor(s, steps[0]) case Some(u) => u case None => 0;
      hide Inv, Grows, Forward, Within, Apply, Filed, Possible, Actor;
      StepInv(s, steps[0]);
      StepMoves(s, steps[0], user);
      RunKeeps(s1, steps[1..], s');
      GrowsChain(s, s1, s');
      ForwardChain(s, s1, s');
    }
  }

  lemma ReachableInv(s: State)
    requires Reachable(s)
    ensures Inv(s)
  {
    var steps :| Leads(EMPTY, steps, s);
    EmptyInv();
    hide Inv;
    RunKeeps(EMPTY, steps, s);
  }

  lemma RecordAdvances(s: State, steps: seq<Step>, s': State, id: Id)
    requires Inv(s) && Leads(s, steps, s') && id in s.commands
    ensures id in s'.commands && Advances(RecOf(s, id), RecOf(s', id))
    ensures Lawful(RecOf(s, id)) && Lawful(RecOf(s', id))
  {
    RunKeeps(s, steps, s');
    CoreAt(s, id);
    CoreAt(s', id);
    hide Advances, Lawful, RecOf;
  }

  // ---------------------------------------------------------------- the lifecycle

  lemma TerminalRecStays(r: Rec, r': Rec)
    requires Lawful(r) && Lawful(r') && Advances(r, r') && Terminal(r.command.status)
    ensures r' == r
  {
    if |r.trail| < |r'.trail| {
      assert r'.trail[..|r.trail|] == r.trail;
      ReplaySplit(r'.command.request.tool, r'.trail, |r.trail|);
      assert false;
    } else {
      assert r'.trail == r.trail;
    }
  }

  /** Terminal states absorb: whatever happens later, the whole record stays as it is, its first
      terminal result included. */
  lemma TerminalAbsorbs(s: State, steps: seq<Step>, s': State, id: Id)
    requires Inv(s) && Leads(s, steps, s') && id in s.commands && Terminal(s.commands[id].status)
    ensures id in s'.commands && RecOf(s', id) == RecOf(s, id)
  {
    assert RecOf(s, id).command == s.commands[id];
    hide *;
    RecordAdvances(s, steps, s', id);
    TerminalRecStays(RecOf(s, id), RecOf(s', id));
  }

  function Rank(status: Status): nat {
    match status
    case AwaitingApproval => 0
    case Queued => 1
    case Dispatched => 2
    case Running => 3
    case _ => 4
  }

  lemma {:induction false} TrailRank(tool: Tool, trail: seq<Kind>, j: nat, k: nat)
    requires j <= k <= |trail| && Replay(tool, trail) != Illegal && Replay(tool, trail[..j]).At?
    ensures Replay(tool, trail[..k]).At?
    ensures var a, b := Replay(tool, trail[..j]).status, Replay(tool, trail[..k]).status;
      a == b || Rank(a) < Rank(b)
    decreases k
  {
    hide Replay, Move, Rank;
    if j < k {
      TrailRank(tool, trail, j, k - 1);
      ReplaySplit(tool, trail, k - 1);
      MoveRank(tool, Replay(tool, trail[..k - 1]), trail[k - 1]);
    }
  }

  /** One event leaves the status or takes it onward. */
  lemma MoveRank(tool: Tool, from: Phase, k: Kind)
    requires from.At? && Move(tool, from, k) != Illegal
    ensures Move(tool, from, k).At?
    ensures Move(tool, from, k).status == from.status || Rank(from.status) < Rank(Move(tool, from, k).status)
  {
  }

  /** A command's status changes only along the lifecycle, never back. */
  lemma StatusOnlyForward(s: State, steps: seq<Step>, s': State, id: Id)
    requires Inv(s) && Leads(s, steps, s') && id in s.commands
    ensures id in s'.commands
    ensures s'.commands[id].status == s.commands[id].status
         || Rank(s.commands[id].status) < Rank(s'.commands[id].status)
  {
    RecordAdvances(s, steps, s', id);
    hide Inv, Leads, Lawful, Advances, Trail, SendsOf, Rank;
    RankAdvances(RecOf(s, id), RecOf(s', id));
  }

  lemma RankAdvances(r: Rec, r': Rec)
    requires Lawful(r) && Lawful(r') && Advances(r, r')
    ensures r'.command.status == r.command.status || Rank(r.command.status) < Rank(r'.command.status)
  {
    hide ApprovalFits, ResultFits, SendsFit, Replay, Rank;
    assert r'.trail[..|r.trail|] == r.trail && r'.trail[..|r'.trail|] == r'.trail;
    TrailRank(r'.command.request.tool, r'.trail, |r.trail|, |r'.trail|);
  }

  lemma {:induction false} QuietTail(trail: seq<Kind>, j: nat)
    requires j <= |trail| && forall k :: j <= k < |trail| ==> !trail[k].WasDispatched?
    ensures Dispatchings(trail) == Dispatchings(trail[..j])
    decreases |trail|
  {
    if j < |trail| {
      QuietTail(trail[..|trail| - 1], j);
      assert trail[..|trail| - 1][..j] == trail[..j];
    } else {
      assert trail[..j] == trail;
    }
  }

  lemma ReportedRecUnsent(r: Rec, r': Rec)
    requires Lawful(r) && Lawful(r') && Advances(r, r') && r.result.Some?
    ensures r'.sends == r.sends
  {
    if r.command.status == Running {
      var tool := r'.command.request.tool;
      assert r'.trail[..|r.trail|] == r.trail;
      forall k | |r.trail| <= k < |r'.trail| ensures !r'.trail[k].WasDispatched? {
        PastDispatchStays(tool, r'.trail, |r.trail|, k);
        ReplaySplit(tool, r'.trail, k);
      }
      QuietTail(r'.trail, |r.trail|);
      assert |r'.sends| == |r.sends|;
    } else {
      TerminalRecStays(r, r');
    }
  }

  /** Once a result has been accepted the command is never sent again. */
  lemma NeverSentOnceReported(s: State, steps: seq<Step>, s': State, id: Id)
    requires Inv(s) && Leads(s, steps, s') && id in s.commands && id in s.results
    ensures id in s'.commands && SendsOf(s'.sent, id) == SendsOf(s.sent, id)
  {
    RecordAdvances(s, steps, s', id);
    var r, r' := RecOf(s, id), RecOf(s', id);
    assert r.result.Some? && r.sends == SendsOf(s.sent, id) && r'.sends == SendsOf(s'.sent, id);
    hide *;
    ReportedRecUnsent(r, r');
  }

  /** What a command asks for, whose it is and when it was created never change, whether it has an approval or not. */
  lemma RequestsStand(s: State, steps: seq<Step>, s': State, id: Id)
    requires Inv(s) && Leads(s, steps, s') && id in s.commands
    ensures id in s'.commands
    ensures var c, c' := s.commands[id], s'.commands[id];
      c'.request == c.request && c'.userId == c.userId && c'.risk == c.risk && c'.createdAt == c.createdAt
  {
    RunKeeps(s, steps, s');
    assert SameIdentity(s.commands[id], s'.commands[id]);
    hide Inv, Leads;
  }

  /** A decision once made stays as it was made, and an approval is consumed at most once: whatever happens later, both
      keep the moment they have. What the command asks for never changes. */
  lemma DecisionsStand(s: State, steps: seq<Step>, s': State, id: Id)
    requires Inv(s) && Leads(s, steps, s') && id in s.commands && id in s.approvals
    ensures id in s'.commands && s'.commands[id].request == s.commands[id].request
    ensures id in s'.approvals
    ensures var a, a' := s.approvals[id], s'.approvals[id];
      && (a.decision != Pending ==> a' == a.(consumedAt := a'.consumedAt))
      && (a.consumedAt.Some? ==> a'.consumedAt == a.consumedAt)
  {
    RecordAdvances(s, steps, s', id);
    var r, r' := RecOf(s, id), RecOf(s', id);
    assert r.approval == Some(s.approvals[id]) && r'.approval == Lookup(s'.approvals, id);
    assert r.command == s.commands[id] && r'.command == s'.commands[id];
    assert Advances(r, r');
    hide Lawful, Trail, SendsOf, Leads, Inv, RecOf;
  }

  // ---------------------------------------------------------------- audit

  /** The audit log tells every command's status: replaying its events gives exactly the stored one;
      it was created once, first; a closing event is the last; and the logged dispatches are as many
      as the messages sent. */
  lemma AuditTellsStatus(s: State, id: Id)
    requires Reachable(s) && id in s.commands
    ensures var tool, trail := s.commands[id].request.tool, Trail(s.audit, id);
      && Replay(tool, trail) == At(s.commands[id].status)
      && |trail| > 0 && trail[0] == WasCreated(InitialStatus(tool))
      && (forall k :: 0 < k < |trail| ==> !trail[k].WasCreated?)
      && (forall k :: 0 <= k < |trail| && Closing(trail[k]) ==> k == |trail| - 1)
      && Dispatchings(trail) == |SendsOf(s.sent, id)|
  {
    hide *;
    ReachableInv(s);
    TrailIs(s, id);
    LegalTrail(s.commands[id].request.tool, Trail(s.audit, id));
  }

  lemma TrailIs(s: State, id: Id)
    requires Inv(s) && id in s.commands
    ensures Replay(s.commands[id].request.tool, Trail(s.audit, id)) == At(s.commands[id].status)
    ensures Dispatchings(Trail(s.audit, id)) == |SendsOf(s.sent, id)|
  {
    hide Trail, SendsOf, Replay, Dispatchings;
    assert RecOk(s, id);
  }

  lemma LegalTrail(tool: Tool, trail: seq<Kind>)
    requires Replay(tool, trail).At?
    ensures |trail| > 0 && trail[0] == WasCreated(InitialStatus(tool))
    ensures forall k :: 0 < k < |trail| ==> !trail[k].WasCreated?
    ensures forall k :: 0 <= k < |trail| && Closing(trail[k]) ==> k == |trail| - 1
  {
    ReplaySplit(tool, trail, 0);
    forall k | 0 < k < |trail| ensures !trail[k].WasCreated? {
      TrailShape(tool, trail, 0, k);
    }
    forall k | 0 <= k < |trail| && Closing(trail[k]) ensures k == |trail| - 1 {
      if k < |trail| - 1 {
        TrailShape(tool, trail, k, k + 1);
      }
    }
  }

  /** Every change of a record is audited: over any run, an unchanged trail means an unchanged record. */
  lemma UnauditedUnchanged(s: State, steps: seq<Step>, s': State, id: Id)
    requires Inv(s) && Leads(s, steps, s') && id in s.commands && Trail(s'.audit, id) == Trail(s.audit, id)
    ensures id in s'.commands && RecOf(s', id) == RecOf(s, id)
  {
    RecordAdvances(s, steps, s', id);
  }

  // ---------------------------------------------------------------- dispatches

  lemma {:induction false} TrailAt(audit: seq<AuditEvent>, id: Id, j: nat) returns (k: nat)
    requires j < |Trail(audit, id)|
    ensures k < |audit| && audit[k].commandId == id && audit[k].kind == Trail(audit, id)[j]
  {
    if j < |Trail(audit[..|audit| - 1], id)| {
      k := TrailAt(audit[..|audit| - 1], id, j);
    } else {
      k := |audit| - 1;
    }
  }

  lemma {:induction false} SendsOfHas(sent: seq<Sent>, id: Id, k: nat) returns (j: nat)
    requires k < |sent| && Dispatches(sent[k], id)
    ensures j < |SendsOf(sent, id)| && SendsOf(sent, id)[j] == sent[k]
  {
    if k < |sent| - 1 {
      j := SendsOfHas(sent[..|sent| - 1], id, k);
    } else {
      j := |SendsOf(sent, id)| - 1;
    }
  }

  /** What is known of a dispatch message at the moment the server sends it: the socket had said hello
      as the command's target device, which belongs to the command's account; the command was unexpired
      and at most a day old; and unless its tool only reads, an approval was already in the log, verified
      where the tool destroys or exceeds the ordinary. */
  ghost predicate Authorised(s: State, m: Sent) {
    && m.message.DispatchOf?
    && var c := m.message.command;
    && m.authed && m.deviceId == c.request.targetDeviceId
    && c.request.targetDeviceId in s.devices && s.devices[c.request.targetDeviceId].userId == c.userId
    && c.createdAt <= m.at < c.request.expiresAt <= c.createdAt + 86_400_000
    && m.mark < |s.audit| && s.audit[m.mark].kind == WasDispatched && s.audit[m.mark].commandId == c.id
    && (c.request.tool !in {FileList, FileRead, ScreenSnapshot} ==>
          exists j :: 0 <= j < m.mark && Approves(s.audit[j], c))
  }

  predicate Approves(e: AuditEvent, c: Command) {
    e.commandId == c.id && e.kind.WasApproved?
    && (c.request.tool in {FileTrash, ExternalSend, SystemInstall, CredentialsRead, PaymentSubmit} ==>
          e.kind.biometricVerified)
  }

  lemma SendIs(s: State, k: nat)
    requires Inv(s) && k < |s.sent| && s.sent[k].message.DispatchOf?
    ensures Justified(s, s.sent[k])
    ensures var c := s.sent[k].message.command;
      c.id in s.commands && Owned(s, s.commands[c.id]) && SendFits(s.commands[c.id], s.sent[k])
      && s.commands[c.id].request.expiresAt <= s.commands[c.id].createdAt + MAX_COMMAND_LIFETIME_MS
  {
    var c := s.sent[k].message.command;
    assert AllJustified(s);
    assert Justified(s, s.sent[k]);
    CoreAt(s, c.id);
    var j := SendsOfHas(s.sent, c.id, k);
    assert Lawful(RecOf(s, c.id)) && RecOf(s, c.id).sends[j] == s.sent[k];
  }

  /** Every dispatch the server ever sent was authorised. */
  lemma DispatchAuthorised(s: State, k: nat)
    requires Reachable(s) && k < |s.sent| && s.sent[k].message.DispatchOf?
    ensures Authorised(s, s.sent[k])
  {
    ReachableInv(s);
    SendAuthorised(s, k);
  }

  lemma SendAuthorised(s: State, k: nat)
    requires Inv(s) && k < |s.sent| && s.sent[k].message.DispatchOf?
    ensures Authorised(s, s.sent[k])
  {
    hide Inv;
    SendIs(s, k);
    var m := s.sent[k];
    var c := m.message.command;
    PolicyIs(c.request.tool);
    if NeedsApproval(c.request.tool) {
      var j := DispatchNeedsApproval(c.request.tool, Trail(s.audit[..m.mark], c.id));
      var i := TrailAt(s.audit[..m.mark], c.id, j);
      assert s.audit[..m.mark][i] == s.audit[i] && Approves(s.audit[i], c);
    }
  }

  /** Every message, dispatch or signal, went over a socket that had authenticated as the device it is for; a dispatch
      carries a command of that device's owner, a signal comes from a device of the same owner. */
  lemma MessagesStayInAccount(s: State, k: nat)
    requires Reachable(s) && k < |s.sent|
    ensures var m := s.sent[k];
      && m.authed && m.deviceId in s.devices
      && match m.message
         case DispatchOf(c) => c.request.targetDeviceId == m.deviceId && s.devices[m.deviceId].userId == c.userId
         case SignalFrom(source, _) =>
           source in s.devices && s.devices[source].userId == s.devices[m.deviceId].userId
  {
    ReachableInv(s);
    assert Justified(s, s.sent[k]);
    if s.sent[k].message.DispatchOf? {
      SendAuthorised(s, k);
    }
    hide Inv, Replay, Trail;
  }

  /** No lost dispatch: an online executor never has an unexpired queued command waiting. */
  lemma NoLostDispatch(s: State, id: Id)
    requires Reachable(s) && id in s.commands && s.commands[id].status == Queued
    requires Link(s, s.commands[id].request.targetDeviceId).Some?
    ensures s.commands[id].request.expiresAt <= s.clock
  {
    ReachableInv(s);
    assert !Waiting(s, id);
  }

  lemma {:induction false} SpreadBound(sends: seq<Sent>, low: nat, high: nat)
    requires forall j, k :: 0 <= j < k < |sends| ==> sends[j].epoch < sends[k].epoch
    requires forall k :: 0 <= k < |sends| ==> low <= sends[k].epoch <= high
    requires low <= high + 1
    ensures |sends| <= high + 1 - low
  {
    if sends != [] {
      var front := sends[..|sends| - 1];
      var last := sends[|sends| - 1].epoch;
      assert |sends| > 1 ==> sends[0].epoch < last;
      if last > 0 {
        SpreadBound(front, low, last - 1);
      }
    }
  }

  lemma {:induction false} SendsOfLater(sent: seq<Sent>, sent': seq<Sent>, id: Id, low: nat)
    requires sent <= sent' && SendsOf(sent, id) == []
    requires forall k :: |sent| <= k < |sent'| && Dispatches(sent'[k], id) ==> low <= sent'[k].epoch
    ensures forall k :: 0 <= k < |SendsOf(sent', id)| ==> low <= SendsOf(sent', id)[k].epoch
    decreases |sent'|
  {
    if |sent| < |sent'| {
      var front := sent'[..|sent'| - 1];
      SendsOfLater(sent, front, id, low);
    } else {
      assert sent == sent';
    }
  }

  /** Dispatch bound: a command is sent at most once per hello of its device since its creation, and
      once more. */
  lemma DispatchBound(s: State, steps: seq<Step>, s': State, id: Id)
    requires Inv(s) && Leads(s, steps, s') && id !in s.commands && id in s'.commands
    ensures var d := s'.commands[id].request.targetDeviceId;
      Epoch(s, d) <= Epoch(s', d) && |SendsOf(s'.sent, id)| <= 1 + Epoch(s', d) - Epoch(s, d)
  {
    hide Inv, Leads, Grows, Forward;
    var d := s'.commands[id].request.targetDeviceId;
    RunKeeps(s, steps, s');
    GrowsSome(s, s', d);
    NeverSent(s, id);
    SendsSpread(s', id);
    forall k | |s.sent| <= k < |s'.sent| && Dispatches(s'.sent[k], id) ensures Epoch(s, d) <= s'.sent[k].epoch {
      SentToTarget(s', k, id);
      SentForward(s, s', k);
    }
    SendsOfLater(s.sent, s'.sent, id, Epoch(s, d));
    SpreadBound(SendsOf(s'.sent, id), Epoch(s, d), Epoch(s', d));
  }

  lemma GrowsSome(s: State, s': State, d: Id)
    requires Grows(s, s')
    ensures s.sent <= s'.sent && Epoch(s, d) <= Epoch(s', d)
  {
  }

  lemma SentForward(s: State, s': State, k: nat)
    requires Forward(s, s') && |s.sent| <= k < |s'.sent|
    ensures Epoch(s, s'.sent[k].deviceId) <= s'.sent[k].epoch
  {
    hide RecOf, Advances;
  }

  lemma SentToTarget(s: State, k: nat, id: Id)
    requires Inv(s) && k < |s.sent| && Dispatches(s.sent[k], id)
    ensures id in s.commands && s.sent[k].deviceId == s.commands[id].request.targetDeviceId
  {
    hide RecOk, Wired, KeysUnique, Replay, Trail, Waiting;
    assert Justified(s, s.sent[k]);
  }

  lemma NeverSent(s: State, id: Id)
    requires Inv(s) && id !in s.commands
    ensures SendsOf(s.sent, id) == []
  {
    hide RecOk, Wired, KeysUnique, Justified, Waiting, SendsOf, Filed;
    SendsOfUnknown(s.sent, id);
  }

  /** The dispatches of one command carry increasing epochs, none beyond the present one. */
  lemma SendsSpread(s: State, id: Id)
    requires Inv(s) && id in s.commands
    ensures forall k :: 0 <= k < |SendsOf(s.sent, id)| ==>
              SendsOf(s.sent, id)[k].epoch <= Epoch(s, s.commands[id].request.targetDeviceId)
    ensures forall j, k :: 0 <= j < k < |SendsOf(s.sent, id)| ==>
              SendsOf(s.sent, id)[j].epoch < SendsOf(s.sent, id)[k].epoch
  {
    hide Trail, SendsOf, Replay, Wired, KeysUnique, Justified, Waiting, Filed, SendFits, Epoch;
    assert RecOk(s, id);
  }

  /** Between two consecutive hellos of its device a command is sent at most once. */
  lemma OncePerHello(s: State, j: nat, k: nat)
    requires Reachable(s) && j < k < |s.sent| && s.sent[j].epoch == s.sent[k].epoch
    requires s.sent[j].message.DispatchOf? && s.sent[k].message.DispatchOf?
    ensures s.sent[j].message.command.id != s.sent[k].message.command.id
  {
    ReachableInv(s);
    var id := s.sent[j].message.command.id;
    assert AllJustified(s) && Justified(s, s.sent[j]);
    CoreAt(s, id);
    assert Lawful(RecOf(s, id));
    hide Inv, Replay, Trail, Justified;
    var sends := RecOf(s, id).sends;
    assert forall a, b :: 0 <= a < b < |sends| ==> sends[a].epoch < sends[b].epoch;
    if s.sent[k].message.command.id == id {
      var _, _ := SendsOfPair(s.sent, id, j, k);
    }
  }

  lemma {:induction false} SendsOfPair(sent: seq<Sent>, id: Id, j: nat, k: nat) returns (a: nat, b: nat)
    requires j < k < |sent| && Dispatches(sent[j], id) && Dispatches(sent[k], id)
    ensures a < b < |SendsOf(sent, id)| && SendsOf(sent, id)[a] == sent[j] && SendsOf(sent, id)[b] == sent[k]
  {
    if k < |sent| - 1 {
      a, b := SendsOfPair(sent[..|sent| - 1], id, j, k);
    } else {
      a := SendsOfHas(sent[..|sent| - 1], id, j);
      b := |SendsOf(sent, id)| - 1;
    }
  }

  // ---------------------------------------------------------------- idempotency

  /** A user's idempotency key names at most one command. */
  lemma KeyNamesOneCommand(s: State, i: Id, j: Id)
    requires Reachable(s) && i in s.commands && j in s.commands && s.commands[i].userId == s.commands[j].userId
    requires s.commands[i].request.idempotencyKey == s.commands[j].request.idempotencyKey
    ensures i == j
  {
    ReachableInv(s);
    assert KeysUnique(s);
  }

  ghost predicate Holds(s: State, userId: Id, request: Request, id: Id) {
    id in s.commands && s.commands[id].userId == userId && s.commands[id].request == request
  }

  lemma CreateHolds(s: State, userId: Id, request: Request, id: Id)
    requires Inv(s) && Filed(s) && id !in s.commands && Create(s, userId, request, id).1.Ok?
    ensures var (s', reply) := Create(s, userId, request, id);
      Holds(s', userId, request, reply.value.id)
  {
    hide *;
    InvIs(s);
    InvWired(s);
    AdmissionMeans(s, userId, request);
    CreateCases(s, userId, request, id);
    match Admission(s, userId, request)
    case Refused(_) =>
    case Ok(Some(found)) =>
      ExpireInv(s, found);
      FoundHolds(s, userId, request, found);
      HoldsKept(s, ExpireIfNeeded(s, found), userId, request, found);
    case Ok(None) =>
      var s1 := Admit(s, userId, request, id);
      AdmitHolds(s, userId, request, id);
      AdmitCore(s, userId, request, id);
      AdmitOk(s, userId, request, id);
      TryDispatchCore(s1, id);
      HoldsKept(s1, TryDispatch(s1, id), userId, request, id);
      FiledId(TryDispatch(s1, id), id);
  }

  lemma FiledId(s: State, id: Id)
    requires Filed(s) && id in s.commands
    ensures s.commands[id].id == id
  {
  }

  lemma FoundHolds(s: State, userId: Id, request: Request, id: Id)
    requires Filed(s) && id in s.commands && s.commands[id].userId == userId && s.commands[id].request == request
    ensures Holds(s, userId, request, id) && Aged(s.commands[id], s.clock).id == id
  {
  }

  lemma AdmitHolds(s: State, userId: Id, request: Request, id: Id)
    requires Filed(s) && id !in s.commands
    ensures Holds(Admit(s, userId, request, id), userId, request, id)
  {
    AdmitIs(s, userId, request, id);
    hide Admit, Filed;
  }

  lemma HoldsKept(s: State, s': State, userId: Id, request: Request, id: Id)
    requires Grows(s, s') && Holds(s, userId, request, id)
    ensures Holds(s', userId, request, id)
  {
    assert SameIdentity(s.commands[id], s'.commands[id]);
  }

  /** While a key is taken, a create with it either names the command that holds it, when the whole
      request agrees, or is refused; the state stays as it is. */
  lemma CreateTaken(s: State, userId: Id, held: Request, id: Id, request: Request, id': Id)
    requires Inv(s) && Filed(s) && Holds(s, userId, held, id) && id' !in s.commands
    requires request.idempotencyKey == held.idempotencyKey
    ensures var (s', reply) := Create(s, userId, request, id');
      var timely := s.clock < request.expiresAt <= s.clock + 86_400_000;
      && (request != held || !timely ==>
            s' == s && reply == Refused(if timely then Conflict else BadRequest))
      && (request == held && s.clock < held.expiresAt ==> s' == s && reply.Ok? && reply.value == s.commands[id])
  {
    hide Create, FindByKey, TryDispatch, Admit, Inv, Filed, ExpireIfNeeded;
    FoundByKey(s, userId, id, request.idempotencyKey);
    CreateCases(s, userId, request, id');
    ExpiresLater(s, id, held);
  }

  lemma ExpiresLater(s: State, id: Id, request: Request)
    requires Inv(s) && Filed(s) && id in s.commands && s.commands[id].request == request
    ensures request.expiresAt <= s.commands[id].createdAt + MAX_COMMAND_LIFETIME_MS
    ensures s.commands[id].createdAt <= s.clock
    ensures s.clock < request.expiresAt ==>
              ExpireIfNeeded(s, id) == s && Aged(s.commands[id], s.clock) == s.commands[id]
  {
    hide RecOf, ApprovalFits, ResultFits, SendsFit, Replay, Filed, Waiting;
    assert RecOk(s, id);
    RecIs(s, id);
  }

  lemma RecIs(s: State, id: Id)
    requires id in s.commands
    ensures RecOf(s, id).command == s.commands[id]
  {
    hide Trail, SendsOf;
  }

  lemma FoundByKey(s: State, userId: Id, id: Id, key: string)
    requires Inv(s) && Filed(s) && id in s.commands && s.commands[id].userId == userId
    requires s.commands[id].request.idempotencyKey == key
    ensures FindByKey(s, userId, key) == Some(id)
  {
    hide FindByKey, Filed, RecOk, Justified, Waiting, Known, Wired;
    FindByKeyFinds(s, userId, key);
  }

  /** Idempotent create: once a request was accepted, repeating it at any later moment before it
      expires returns the same command and changes nothing; any other request under the same key is
      refused as a conflict, unless for its own time, and changes nothing. */
  lemma CreateIsIdempotent(
    s: State, userId: Id, request: Request, id: Id, steps: seq<Step>, s': State, request': Request, id': Id)
    requires Inv(s) && Filed(s) && id !in s.commands
    requires Create(s, userId, request, id).1.Ok?
    requires Leads(Create(s, userId, request, id).0, steps, s')
    requires id' !in s'.commands && request'.idempotencyKey == request.idempotencyKey
    ensures Filed(s')
    ensures var first := Create(s, userId, request, id).1.value;
      var (s'', reply) := Create(s', userId, request', id');
      var timely := s'.clock < request'.expiresAt <= s'.clock + 86_400_000;
      && (request' != request || !timely ==>
            s'' == s' && reply == Refused(if timely then Conflict else BadRequest))
      && (request' == request && s'.clock < request.expiresAt ==>
            s'' == s' && reply.Ok? && reply.value.id == first.id)
  {
    var (s1, reply) := Create(s, userId, request, id);
    CreateInv(s, userId, request, id);
    CreateHolds(s, userId, request, id);
    RunKeeps(s1, steps, s');
    HoldsKept(s1, s', userId, request, reply.value.id);
    InvWired(s');
    assert s'.commands[reply.value.id].id == reply.value.id;
    hide Create, Inv, Filed, Leads, Grows, Forward;
    CreateTaken(s', userId, request, reply.value.id, request', id');
  }

  // ---------------------------------------------------------------- commands and approvals agree

  /** The approval of a command, its status and its messages, in every reachable state. */
  lemma ApprovalAgrees(s: State, id: Id)
    requires Reachable(s) && id in s.commands
    ensures var c := s.commands[id];
      && (NeedsApproval(c.request.tool) <==> id in s.approvals)
      && (id !in s.approvals ==> c.status !in {AwaitingApproval, Cancelled})
      && (id in s.approvals ==>
            var a := s.approvals[id];
            && a.userId == c.userId
            && (c.status == AwaitingApproval ==> a.decision == Pending)
            && (c.status in {Queued, Dispatched, Running, Succeeded, Failed} ==> a.decision == Granted)
            && (c.status == Cancelled <==> a.decision == Denied)
            && (a.decision == Granted && NeedsBiometric(c.request.tool) ==> a.biometricVerified)
            && (a.consumedAt.Some? <==> SendsOf(s.sent, id) != []))
      && (c.status in {Dispatched, Running, Succeeded, Failed} ==> SendsOf(s.sent, id) != [])
      && (id in s.results ==>
            || s.results[id].status == c.status
            || (s.results[id].status == Running && c.status == Expired))
      && (c.status in {Running, Succeeded, Failed} ==> id in s.results)
      && c.request.targetDeviceId in s.devices && s.devices[c.request.targetDeviceId].userId == c.userId
  {
    ReachableInv(s);
    CoreAt(s, id);
    assert Lawful(RecOf(s, id));
    hide Inv, Replay, Trail, SendsOf, RecOk, Known, Filed;
  }
}
