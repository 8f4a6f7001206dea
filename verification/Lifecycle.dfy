/** The life of one command: the legal words of its audit trail, and the invariant that ties
    command, approval, result, trail and dispatch messages together. */
module Lifecycle {
  import opened Wrappers
  import opened Protocol

  // ---------------------------------------------------------------- audit trails

  datatype Phase = Absent | At(status: Status) | Illegal

  /** The lifecycle graph, read as an automaton over audit events. */
  function Move(tool: Tool, from: Phase, k: Kind): Phase {
    match k
    case WasCreated(status) =>
      if from == Absent && status == InitialStatus(tool) then At(status) else Illegal
    case WasApproved(verified) =>
      if from == At(AwaitingApproval) && (NeedsBiometric(tool) ==> verified) then At(Queued) else Illegal
    case WasDenied(_) =>
      if from == At(AwaitingApproval) then At(Cancelled) else Illegal
    case WasDispatched =>
      if from == At(Queued) || from == At(Dispatched) then At(Dispatched) else Illegal
    case HasExpired =>
      if from.At? && !Terminal(from.status) then At(Expired) else Illegal
    case HasReported(status, _) =>
      if from == At(Dispatched) || from == At(Running) then At(status) else Illegal
  }

  function Replay(tool: Tool, trail: seq<Kind>): Phase {
    if trail == [] then Absent
    else Move(tool, Replay(tool, trail[..|trail| - 1]), trail[|trail| - 1])
  }

  lemma ReplayAppend(tool: Tool, trail: seq<Kind>, k: Kind)
    ensures Replay(tool, trail + [k]) == Move(tool, Replay(tool, trail), k)
  {
    assert (trail + [k])[..|trail|] == trail;
  }

  lemma {:induction false} ReplaySplit(tool: Tool, trail: seq<Kind>, k: nat)
    requires k < |trail|
    requires Replay(tool, trail) != Illegal
    ensures Replay(tool, trail[..k]) != Illegal
    ensures Replay(tool, trail[..k + 1]) == Move(tool, Replay(tool, trail[..k]), trail[k]) != Illegal
  {
    var front := trail[..|trail| - 1];
    if k == |trail| - 1 {
      assert trail[..k + 1] == trail;
    } else {
      ReplaySplit(tool, front, k);
      assert front[..k] == trail[..k] && front[..k + 1] == trail[..k + 1];
    }
  }

  predicate Closing(k: Kind) {
    k.WasDenied? || k.HasExpired? || (k.HasReported? && k.status != Running)
  }

  /** Once running, never back: the phases from which no dispatch can follow. */
  predicate PastDispatch(p: Phase) {
    p.At? && (p.status == Running || Terminal(p.status))
  }

  lemma {:induction false} PastDispatchStays(tool: Tool, trail: seq<Kind>, j: nat, k: nat)
    requires j <= k <= |trail| && Replay(tool, trail) != Illegal
    requires PastDispatch(Replay(tool, trail[..j]))
    ensures PastDispatch(Replay(tool, trail[..k]))
    decreases k
  {
    if j < k {
      PastDispatchStays(tool, trail, j, k - 1);
      ReplaySplit(tool, trail, k - 1);
    }
  }

  /** What a legal trail looks like: it starts with its only creation, and a closing event is its last. */
  lemma TrailShape(tool: Tool, trail: seq<Kind>, j: nat, k: nat)
    requires Replay(tool, trail) != Illegal && j < k < |trail|
    ensures trail[0] == WasCreated(InitialStatus(tool)) && !trail[k].WasCreated?
    ensures !Closing(trail[j])
  {
    ReplaySplit(tool, trail, 0);
    ReplaySplit(tool, trail, j);
    ReplaySplit(tool, trail, j + 1);
    ReplaySplit(tool, trail, k);
    assert trail[..0] == [] && trail[..k] != [];
  }

  /** Nothing is dispatched after the executor has reported. */
  lemma NoDispatchAfterReport(tool: Tool, trail: seq<Kind>, j: nat, k: nat)
    requires Replay(tool, trail) != Illegal && j < k < |trail| && trail[j].HasReported?
    ensures !trail[k].WasDispatched?
  {
    ReplaySplit(tool, trail, j);
    PastDispatchStays(tool, trail, j + 1, k);
    ReplaySplit(tool, trail, k);
  }

  /** In a legal trail every dispatch of a tool that needs approval comes after an approval, and
      after a biometrically verified one when the tool needs that. */
  lemma {:induction false} DispatchNeedsApproval(tool: Tool, trail: seq<Kind>) returns (j: nat)
    requires NeedsApproval(tool)
    requires Replay(tool, trail) in {At(Queued), At(Dispatched)}
    ensures j < |trail| && trail[j].WasApproved?
    ensures NeedsBiometric(tool) ==> trail[j].biometricVerified
  {
    j := |trail| - 1;
    if !trail[j].WasApproved? {
      j := DispatchNeedsApproval(tool, trail[..j]);
    }
  }

  function Dispatchings(trail: seq<Kind>): nat {
    if trail == [] then 0
    else Dispatchings(trail[..|trail| - 1]) + if trail[|trail| - 1].WasDispatched? then 1 else 0
  }

  lemma DispatchingsAppend(trail: seq<Kind>, k: Kind)
    ensures Dispatchings(trail + [k]) == Dispatchings(trail) + if k.WasDispatched? then 1 else 0
  {
    assert (trail + [k])[..|trail|] == trail;
  }

  // ---------------------------------------------------------------- one command's record

  /** Everything the server knows about one command. */
  datatype Rec = Rec(
    command: Command, approval: Option<Approval>, result: Option<ActionResult>,
    trail: seq<Kind>, sends: seq<Sent>)

  /** The transitions of one record. */
  function WithStatus(c: Command, status: Status, now: Instant): Command {
    c.(status := status, updatedAt := now)
  }

  function Lapse(r: Rec, now: Instant): Rec {
    if Overdue(r.command, now)
    then r.(command := WithStatus(r.command, Expired, now), trail := r.trail + [HasExpired])
    else r
  }

  function Decided(r: Rec, approve: bool, verified: bool, now: Instant): Rec
    requires r.approval.Some?
  {
    r.(command := WithStatus(r.command, if approve then Queued else Cancelled, now),
       approval := Some(r.approval.value.(decision := if approve then Granted else Denied,
                                          biometricVerified := verified, decidedAt := Some(now))),
       trail := r.trail + [if approve then WasApproved(verified) else WasDenied(verified)])
  }

  function Reported(r: Rec, result: ActionResult, now: Instant): Rec {
    r.(command := WithStatus(r.command, result.status, now), result := Some(result),
       trail := r.trail + [HasReported(result.status, result.error)])
  }

  /** A queued command becomes dispatched; its approval is consumed, unless it was before. */
  function Claimed(r: Rec, now: Instant): Rec {
    r.(command := WithStatus(r.command, Dispatched, now),
       approval := if r.approval.Some? && r.approval.value.consumedAt.None?
                   then Some(r.approval.value.(consumedAt := Some(now))) else r.approval)
  }

  function Posted(r: Rec, m: Sent): Rec {
    r.(trail := r.trail + [WasDispatched], sends := r.sends + [m])
  }

  function SentOut(r: Rec, socket: Socket, now: Instant, epoch: nat, mark: nat, authed: bool): Rec {
    var r' := if r.command.status == Queued then Claimed(r, now) else r;
    Posted(r', Sent(socket, r.command.request.targetDeviceId, DispatchOf(r'.command), now, epoch, mark, authed))
  }

  // ---------------------------------------------------------------- the invariant

  ghost predicate ApprovalFits(r: Rec, a: Approval) {
    var c := r.command;
    && a.commandId == c.id && a.userId == c.userId
    && a.biometricRequired == NeedsBiometric(c.request.tool)
    && (c.status == AwaitingApproval ==> a.decision == Pending)
    && (c.status in {Queued, Dispatched, Running, Succeeded, Failed} ==> a.decision == Granted)
    && (c.status == Cancelled <==> a.decision == Denied)
    && (a.decision == Granted && a.biometricRequired ==> a.biometricVerified)
    && (a.decision == Granted <==> exists k :: 0 <= k < |r.trail| && r.trail[k].WasApproved?)
    && (a.consumedAt.Some? <==> r.sends != [])
    && (a.consumedAt.Some? ==> a.decision == Granted)
  }

  ghost predicate ResultFits(r: Rec) {
    && (r.command.status in {Running, Succeeded, Failed} ==> r.result.Some?)
    && (r.result.Some? ==>
          && r.result.value.commandId == r.command.id
          && (|| r.result.value.status == r.command.status
              || (r.result.value.status == Running && r.command.status == Expired)))
  }

  ghost predicate SendsFit(r: Rec) {
    && (r.command.status in {AwaitingApproval, Queued, Cancelled} ==> r.sends == [])
    && (r.command.status in {Dispatched, Running, Succeeded, Failed} ==> r.sends != [])
    && |r.sends| == Dispatchings(r.trail)
    && (forall k :: 0 <= k < |r.sends| ==> SendFits(r.command, r.sends[k]))
    && (forall j, k :: 0 <= j < k < |r.sends| ==> r.sends[j].epoch < r.sends[k].epoch)
  }

  /** A dispatch carries the command as stored, inside its lifetime. */
  ghost predicate SendFits(c: Command, m: Sent) {
    && m.message.DispatchOf?
    && m.message.command == c.(status := Dispatched, updatedAt := m.message.command.updatedAt)
    && c.createdAt <= m.at < c.request.expiresAt
  }

  ghost predicate Lawful(r: Rec) {
    var c := r.command;
    && c.risk == PolicyForTool(c.request.tool).risk
    && c.createdAt < c.request.expiresAt <= c.createdAt + MAX_COMMAND_LIFETIME_MS
    && Replay(c.request.tool, r.trail) == At(c.status)
    && (r.approval.Some? <==> NeedsApproval(c.request.tool))
    && (r.approval.None? ==> c.status !in {AwaitingApproval, Cancelled})
    && (r.approval.Some? ==> ApprovalFits(r, r.approval.value))
    && ResultFits(r)
    && SendsFit(r)
  }

  /** Epochs of past sends lie strictly before `epoch`. */
  ghost predicate SentBefore(r: Rec, epoch: nat) {
    forall k :: 0 <= k < |r.sends| ==> r.sends[k].epoch < epoch
  }

  lemma LapseLawful(r: Rec, now: Instant)
    requires Lawful(r)
    ensures Lawful(Lapse(r, now))
  {
    ReplayAppend(r.command.request.tool, r.trail, HasExpired);
    DispatchingsAppend(r.trail, HasExpired);
    GrantKept(r, Lapse(r, now));
  }

  /** Appending an event that is not an approval leaves the approvals of a trail alone. */
  lemma GrantKept(r: Rec, r': Rec)
    requires r.trail <= r'.trail
    requires forall k :: |r.trail| <= k < |r'.trail| ==> !r'.trail[k].WasApproved?
    ensures (exists k :: 0 <= k < |r.trail| && r.trail[k].WasApproved?)
       <==> (exists k :: 0 <= k < |r'.trail| && r'.trail[k].WasApproved?)
  {
    if k :| 0 <= k < |r.trail| && r.trail[k].WasApproved? {
      assert r'.trail[k].WasApproved?;
    }
  }

  lemma DecidedLawful(r: Rec, approve: bool, verified: bool, now: Instant)
    requires Lawful(r) && r.command.status == AwaitingApproval
    requires approve && r.approval.value.biometricRequired ==> verified
    ensures Lawful(Decided(r, approve, verified, now))
  {
    var k := if approve then WasApproved(verified) else WasDenied(verified);
    var r' := Decided(r, approve, verified, now);
    ReplayAppend(r.command.request.tool, r.trail, k);
    DispatchingsAppend(r.trail, k);
    if approve {
      assert r'.trail[|r.trail|].WasApproved?;
    } else {
      GrantKept(r, r');
    }
  }

  lemma ReportedLawful(r: Rec, result: ActionResult, now: Instant)
    requires Lawful(r) && r.command.status in {Dispatched, Running} && result.commandId == r.command.id
    ensures Lawful(Reported(r, result, now))
  {
    var k := HasReported(result.status, result.error);
    ReplayAppend(r.command.request.tool, r.trail, k);
    DispatchingsAppend(r.trail, k);
    GrantKept(r, Reported(r, result, now));
  }

  lemma SentOutLawful(r: Rec, socket: Socket, now: Instant, epoch: nat, mark: nat, authed: bool)
    requires Lawful(r) && r.command.status in {Queued, Dispatched} && SentBefore(r, epoch)
    requires r.command.createdAt <= now < r.command.request.expiresAt
    ensures Lawful(SentOut(r, socket, now, epoch, mark, authed))
  {
    var r' := SentOut(r, socket, now, epoch, mark, authed);
    ReplayAppend(r.command.request.tool, r.trail, WasDispatched);
    DispatchingsAppend(r.trail, WasDispatched);
    GrantKept(r, r');
  }
}
