/** The improvement pipeline as a state machine over whole calls, each call a list of store writes. */
module Improvements {
  import opened Wrappers
  import opened Ordering
  import opened CandidateEvaluator

  type Store = map<nat, Candidate>

  /** `order` is the insertion order of the store. The rest is history that no call reads: the candidates in the
      order in which they were activated by request, what each of them displaced, and those rolled back. */
  datatype State = State(
    clock: int, candidates: Store, order: seq<nat>,
    activated: seq<nat>, displaced: map<nat, Option<nat>>, rolledBack: seq<nat>)

  datatype Op =
    | Tick(to: int)
    | Create(userId: nat, kind: Kind, before: string, after: string, id: nat)
    | EvaluateIt(userId: nat, id: nat)
    | WorkerEvaluates(userId: nat, id: nat)
    | Activate(userId: nat, id: nat)
    | Rollback(userId: nat, id: nat)

  // ---------------------------------------------------------------- reading

  predicate Owns(s: Store, userId: nat, id: nat) {
    id in s && s[id].userId == userId
  }

  function Own(s: Store, userId: nat): nat -> bool {
    (id: nat) => Owns(s, userId, id)
  }

  function Age(s: Store): nat -> int {
    (id: nat) => if id in s then s[id].createdAt else 0
  }

  predicate IsActive(s: Store, userId: nat, kind: Kind, id: nat) {
    Owns(s, userId, id) && s[id].kind == kind && s[id].status == Active
  }

  function GetActive(s: Store, order: seq<nat>, userId: nat, kind: Kind): (r: Option<nat>)
    ensures r.Some? ==> IsActive(s, userId, kind, r.value)
    ensures r.None? ==> forall id :: id in order ==> !IsActive(s, userId, kind, id)
  {
    FindFirst(order, (id: nat) => IsActive(s, userId, kind, id))
  }

  /** The user's candidates, newest first. */
  function ListCandidates(s: Store, order: seq<nat>, userId: nat): seq<nat> {
    NewestFirst(Filter(order, Own(s, userId)), Age(s))
  }

  predicate IsPrior(s: Store, c: Candidate, id: nat) {
    id in s && id != c.id && s[id].kind == c.kind && s[id].status == RolledBack
  }

  /** The candidate that rolling back `c` restores. */
  function Prior(s: Store, order: seq<nat>, c: Candidate): (r: Option<nat>)
    ensures r.Some? ==> r.value in s
  {
    FindFirst(ListCandidates(s, order, c.userId), (id: nat) => IsPrior(s, c, id))
  }

  // ---------------------------------------------------------------- the calls

  /** The store writes of a call, in order. */
  function Writes(s: State, op: Op): seq<Candidate> {
    match op
    case Create(userId, kind, before, after, id) =>
      [Candidate(id, userId, kind, before, after, Draft, None, None, s.clock, None)]
    case EvaluateIt(userId, id) => EvaluationWrites(s, userId, id)
    case WorkerEvaluates(userId, id) => EvaluationWrites(s, userId, id)
    case Activate(userId, id) =>
      if !Owns(s.candidates, userId, id) || s.candidates[id].status != Ready
         || s.candidates[id].safetyPassed != Some(true)
      then []
      else
        var c := s.candidates[id];
        var previous := GetActive(s.candidates, s.order, userId, c.kind);
        (if previous.Some? then [s.candidates[previous.value].(status := RolledBack)] else [])
        + [c.(status := Active, activatedAt := Some(s.clock))]
    case Rollback(userId, id) =>
      if !Owns(s.candidates, userId, id) || s.candidates[id].status != Active then []
      else
        var c := s.candidates[id].(status := RolledBack);
        var s1 := s.candidates[id := c];
        var prior := Prior(s1, s.order, c);
        [c] + if prior.Some? then [s1[prior.value].(status := Active, activatedAt := Some(s.clock))] else []
    case _ => []
  }

  function EvaluationWrites(s: State, userId: nat, id: nat): seq<Candidate> {
    if Owns(s.candidates, userId, id) && s.candidates[id].status in {Draft, Failed}
    then [Evaluate(s.candidates[id])] else []
  }

  function Put(s: State, c: Candidate): State {
    s.(candidates := s.candidates[c.id := c], order := if c.id in s.candidates then s.order else s.order + [c.id])
  }

  function PutAll(s: State, writes: seq<Candidate>): (r: State)
    ensures r == s.(candidates := r.candidates, order := r.order)
  {
    if writes == [] then s else Put(PutAll(s, writes[..|writes| - 1]), writes[|writes| - 1])
  }

  function Apply(s: State, op: Op): State {
    var writes := Writes(s, op);
    var s' := PutAll(s, writes);
    match op
    case Tick(to) => s.(clock := if to > s.clock then to else s.clock)
    case Activate(userId, id) =>
      if writes == [] then s'
      else
        var previous := GetActive(s.candidates, s.order, userId, s.candidates[id].kind);
        s'.(activated := s.activated + [id], displaced := s.displaced[id := previous])
    case Rollback(_, id) => if writes == [] then s' else s'.(rolledBack := s.rolledBack + [id])
    case _ => s'
  }

  /** New identifiers are fresh. */
  predicate Possible(s: State, op: Op) {
    op.Create? ==> op.id !in s.candidates
  }

  function Run(s: State, ops: seq<Op>): State
    decreases |ops|
  {
    if ops == [] then s else Run(Apply(s, ops[0]), ops[1..])
  }

  predicate AllPossible(s: State, ops: seq<Op>)
    decreases |ops|
  {
    ops == [] || (Possible(s, ops[0]) && AllPossible(Apply(s, ops[0]), ops[1..]))
  }

  const EMPTY := State(0, map[], [], [], map[], [])

  // ---------------------------------------------------------------- the invariant

  ghost predicate Filed(s: State) {
    && (forall id :: id in s.order <==> id in s.candidates)
    && Distinct(s.order)
    && (forall id :: id in s.candidates ==> s.candidates[id].id == id)
  }

  ghost predicate OneActive(s: Store) {
    forall i, j | i in s && j in s && s[i].status == Active && s[j].status == Active ::
      s[i].userId == s[j].userId && s[i].kind == s[j].kind ==> i == j
  }

  /** What a candidate must have earned to be where it is. */
  predicate Earned(c: Candidate) {
    match c.status
    case Draft => c.score == None && c.safetyPassed == None && c.activatedAt == None
    case Failed => !Passes(c)
    case Ready => Passes(c) && c.score == Some(1000) && c.safetyPassed == Some(true)
    case _ => Passes(c) && c.score == Some(1000) && c.safetyPassed == Some(true) && c.activatedAt.Some?
  }

  ghost predicate AllEarned(s: Store) {
    forall id :: id in s ==> Earned(s[id])
  }

  ghost predicate Good(s: State) {
    Filed(s) && OneActive(s.candidates) && AllEarned(s.candidates)
  }

  lemma ActiveIs(s: State, userId: nat, kind: Kind)
    requires Filed(s)
    ensures GetActive(s.candidates, s.order, userId, kind).None? ==>
              forall id :: !IsActive(s.candidates, userId, kind, id)
  {
    forall id | IsActive(s.candidates, userId, kind, id)
      ensures id in s.order
    {
    }
  }

  lemma EvaluationEarned(c: Candidate)
    requires Earned(c) && c.status in {Draft, Failed}
    ensures Earned(Evaluate(c)) && Evaluate(c).status != Active
    ensures c.status == Failed ==> Evaluate(c).status == Failed
  {
    ReadyIff(c);
    PassesByContent(c, Evaluate(c));
    hide Passes, Safe, Evaluate;
  }

  lemma MovedEarned(c: Candidate, status: Status, activatedAt: Option<int>)
    requires Earned(c) && c.status in {Ready, Active, RolledBack} && status in {Active, RolledBack} && activatedAt.Some?
    ensures Earned(c.(status := status, activatedAt := activatedAt))
  {
    PassesByContent(c, c.(status := status, activatedAt := activatedAt));
    hide Passes;
  }

  /** What a write must satisfy to keep the invariant. */
  ghost predicate WriteOk(s: State, c: Candidate) {
    && Earned(c)
    && (c.status == Active ==> forall id :: IsActive(s.candidates, c.userId, c.kind, id) ==> id == c.id)
  }

  lemma PutGood(s: State, c: Candidate)
    requires Good(s) && WriteOk(s, c)
    ensures Good(Put(s, c))
  {
    hide Earned;
    var s' := Put(s, c);
    forall id | id in s.candidates && id != c.id && c.status == Active && s.candidates[id].status == Active
      ensures !(s.candidates[id].userId == c.userId && s.candidates[id].kind == c.kind)
    {
      assert !IsActive(s.candidates, c.userId, c.kind, id);
    }
    assert c.id !in s.candidates ==> c.id !in s.order;
  }

  lemma {:induction false} PutAllGood(s: State, writes: seq<Candidate>, k: nat)
    requires Good(s) && k <= |writes|
    requires forall j :: 0 <= j < |writes| ==> WriteOk(PutAll(s, writes[..j]), writes[j])
    ensures Good(PutAll(s, writes[..k]))
  {
    if k > 0 {
      assert writes[..k][..k - 1] == writes[..k - 1];
      PutAllGood(s, writes, k - 1);
      hide Good, WriteOk;
      PutGood(PutAll(s, writes[..k - 1]), writes[k - 1]);
    }
  }

  lemma EarnedActivation(c: Candidate)
    requires Earned(c) && c.status in {Active, RolledBack}
    ensures c.activatedAt.Some?
  {
  }

  /** Making a candidate active is admissible if all that is active of its kind was just put away. */
  lemma SoleActive(s: State, away: Candidate, c: Candidate)
    requires Filed(s) && OneActive(s.candidates) && IsActive(s.candidates, c.userId, c.kind, away.id)
    requires away.status != Active
    ensures forall id :: !IsActive(Put(s, away).candidates, c.userId, c.kind, id)
  {
  }

  lemma ActivateWritesOk(s: State, userId: nat, id: nat, j: nat)
    requires Good(s) && j < |Writes(s, Activate(userId, id))|
    ensures var writes := Writes(s, Activate(userId, id)); WriteOk(PutAll(s, writes[..j]), writes[j])
  {
    var writes := Writes(s, Activate(userId, id));
    var c := s.candidates[id];
    var previous := GetActive(s.candidates, s.order, userId, c.kind);
    assert Earned(c) && writes[..0] == [];
    hide Earned, GetActive, AllEarned;
    MovedEarned(c, Active, Some(s.clock));
    if previous.None? {
      ActiveIs(s, userId, c.kind);
    } else {
      var p := s.candidates[previous.value];
      EarnedAt(s, previous.value);
      EarnedActivation(p);
      MovedEarned(p, RolledBack, p.activatedAt);
      var away := p.(status := RolledBack);
      assert away == p.(status := RolledBack, activatedAt := p.activatedAt);
      SoleActive(s, away, c);
      assert writes[..1] == [away] && [away][..0] == [] && PutAll(s, [away]) == Put(s, away);
    }
  }

  lemma EarnedAt(s: State, id: nat)
    requires Good(s) && id in s.candidates
    ensures Earned(s.candidates[id])
  {
    hide Earned;
  }

  lemma RollbackWritesOk(s: State, userId: nat, id: nat, j: nat)
    requires Good(s) && j < |Writes(s, Rollback(userId, id))|
    ensures var writes := Writes(s, Rollback(userId, id)); WriteOk(PutAll(s, writes[..j]), writes[j])
  {
    hide Earned, Prior, AllEarned;
    var writes := Writes(s, Rollback(userId, id));
    var c := s.candidates[id];
    var away := c.(status := RolledBack);
    var prior := Prior(s.candidates[id := away], s.order, away);
    assert writes[..0] == [];
    EarnedAt(s, id);
    EarnedActivation(c);
    MovedEarned(c, RolledBack, c.activatedAt);
    assert away == c.(status := RolledBack, activatedAt := c.activatedAt);
    if prior.Some? {
      var p := s.candidates[id := away][prior.value];
      PriorIs(s.candidates[id := away], s.order, away);
      EarnedAt(s, prior.value);
      MovedEarned(p, Active, Some(s.clock));
      SoleActive(s, away, p);
      assert writes[..1] == [away] && [away][..0] == [] && PutAll(s, [away]) == Put(s, away);
    }
  }

  /** Listing newest first and taking the first match is taking the newest match. */
  lemma PriorIs(s: Store, order: seq<nat>, c: Candidate)
    ensures var own := Filter(order, Own(s, c.userId));
      var r := Prior(s, order, c);
      && r == Newest(own, (id: nat) => IsPrior(s, c, id), Age(s))
      && (r.Some? ==> IsPrior(s, c, r.value) && s[r.value].userId == c.userId && r.value in order)
      && forall id :: id in order && Owns(s, c.userId, id) && IsPrior(s, c, id) ==>
           r.Some? && s[id].createdAt <= s[r.value].createdAt
  {
    var own := Filter(order, Own(s, c.userId));
    var p := (id: nat) => IsPrior(s, c, id);
    FirstOfNewestFirst(own, p, Age(s));
    NewestIsNewest(own, p, Age(s));
  }

  /** Each write of a call is admissible in the state the writes before it left. */
  lemma WritesOk(s: State, op: Op, j: nat)
    requires Good(s) && Possible(s, op) && j < |Writes(s, op)|
    ensures WriteOk(PutAll(s, Writes(s, op)[..j]), Writes(s, op)[j])
  {
    match op
    case EvaluateIt(_, id) =>
      EvaluationEarned(s.candidates[id]);
      hide Earned;
    case WorkerEvaluates(_, id) =>
      EvaluationEarned(s.candidates[id]);
      hide Earned;
    case Activate(userId, id) =>
      hide Writes, WriteOk;
      ActivateWritesOk(s, userId, id, j);
    case Rollback(userId, id) =>
      hide Writes, WriteOk;
      RollbackWritesOk(s, userId, id, j);
    case _ =>
      hide Passes;
  }

  /** After every single store write of a call, and so after the call, the invariant holds: among other things at
      most one candidate per user and kind is active, and none is ready or active that did not pass. */
  lemma EveryWriteGood(s: State, op: Op, k: nat)
    requires Good(s) && Possible(s, op) && k <= |Writes(s, op)|
    ensures Good(PutAll(s, Writes(s, op)[..k]))
  {
    hide Good, WriteOk, Writes;
    forall j | 0 <= j < |Writes(s, op)|
      ensures WriteOk(PutAll(s, Writes(s, op)[..j]), Writes(s, op)[j])
    {
      WritesOk(s, op, j);
    }
    PutAllGood(s, Writes(s, op), k);
  }

  lemma ApplyIs(s: State, op: Op)
    ensures Apply(s, op).candidates == PutAll(s, Writes(s, op)).candidates
    ensures Apply(s, op).order == PutAll(s, Writes(s, op)).order
  {
    assert op.Tick? ==> Writes(s, op) == [];
    assert PutAll(s, []) == s;
    hide Writes, PutAll;
  }

  lemma ApplyGood(s: State, op: Op)
    requires Good(s) && Possible(s, op)
    ensures Good(Apply(s, op))
  {
    var writes := Writes(s, op);
    assert writes[..|writes|] == writes;
    hide PutAll, Apply, Earned, Writes;
    EveryWriteGood(s, op, |writes|);
    ApplyIs(s, op);
  }

  lemma {:induction false} RunGood(s: State, ops: seq<Op>)
    requires Good(s) && AllPossible(s, ops)
    ensures Good(Run(s, ops))
    decreases |ops|
  {
    if ops != [] {
      hide Good, Apply, Possible;
      ApplyGood(s, ops[0]);
      RunGood(Apply(s, ops[0]), ops[1..]);
    }
  }

  // ---------------------------------------------------------------- a failed candidate stays failed

  /** Content, owner and kind of a candidate never change, and a status only moves on. */
  predicate Follows(c: Candidate, c': Candidate) {
    && c'.id == c.id && c'.userId == c.userId && c'.kind == c.kind && c'.before == c.before && c'.after == c.after
    && c'.createdAt == c.createdAt
    && (c.status == Failed ==> c'.status == Failed)
    && (c.status in {Ready, Active, RolledBack} ==> c'.status in {Ready, Active, RolledBack})
  }

  ghost predicate AllFollow(s: Store, s': Store) {
    forall id :: id in s ==> id in s' && Follows(s[id], s'[id])
  }

  ghost predicate WriteFollows(s: State, c: Candidate) {
    c.id in s.candidates ==> Follows(s.candidates[c.id], c)
  }

  predicate IsRolledBack(s: Store, userId: nat, kind: Kind, id: nat) {
    Owns(s, userId, id) && s[id].kind == kind && s[id].status == RolledBack
  }

  /** What rolling back a candidate restores. */
  function Restored(s: State, id: nat): Option<nat>
    requires id in s.candidates
  {
    var away := s.candidates[id].(status := RolledBack);
    Prior(s.candidates[id := away], s.order, away)
  }

  /** It is the newest-created of the other rolled-back candidates of the same user and kind, if there is one. */
  lemma RestoredIsNewest(s: State, id: nat)
    requires Filed(s) && id in s.candidates
    ensures var c, r := s.candidates[id], Restored(s, id);
      && (r.Some? ==> r.value != id && IsRolledBack(s.candidates, c.userId, c.kind, r.value))
      && forall other :: other != id && IsRolledBack(s.candidates, c.userId, c.kind, other) ==>
           r.Some? && s.candidates[other].createdAt <= s.candidates[r.value].createdAt
  {
    var c := s.candidates[id];
    var away := c.(status := RolledBack);
    var after := s.candidates[id := away];
    PriorIs(after, s.order, away);
    hide Prior;
    forall other | other != id && IsRolledBack(s.candidates, c.userId, c.kind, other)
      ensures other in s.order && Owns(after, c.userId, other) && IsPrior(after, away, other)
    {
    }
  }

  lemma RollbackWrites(s: State, userId: nat, id: nat)
    requires Filed(s) && Writes(s, Rollback(userId, id)) != []
    ensures Owns(s.candidates, userId, id) && s.candidates[id].status == Active
    ensures var r := Restored(s, id);
      && (r.Some? ==> r.value in s.candidates)
      && Writes(s, Rollback(userId, id)) == [s.candidates[id].(status := RolledBack)]
         + if r.Some? then [s.candidates[r.value].(status := Active, activatedAt := Some(s.clock))] else []
  {
    RestoredIsNewest(s, id);
    hide Prior;
  }

  lemma RollbackFollows(s: State, userId: nat, id: nat, j: nat)
    requires Good(s) && j < |Writes(s, Rollback(userId, id))|
    ensures WriteFollows(s, Writes(s, Rollback(userId, id))[j])
  {
    hide Prior, AllEarned, Writes, Restored, OneActive;
    RollbackWrites(s, userId, id);
    RestoredIsNewest(s, id);
  }

  lemma WritesFollow(s: State, op: Op, j: nat)
    requires Good(s) && Possible(s, op) && j < |Writes(s, op)|
    ensures WriteFollows(s, Writes(s, op)[j])
  {
    match op
    case EvaluateIt(_, id) =>
      EvaluationEarned(s.candidates[id]);
      ReadyIff(s.candidates[id]);
      hide Evaluate, Earned;
    case WorkerEvaluates(_, id) =>
      EvaluationEarned(s.candidates[id]);
      ReadyIff(s.candidates[id]);
      hide Evaluate, Earned;
    case Rollback(userId, id) =>
      hide Writes, WriteFollows, Earned;
      RollbackFollows(s, userId, id, j);
    case _ =>
      hide Evaluate, Earned;
  }

  lemma {:induction false} PutAllFollows(s: State, writes: seq<Candidate>)
    requires forall j :: 0 <= j < |writes| ==> WriteFollows(s, writes[j])
    ensures forall id :: id in s.candidates ==> id in PutAll(s, writes).candidates
    ensures forall id :: id in s.candidates && PutAll(s, writes).candidates[id] != s.candidates[id] ==>
              exists j :: 0 <= j < |writes| && writes[j].id == id && PutAll(s, writes).candidates[id] == writes[j]
  {
    if writes != [] {
      PutAllFollows(s, writes[..|writes| - 1]);
    }
  }

  lemma ApplyFollows(s: State, op: Op)
    requires Good(s) && Possible(s, op)
    ensures AllFollow(s.candidates, Apply(s, op).candidates)
  {
    var writes := Writes(s, op);
    ApplyIs(s, op);
    forall j | 0 <= j < |writes|
      ensures WriteFollows(s, writes[j])
    {
      WritesFollow(s, op, j);
    }
    PutAllFollows(s, writes);
    hide Writes, Apply, PutAll, Good;
  }

  /** A failed candidate never becomes ready, and what has once passed has passed for good. */
  lemma {:induction false} RunFollows(s: State, ops: seq<Op>)
    requires Good(s) && AllPossible(s, ops)
    ensures AllFollow(s.candidates, Run(s, ops).candidates)
    decreases |ops|
  {
    if ops != [] {
      hide Good, Apply, Possible;
      ApplyGood(s, ops[0]);
      ApplyFollows(s, ops[0]);
      RunFollows(Apply(s, ops[0]), ops[1..]);
    }
  }
}
