/** The improvement service and the evaluation worker over their store, each call proved against the state machine
    of module Improvements, and after each single write of the store at most one candidate active. */
module ImprovementService {
  import opened Wrappers
  import opened Ordering
  import opened CandidateEvaluator
  import opened Improvements
  import opened ImprovementRollback

  class CandidateStore {
    var candidates: Store
    var order: seq<nat>
    ghost var trail: seq<Store>   // the store after each write

    constructor ()
      ensures candidates == map[] && order == [] && trail == []
    {
      candidates, order, trail := map[], [], [];
    }

    /** `Map.set`, for a new candidate and for an update alike. */
    method SetCandidate(c: Candidate)
      modifies this
      ensures candidates == old(candidates)[c.id := c]
      ensures order == if c.id in old(candidates) then old(order) else old(order) + [c.id]
      ensures trail == old(trail) + [candidates]
    {
      if c.id !in candidates {
        order := order + [c.id];
      }
      candidates := candidates[c.id := c];
      trail := trail + [candidates];
    }

    function GetCandidate(userId: nat, id: nat): Option<Candidate>
      reads this
    {
      if Owns(candidates, userId, id) then Some(candidates[id]) else None
    }
  }

  class ImprovementService {
    const store: CandidateStore
    var now: int
    ghost var activated: seq<nat>
    ghost var displaced: map<nat, Option<nat>>
    ghost var rolledBack: seq<nat>

    constructor (store: CandidateStore, now: int)
      ensures this.store == store && this.now == now && activated == [] && displaced == map[] && rolledBack == []
    {
      this.store, this.now, activated, displaced, rolledBack := store, now, [], map[], [];
    }

    ghost function Abs(): State
      reads this, store
    {
      State(now, store.candidates, store.order, activated, displaced, rolledBack)
    }

    ghost predicate Valid()
      reads this, store
    {
      Good(Abs())
    }

    /** Every store written since then has at most one active candidate per user and kind. */
    ghost predicate OneActiveSince(from: nat)
      reads store
    {
      from <= |store.trail| && forall k :: from <= k < |store.trail| ==> OneActive(store.trail[k])
    }

    /** `id` is the identifier drawn for the new candidate. */
    method CreateCandidate(userId: nat, kind: Kind, before: string, after: string, id: nat) returns (c: Candidate)
      requires Valid() && id !in store.candidates
      modifies store
      ensures Valid() && Abs() == Apply(old(Abs()), Create(userId, kind, before, after, id))
      ensures OneActiveSince(old(|store.trail|)) && id in store.candidates && c == store.candidates[id]
      ensures c == Candidate(id, userId, kind, before, after, Draft, None, None, now, None)
    {
      ghost var s, op := Abs(), Create(userId, kind, before, after, id);
      ApplyGood(s, op);
      c := Candidate(id, userId, kind, before, after, Draft, None, None, now, None);
      Single(s, op, c);
      hide Writes, PutAll, Good;
      GoodIs(Apply(s, op));
      store.SetCandidate(c);
    }

    method Evaluate(userId: nat, id: nat) returns (reply: Reply<Candidate>)
      requires Valid()
      modifies store
      ensures Valid() && Abs() == Apply(old(Abs()), EvaluateIt(userId, id))
      ensures OneActiveSince(old(|store.trail|))
      ensures reply == if !old(Owns(store.candidates, userId, id)) then Refused(NotFound)
                       else if old(store.candidates)[id].status !in {Draft, Failed} then Refused(Conflict)
                       else Ok(CandidateEvaluator.Evaluate(old(store.candidates)[id]))
      ensures reply.Ok? ==> id in store.candidates && store.candidates[id] == reply.value
    {
      hide Writes, PutAll, Good, Apply, OneActive, AllEarned, Filed, CandidateEvaluator.Evaluate;
      ghost var s, op := Abs(), EvaluateIt(userId, id);
      ApplyGood(s, op);
      GoodIs(s);
      GoodIs(Apply(s, op));
      EvaluationIs(s, userId, id);
      var c := store.GetCandidate(userId, id);
      if c.None? {
        return Refused(NotFound);
      }
      FiledAt(s, id);
      ReadyIff(c.value);
      if c.value.status !in {Draft, Failed} {
        return Refused(Conflict);
      }
      var evaluated := CandidateEvaluator.Evaluate(c.value);
      store.SetCandidate(evaluated);
      reply := Ok(evaluated);
    }

    /** The evaluation that the queue's worker does on its own. */
    method WorkerCallback(userId: nat, id: nat)
      requires Valid()
      modifies store
      ensures Valid() && Abs() == Apply(old(Abs()), WorkerEvaluates(userId, id))
      ensures OneActiveSince(old(|store.trail|))
    {
      hide Writes, PutAll, Good, Apply, OneActive, AllEarned, Filed, CandidateEvaluator.Evaluate;
      ghost var s, op := Abs(), WorkerEvaluates(userId, id);
      ApplyGood(s, op);
      GoodIs(Apply(s, op));
      EvaluationIs(s, userId, id);
      var c := store.GetCandidate(userId, id);
      if c.None? || c.value.status !in {Draft, Failed} {
        return;
      }
      var evaluated := CandidateEvaluator.Evaluate(c.value);
      store.SetCandidate(evaluated);
    }

    /** What is active is put away before the candidate becomes active. */
    method Activate(userId: nat, id: nat) returns (reply: Reply<Candidate>)
      requires Valid()
      modifies this`activated, this`displaced, store
      ensures Valid() && Abs() == Apply(old(Abs()), Improvements.Activate(userId, id))
      ensures OneActiveSince(old(|store.trail|))
      ensures reply.Ok? ==> id in store.candidates && reply.value == store.candidates[id]
      ensures reply == if !old(Owns(store.candidates, userId, id)) then Refused(NotFound)
                       else if old(store.candidates)[id].status != Ready
                               || old(store.candidates)[id].safetyPassed != Some(true) then Refused(Conflict)
                       else Ok(old(store.candidates)[id].(status := Active, activatedAt := Some(now)))
    {
      hide Writes, PutAll, Good, GetActive, Apply, OneActive, AllEarned, Filed;
      ghost var s, op := Abs(), Improvements.Activate(userId, id);
      ApplyGood(s, op);
      GoodIs(s);
      GoodIs(Apply(s, op));
      ActivationRefused(s, userId, id);
      var c := store.GetCandidate(userId, id);
      if c.None? {
        return Refused(NotFound);
      }
      FiledAt(s, id);
      if c.value.status != Ready || c.value.safetyPassed != Some(true) {
        return Refused(Conflict);
      }
      var previous := GetActive(store.candidates, store.order, userId, c.value.kind);
      var active := c.value.(status := Active, activatedAt := Some(now));
      Activation(s, userId, id);
      if previous.Some? {
        AwayGood(s, userId, id, previous.value);
        store.SetCandidate(store.candidates[previous.value].(status := RolledBack));
      }
      ghost var s1 := if previous.None? then s else Put(s, s.candidates[previous.value].(status := RolledBack));
      assert Abs() == s1 && OneActive(store.candidates);
      store.SetCandidate(active);
      assert Abs() == Put(s1, active);
      activated, displaced := activated + [id], displaced[id := previous];
      reply := Ok(active);
    }

    /** The candidate is put away first, then the newest of the others put away before is brought back. */
    method Rollback(userId: nat, id: nat) returns (reply: Reply<Candidate>)
      requires Valid()
      modifies this`rolledBack, store
      ensures Valid() && Abs() == Apply(old(Abs()), Improvements.Rollback(userId, id))
      ensures OneActiveSince(old(|store.trail|))
      ensures reply.Ok? ==> id in store.candidates && reply.value == store.candidates[id]
      ensures reply == if !old(Owns(store.candidates, userId, id)) then Refused(NotFound)
                       else if old(store.candidates)[id].status != Active then Refused(Conflict)
                       else Ok(old(store.candidates)[id].(status := RolledBack))
    {
      hide Writes, PutAll, Good, Prior, Apply, OneActive, AllEarned, Filed;
      ghost var s, op := Abs(), Improvements.Rollback(userId, id);
      ApplyGood(s, op);
      GoodIs(s);
      GoodIs(Apply(s, op));
      RollbackRefused(s, userId, id);
      var c := store.GetCandidate(userId, id);
      if c.None? {
        return Refused(NotFound);
      }
      if c.value.status != Active {
        return Refused(Conflict);
      }
      var rolledBackCandidate := c.value.(status := RolledBack);
      Rolling(s, userId, id);
      store.SetCandidate(rolledBackCandidate);
      var prior := Prior(store.candidates, store.order, rolledBackCandidate);
      if prior.Some? {
        store.SetCandidate(store.candidates[prior.value].(status := Active, activatedAt := Some(now)));
      }
      rolledBack := rolledBack + [id];
      reply := Ok(rolledBackCandidate);
    }
  }

  lemma GoodIs(s: State)
    ensures Good(s) ==> OneActive(s.candidates) && Filed(s)
  {
    hide OneActive, Filed;
  }

  /** A call with one write. */
  lemma Single(s: State, op: Op, c: Candidate)
    requires !op.Activate? && !op.Rollback? && !op.Tick? && Writes(s, op) == [c]
    ensures Apply(s, op) == Put(s, c)
  {
    assert [c][..0] == [];
    assert PutAll(s, [c]) == Put(PutAll(s, []), c);
  }

  lemma EvaluationIs(s: State, userId: nat, id: nat)
    ensures var evaluable := Owns(s.candidates, userId, id) && s.candidates[id].status in {Draft, Failed};
      var s' := if evaluable then Put(s, CandidateEvaluator.Evaluate(s.candidates[id])) else s;
      Apply(s, EvaluateIt(userId, id)) == s' && Apply(s, WorkerEvaluates(userId, id)) == s'
  {
    hide PutAll, CandidateEvaluator.Evaluate;
    NoWrites(s);
    if Owns(s.candidates, userId, id) && s.candidates[id].status in {Draft, Failed} {
      var c := CandidateEvaluator.Evaluate(s.candidates[id]);
      PutTwo(s, c, c);
    }
  }

  lemma NoWrites(s: State)
    ensures PutAll(s, []) == s
  {
  }

  lemma ActivationRefused(s: State, userId: nat, id: nat)
    ensures !Owns(s.candidates, userId, id) || s.candidates[id].status != Ready
            || s.candidates[id].safetyPassed != Some(true)
      ==> Apply(s, Improvements.Activate(userId, id)) == s
  {
    hide PutAll, GetActive;
    NoWrites(s);
  }

  lemma RollbackRefused(s: State, userId: nat, id: nat)
    ensures !Owns(s.candidates, userId, id) || s.candidates[id].status != Active
      ==> Apply(s, Improvements.Rollback(userId, id)) == s
  {
    hide PutAll, Prior;
    NoWrites(s);
  }

  lemma Activation(s: State, userId: nat, id: nat)
    requires Good(s) && Owns(s.candidates, userId, id) && s.candidates[id].status == Ready
    requires s.candidates[id].safetyPassed == Some(true)
    ensures var previous := GetActive(s.candidates, s.order, userId, s.candidates[id].kind);
      var active := s.candidates[id].(status := Active, activatedAt := Some(s.clock));
      var s1 := if previous.None? then s else Put(s, s.candidates[previous.value].(status := RolledBack));
      Apply(s, Improvements.Activate(userId, id))
        == Put(s1, active).(activated := s.activated + [id], displaced := s.displaced[id := previous])
  {
    hide GetActive, PutAll, OneActive, AllEarned;
    var previous := GetActive(s.candidates, s.order, userId, s.candidates[id].kind);
    var active := s.candidates[id].(status := Active, activatedAt := Some(s.clock));
    var first := if previous.Some? then s.candidates[previous.value].(status := RolledBack) else active;
    PutTwo(s, first, active);
    PutTwo(s, active, active);
    assert Writes(s, Improvements.Activate(userId, id)) == if previous.Some? then [first, active] else [active];
  }

  lemma AwayGood(s: State, userId: nat, id: nat, previous: nat)
    requires Good(s) && Owns(s.candidates, userId, id) && s.candidates[id].status == Ready
    requires s.candidates[id].safetyPassed == Some(true)
    requires GetActive(s.candidates, s.order, userId, s.candidates[id].kind) == Some(previous)
    ensures previous in s.candidates && s.candidates[previous].id == previous
    ensures OneActive(s.candidates[previous := s.candidates[previous].(status := RolledBack)])
  {
    hide GetActive, AllEarned;
  }

  /** What a rollback puts away, and what it brings back then. */
  lemma Rolling(s: State, userId: nat, id: nat)
    requires Good(s) && Owns(s.candidates, userId, id) && s.candidates[id].status == Active
    ensures s.candidates[id].id == id
    ensures var s1 := Put(s, s.candidates[id].(status := RolledBack));
      var prior := Prior(s1.candidates, s1.order, s.candidates[id].(status := RolledBack));
      && OneActive(s1.candidates)
      && (prior.Some? ==> s1.candidates[prior.value].id == prior.value != id)
      && Apply(s, Improvements.Rollback(userId, id))
         == (if prior.None? then s1
             else Put(s1, s1.candidates[prior.value].(status := Active, activatedAt := Some(s.clock))))
            .(rolledBack := s.rolledBack + [id])
  {
    hide Good, Prior, Apply, OneActive, Filed;
    GoodIs(s);
    FiledAt(s, id);
    var away := s.candidates[id].(status := RolledBack);
    StillFiled(s, id, away);
    StillOneActive(s.candidates, id, away);
    PriorIsOther(Put(s, away), away);
    RollingIs(s, userId, id, away);
  }

  lemma PriorIsOther(s: State, c: Candidate)
    ensures Prior(s.candidates, s.order, c).Some? ==> Prior(s.candidates, s.order, c).value != c.id
  {
    hide ListCandidates;
  }

  lemma FiledAt(s: State, id: nat)
    requires Filed(s) && id in s.candidates
    ensures s.candidates[id].id == id && id in s.order
  {
  }

  lemma StillFiled(s: State, id: nat, c: Candidate)
    requires Filed(s) && id in s.candidates && c.id == id
    ensures Put(s, c).order == s.order
    ensures forall i :: i in Put(s, c).candidates ==> Put(s, c).candidates[i].id == i
  {
    hide Distinct;
  }

  lemma StillOneActive(s: Store, id: nat, c: Candidate)
    requires OneActive(s) && id in s && c.status != Active
    ensures OneActive(s[id := c])
  {
  }

  lemma RollingIs(s: State, userId: nat, id: nat, away: Candidate)
    requires Owns(s.candidates, userId, id) && s.candidates[id].status == Active
    requires s.candidates[id].id == id && id in s.order && away == s.candidates[id].(status := RolledBack)
    ensures var s1 := Put(s, away);
      var prior := Prior(s1.candidates, s1.order, away);
      Apply(s, Improvements.Rollback(userId, id))
        == (if prior.None? then s1
            else Put(s1, s1.candidates[prior.value].(status := Active, activatedAt := Some(s.clock))))
           .(rolledBack := s.rolledBack + [id])
  {
    hide Prior, PutAll;
    var s1 := Put(s, away);
    var prior := Prior(s1.candidates, s1.order, away);
    var back := if prior.None? then away
                else s1.candidates[prior.value].(status := Active, activatedAt := Some(s.clock));
    PutTwo(s, away, back);
    assert Writes(s, Improvements.Rollback(userId, id)) == if prior.None? then [away] else [away, back];
  }
}
