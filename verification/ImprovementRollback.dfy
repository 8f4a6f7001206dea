/** What a rollback restores, and when that is the candidate that was active before. */
module ImprovementRollback {
  import opened Wrappers
  import opened Ordering
  import opened CandidateEvaluator
  import opened Improvements

  ghost predicate DistinctTimes(s: Store) {
    forall i, j :: i in s && j in s && s[i].createdAt == s[j].createdAt ==> i == j
  }

  /** The newest of the other rolled-back candidates of the same user and kind. */
  ghost predicate NewestAway(s: Store, c: Candidate, y: nat) {
    && y != c.id && IsRolledBack(s, c.userId, c.kind, y)
    && forall other :: other != c.id && IsRolledBack(s, c.userId, c.kind, other) ==>
         s[other].createdAt <= s[y].createdAt
  }

  lemma RestoredIff(s: State, id: nat, y: nat)
    requires Filed(s) && DistinctTimes(s.candidates) && id in s.candidates
    ensures Restored(s, id) == Some(y) <==> NewestAway(s.candidates, s.candidates[id], y)
  {
    var r := Restored(s, id);
    RestoredIsNewest(s, id);
    hide Restored;
    if NewestAway(s.candidates, s.candidates[id], y) {
      assert s.candidates[y].createdAt <= s.candidates[r.value].createdAt <= s.candidates[y].createdAt;
    }
  }

  lemma PutTwo(s: State, c: Candidate, c': Candidate)
    ensures PutAll(s, [c]) == Put(s, c) && PutAll(s, [c, c']) == Put(Put(s, c), c')
  {
    assert [c][..0] == [] && [c, c'][..1] == [c];
    assert PutAll(s, [c]) == Put(PutAll(s, []), c);
    assert PutAll(s, [c, c']) == Put(PutAll(s, [c]), c');
    hide Put;
  }

  /** The store after a rollback. */
  lemma RollbackIs(s: State, userId: nat, id: nat)
    requires Filed(s) && Owns(s.candidates, userId, id) && s.candidates[id].status == Active
    ensures var r, away := Restored(s, id), s.candidates[id := s.candidates[id].(status := RolledBack)];
      && (r.Some? ==> r.value in s.candidates && r.value != id)
      && Apply(s, Rollback(userId, id)).candidates
         == if r.None? then away
            else away[r.value := s.candidates[r.value].(status := Active, activatedAt := Some(s.clock))]
  {
    var c, r := s.candidates[id], Restored(s, id);
    ApplyIs(s, Rollback(userId, id));
    RestoredIsNewest(s, id);
    assert Writes(s, Rollback(userId, id)) != [];
    RollbackWrites(s, userId, id);
    hide Restored, Writes, Apply, IsRolledBack;
    var away := c.(status := RolledBack);
    PutTwo(s, away, if r.Some? then s.candidates[r.value].(status := Active, activatedAt := Some(s.clock)) else c);
    hide PutAll;
  }

  /** Rolling back the active candidate puts it away and restores the newest-created rolled-back one of its kind;
      nothing else changes. */
  lemma RollbackRestores(s: State, userId: nat, id: nat)
    requires Good(s) && DistinctTimes(s.candidates)
    requires Owns(s.candidates, userId, id) && s.candidates[id].status == Active
    ensures var c, s' := s.candidates[id], Apply(s, Rollback(userId, id)).candidates;
      && s'.Keys == s.candidates.Keys && s'[id] == c.(status := RolledBack)
      && (forall y :: y in s' && y != id ==>
            s'[y] == if NewestAway(s.candidates, c, y)
                     then s.candidates[y].(status := Active, activatedAt := Some(s.clock)) else s.candidates[y])
  {
    hide Restored, Apply, AllEarned, NewestAway, DistinctTimes;
    RollbackIs(s, userId, id);
    forall y: nat
      ensures Restored(s, id) == Some(y) <==> NewestAway(s.candidates, s.candidates[id], y)
    {
      RestoredIff(s, id, y);
    }
  }

  /** `x` was put away and `y` brought back. */
  ghost predicate Swapped(s: Store, s': Store, x: nat, y: nat) {
    && x in s && y in s && x != y && s'.Keys == s.Keys
    && s'[x] == s[x].(status := RolledBack) && s'[y] == s[y].(status := Active, activatedAt := s'[y].activatedAt)
    && forall z :: z in s && z != x && z != y ==> s'[z] == s[z]
  }

  lemma RollbackSwaps(s: State, userId: nat, x: nat, y: nat)
    requires Good(s) && DistinctTimes(s.candidates) && Owns(s.candidates, userId, x) && s.candidates[x].status == Active
    requires NewestAway(s.candidates, s.candidates[x], y)
    ensures Swapped(s.candidates, Apply(s, Rollback(userId, x)).candidates, x, y)
  {
    hide Restored, Apply, AllEarned, DistinctTimes;
    RollbackIs(s, userId, x);
    RestoredIff(s, x, y);
  }

  lemma FirstIsNewest(s: Store, s': Store, x: nat, y: nat)
    requires Swapped(s, s', x, y) && DistinctTimes(s) && NewestAway(s, s[x], y)
    requires forall i :: i in s ==> s[i].id == i
    requires forall z :: z != y && z != x && IsRolledBack(s, s[x].userId, s[x].kind, z) ==>
               s[z].createdAt < s[x].createdAt
    ensures NewestAway(s', s'[y], x) && DistinctTimes(s') && Owns(s', s[x].userId, y) && s'[y].status == Active
  {
  }

  /** Two rollbacks in a row: if the first candidate is newer than every other rolled-back one but the one restored,
      rolling that one back brings the first back. */
  lemma RollbackTwiceReturns(s: State, userId: nat, x: nat, y: nat)
    requires Good(s) && DistinctTimes(s.candidates) && Owns(s.candidates, userId, x) && s.candidates[x].status == Active
    requires NewestAway(s.candidates, s.candidates[x], y)
    requires forall z :: z != y && z != x && IsRolledBack(s.candidates, userId, s.candidates[x].kind, z) ==>
               s.candidates[z].createdAt < s.candidates[x].createdAt
    ensures var s2 := Apply(Apply(s, Rollback(userId, x)), Rollback(userId, y)).candidates;
      && s2.Keys == s.candidates.Keys && s2[x].status == Active && s2[y].status == RolledBack
      && forall z :: z in s2 && z != x && z != y ==> s2[z] == s.candidates[z]
  {
    var s1 := Apply(s, Rollback(userId, x));
    assert forall i :: i in s.candidates ==> s.candidates[i].id == i;
    hide Apply, Good, NewestAway, DistinctTimes;
    ApplyGood(s, Rollback(userId, x));
    RollbackSwaps(s, userId, x, y);
    FirstIsNewest(s.candidates, s1.candidates, x, y);
    RollbackSwaps(s1, userId, y, x);
  }

  /** Exactly when a rollback restores what was active before: when that candidate is the newest-created of those
      rolled back, or when there was none before and none is rolled back. */
  lemma RestoresPreviousIff(s: State, id: nat)
    requires Good(s) && DistinctTimes(s.candidates) && id in s.candidates && id in s.displaced
    ensures Restored(s, id) == s.displaced[id] <==>
      match s.displaced[id]
      case Some(y) => NewestAway(s.candidates, s.candidates[id], y)
      case None => forall other :: other != id ==>
                     !IsRolledBack(s.candidates, s.candidates[id].userId, s.candidates[id].kind, other)
  {
    RestoredIsNewest(s, id);
    if s.displaced[id].Some? {
      RestoredIff(s, id, s.displaced[id].value);
    }
    hide Restored, AllEarned;
  }

  // ---------------------------------------------------------------- activation in order of creation

  function OfKind(s: Store, userId: nat, kind: Kind): nat -> bool {
    (id: nat) => Owns(s, userId, id) && s[id].kind == kind
  }

  /** The candidates of a kind in the order in which they were activated. */
  function Line(s: State, userId: nat, kind: Kind): seq<nat> {
    Filter(s.activated, OfKind(s.candidates, userId, kind))
  }

  predicate NeverRolledBack(s: State, userId: nat, kind: Kind) {
    Filter(s.rolledBack, OfKind(s.candidates, userId, kind)) == []
  }

  ghost predicate Remembers(s: State) {
    && (forall id :: id in s.activated ==> id in s.candidates)
    && (forall id :: id in s.rolledBack ==> id in s.candidates)
  }

  /** While nothing of a kind was ever rolled back, the last one activated is the active one, and those before it
      are the ones rolled back. */
  ghost predicate InLine(s: State, userId: nat, kind: Kind) {
    NeverRolledBack(s, userId, kind) ==> Lined(s.candidates, s.displaced, Line(s, userId, kind), userId, kind)
  }

  ghost predicate Lined(s: Store, displaced: map<nat, Option<nat>>, line: seq<nat>, userId: nat, kind: Kind) {
    && Distinct(line)
    && (forall id :: IsActive(s, userId, kind, id) <==> line != [] && id == line[|line| - 1])
    && (forall id :: IsRolledBack(s, userId, kind, id) <==> line != [] && id in line[..|line| - 1])
    && (line != [] ==>
          Lookup(displaced, line[|line| - 1]) == Some(if |line| > 1 then Some(line[|line| - 2]) else None))
  }

  /** For this kind nothing happened. */
  ghost predicate Untouched(s: State, s': State, userId: nat, kind: Kind) {
    && (forall id :: IsActive(s.candidates, userId, kind, id) == IsActive(s'.candidates, userId, kind, id))
    && (forall id :: IsRolledBack(s.candidates, userId, kind, id) == IsRolledBack(s'.candidates, userId, kind, id))
    && Line(s', userId, kind) == Line(s, userId, kind)
    && (NeverRolledBack(s', userId, kind) ==> NeverRolledBack(s, userId, kind))
    && (forall id :: id in Line(s, userId, kind) ==> Lookup(s'.displaced, id) == Lookup(s.displaced, id))
  }

  lemma UntouchedKeeps(s: State, s': State, userId: nat, kind: Kind)
    requires Untouched(s, s', userId, kind) && InLine(s, userId, kind)
    ensures InLine(s', userId, kind)
  {
    hide Line, NeverRolledBack, IsActive, IsRolledBack, Distinct;
  }

  /** The kinds and owners of the candidates known do not change, so neither do the lines. */
  lemma LinesKept(s: State, s': State, userId: nat, kind: Kind)
    requires Remembers(s) && AllFollow(s.candidates, s'.candidates)
    ensures Filter(s.activated, OfKind(s'.candidates, userId, kind)) == Line(s, userId, kind)
    ensures Filter(s.rolledBack, OfKind(s'.candidates, userId, kind))
         == Filter(s.rolledBack, OfKind(s.candidates, userId, kind))
  {
    FilterSame(s.activated, OfKind(s'.candidates, userId, kind), OfKind(s.candidates, userId, kind));
    FilterSame(s.rolledBack, OfKind(s'.candidates, userId, kind), OfKind(s.candidates, userId, kind));
  }

  /** The store after an activation. */
  lemma ActivateIs(s: State, userId: nat, id: nat)
    requires Filed(s) && Writes(s, Activate(userId, id)) != []
    ensures Owns(s.candidates, userId, id) && s.candidates[id].status == Ready
    ensures var c, s' := s.candidates[id], Apply(s, Activate(userId, id));
      var previous := GetActive(s.candidates, s.order, userId, c.kind);
      && s'.activated == s.activated + [id] && s'.rolledBack == s.rolledBack
      && s'.displaced == s.displaced[id := previous] && s'.order == s.order && s'.clock == s.clock
      && s'.candidates
         == (if previous.None? then s.candidates
             else s.candidates[previous.value := s.candidates[previous.value].(status := RolledBack)])
            [id := c.(status := Active, activatedAt := Some(s.clock))]
  {
    var c := s.candidates[id];
    var previous := GetActive(s.candidates, s.order, userId, c.kind);
    ApplyIs(s, Activate(userId, id));
    var active := c.(status := Active, activatedAt := Some(s.clock));
    PutTwo(s, if previous.Some? then s.candidates[previous.value].(status := RolledBack) else active, active);
    hide PutAll, GetActive;
  }

  function AfterActivation(s: Store, id: nat, previous: Option<nat>, now: int): Store
    requires id in s && (previous.Some? ==> previous.value in s)
  {
    (if previous.None? then s else s[previous.value := s[previous.value].(status := RolledBack)])
    [id := s[id].(status := Active, activatedAt := Some(now))]
  }

  lemma LineExtends(s: Store, displaced: map<nat, Option<nat>>, line: seq<nat>, userId: nat, kind: Kind, id: nat,
                    previous: Option<nat>, now: int)
    requires Lined(s, displaced, line, userId, kind)
    requires Owns(s, userId, id) && s[id].kind == kind && s[id].status == Ready
    requires previous == if line == [] then None else Some(line[|line| - 1])
    ensures previous.Some? ==> previous.value in s
    ensures Lined(AfterActivation(s, id, previous, now), displaced[id := previous], line + [id], userId, kind)
  {
    assert previous.Some? ==> IsActive(s, userId, kind, previous.value);
    var s' := AfterActivation(s, id, previous, now);
    var more := line + [id];
    assert more[..|line|] == line;
    assert line != [] ==> line == line[..|line| - 1] + [line[|line| - 1]];
    assert id !in line by {
      assert !IsActive(s, userId, kind, id) && !IsRolledBack(s, userId, kind, id);
    }
    forall i
      ensures IsActive(s', userId, kind, i) <==> i == id
      ensures IsRolledBack(s', userId, kind, i) <==> i in line
    {
      assert IsActive(s, userId, kind, i) <==> line != [] && i == line[|line| - 1];
      assert IsRolledBack(s, userId, kind, i) <==> line != [] && i in line[..|line| - 1];
    }
  }

  lemma ActivateInLine(s: State, userId: nat, id: nat)
    requires Good(s) && Remembers(s) && Writes(s, Activate(userId, id)) != []
    requires InLine(s, userId, s.candidates[id].kind)
    ensures InLine(Apply(s, Activate(userId, id)), userId, s.candidates[id].kind)
  {
    var kind, s' := s.candidates[id].kind, Apply(s, Activate(userId, id));
    var previous := GetActive(s.candidates, s.order, userId, kind);
    ActivateIs(s, userId, id);
    ApplyFollows(s, Activate(userId, id));
    LinesKept(s, s', userId, kind);
    FilterAppend(s.activated, id, OfKind(s'.candidates, userId, kind));
    var line := Line(s, userId, kind);
    assert Line(s', userId, kind) == line + [id];
    ActiveIs(s, userId, kind);
    assert s'.candidates == AfterActivation(s.candidates, id, previous, s.clock);
    hide Apply, Writes, GetActive, AllFollow, Filter, AllEarned, Remembers, Good, AfterActivation;
    if NeverRolledBack(s', userId, kind) {
      assert NeverRolledBack(s, userId, kind);
      LineTip(s, userId, kind, previous);
      hide Lined;
      LineExtends(s.candidates, s.displaced, line, userId, kind, id, previous, s.clock);
    }
  }

  lemma LineTip(s: State, userId: nat, kind: Kind, active: Option<nat>)
    requires Lined(s.candidates, s.displaced, Line(s, userId, kind), userId, kind)
    requires match active
      case None => forall id :: !IsActive(s.candidates, userId, kind, id)
      case Some(id) => IsActive(s.candidates, userId, kind, id)
    ensures var line := Line(s, userId, kind); active == if line == [] then None else Some(line[|line| - 1])
  {
    var line := Line(s, userId, kind);
    hide Line;
    assert line != [] ==> IsActive(s.candidates, userId, kind, line[|line| - 1]);
  }

  /** A history with one more entry of another kind, or with none. */
  ghost predicate SameOfKind(before: seq<nat>, after: seq<nat>, s: Store, userId: nat, kind: Kind) {
    after == before || exists id :: after == before + [id] && !OfKind(s, userId, kind)(id)
  }

  ghost predicate SameStatuses(s: Store, s': Store, userId: nat, kind: Kind) {
    && (forall id :: IsActive(s, userId, kind, id) == IsActive(s', userId, kind, id))
    && (forall id :: IsRolledBack(s, userId, kind, id) == IsRolledBack(s', userId, kind, id))
  }

  lemma LinesSame(s: State, s': State, userId: nat, kind: Kind)
    requires Remembers(s) && AllFollow(s.candidates, s'.candidates)
    requires SameOfKind(s.activated, s'.activated, s'.candidates, userId, kind)
    requires SameOfKind(s.rolledBack, s'.rolledBack, s'.candidates, userId, kind)
    ensures Line(s', userId, kind) == Line(s, userId, kind)
    ensures NeverRolledBack(s', userId, kind) == NeverRolledBack(s, userId, kind)
  {
    hide AllFollow, Remembers, SameOfKind, OfKind, Filter;
    LinesKept(s, s', userId, kind);
    SameLine(s.activated, s'.activated, s'.candidates, userId, kind);
    SameLine(s.rolledBack, s'.rolledBack, s'.candidates, userId, kind);
  }

  lemma LineOfKind(s: State, userId: nat, kind: Kind)
    ensures forall id :: id in Line(s, userId, kind) ==> OfKind(s.candidates, userId, kind)(id)
  {
    hide OfKind;
  }

  lemma UntouchedFrom(s: State, s': State, userId: nat, kind: Kind)
    requires Remembers(s) && AllFollow(s.candidates, s'.candidates)
    requires SameStatuses(s.candidates, s'.candidates, userId, kind)
    requires SameOfKind(s.activated, s'.activated, s'.candidates, userId, kind)
    requires SameOfKind(s.rolledBack, s'.rolledBack, s'.candidates, userId, kind)
    requires forall id :: OfKind(s.candidates, userId, kind)(id) ==> Lookup(s'.displaced, id) == Lookup(s.displaced, id)
    ensures Untouched(s, s', userId, kind)
  {
    hide AllFollow, Remembers, SameOfKind, IsActive, IsRolledBack, OfKind, Line, NeverRolledBack;
    LinesSame(s, s', userId, kind);
    LineOfKind(s, userId, kind);
  }

  lemma SameLine(before: seq<nat>, after: seq<nat>, s: Store, userId: nat, kind: Kind)
    requires SameOfKind(before, after, s, userId, kind)
    ensures Filter(after, OfKind(s, userId, kind)) == Filter(before, OfKind(s, userId, kind))
  {
    if after != before {
      var id :| after == before + [id] && !OfKind(s, userId, kind)(id);
      FilterAppend(before, id, OfKind(s, userId, kind));
    }
  }

  /** Only candidates of another user or kind changed. */
  ghost predicate ChangedElsewhere(s: Store, s': Store, userId: nat, kind: Kind) {
    && s'.Keys == s.Keys
    && forall id :: id in s && s'[id] != s[id] ==>
         !(s[id].userId == userId && s[id].kind == kind) && s'[id].userId == s[id].userId && s'[id].kind == s[id].kind
  }

  lemma StatusesElsewhere(s: Store, s': Store, userId: nat, kind: Kind)
    requires ChangedElsewhere(s, s', userId, kind)
    ensures SameStatuses(s, s', userId, kind)
    ensures forall id :: OfKind(s, userId, kind)(id) == OfKind(s', userId, kind)(id)
  {
  }

  lemma TwoElsewhere(s: Store, a: nat, x: Candidate, b: nat, y: Candidate, userId: nat, kind: Kind)
    requires a in s && s[a].userId == x.userId && s[a].kind == x.kind && !(x.userId == userId && x.kind == kind)
    requires b in s && s[b].userId == y.userId && s[b].kind == y.kind && !(y.userId == userId && y.kind == kind)
    ensures ChangedElsewhere(s, s[a := x], userId, kind) && ChangedElsewhere(s, s[a := x][b := y], userId, kind)
    ensures !OfKind(s, userId, kind)(a) && !OfKind(s, userId, kind)(b)
  {
  }

  lemma ActivateChanges(s: State, user: nat, id: nat, userId: nat, kind: Kind)
    requires Good(s) && Writes(s, Activate(user, id)) != []
    requires user != userId || s.candidates[id].kind != kind
    ensures var s' := Apply(s, Activate(user, id));
      && ChangedElsewhere(s.candidates, s'.candidates, userId, kind) && !OfKind(s.candidates, userId, kind)(id)
      && s'.activated == s.activated + [id] && s'.rolledBack == s.rolledBack
      && forall i :: i != id ==> Lookup(s'.displaced, i) == Lookup(s.displaced, i)
  {
    hide Apply, Writes, Good, GetActive, ChangedElsewhere, OfKind, Filed;
    GoodFiled(s);
    ActivateIs(s, user, id);
    var c := s.candidates[id];
    var previous := GetActive(s.candidates, s.order, user, c.kind);
    ActiveIs(s, user, c.kind);
    var active := c.(status := Active, activatedAt := Some(s.clock));
    TwoElsewhere(s.candidates, id, active, id, active, userId, kind);
    if previous.Some? {
      var p := s.candidates[previous.value];
      TwoElsewhere(s.candidates, previous.value, p.(status := RolledBack), id, active, userId, kind);
    }
  }

  lemma RollbackChanges(s: State, user: nat, id: nat, userId: nat, kind: Kind)
    requires Good(s) && Writes(s, Rollback(user, id)) != []
    requires user != userId || s.candidates[id].kind != kind
    ensures var s' := Apply(s, Rollback(user, id));
      && ChangedElsewhere(s.candidates, s'.candidates, userId, kind) && !OfKind(s.candidates, userId, kind)(id)
      && s'.activated == s.activated && s'.rolledBack == s.rolledBack + [id] && s'.displaced == s.displaced
  {
    var c, r := s.candidates[id], Restored(s, id);
    assert Filed(s);
    hide Apply, Writes, Good, Restored, ChangedElsewhere, OfKind, Filed;
    RollbackHistory(s, user, id);
    RollbackWrites(s, user, id);
    RollbackIs(s, user, id);
    RestoredIsNewest(s, id);
    var away := c.(status := RolledBack);
    TwoElsewhere(s.candidates, id, away, id, away, userId, kind);
    if r.Some? {
      TwoElsewhere(s.candidates, id, away, r.value,
                   s.candidates[r.value].(status := Active, activatedAt := Some(s.clock)), userId, kind);
    }
  }

  lemma RollbackHistory(s: State, user: nat, id: nat)
    requires Writes(s, Rollback(user, id)) != []
    ensures var s' := Apply(s, Rollback(user, id));
      s'.activated == s.activated && s'.rolledBack == s.rolledBack + [id] && s'.displaced == s.displaced
  {
    hide Writes, PutAll;
  }

  /** A call that concerns another user or kind leaves the line alone. */
  lemma ActivateElsewhere(s: State, user: nat, id: nat, userId: nat, kind: Kind)
    requires Good(s) && Remembers(s) && Writes(s, Activate(user, id)) != []
    requires user != userId || s.candidates[id].kind != kind
    ensures Untouched(s, Apply(s, Activate(user, id)), userId, kind)
  {
    var s' := Apply(s, Activate(user, id));
    hide Apply, Writes, AllFollow, Remembers, Good, Untouched, SameStatuses, OfKind, ChangedElsewhere;
    ActivateChanges(s, user, id, userId, kind);
    ApplyFollows(s, Activate(user, id));
    StatusesElsewhere(s.candidates, s'.candidates, userId, kind);
    UntouchedFrom(s, s', userId, kind);
  }

  lemma RollbackElsewhere(s: State, user: nat, id: nat, userId: nat, kind: Kind)
    requires Good(s) && Remembers(s) && Writes(s, Rollback(user, id)) != []
    requires user != userId || s.candidates[id].kind != kind
    ensures Untouched(s, Apply(s, Rollback(user, id)), userId, kind)
  {
    var s' := Apply(s, Rollback(user, id));
    hide Apply, Writes, AllFollow, Remembers, Good, Untouched, SameStatuses, OfKind, ChangedElsewhere;
    RollbackChanges(s, user, id, userId, kind);
    ApplyFollows(s, Rollback(user, id));
    StatusesElsewhere(s.candidates, s'.candidates, userId, kind);
    UntouchedFrom(s, s', userId, kind);
  }

  lemma RollbackEndsLine(s: State, user: nat, id: nat)
    requires Good(s) && Remembers(s) && Writes(s, Rollback(user, id)) != []
    ensures InLine(Apply(s, Rollback(user, id)), user, s.candidates[id].kind)
  {
    hide Good, Apply, Writes, AllFollow, Filed, Restored, Remembers, Lined, Line;
    GoodFiled(s);
    LogsAfter(s, Rollback(user, id));
    RollbackWrites(s, user, id);
    var kind, s' := s.candidates[id].kind, Apply(s, Rollback(user, id));
    ApplyFollows(s, Rollback(user, id));
    FollowsAt(s.candidates, s'.candidates, id);
    FilterAppend(s.rolledBack, id, OfKind(s'.candidates, user, kind));
  }

  lemma FollowsAt(s: Store, s': Store, id: nat)
    requires AllFollow(s, s') && id in s
    ensures id in s' && s'[id].userId == s[id].userId && s'[id].kind == s[id].kind
  {
  }

  /** Nothing but drafts and failures is written, if at all. */
  lemma QuietUntouched(s: State, op: Op, userId: nat, kind: Kind)
    requires Good(s) && Remembers(s) && Improvements.Possible(s, op)
    requires op.Activate? || op.Rollback? ==> Writes(s, op) == []
    ensures Untouched(s, Apply(s, op), userId, kind)
  {
    hide Apply, Writes, Good, Remembers, Untouched, AllFollow, Filter;
    var s' := Apply(s, op);
    ApplyFollows(s, op);
    NoneGone(s.candidates, s'.candidates);
    QuietStatuses(s, op);
    LogsAfter(s, op);
    UntouchedFrom(s, s', userId, kind);
  }

  lemma QuietStatuses(s: State, op: Op)
    requires Good(s) && Improvements.Possible(s, op)
    requires op.Activate? || op.Rollback? ==> Writes(s, op) == []
    ensures var s' := Apply(s, op).candidates;
      && (forall id | id in s' && s'[id].status in {Active, RolledBack} ::
            id in s.candidates && s'[id] == s.candidates[id])
      && (forall id | id in s.candidates && s.candidates[id].status in {Active, RolledBack} ::
            id in s' && s'[id] == s.candidates[id])
  {
    ApplyIs(s, op);
    var writes := Writes(s, op);
    assert |writes| <= 1;
    assert writes != [] ==> writes == [writes[0]];
    if writes != [] {
      PutTwo(s, writes[0], writes[0]);
      if op.EvaluateIt? || op.WorkerEvaluates? {
        ReadyIff(s.candidates[op.id]);
      }
    }
    hide Evaluate, AllEarned, Apply, PutAll;
  }

  lemma StepInLine(s: State, op: Op, userId: nat, kind: Kind)
    requires Good(s) && Remembers(s) && Improvements.Possible(s, op) && InLine(s, userId, kind)
    ensures InLine(Apply(s, op), userId, kind) && Remembers(Apply(s, op))
  {
    StepRemembers(s, op);
    hide Good, Remembers, InLine, Apply, Writes;
    if op.Activate? && Writes(s, op) != [] {
      ActivateIs(s, op.userId, op.id);
      if op.userId == userId && s.candidates[op.id].kind == kind {
        ActivateInLine(s, userId, op.id);
      } else {
        ActivateElsewhere(s, op.userId, op.id, userId, kind);
        UntouchedKeeps(s, Apply(s, op), userId, kind);
      }
    } else if op.Rollback? && Writes(s, op) != [] {
      RollbackWrites(s, op.userId, op.id);
      if op.userId == userId && s.candidates[op.id].kind == kind {
        RollbackEndsLine(s, userId, op.id);
      } else {
        RollbackElsewhere(s, op.userId, op.id, userId, kind);
        UntouchedKeeps(s, Apply(s, op), userId, kind);
      }
    } else {
      QuietUntouched(s, op, userId, kind);
      UntouchedKeeps(s, Apply(s, op), userId, kind);
    }
  }

  lemma StepRemembers(s: State, op: Op)
    requires Good(s) && Remembers(s) && Improvements.Possible(s, op)
    ensures Remembers(Apply(s, op)) && Filed(s)
  {
    hide Good, Apply, Writes, AllFollow, Filed;
    GoodFiled(s);
    ApplyFollows(s, op);
    NoneGone(s.candidates, Apply(s, op).candidates);
    LogsAfter(s, op);
  }

  lemma GoodFiled(s: State)
    requires Good(s)
    ensures Filed(s)
  {
    hide Filed, OneActive, AllEarned;
  }

  lemma NoneGone(s: Store, s': Store)
    requires AllFollow(s, s')
    ensures forall id :: id in s ==> id in s'
  {
    hide Follows;
  }

  /** What an operation adds to the lists of activations and rollbacks. */
  lemma LogsAfter(s: State, op: Op)
    ensures var s', written := Apply(s, op), Writes(s, op) != [];
      && s'.activated == s.activated + (if op.Activate? && written then [op.id] else [])
      && s'.rolledBack == s.rolledBack + (if op.Rollback? && written then [op.id] else [])
      && (!(op.Activate? && written) ==> s'.displaced == s.displaced)
    ensures (op.Activate? || op.Rollback?) && Writes(s, op) != [] ==> op.id in s.candidates
  {
    hide PutAll, GetActive, Prior;
  }

  lemma {:induction false} RunInLine(s: State, ops: seq<Op>, userId: nat, kind: Kind)
    requires Good(s) && Remembers(s) && AllPossible(s, ops) && InLine(s, userId, kind)
    ensures Good(Run(s, ops)) && InLine(Run(s, ops), userId, kind)
    decreases |ops|
  {
    if ops != [] {
      hide Good, Apply, Improvements.Possible, InLine, Remembers;
      ApplyGood(s, ops[0]);
      StepInLine(s, ops[0], userId, kind);
      RunInLine(Apply(s, ops[0]), ops[1..], userId, kind);
    }
  }

  /** The candidates of the kind were activated in the order of their creation, and none was ever rolled back. */
  ghost predicate InOrder(s: State, userId: nat, kind: Kind) {
    && NeverRolledBack(s, userId, kind) && Line(s, userId, kind) != []
    && Created(s.candidates, Line(s, userId, kind))
  }

  ghost predicate Created(s: Store, line: seq<nat>) {
    forall i, j :: 0 <= i < j < |line| ==> Age(s)(line[i]) < Age(s)(line[j])
  }

  function Last(s: State, userId: nat, kind: Kind): nat
    requires Line(s, userId, kind) != []
  {
    var line := Line(s, userId, kind); line[|line| - 1]
  }

  lemma NewestOfLine(s: Store, displaced: map<nat, Option<nat>>, line: seq<nat>, userId: nat, kind: Kind,
                     r: Option<nat>)
    requires Lined(s, displaced, line, userId, kind) && line != [] && Created(s, line)
    requires r.Some? ==> r.value != line[|line| - 1] && IsRolledBack(s, userId, kind, r.value)
    requires forall other :: other != line[|line| - 1] && IsRolledBack(s, userId, kind, other) ==>
               r.Some? && s[other].createdAt <= s[r.value].createdAt
    ensures r == if |line| > 1 then Some(line[|line| - 2]) else None
  {
    if |line| > 1 {
      var before := line[|line| - 2];
      assert before == line[..|line| - 1][|line| - 2];
      assert IsRolledBack(s, userId, kind, before);
      assert IsRolledBack(s, userId, kind, r.value);
      var i :| 0 <= i < |line| - 1 && line[..|line| - 1][i] == r.value;
    }
  }

  lemma LastIsActive(s: State, userId: nat, kind: Kind)
    requires Lined(s.candidates, s.displaced, Line(s, userId, kind), userId, kind) && Line(s, userId, kind) != []
    ensures var line, last := Line(s, userId, kind), Last(s, userId, kind);
      && IsActive(s.candidates, userId, kind, last) && last in s.displaced
      && s.displaced[last] == if |line| > 1 then Some(line[|line| - 2]) else None
  {
    hide Line;
    assert Last(s, userId, kind) == Line(s, userId, kind)[|Line(s, userId, kind)| - 1];
  }

  /** If the candidates of a kind were activated in the order of their creation and none of them was ever rolled
      back, a rollback of the active one restores exactly the one that was active before it. */
  lemma InOrderRestoresPrevious(ops: seq<Op>, userId: nat, kind: Kind)
    requires AllPossible(EMPTY, ops) && InOrder(Run(EMPTY, ops), userId, kind)
    ensures var s := Run(EMPTY, ops); var last := Last(s, userId, kind);
      && IsActive(s.candidates, userId, kind, last) && last in s.displaced
      && Restored(s, last) == s.displaced[last]
      && s.displaced[last] == var line := Line(s, userId, kind); if |line| > 1 then Some(line[|line| - 2]) else None
  {
    var s := Run(EMPTY, ops);
    assert Good(EMPTY) && Remembers(EMPTY) && InLine(EMPTY, userId, kind);
    RunInLine(EMPTY, ops, userId, kind);
    var line, last := Line(s, userId, kind), Last(s, userId, kind);
    assert last == line[|line| - 1];
    hide Run, Restored, Line, AllEarned, OneActive, Lined, Created, Last, IsRolledBack;
    LastIsActive(s, userId, kind);
    RestoredIsNewest(s, last);
    NewestOfLine(s.candidates, s.displaced, line, userId, kind, Restored(s, last));
  }

  // ---------------------------------------------------------------- activation out of order

  ghost predicate Reached(s: State) {
    exists ops :: AllPossible(EMPTY, ops) && Run(EMPTY, ops) == s
  }

  lemma {:induction false} RunsOn(s: State, ops: seq<Op>, op: Op)
    requires AllPossible(s, ops) && Improvements.Possible(Run(s, ops), op)
    ensures AllPossible(s, ops + [op]) && Run(s, ops + [op]) == Apply(Run(s, ops), op)
    decreases |ops|
  {
    hide Apply, Improvements.Possible;
    if ops == [] {
      assert AllPossible(Apply(s, op), []) && Run(Apply(s, op), []) == Apply(s, op);
      assert [op][1..] == [] && ops + [op] == [op];
    } else {
      RunsOn(Apply(s, ops[0]), ops[1..], op);
      assert (ops + [op])[1..] == ops[1..] + [op];
    }
  }

  lemma Goes(s: State, op: Op) returns (s': State)
    requires Reached(s) && Improvements.Possible(s, op)
    ensures Reached(s') && s' == Apply(s, op)
  {
    var ops :| AllPossible(EMPTY, ops) && Run(EMPTY, ops) == s;
    hide Apply, Improvements.Possible;
    RunsOn(EMPTY, ops, op);
    s' := Apply(s, op);
  }

  const TEXT := "xxxxxxxx"

  function Made(id: nat, status: Status): Candidate {
    if status == Draft then Candidate(id, 0, Prompt, "", TEXT, Draft, None, None, id, None)
    else Candidate(id, 0, Prompt, "", TEXT, status, Some(1000), Some(true), id,
                   if status == Ready then None else Some(2))
  }

  lemma {:induction false} PlainUnits(s: string)
    requires forall i :: 0 <= i < |s| ==> s[i] == 'x'
    ensures Units(s) == |s|
  {
    if s != "" {
      PlainUnits(s[..|s| - 1]);
    }
  }

  /** No pattern begins with an x. */
  lemma PatternStarts(i: nat, j: nat)
    requires i < |UNSAFE_PATTERNS|
    ensures UNSAFE_PATTERNS[i] != []
    ensures j < |UNSAFE_PATTERNS[i][0]| ==> UNSAFE_PATTERNS[i][0][j] != "" && UNSAFE_PATTERNS[i][0][j][0] != 'x'
  {
  }

  lemma NoneHere(i: nat, s: string)
    requires i < |UNSAFE_PATTERNS| && forall j :: 0 <= j < |s| ==> s[j] == 'x'
    ensures !MatchesHere(UNSAFE_PATTERNS[i], s)
  {
    hide UNSAFE_PATTERNS;
    PatternStarts(i, 0);
    forall j | 0 <= j < |UNSAFE_PATTERNS[i][0]|
      ensures !(UNSAFE_PATTERNS[i][0][j] <= s)
    {
      PatternStarts(i, j);
    }
  }

  lemma TextSafe(c: Candidate)
    requires c.after == TEXT
    ensures Safe(c)
  {
    hide MatchesHere, UNSAFE_PATTERNS, Safe;
    SafeIff(c);
    forall i, k | 0 <= i < |UNSAFE_PATTERNS| && 0 <= k <= |TEXT|
      ensures !MatchesHere(UNSAFE_PATTERNS[i], Fold(TEXT)[k..])
    {
      NoneHere(i, Fold(TEXT)[k..]);
    }
  }

  lemma TextPasses(id: nat, status: Status)
    ensures Passes(Made(id, status))
  {
    hide Safe;
    PlainUnits(TEXT);
    assert Trim(TEXT) == TEXT && Trim("") == "";
    TextSafe(Made(id, status));
  }

  lemma EvaluatesToReady(id: nat)
    ensures Evaluate(Made(id, Draft)) == Made(id, Ready)
  {
    TextPasses(id, Draft);
    ReadyIff(Made(id, Draft));
    hide Evaluate;
  }

  lemma Creates(s: State, id: nat) returns (s': State)
    requires Reached(s) && id !in s.candidates && s.clock == id
    ensures Reached(s') && s' == Put(s, Made(id, Draft))
  {
    hide Reached;
    var op := Create(0, Prompt, "", TEXT, id);
    s' := Goes(s, op);
    PutTwo(s, Made(id, Draft), Made(id, Draft));
    assert Writes(s, op) == [Made(id, Draft)];
    hide PutAll, Writes;
  }

  lemma Evaluates(s: State, id: nat) returns (s': State)
    requires Reached(s) && id in s.candidates && s.candidates[id] == Made(id, Draft)
    ensures Reached(s') && s' == Put(s, Made(id, Ready))
  {
    hide Reached;
    var op := EvaluateIt(0, id);
    s' := Goes(s, op);
    EvaluatesToReady(id);
    PutTwo(s, Made(id, Ready), Made(id, Ready));
    hide Evaluate;
    assert Writes(s, op) == [Made(id, Ready)];
    hide PutAll, Writes;
  }

  lemma Waits(s: State, to: int) returns (s': State)
    requires Reached(s) && to > s.clock
    ensures Reached(s') && s' == s.(clock := to)
  {
    hide Reached, PutAll, Writes;
    s' := Goes(s, Tick(to));
  }

  /** Nothing activated or rolled back so far. */
  ghost predicate ThreeNew(s: State, candidates: Store) {
    && s.clock == 2 && s.order == [0, 1, 2] && s.candidates == candidates
    && s.activated == [] && s.rolledBack == [] && s.displaced == map[]
  }

  lemma StartReached()
    ensures Reached(EMPTY)
  {
    assert AllPossible(EMPTY, []) && Run(EMPTY, []) == EMPTY;
  }

  lemma ThreeDrafts() returns (s: State)
    ensures Reached(s) && ThreeNew(s, map[0 := Made(0, Draft), 1 := Made(1, Draft), 2 := Made(2, Draft)])
  {
    hide Reached;
    StartReached();
    s := Creates(EMPTY, 0);
    s := Waits(s, 1);
    s := Creates(s, 1);
    s := Waits(s, 2);
    s := Creates(s, 2);
  }

  /** Three candidates of one kind, created one after the other, all ready. */
  lemma ThreeReady() returns (s: State)
    ensures Reached(s) && ThreeNew(s, map[0 := Made(0, Ready), 1 := Made(1, Ready), 2 := Made(2, Ready)])
  {
    hide Reached;
    s := ThreeDrafts();
    s := Evaluates(s, 0);
    s := Evaluates(s, 1);
    s := Evaluates(s, 2);
  }

  lemma Activates(s: State, id: nat, previous: Option<nat>) returns (s': State)
    requires Reached(s) && Filed(s) && id in s.candidates && s.candidates[id] == Made(id, Ready) && s.clock == 2
    requires GetActive(s.candidates, s.order, 0, Prompt) == previous
    ensures Reached(s') && s'.clock == 2 && s'.order == s.order && s'.displaced == s.displaced[id := previous]
    ensures previous.Some? ==> previous.value in s.candidates
    ensures s'.candidates
         == (if previous.None? then s.candidates
             else s.candidates[previous.value := s.candidates[previous.value].(status := RolledBack)])
            [id := Made(id, Active)]
  {
    hide Reached, GetActive;
    var op := Activate(0, id);
    s' := Goes(s, op);
    assert Writes(s, op) != [];
    hide Apply, Writes;
    ActivateIs(s, 0, id);
  }

  /** "Rollback restores the previous active version" does not hold: of three candidates activated as newest, oldest,
      middle, rolling back the last restores the newest, not the oldest that was active before. */
  lemma RollbackMissesPrevious() returns (s: State)
    ensures Reached(s) && Owns(s.candidates, 0, 1) && s.candidates[1].status == Active
    ensures 1 in s.displaced && s.displaced[1] == Some(0) && Restored(s, 1) == Some(2)
  {
    hide Reached, GetActive, Restored;
    s := TwoActivated();
    OnlyActive(s, Some(0));
    s := Activates(s, 1, Some(0));
    NewestOfThree(s);
  }

  lemma NewestOfThree(s: State)
    requires s.order == [0, 1, 2]
    requires s.candidates == map[0 := Made(0, RolledBack), 1 := Made(1, Active), 2 := Made(2, RolledBack)]
    ensures Restored(s, 1) == Some(2)
  {
    hide Restored, Filed, DistinctTimes, NewestAway;
    ThreeFiled(s);
    SecondAway(s.candidates);
    RestoredIff(s, 1, 2);
  }

  lemma ThreeFiled(s: State)
    requires s.order == [0, 1, 2] && s.candidates.Keys == {0, 1, 2}
    requires forall id :: id in s.candidates ==> s.candidates[id].id == id && s.candidates[id].createdAt == id
    ensures Filed(s) && DistinctTimes(s.candidates)
  {
  }

  lemma SecondAway(s: Store)
    requires s == map[0 := Made(0, RolledBack), 1 := Made(1, Active), 2 := Made(2, RolledBack)]
    ensures NewestAway(s, s[1], 2)
  {
  }

  lemma TwoActivated() returns (s: State)
    ensures Reached(s) && s.clock == 2 && s.order == [0, 1, 2]
    ensures s.candidates == map[0 := Made(0, Active), 1 := Made(1, Ready), 2 := Made(2, RolledBack)]
  {
    hide Reached, GetActive, Filed, IsActive;
    s := OneActivated();
    ThreeFiled(s);
    ActiveAmong(s.candidates, 2);
    OnlyActive(s, Some(2));
    s := Activates(s, 0, Some(2));
  }

  lemma OneActivated() returns (s: State)
    ensures Reached(s) && s.clock == 2 && s.order == [0, 1, 2]
    ensures s.candidates == map[0 := Made(0, Ready), 1 := Made(1, Ready), 2 := Made(2, Active)]
  {
    hide Reached, GetActive, Filed, IsActive;
    s := ThreeReady();
    ThreeFiled(s);
    NoneActive(s.candidates);
    OnlyActive(s, None);
    s := Activates(s, 2, None);
  }

  lemma NoneActive(s: Store)
    requires forall id :: id in s ==> s[id].status != Active
    ensures forall id :: !IsActive(s, 0, Prompt, id)
  {
  }

  lemma ActiveAmong(s: Store, a: nat)
    requires a in s && s[a] == Made(a, Active) && forall id :: id in s && id != a ==> s[id].status != Active
    ensures forall id :: IsActive(s, 0, Prompt, id) <==> id == a
  {
  }

  lemma OnlyActive(s: State, active: Option<nat>)
    requires Filed(s)
    requires match active
      case None => forall id :: !IsActive(s.candidates, 0, Prompt, id)
      case Some(a) => forall id :: IsActive(s.candidates, 0, Prompt, id) <==> id == a
    ensures GetActive(s.candidates, s.order, 0, Prompt) == active
  {
    ActiveIs(s, 0, Prompt);
    if active.Some? {
      assert IsActive(s.candidates, 0, Prompt, active.value);
    }
  }
}
