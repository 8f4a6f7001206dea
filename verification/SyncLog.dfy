/** The version log of the file synchronisation: every version is kept, and one that does not build on the newest
    version of its path is marked as a conflict. */
module SyncLog {
  import opened Wrappers
  import opened Protocol
  import opened Ordering
  import opened PathText

  datatype Root = Root(userId: Id, deviceId: Id)

  /** What a version is of: the user, the sync root and the path in it. */
  datatype Place = Place(userId: Id, rootId: Id, path: string)

  datatype Version = Version(
    id: Id, place: Place, deviceId: Id, base: Option<Id>, deleted: bool, conflict: bool, createdAt: Instant)

  /** `order` lists the versions as they were registered. */
  datatype State = State(
    clock: Instant, devices: map<Id, Device>, roots: map<Id, Root>, versions: map<Id, Version>, order: seq<Id>)

  datatype Op =
    | Tick(to: Instant)
    | CreateRoot(userId: Id, deviceId: Id, id: Id)
    | Register(place: Place, deviceId: Id, base: Option<Id>, deleted: bool, id: Id)

  function At(versions: map<Id, Version>, place: Place): Id -> bool {
    (id: Id) => id in versions && versions[id].place == place
  }

  function Age(versions: map<Id, Version>): Id -> int {
    (id: Id) => if id in versions then versions[id].createdAt else 0
  }

  /** The versions of a place in the order in which they were registered. */
  function Chain(s: State, place: Place): seq<Id> {
    Filter(s.order, At(s.versions, place))
  }

  /** The first of the versions, sorted newest first. */
  function HeadOf(versions: map<Id, Version>, chain: seq<Id>): Option<Id> {
    var sorted := NewestFirst(chain, Age(versions));
    if sorted == [] then None else Some(sorted[0])
  }

  function Head(s: State, place: Place): Option<Id> {
    HeadOf(s.versions, Chain(s, place))
  }

  predicate Executor(s: State, userId: Id, deviceId: Id) {
    deviceId in s.devices && s.devices[deviceId].userId == userId && s.devices[deviceId].kind == ExecutorDevice
  }

  function Admission(s: State, place: Place, deviceId: Id): Reply<()> {
    if place.rootId !in s.roots || s.roots[place.rootId].userId != place.userId then Refused(NotFound)
    else if !Executor(s, place.userId, deviceId) then Refused(NotFound)
    else if s.roots[place.rootId].deviceId != deviceId then Refused(BadRequest)
    else if !SyncAccepts(place.path) then Refused(BadRequest)
    else Ok(())
  }

  /** The version as it is stored: a conflict just if there is a head and it is not the base. */
  function NewVersion(s: State, place: Place, deviceId: Id, base: Option<Id>, deleted: bool, id: Id): Version {
    var head := Head(s, place);
    Version(id, place, deviceId, base, deleted, head.Some? && head != base, s.clock)
  }

  function Put(s: State, v: Version): State {
    s.(versions := s.versions[v.id := v], order := if v.id in s.versions then s.order else s.order + [v.id])
  }

  function Apply(s: State, op: Op): (State, Reply<()>) {
    match op
    case Tick(to) => (s.(clock := if to > s.clock then to else s.clock), Ok(()))
    case CreateRoot(userId, deviceId, id) =>
      if !Executor(s, userId, deviceId) then (s, Refused(NotFound))
      else (s.(roots := s.roots[id := Root(userId, deviceId)]), Ok(()))
    case Register(place, deviceId, base, deleted, id) =>
      var admitted := Admission(s, place, deviceId);
      if admitted.Refused? then (s, admitted)
      else (Put(s, NewVersion(s, place, deviceId, base, deleted, id)), Ok(()))
  }

  /** A drawn identifier is new: no version has it and none names it as its base, the one being registered included. */
  predicate Possible(s: State, op: Op) {
    match op
    case CreateRoot(_, _, id) => id !in s.roots
    case Register(_, _, base, _, id) =>
      id !in s.versions && base != Some(id) && forall i :: i in s.versions ==> s.versions[i].base != Some(id)
    case _ => true
  }

  // ---------------------------------------------------------------- the invariant

  predicate Increasing(versions: map<Id, Version>, ids: seq<Id>) {
    forall i, j :: 0 <= i < j < |ids| ==> Age(versions)(ids[i]) < Age(versions)(ids[j])
  }

  predicate NotDecreasing(versions: map<Id, Version>, ids: seq<Id>) {
    forall i, j :: 0 <= i < j < |ids| ==> Age(versions)(ids[i]) <= Age(versions)(ids[j])
  }

  /** The log is filed in order of time, and no version is based on itself or on one registered after it. */
  ghost predicate Filed(s: State) {
    && Distinct(s.order) && NotDecreasing(s.versions, s.order)
    && (forall id :: id in s.order <==> id in s.versions)
    && (forall id :: id in s.versions ==> s.versions[id].id == id && s.versions[id].createdAt <= s.clock)
    && (forall i, j | 0 <= i <= j < |s.order| ::
          s.order[i] in s.versions ==> s.versions[s.order[i]].base != Some(s.order[j]))
  }

  /** Every version was marked by what was the head when it came. */
  ghost predicate Marked(s: State) {
    forall place, k :: 0 <= k < |Chain(s, place)| ==> MarkedAt(s, Chain(s, place), k)
  }

  ghost predicate MarkedAt(s: State, chain: seq<Id>, k: nat)
    requires k < |chain|
  {
    chain[k] in s.versions
    && (!s.versions[chain[k]].conflict <==>
          k == 0 || s.versions[chain[k]].base == HeadOf(s.versions, chain[..k]))
  }

  /** Every root is on an executor of its user, and every version in a root of its user, on the device of that root,
      under a path that this executor accepts. */
  ghost predicate Placed(s: State) {
    && (forall id :: id in s.roots ==> Executor(s, s.roots[id].userId, s.roots[id].deviceId))
    && forall id :: id in s.versions ==> InItsRoot(s.roots, s.versions[id])
  }

  ghost predicate InItsRoot(roots: map<Id, Root>, v: Version) {
    && v.place.rootId in roots && roots[v.place.rootId] == Root(v.place.userId, v.deviceId)
    && ValidRelative(v.place.path)
  }

  ghost predicate Good(s: State) {
    Filed(s) && Marked(s) && Placed(s)
  }

  ghost predicate Keeps(s: State, s': State) {
    && (forall id :: id in s.versions ==> id in s'.versions && s'.versions[id] == s.versions[id])
    && forall id :: id in s.roots ==> id in s'.roots && s'.roots[id] == s.roots[id]
  }

  // ---------------------------------------------------------------- one registration

  lemma HeadOfKept(versions: map<Id, Version>, versions': map<Id, Version>, chain: seq<Id>)
    requires forall id :: id in chain ==> id in versions && id in versions' && versions'[id] == versions[id]
    ensures HeadOf(versions', chain) == HeadOf(versions, chain)
  {
    NewestFirstSame(chain, Age(versions'), Age(versions));
  }

  lemma ChainGrows(s: State, v: Version, place: Place)
    requires Filed(s) && v.id !in s.versions
    ensures Chain(Put(s, v), place) == Chain(s, place) + if v.place == place then [v.id] else []
  {
    var s' := Put(s, v);
    FilterAppend(s.order, v.id, At(s'.versions, place));
    FilterSame(s.order, At(s'.versions, place), At(s.versions, place));
  }

  lemma RegisterFiled(s: State, v: Version)
    requires Filed(s) && v.id !in s.versions && v.createdAt == s.clock && v.base != Some(v.id)
    requires forall i :: i in s.versions ==> s.versions[i].base != Some(v.id)
    ensures Filed(Put(s, v))
  {
    var s' := Put(s, v);
    assert v.id !in s.order && s'.order == s.order + [v.id];
    forall i, j | 0 <= i <= j < |s'.order|
      ensures s'.versions[s'.order[i]].base != Some(s'.order[j])
      ensures i < j ==> s'.order[i] != s'.order[j] && Age(s'.versions)(s'.order[i]) <= Age(s'.versions)(s'.order[j])
    {
      if j < |s.order| {
        assert s.order[i] in s.order && s.order[j] in s.order;
      } else {
        assert i < |s.order| ==> s.order[i] in s.order;
      }
    }
  }

  lemma ChainKnown(s: State, place: Place)
    ensures forall id :: id in Chain(s, place) ==> id in s.versions
  {
  }

  lemma PutKeeps(s: State, v: Version)
    requires v.id !in s.versions
    ensures v.id in Put(s, v).versions && Put(s, v).versions[v.id] == v
    ensures forall id :: id in s.versions ==> id in Put(s, v).versions && Put(s, v).versions[id] == s.versions[id]
  {
  }

  lemma RegisterMarkedOld(s: State, v: Version, p: Place, k: nat)
    requires Good(s) && v.id !in s.versions && k < |Chain(s, p)|
    ensures k < |Chain(Put(s, v), p)| && MarkedAt(Put(s, v), Chain(Put(s, v), p), k)
  {
    ChainGrows(s, v, p);
    assert MarkedAt(s, Chain(s, p), k);
    hide HeadOf, Chain, Good, Put, MarkedAt;
    ChainKnown(s, p);
    PutKeeps(s, v);
    OldMark(s, Put(s, v), Chain(s, p), Chain(Put(s, v), p), k);
  }

  lemma RegisterMarkedNew(s: State, v: Version)
    requires Good(s) && v.id !in s.versions
    requires !v.conflict <==> Chain(s, v.place) == [] || v.base == HeadOf(s.versions, Chain(s, v.place))
    ensures var chain := Chain(Put(s, v), v.place);
      |chain| == |Chain(s, v.place)| + 1 && MarkedAt(Put(s, v), chain, |chain| - 1)
  {
    ChainGrows(s, v, v.place);
    hide HeadOf, Chain, Good, Put, MarkedAt;
    ChainKnown(s, v.place);
    PutKeeps(s, v);
    NewMark(s, Put(s, v), Chain(s, v.place), v);
  }

  lemma RegisterMarkedAt(s: State, v: Version, p: Place, k: nat)
    requires Good(s) && v.id !in s.versions && k < |Chain(Put(s, v), p)|
    requires !v.conflict <==> Chain(s, v.place) == [] || v.base == HeadOf(s.versions, Chain(s, v.place))
    ensures MarkedAt(Put(s, v), Chain(Put(s, v), p), k)
  {
    hide *;
    ChainLength(s, v, p);
    if k < |Chain(s, p)| {
      RegisterMarkedOld(s, v, p, k);
    } else {
      RegisterMarkedNew(s, v);
    }
  }

  lemma ChainLength(s: State, v: Version, p: Place)
    requires Good(s) && v.id !in s.versions
    ensures |Chain(Put(s, v), p)| == |Chain(s, p)| + if v.place == p then 1 else 0
  {
    ChainGrows(s, v, p);
  }

  lemma RegisterMarked(s: State, v: Version)
    requires Good(s) && v.id !in s.versions
    requires !v.conflict <==> Chain(s, v.place) == [] || v.base == HeadOf(s.versions, Chain(s, v.place))
    ensures Marked(Put(s, v))
  {
    hide HeadOf, Chain, Good, MarkedAt, Put;
    forall p, k | 0 <= k < |Chain(Put(s, v), p)|
      ensures MarkedAt(Put(s, v), Chain(Put(s, v), p), k)
    {
      RegisterMarkedAt(s, v, p, k);
    }
  }

  lemma OldMark(s: State, s': State, chain: seq<Id>, chain': seq<Id>, k: nat)
    requires k < |chain| <= |chain'| && chain'[..|chain|] == chain && MarkedAt(s, chain, k)
    requires forall id :: id in chain ==> id in s.versions && id in s'.versions && s'.versions[id] == s.versions[id]
    ensures MarkedAt(s', chain', k)
  {
    assert chain'[..k] == chain[..k] && chain'[k] == chain'[..|chain|][k];
    HeadOfKept(s.versions, s'.versions, chain[..k]);
    hide HeadOf;
  }

  lemma NewMark(s: State, s': State, chain: seq<Id>, v: Version)
    requires v.id in s'.versions && s'.versions[v.id] == v
    requires forall id :: id in chain ==> id in s.versions && id in s'.versions && s'.versions[id] == s.versions[id]
    requires !v.conflict <==> chain == [] || v.base == HeadOf(s.versions, chain)
    ensures MarkedAt(s', chain + [v.id], |chain|)
  {
    assert (chain + [v.id])[..|chain|] == chain;
    HeadOfKept(s.versions, s'.versions, chain);
    hide HeadOf;
  }

  lemma HeadOfEmpty(versions: map<Id, Version>, chain: seq<Id>)
    ensures HeadOf(versions, chain).None? <==> chain == []
  {
    NewestFirstSorts(chain, Age(versions));
    assert multiset(chain) == multiset(NewestFirst(chain, Age(versions)));
  }

  // ---------------------------------------------------------------- runs

  lemma RegisterPlaced(s: State, v: Version)
    requires Placed(s) && Admission(s, v.place, v.deviceId).Ok?
    ensures Placed(Put(s, v))
  {
    SyncPathsAreValid(v.place.path);
    hide SyncAccepts, ValidRelative;
  }

  lemma RegisterGood(s: State, place: Place, deviceId: Id, base: Option<Id>, deleted: bool, id: Id)
    requires Good(s) && Possible(s, Register(place, deviceId, base, deleted, id)) && Admission(s, place, deviceId).Ok?
    ensures var s' := Put(s, NewVersion(s, place, deviceId, base, deleted, id)); Good(s') && Keeps(s, s')
  {
    var v := NewVersion(s, place, deviceId, base, deleted, id);
    HeadOfEmpty(s.versions, Chain(s, place));
    hide Chain, HeadOf, Marked, Placed, Admission;
    RegisterFiled(s, v);
    RegisterMarked(s, v);
    RegisterPlaced(s, v);
    hide Filed;
  }

  /** Everything but registering leaves the log as it is. */
  lemma ElseGood(s: State, s': State)
    requires Good(s) && s'.versions == s.versions && s'.order == s.order && s'.clock >= s.clock
    requires Placed(s') && Keeps(s, s')
    ensures Good(s')
  {
    hide MarkedAt, Placed;
    forall place, k | 0 <= k < |Chain(s', place)|
      ensures MarkedAt(s', Chain(s', place), k)
    {
      assert Chain(s', place) == Chain(s, place) && MarkedAt(s, Chain(s, place), k);
      SameMark(s, s', Chain(s, place), k);
    }
  }

  lemma SameMark(s: State, s': State, chain: seq<Id>, k: nat)
    requires k < |chain| && MarkedAt(s, chain, k) && s'.versions == s.versions
    ensures MarkedAt(s', chain, k)
  {
    hide HeadOf;
  }

  lemma ElsePlaced(s: State, op: Op)
    requires Placed(s) && Possible(s, op) && (op.Register? ==> Admission(s, op.place, op.deviceId).Refused?)
    ensures Placed(Apply(s, op).0) && Keeps(s, Apply(s, op).0)
  {
    hide ValidRelative, Admission;
  }

  lemma StepGood(s: State, op: Op)
    requires Good(s) && Possible(s, op)
    ensures Good(Apply(s, op).0) && Keeps(s, Apply(s, op).0)
  {
    if op.Register? && Admission(s, op.place, op.deviceId).Ok? {
      hide Good, Keeps, NewVersion, Admission, Possible;
      RegisterGood(s, op.place, op.deviceId, op.base, op.deleted, op.id);
    } else {
      hide Filed, Marked, Placed, Keeps, NewVersion, Admission, Possible;
      ElsePlaced(s, op);
      ElseGood(s, Apply(s, op).0);
    }
  }

  /** When a registration is accepted, in what order it is refused, and what is stored. */
  lemma RegisterAnswers(s: State, place: Place, deviceId: Id, base: Option<Id>, deleted: bool, id: Id)
    requires id !in s.versions
    ensures var ((s', reply), root, device) := (Apply(s, Register(place, deviceId, base, deleted, id)),
                                                Lookup(s.roots, place.rootId), Lookup(s.devices, deviceId));
      var found := root.Some? && root.value.userId == place.userId
                   && device.Some? && device.value.userId == place.userId && device.value.kind == ExecutorDevice;
      && (reply == Refused(NotFound) <==> !found)
      && (reply.Ok? <==> && found && root.value.deviceId == deviceId
                         && !(place.path != "" && place.path[0] == '/')
                         && forall i: nat :: !ClimbsAt(place.path, i))
      && (reply.Refused? ==> s' == s && reply.reason in {NotFound, BadRequest})
      && (reply.Ok? ==>
            && s'.order == s.order + [id] && s'.roots == s.roots && s'.devices == s.devices && s'.clock == s.clock
            && s'.versions.Keys == s.versions.Keys + {id}
            && var v := s'.versions[id];
               && v.id == id && v.place == place && v.deviceId == deviceId && v.base == base
               && v.deleted == deleted && v.createdAt == s.clock
               && (v.conflict <==> Head(s, place).Some? && Head(s, place) != base))
  {
    SyncAcceptsIff(place.path);
    hide SyncAccepts, Head, ClimbsAt;
  }

  /** A root is created just for an executor of the user, and says whose it is and where. */
  lemma CreateRootAnswers(s: State, userId: Id, deviceId: Id, id: Id)
    ensures var ((s', reply), device) := (Apply(s, CreateRoot(userId, deviceId, id)), Lookup(s.devices, deviceId));
      && (reply.Ok? <==> device.Some? && device.value.userId == userId && device.value.kind == ExecutorDevice)
      && (reply.Refused? ==> s' == s && reply.reason == NotFound)
      && (reply.Ok? ==> s'.roots.Keys == s.roots.Keys + {id} && s'.roots[id].userId == userId
                        && s'.roots[id].deviceId == deviceId && s' == s.(roots := s'.roots)
                        && forall i :: i in s.roots && i != id ==> s'.roots[i] == s.roots[i])
  {
    var device := Lookup(s.devices, deviceId);
    assert Executor(s, userId, deviceId)
      <==> device.Some? && device.value.userId == userId && device.value.kind == ExecutorDevice;
  }

  function Run(s: State, ops: seq<Op>): State
    decreases |ops|
  {
    if ops == [] then s else Run(Apply(s, ops[0]).0, ops[1..])
  }

  predicate AllPossible(s: State, ops: seq<Op>)
    decreases |ops|
  {
    ops == [] || (Possible(s, ops[0]) && AllPossible(Apply(s, ops[0]).0, ops[1..]))
  }

  /** Versions are never lost nor altered, whatever is registered later. */
  lemma {:induction false} RunKeeps(s: State, ops: seq<Op>)
    requires Good(s) && AllPossible(s, ops)
    ensures Good(Run(s, ops)) && Keeps(s, Run(s, ops))
    decreases |ops|
  {
    if ops != [] {
      hide Good, Apply, Possible;
      StepGood(s, ops[0]);
      RunKeeps(Apply(s, ops[0]).0, ops[1..]);
    }
  }

  lemma StartGood(devices: map<Id, Device>)
    ensures Good(State(0, devices, map[], map[], []))
  {
  }

  // ---------------------------------------------------------------- the chain of a place

  lemma {:induction false} FilterNotDecreasing(versions: map<Id, Version>, ids: seq<Id>, p: Id -> bool)
    requires NotDecreasing(versions, ids)
    ensures NotDecreasing(versions, Filter(ids, p))
  {
    if ids != [] {
      FilterNotDecreasing(versions, ids[..|ids| - 1], p);
      forall x | x in Filter(ids[..|ids| - 1], p)
        ensures Age(versions)(x) <= Age(versions)(ids[|ids| - 1])
      {
        var i :| 0 <= i < |ids| - 1 && ids[i] == x;
      }
    }
  }

  lemma ChainOrdered(s: State, place: Place)
    requires Filed(s)
    ensures Distinct(Chain(s, place)) && NotDecreasing(s.versions, Chain(s, place))
    ensures forall id :: id in Chain(s, place) <==> id in s.versions && s.versions[id].place == place
  {
    FilterDistinct(s.order, At(s.versions, place));
    FilterNotDecreasing(s.versions, s.order, At(s.versions, place));
  }

  /** Sorting newest first and stably: the head is the first of the versions of the latest instant. */
  lemma {:induction false} HeadIs(versions: map<Id, Version>, chain: seq<Id>)
    requires chain != [] && NotDecreasing(versions, chain)
    ensures HeadOf(versions, chain).Some?
    ensures exists k :: 0 <= k < |chain| && HeadOf(versions, chain) == Some(chain[k])
              && Age(versions)(chain[k]) == Age(versions)(chain[|chain| - 1])
              && forall j :: 0 <= j < k ==> Age(versions)(chain[j]) < Age(versions)(chain[k])
  {
    var any: Id -> bool := (id: Id) => true;
    var sorted := NewestFirst(chain, Age(versions));
    FirstOfNewestFirst(chain, any, Age(versions));
    HeadOfEmpty(versions, chain);
    assert FindFirst(sorted, any) == Some(sorted[0]);
    NewestWhere(versions, chain, any);
  }

  lemma {:induction false} NewestWhere(versions: map<Id, Version>, chain: seq<Id>, any: Id -> bool)
    requires chain != [] && NotDecreasing(versions, chain) && forall id :: any(id)
    ensures exists k :: 0 <= k < |chain| && Newest(chain, any, Age(versions)) == Some(chain[k])
              && Age(versions)(chain[k]) == Age(versions)(chain[|chain| - 1])
              && forall j :: 0 <= j < k ==> Age(versions)(chain[j]) < Age(versions)(chain[k])
  {
    var n := |chain| - 1;
    var front := chain[..n];
    if front == [] {
      assert Newest(chain, any, Age(versions)) == Some(chain[0]);
    } else {
      assert forall j :: 0 <= j < n ==> front[j] == chain[j];
      NewestWhere(versions, front, any);
      var k :| 0 <= k < |front| && Newest(front, any, Age(versions)) == Some(front[k])
        && Age(versions)(front[k]) == Age(versions)(front[|front| - 1])
        && forall j :: 0 <= j < k ==> Age(versions)(front[j]) < Age(versions)(front[k]);
      var best := if Age(versions)(chain[k]) < Age(versions)(chain[n]) then n else k;
      assert Newest(chain, any, Age(versions)) == Some(chain[best]);
      hide Newest;
    }
  }

  /** The head is the version registered last exactly if its time is later than that of the one before it. */
  lemma HeadIsLastIff(versions: map<Id, Version>, chain: seq<Id>)
    requires chain != [] && NotDecreasing(versions, chain) && Distinct(chain)
    ensures HeadOf(versions, chain) == Some(chain[|chain| - 1]) <==>
              |chain| == 1 || Age(versions)(chain[|chain| - 2]) < Age(versions)(chain[|chain| - 1])
  {
    HeadIs(versions, chain);
    hide HeadOf;
    var k :| 0 <= k < |chain| && HeadOf(versions, chain) == Some(chain[k])
      && Age(versions)(chain[k]) == Age(versions)(chain[|chain| - 1])
      && forall j :: 0 <= j < k ==> Age(versions)(chain[j]) < Age(versions)(chain[k]);
    assert chain[k] == chain[|chain| - 1] ==> k == |chain| - 1;
    assert k < |chain| - 2 ==> Age(versions)(chain[k]) <= Age(versions)(chain[|chain| - 2]);
  }

  lemma GoodMeans(s: State, place: Place, k: nat)
    requires Good(s) && k < |Chain(s, place)|
    ensures MarkedAt(s, Chain(s, place), k) && Distinct(Chain(s, place))
  {
    hide HeadOf, Chain, MarkedAt;
    ChainOrdered(s, place);
  }

  lemma DistinctFront(ids: seq<Id>, k: nat)
    requires Distinct(ids) && k <= |ids|
    ensures Distinct(ids[..k])
  {
  }

  /** With strictly increasing times, a version is no conflict exactly if it is the first of its place or builds on
      the version registered there immediately before it. */
  lemma NoConflictIff(s: State, place: Place, k: nat)
    requires Good(s) && k < |Chain(s, place)| && Increasing(s.versions, Chain(s, place))
    ensures Chain(s, place)[k] in s.versions
    ensures !s.versions[Chain(s, place)[k]].conflict <==>
              k == 0 || s.versions[Chain(s, place)[k]].base == Some(Chain(s, place)[k - 1])
  {
    hide HeadOf, Filed, Chain, Marked, Distinct;
    var chain := Chain(s, place);
    GoodMeans(s, place, k);
    if k > 0 {
      DistinctFront(chain, k);
      HeadIsLastIff(s.versions, chain[..k]);
    }
  }

  lemma {:induction false} FilterFirst(ids: seq<Id>, p: Id -> bool) returns (i: nat)
    requires Filter(ids, p) != []
    ensures i < |ids| && ids[i] == Filter(ids, p)[0]
    ensures forall j :: 0 <= j < i ==> !p(ids[j])
  {
    hide Filter;
    var front := ids[..|ids| - 1];
    assert ids == front + [ids[|ids| - 1]];
    FilterAppend(front, ids[|ids| - 1], p);
    if Filter(front, p) == [] {
      i := |ids| - 1;
      FilterNone(front, p);
      assert forall j :: 0 <= j < i ==> ids[j] == front[j];
    } else {
      i := FilterFirst(front, p);
      assert forall j :: 0 <= j <= i ==> ids[j] == front[j];
    }
  }

  lemma {:induction false} FilterNone(ids: seq<Id>, p: Id -> bool)
    requires Filter(ids, p) == []
    ensures forall j :: 0 <= j < |ids| ==> !p(ids[j])
  {
    if ids != [] {
      FilterNone(ids[..|ids| - 1], p);
    }
  }

  /** The first version of a place is not based on any version of that place. */
  lemma FirstIsNoChild(s: State, place: Place, x: Id)
    requires Filed(s) && Chain(s, place) != [] && Chain(s, place)[0] in s.versions
    requires s.versions[Chain(s, place)[0]].base == Some(x)
    ensures x !in Chain(s, place)
  {
    var i := FilterFirst(s.order, At(s.versions, place));
    ChainOrdered(s, place);
    forall j | 0 <= j < |s.order| && At(s.versions, place)(s.order[j])
      ensures s.order[j] != x
    {
      assert i <= j && s.versions[s.order[i]].base == Some(x);
    }
  }

  /** A version that is the head stays the head just as long as no version of a later instant follows. */
  lemma HeadStaysIff(versions: map<Id, Version>, chain: seq<Id>, x: Id, a: nat, b: nat)
    requires NotDecreasing(versions, chain) && 0 < a <= b <= |chain| && HeadOf(versions, chain[..a]) == Some(x)
    ensures HeadOf(versions, chain[..b]) == Some(x) <==> Age(versions)(chain[b - 1]) == Age(versions)(x)
  {
    hide HeadOf;
    var i := HeadAt(versions, chain[..a]);
    var j := HeadAt(versions, chain[..b]);
    assert chain[i] == x && Age(versions)(chain[j]) == Age(versions)(chain[b - 1]);
    assert Age(versions)(chain[i]) <= Age(versions)(chain[b - 1]);
    assert i <= j;
    assert i < j ==> Age(versions)(chain[..b][i]) < Age(versions)(chain[..b][j]);
  }

  lemma HeadAt(versions: map<Id, Version>, chain: seq<Id>) returns (k: nat)
    requires chain != [] && NotDecreasing(versions, chain)
    ensures k < |chain| && HeadOf(versions, chain) == Some(chain[k])
    ensures Age(versions)(chain[k]) == Age(versions)(chain[|chain| - 1])
    ensures forall j :: 0 <= j < k ==> Age(versions)(chain[j]) < Age(versions)(chain[k])
  {
    HeadIs(versions, chain);
    hide HeadOf;
    k :| 0 <= k < |chain| && HeadOf(versions, chain) == Some(chain[k])
      && Age(versions)(chain[k]) == Age(versions)(chain[|chain| - 1])
      && forall j :: 0 <= j < k ==> Age(versions)(chain[j]) < Age(versions)(chain[k]);
  }

  lemma HeadWithin(versions: map<Id, Version>, chain: seq<Id>)
    requires chain != [] && NotDecreasing(versions, chain)
    ensures HeadOf(versions, chain).Some? && HeadOf(versions, chain).value in chain
  {
    hide HeadOf;
    var k := HeadAt(versions, chain);
  }

  /** Where a version built on `x` is already stored without conflict, at place `a` of the chain: whether `x` is the
      head of the first `b` versions, so that one built on it then is no conflict either. */
  lemma StillHeadIff(s: State, place: Place, x: Id, a: nat, b: nat)
    requires Good(s) && a < b <= |Chain(s, place)| && Chain(s, place)[a] in s.versions
    requires s.versions[Chain(s, place)[a]].base == Some(x) && !s.versions[Chain(s, place)[a]].conflict
    ensures HeadOf(s.versions, Chain(s, place)[..b]) == Some(x) <==>
              a > 0 && Age(s.versions)(Chain(s, place)[b - 1]) == Age(s.versions)(x)
  {
    var chain := Chain(s, place);
    assert MarkedAt(s, chain, a);
    ChainOrdered(s, place);
    if a == 0 {
      FirstIsNoChild(s, place, x);
      hide HeadOf, Chain, Filed;
      HeadWithin(s.versions, chain[..b]);
    } else {
      hide HeadOf, Chain, Filed;
      HeadStaysIff(s.versions, chain, x, a, b);
    }
  }

  /** Exactly when a base has two children without conflict: given one, another version built on the same base is no
      conflict just if the base is a version of the place and none later in time had been registered there before. */
  lemma SecondChildIff(s: State, place: Place, a: nat, b: nat)
    requires Good(s) && a < b < |Chain(s, place)|
    requires forall k :: 0 <= k < |Chain(s, place)| ==> Chain(s, place)[k] in s.versions
    requires s.versions[Chain(s, place)[a]].base.Some? && !s.versions[Chain(s, place)[a]].conflict
    requires s.versions[Chain(s, place)[b]].base == s.versions[Chain(s, place)[a]].base
    ensures !s.versions[Chain(s, place)[b]].conflict <==>
              a > 0 && Age(s.versions)(Chain(s, place)[b - 1])
                       == Age(s.versions)(s.versions[Chain(s, place)[a]].base.value)
  {
    assert MarkedAt(s, Chain(s, place), b);
    StillHeadIff(s, place, s.versions[Chain(s, place)[a]].base.value, a, b);
    hide HeadOf, Good, Chain;
  }

  lemma NewConflict(s: State, place: Place, deviceId: Id, base: Option<Id>, deleted: bool, id: Id)
    requires Chain(s, place) != []
    ensures NewVersion(s, place, deviceId, base, deleted, id).conflict <==>
              HeadOf(s.versions, Chain(s, place)) != base
  {
    HeadOfEmpty(s.versions, Chain(s, place));
    hide HeadOf, Chain;
  }

  /** The same before registering: the caller can tell from the version registered last. */
  lemma AnotherChildIff(s: State, place: Place, deviceId: Id, deleted: bool, id: Id, x: Id, a: nat)
    requires Good(s) && a < |Chain(s, place)| && Chain(s, place)[a] in s.versions
    requires s.versions[Chain(s, place)[a]].base == Some(x) && !s.versions[Chain(s, place)[a]].conflict
    ensures !NewVersion(s, place, deviceId, Some(x), deleted, id).conflict <==>
              a > 0 && Age(s.versions)(Chain(s, place)[|Chain(s, place)| - 1]) == Age(s.versions)(x)
  {
    hide *;
    var chain := Chain(s, place);
    NewConflict(s, place, deviceId, Some(x), deleted, id);
    StillHeadIff(s, place, x, a, |chain|);
    assert chain[..|chain|] == chain;
  }

  /** With strictly increasing times, of the versions of a place built on the same version at most one is no
      conflict. */
  lemma OneChildWithoutConflict(s: State, i: Id, j: Id)
    requires Good(s) && i in s.versions && j in s.versions && s.versions[i].place == s.versions[j].place
    requires Increasing(s.versions, Chain(s, s.versions[i].place))
    requires s.versions[i].base.Some? && s.versions[i].base == s.versions[j].base
    requires !s.versions[i].conflict && !s.versions[j].conflict
    ensures i == j
  {
    var place := s.versions[i].place;
    var chain := Chain(s, place);
    ChainOrdered(s, place);
    assert i in chain && j in chain;
    var a :| 0 <= a < |chain| && chain[a] == i;
    var b :| 0 <= b < |chain| && chain[b] == j;
    hide Chain, Good, HeadOf;
    if a < b {
      OnlyFirstChild(s, place, a, b);
    } else if b < a {
      OnlyFirstChild(s, place, b, a);
    }
  }

  lemma OnlyFirstChild(s: State, place: Place, a: nat, b: nat)
    requires Good(s) && a < b < |Chain(s, place)| && Increasing(s.versions, Chain(s, place))
    requires Chain(s, place)[a] in s.versions && Chain(s, place)[b] in s.versions
    requires s.versions[Chain(s, place)[a]].base.Some? && !s.versions[Chain(s, place)[a]].conflict
    requires s.versions[Chain(s, place)[b]].base == s.versions[Chain(s, place)[a]].base
    ensures s.versions[Chain(s, place)[b]].conflict
  {
    ChainKnown(s, place);
    NoConflictIff(s, place, a);
    SecondChildIff(s, place, a, b);
    hide Chain, Good, HeadOf;
  }

  /** What building on the version registered last is worth: it is no conflict exactly if that version is the only one
      of its place or its time is later than that of the one before it. */
  lemma BuildingOnLast(s: State, place: Place, deviceId: Id, deleted: bool, id: Id)
    requires Good(s) && Chain(s, place) != []
    ensures var chain := Chain(s, place); var last := chain[|chain| - 1];
      !NewVersion(s, place, deviceId, Some(last), deleted, id).conflict <==>
        |chain| == 1 || Age(s.versions)(chain[|chain| - 2]) < Age(s.versions)(last)
  {
    ChainOrdered(s, place);
    HeadOfEmpty(s.versions, Chain(s, place));
    HeadIsLastIff(s.versions, Chain(s, place));
    hide HeadOf, Chain, Good;
  }

  // ---------------------------------------------------------------- versions of one instant

  ghost predicate Reached(start: State, s: State) {
    exists ops :: AllPossible(start, ops) && Run(start, ops) == s
  }

  lemma {:induction false} RunsOn(s: State, ops: seq<Op>, op: Op)
    requires AllPossible(s, ops) && Possible(Run(s, ops), op)
    ensures AllPossible(s, ops + [op]) && Run(s, ops + [op]) == Apply(Run(s, ops), op).0
    decreases |ops|
  {
    hide Apply, Possible;
    if ops == [] {
      assert AllPossible(Apply(s, op).0, []) && Run(Apply(s, op).0, []) == Apply(s, op).0;
      assert [op][1..] == [] && ops + [op] == [op];
    } else {
      RunsOn(Apply(s, ops[0]).0, ops[1..], op);
      assert (ops + [op])[1..] == ops[1..] + [op];
    }
  }

  lemma Goes(start: State, s: State, op: Op) returns (s': State)
    requires Reached(start, s) && Possible(s, op)
    ensures Reached(start, s') && s' == Apply(s, op).0
  {
    var ops :| AllPossible(start, ops) && Run(start, ops) == s;
    hide Apply, Possible;
    RunsOn(start, ops, op);
    s' := Apply(s, op).0;
  }

  /** All versions so far are of this place and of the instant 0. */
  ghost predicate AtOnce(s: State, place: Place, n: nat) {
    && s.clock == 0 && |s.order| == n && (forall k :: 0 <= k < n ==> s.order[k] == k)
    && (forall id: Id :: id in s.versions <==> id < n)
    && forall id :: id in s.versions ==> s.versions[id].place == place && s.versions[id].createdAt == 0
                                         && (s.versions[id].base.Some? ==> s.versions[id].base.value < n)
  }

  lemma Registers(start: State, s: State, place: Place, deviceId: Id, n: nat, base: Option<Id>) returns (s': State)
    requires Reached(start, s) && AtOnce(s, place, n) && Admission(s, place, deviceId).Ok?
    requires base.Some? ==> base.value < n
    ensures Reached(start, s') && AtOnce(s', place, n + 1) && Admission(s', place, deviceId).Ok?
    ensures s'.versions == s.versions[n := Version(n, place, deviceId, base, false, n > 0 && base != Some(0), 0)]
    ensures Chain(s', place) == s'.order
  {
    var v := Version(n, place, deviceId, base, false, n > 0 && base != Some(0), 0);
    Stores(s, place, deviceId, n, base);
    hide Reached, Chain, AtOnce, Apply, Admission, Possible;
    s' := Goes(start, s, Register(place, deviceId, base, false, n));
    StoresNext(s, v, n);
    AdmissionKept(s, s', place, deviceId);
    Chained(s', place, n + 1);
  }

  lemma Stores(s: State, place: Place, deviceId: Id, n: nat, base: Option<Id>)
    requires AtOnce(s, place, n) && Admission(s, place, deviceId).Ok? && (base.Some? ==> base.value < n)
    ensures var op := Register(place, deviceId, base, false, n);
      && Possible(s, op)
      && Apply(s, op).0 == Put(s, Version(n, place, deviceId, base, false, n > 0 && base != Some(0), 0))
  {
    Chained(s, place, n);
    hide Chain, HeadOf, Admission;
  }

  lemma StoresNext(s: State, v: Version, n: nat)
    requires AtOnce(s, v.place, n) && v.id == n && v.createdAt == 0 && (v.base.Some? ==> v.base.value < n)
    ensures var s' := Put(s, v);
      && AtOnce(s', v.place, n + 1) && s'.versions == s.versions[n := v]
      && s'.devices == s.devices && s'.roots == s.roots
  {
  }

  lemma AdmissionKept(s: State, s': State, place: Place, deviceId: Id)
    requires s'.devices == s.devices && s'.roots == s.roots
    ensures Admission(s', place, deviceId) == Admission(s, place, deviceId)
  {
    hide SyncAccepts;
  }

  lemma Chained(s: State, place: Place, n: nat)
    requires AtOnce(s, place, n)
    ensures Chain(s, place) == s.order && Head(s, place) == if s.order == [] then None else Some(0)
  {
    hide HeadOf;
    FilterAll(s.order, At(s.versions, place));
    HeadOfEmpty(s.versions, s.order);
    if s.order != [] {
      FirstIsHead(s, place, n);
    }
  }

  lemma FirstIsHead(s: State, place: Place, n: nat)
    requires AtOnce(s, place, n) && n > 0
    ensures HeadOf(s.versions, s.order) == Some(0)
  {
    hide HeadOf;
    assert forall i :: 0 <= i < n ==> Age(s.versions)(s.order[i]) == 0;
    var k := HeadAt(s.versions, s.order);
    assert Age(s.versions)(s.order[0]) == Age(s.versions)(s.order[k]);
  }

  lemma {:induction false} FilterAll(ids: seq<Id>, p: Id -> bool)
    requires forall id :: id in ids ==> p(id)
    ensures Filter(ids, p) == ids
  {
    if ids != [] {
      FilterAll(ids[..|ids| - 1], p);
      assert ids == ids[..|ids| - 1] + [ids[|ids| - 1]];
    }
  }

  ghost predicate Stored(versions: map<Id, Version>, n: Id, base: Option<Id>, conflict: bool) {
    n in versions && versions[n].base == base && versions[n].conflict == conflict
  }

  lemma StoredNext(versions: map<Id, Version>, n: Id, v: Version)
    requires n !in versions
    ensures Stored(versions[n := v], n, v.base, v.conflict)
    ensures forall i: Id, b, c :: Stored(versions, i, b, c) ==> Stored(versions[n := v], i, b, c)
  {
  }

  /** Reached from `start`, with `n` versions of one instant and place, and ready for another. */
  ghost predicate Stage(start: State, s: State, place: Place, deviceId: Id, n: nat) {
    Reached(start, s) && AtOnce(s, place, n) && Admission(s, place, deviceId).Ok? && Chain(s, place) == s.order
  }

  /** One more version of the instant; those before it stay. */
  lemma Next(start: State, s: State, place: Place, deviceId: Id, n: nat, base: Option<Id>) returns (s': State)
    requires Stage(start, s, place, deviceId, n) && (base.Some? ==> base.value < n)
    ensures Stage(start, s', place, deviceId, n + 1) && Stored(s'.versions, n, base, n > 0 && base != Some(0))
    ensures forall i: Id, b, c :: Stored(s.versions, i, b, c) ==> Stored(s'.versions, i, b, c)
  {
    assert n !in s.versions;
    hide Reached, AtOnce, Admission, Chain, Stored;
    s' := Registers(start, s, place, deviceId, n, base);
    StoredNext(s.versions, n, Version(n, place, deviceId, base, false, n > 0 && base != Some(0), 0));
  }

  /** Of versions of one instant the first stays the head: the third, built on the second, is a conflict, while the
      fourth, built on the first like the second, is none. */
  lemma SameInstant(deviceId: Id, device: Device, path: string) returns (start: State, s: State)
    requires device.kind == ExecutorDevice && SyncAccepts(path)
    ensures start == State(0, map[deviceId := device], map[], map[], []) && Reached(start, s)
    ensures Chain(s, Place(device.userId, 0, path)) == [0, 1, 2, 3]
    ensures Stored(s.versions, 1, Some(0), false) && Stored(s.versions, 2, Some(1), true)
    ensures Stored(s.versions, 3, Some(0), false)
  {
    hide *;
    var place := Place(device.userId, 0, path);
    start := State(0, map[deviceId := device], map[], map[], []);
    s := RootCreated(start, deviceId, device, place);
    s := Next(start, s, place, deviceId, 0, None);
    s := Next(start, s, place, deviceId, 1, Some(0));
    s := Next(start, s, place, deviceId, 2, Some(1));
    s := Next(start, s, place, deviceId, 3, Some(0));
    FourAtOnce(start, s, place, deviceId);
  }

  lemma RootCreated(start: State, deviceId: Id, device: Device, place: Place) returns (s: State)
    requires start == State(0, map[deviceId := device], map[], map[], []) && device.kind == ExecutorDevice
    requires place.userId == device.userId && place.rootId == 0 && SyncAccepts(place.path)
    ensures Stage(start, s, place, deviceId, 0)
  {
    assert AllPossible(start, []) && Run(start, []) == start;
    assert Reached(start, start);
    hide Reached, SyncAccepts;
    s := Goes(start, start, CreateRoot(device.userId, deviceId, 0));
    assert Executor(start, device.userId, deviceId);
    assert s == start.(roots := map[0 := Root(device.userId, deviceId)]);
    assert AtOnce(s, place, 0);
    assert Admission(s, place, deviceId).Ok?;
  }

  lemma FourAtOnce(start: State, s: State, place: Place, deviceId: Id)
    requires Stage(start, s, place, deviceId, 4)
    ensures Reached(start, s) && Chain(s, place) == [0, 1, 2, 3]
  {
    hide Reached;
  }
}
