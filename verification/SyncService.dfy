/** The sync service over its store, each call proved against the state machine of module SyncLog. */
module SyncService {
  import opened Wrappers
  import opened Protocol
  import opened Ordering
  import opened PathText
  import L = SyncLog

  class SyncStore {
    var devices: map<Id, Device>
    var roots: map<Id, L.Root>
    var versions: map<Id, L.Version>
    var versionOrder: seq<Id>

    constructor (devices: map<Id, Device>)
      ensures this.devices == devices && roots == map[] && versions == map[] && versionOrder == []
    {
      this.devices, roots, versions, versionOrder := devices, map[], map[], [];
    }

    method CreateSyncRoot(id: Id, root: L.Root)
      modifies this`roots
      ensures roots == old(roots)[id := root]
    {
      roots := roots[id := root];
    }

    method CreateSyncVersion(version: L.Version)
      modifies this`versions, this`versionOrder
      ensures versions == old(versions)[version.id := version]
      ensures versionOrder == if version.id in old(versions) then old(versionOrder)
                              else old(versionOrder) + [version.id]
    {
      if version.id !in versions {
        versionOrder := versionOrder + [version.id];
      }
      versions := versions[version.id := version];
    }

    function GetSyncRoot(userId: Id, rootId: Id): Option<L.Root>
      reads this
    {
      if rootId in roots && roots[rootId].userId == userId then Some(roots[rootId]) else None
    }

    /** The first of the versions of the place, sorted newest first. */
    function GetSyncHead(place: L.Place): Option<Id>
      reads this
    {
      var sorted := NewestFirst(Filter(versionOrder, L.At(versions, place)), L.Age(versions));
      if sorted == [] then None else Some(sorted[0])
    }

    predicate HasExecutor(userId: Id, deviceId: Id)
      reads this
    {
      deviceId in devices && devices[deviceId].userId == userId && devices[deviceId].kind == ExecutorDevice
    }
  }

  class SyncService {
    const store: SyncStore
    var now: Instant

    constructor (store: SyncStore, now: Instant)
      ensures this.store == store && this.now == now
    {
      this.store, this.now := store, now;
    }

    ghost function Abs(): L.State
      reads this, store
    {
      L.State(now, store.devices, store.roots, store.versions, store.versionOrder)
    }

    ghost predicate Valid()
      reads this, store
    {
      L.Good(Abs())
    }

    /** `id` is the identifier drawn for the root. */
    method CreateRoot(userId: Id, deviceId: Id, id: Id) returns (reply: Reply<()>)
      requires Valid() && id !in store.roots
      modifies store`roots
      ensures Valid() && (Abs(), reply) == L.Apply(old(Abs()), L.CreateRoot(userId, deviceId, id))
    {
      L.StepGood(Abs(), L.CreateRoot(userId, deviceId, id));
      hide L.Good;
      if !store.HasExecutor(userId, deviceId) {
        return Refused(NotFound);
      }
      store.CreateSyncRoot(id, L.Root(userId, deviceId));
      return Ok(());
    }

    /** `id` is the identifier drawn for the version. No version already there is lost or changed. */
    method RegisterVersion(place: L.Place, deviceId: Id, base: Option<Id>, deleted: bool, id: Id)
      returns (reply: Reply<()>)
      requires Valid() && L.Possible(Abs(), L.Register(place, deviceId, base, deleted, id))
      modifies store`versions, store`versionOrder
      ensures Valid() && (Abs(), reply) == L.Apply(old(Abs()), L.Register(place, deviceId, base, deleted, id))
      ensures L.Keeps(old(Abs()), Abs())
      ensures reply.Ok? ==> id in store.versions && L.InItsRoot(store.roots, store.versions[id])
    {
      hide L.Good, L.Keeps, L.Possible;
      L.StepGood(Abs(), L.Register(place, deviceId, base, deleted, id));
      KeepsSelf(Abs());
      NotStored(Abs(), place, deviceId, base, deleted, id);
      StoredInRoot(L.Apply(Abs(), L.Register(place, deviceId, base, deleted, id)).0);
      var root := store.GetSyncRoot(place.userId, place.rootId);
      if root.None? {
        return Refused(NotFound);
      }
      if !store.HasExecutor(place.userId, deviceId) {
        return Refused(NotFound);
      }
      if root.value.deviceId != deviceId {
        return Refused(BadRequest);
      }
      if (place.path != "" && place.path[0] == '/') || ".." in Split(place.path, SlashOrBackslash()) {
        return Refused(BadRequest);
      }
      var head := store.GetSyncHead(place);
      var conflict := head.Some? && head != base;
      store.CreateSyncVersion(L.Version(id, place, deviceId, base, deleted, conflict, now));
      return Ok(());
    }
  }

  lemma KeepsSelf(s: L.State)
    ensures L.Keeps(s, s)
  {
  }

  lemma StoredInRoot(s: L.State)
    requires L.Good(s)
    ensures forall id :: id in s.versions ==> L.InItsRoot(s.roots, s.versions[id])
  {
  }

  lemma NotStored(s: L.State, place: L.Place, deviceId: Id, base: Option<Id>, deleted: bool, id: Id)
    requires L.Possible(s, L.Register(place, deviceId, base, deleted, id))
    ensures id !in s.versions
  {
  }
}
