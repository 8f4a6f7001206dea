/** The executor's cache of terminal results: an insertion-ordered object in local storage that is
    trimmed to its last 500 entries after every write. */
module ReplayCache {
  import opened Wrappers
  import opened Protocol

  const CAPACITY := 500

  /** The entries of the stored object in insertion order. */
  type Entries = seq<ActionResult>

  /** What local storage holds under the executor's key. */
  datatype Stored = Missing | Corrupt | Saved(entries: Entries)

  function CachedResults(stored: Stored): Entries {
    if stored.Saved? then stored.entries else []
  }

  predicate Has(entries: Entries, id: Id) {
    exists k :: 0 <= k < |entries| && entries[k].commandId == id
  }

  function Find(entries: Entries, id: Id): (r: Option<ActionResult>)
    ensures r.Some? <==> Has(entries, id)
    ensures r.Some? ==> r.value in entries && r.value.commandId == id
  {
    if entries == [] then None
    else if entries[|entries| - 1].commandId == id then Some(entries[|entries| - 1])
    else Find(entries[..|entries| - 1], id)
  }

  ghost predicate DistinctIds(entries: Entries) {
    forall i, j :: 0 <= i < j < |entries| ==> entries[i].commandId != entries[j].commandId
  }

  /** Assigning a property: in place if the key is there, at the end otherwise. */
  function Assign(entries: Entries, result: ActionResult): Entries {
    if entries == [] then [result]
    else
      var front, last := entries[..|entries| - 1], entries[|entries| - 1];
      if last.commandId == result.commandId then front + [result]
      else if Has(front, result.commandId) then Assign(front, result) + [last]
      else entries + [result]
  }

  function LastEntries(entries: Entries): Entries {
    if |entries| <= CAPACITY then entries else entries[|entries| - CAPACITY..]
  }

  function CacheResult(stored: Stored, result: ActionResult): Stored {
    Saved(LastEntries(Assign(CachedResults(stored), result)))
  }

  // ---------------------------------------------------------------- against an unbounded log

  /** The cache after a sequence of writes. */
  function After(log: seq<ActionResult>): Entries {
    if log == [] then []
    else LastEntries(Assign(After(log[..|log| - 1]), log[|log| - 1]))
  }

  /** The last result the log holds for `id`. */
  function LastResult(log: seq<ActionResult>, id: Id): Option<ActionResult> {
    if log == [] then None
    else if log[|log| - 1].commandId == id then Some(log[|log| - 1])
    else LastResult(log[..|log| - 1], id)
  }

  /** How many ids the cache did not hold were written since `id` itself was last written as one. */
  function Age(log: seq<ActionResult>, id: Id): Option<nat> {
    if log == [] then None
    else
      var front, last := log[..|log| - 1], log[|log| - 1];
      if Has(After(front), last.commandId) then Age(front, id)
      else if last.commandId == id then Some(0)
      else if Age(front, id).Some? then Some(Age(front, id).value + 1)
      else None
  }

  /** Where an in-place assignment leaves each entry. */
  lemma {:induction false} AssignPresent(entries: Entries, result: ActionResult)
    requires DistinctIds(entries) && Has(entries, result.commandId)
    ensures var e := Assign(entries, result);
      && |e| == |entries|
      && forall k :: 0 <= k < |e| ==>
           e[k] == if entries[k].commandId == result.commandId then result else entries[k]
  {
    var front, last := entries[..|entries| - 1], entries[|entries| - 1];
    if last.commandId != result.commandId {
      var k :| 0 <= k < |entries| && entries[k].commandId == result.commandId;
      assert front[k].commandId == result.commandId;
      AssignPresent(front, result);
    }
  }

  lemma AssignAbsent(entries: Entries, result: ActionResult)
    requires !Has(entries, result.commandId)
    ensures Assign(entries, result) == entries + [result]
  {
    if entries != [] {
      assert entries[|entries| - 1].commandId != result.commandId;
      assert !Has(entries[..|entries| - 1], result.commandId) by {
        forall k | 0 <= k < |entries| - 1
          ensures entries[..|entries| - 1][k] == entries[k]
        {
        }
      }
    }
  }

  lemma FindAt(entries: Entries, k: nat)
    requires DistinctIds(entries) && k < |entries|
    ensures Find(entries, entries[k].commandId) == Some(entries[k])
  {
    var r := Find(entries, entries[k].commandId);
    assert Has(entries, entries[k].commandId);
    var j :| 0 <= j < |entries| && entries[j] == r.value;
  }

  /** `id` is held exactly if its age is below the capacity, and then that far from the end, with `result`. */
  ghost predicate Sits(entries: Entries, id: Id, age: Option<nat>, result: Option<ActionResult>) {
    if age.Some? && age.value < CAPACITY
    then age.value < |entries| && entries[|entries| - 1 - age.value].commandId == id
         && Some(entries[|entries| - 1 - age.value]) == result
    else !Has(entries, id)
  }

  lemma SitsPresent(entries: Entries, e: Entries, last: ActionResult, id: Id, age: Option<nat>,
                    result: Option<ActionResult>)
    requires Sits(entries, id, age, result) && |e| == |entries|
    requires forall k :: 0 <= k < |e| ==>
      e[k] == if entries[k].commandId == last.commandId then last else entries[k]
    ensures Sits(e, id, age, if last.commandId == id then Some(last) else result)
  {
    assert forall k :: 0 <= k < |e| ==> e[k].commandId == entries[k].commandId;
    if Has(e, id) {
      var k :| 0 <= k < |e| && e[k].commandId == id;
      assert entries[k].commandId == id;
    }
  }

  lemma SitsAbsent(entries: Entries, last: ActionResult, id: Id, age: Option<nat>, result: Option<ActionResult>)
    requires Sits(entries, id, age, result) && |entries| <= CAPACITY && !Has(entries, last.commandId)
    requires DistinctIds(entries)
    ensures var e := LastEntries(entries + [last]);
      && DistinctIds(e)
      && Sits(e, id,
              if last.commandId == id then Some(0) else if age.Some? then Some(age.value + 1) else None,
              if last.commandId == id then Some(last) else result)
  {
    var all := entries + [last];
    var e := LastEntries(all);
    var n := |all| - |e|;
    assert forall k :: 0 <= k < |e| ==> e[k] == all[n + k];
    assert e[|e| - 1] == last;
    forall k | 0 <= k < |e| - 1 && e[k].commandId == id
      ensures Has(entries, id) && age.Some? && n + k == |entries| - 1 - age.value
    {
      assert entries[n + k].commandId == id;
    }
  }

  lemma {:induction false} CachePlaces(log: seq<ActionResult>, id: Id)
    ensures |After(log)| <= CAPACITY && DistinctIds(After(log))
    ensures Sits(After(log), id, Age(log, id), LastResult(log, id))
  {
    if log != [] {
      var front, last := log[..|log| - 1], log[|log| - 1];
      CachePlaces(front, id);
      hide Sits, DistinctIds, Has, LastEntries;
      if Has(After(front), last.commandId) {
        AssignPresent(After(front), last);
        KeptDistinct(After(front), Assign(After(front), last), last);
        SitsPresent(After(front), Assign(After(front), last), last, id, Age(front, id), LastResult(front, id));
      } else {
        AssignAbsent(After(front), last);
        LastEntriesFit(After(front) + [last]);
        SitsAbsent(After(front), last, id, Age(front, id), LastResult(front, id));
      }
    }
  }

  lemma LastEntriesFit(entries: Entries)
    ensures |LastEntries(entries)| <= CAPACITY
  {
  }

  lemma KeptDistinct(entries: Entries, e: Entries, last: ActionResult)
    requires DistinctIds(entries) && |e| == |entries| <= CAPACITY
    requires forall k :: 0 <= k < |e| ==>
      e[k] == if entries[k].commandId == last.commandId then last else entries[k]
    ensures DistinctIds(e) && LastEntries(e) == e
  {
  }

  /** The replay cache against an unbounded log: it never holds more than 500 ids, none twice, and it
      answers for exactly the ids after whose own insertion fewer than 500 absent ids were written,
      with the last result the log has for them. */
  lemma CacheAnswers(log: seq<ActionResult>, id: Id)
    ensures |After(log)| <= 500 && DistinctIds(After(log))
    ensures Find(After(log), id)
         == if Age(log, id).Some? && Age(log, id).value < 500 then LastResult(log, id) else None
    ensures Age(log, id).Some? && Age(log, id).value < 500 ==> LastResult(log, id).Some?
  {
    CachePlaces(log, id);
    var age := Age(log, id);
    if age.Some? && age.value < CAPACITY {
      FindAt(After(log), |After(log)| - 1 - age.value);
    }
  }

  /** The result cached last is the one that is found. */
  lemma JustCached(log: seq<ActionResult>, result: ActionResult)
    ensures Find(After(log + [result]), result.commandId) == Some(result)
  {
    var id, more := result.commandId, log + [result];
    assert more[..|more| - 1] == log;
    CachePlaces(log, id);
    CacheAnswers(more, id);
    hide After, Find;
  }

  /** What is found was once written. */
  lemma {:induction false} LastIsLogged(log: seq<ActionResult>, id: Id)
    ensures var r := LastResult(log, id); r.Some? ==> r.value in log && r.value.commandId == id
  {
    if log != [] {
      LastIsLogged(log[..|log| - 1], id);
    }
  }

  /** Whether local storage was missing or unreadable at first, writing a log leaves the same cache. */
  lemma {:induction false} StoredAfter(stored: Stored, log: seq<ActionResult>)
    requires !stored.Saved?
    ensures CachedResults(Written(stored, log)) == After(log)
  {
    if log != [] {
      StoredAfter(stored, log[..|log| - 1]);
    }
  }

  function Written(stored: Stored, log: seq<ActionResult>): Stored {
    if log == [] then stored else CacheResult(Written(stored, log[..|log| - 1]), log[|log| - 1])
  }
}
