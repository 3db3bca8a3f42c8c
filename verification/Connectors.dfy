/** One reconciliation of a connector's snapshot into the tuple store, where any call may fail. */
module Connectors {
  import opened Wrappers
  import opened Tuples

  const CHUNK := 100

  /**
   * What goes wrong, if anything: a failing write or delete (the `n`-th of the run) may have taken effect on any
   * part of its chunk.
   */
  datatype Fault = NoFault | AtSnapshot | AtLoad | AtCall(n: nat, part: set<Tuple>) | AtSave | AtAudit

  datatype SyncError = Unavailable | InvalidTuple

  datatype SyncReport = SyncReport(connector: string, added: nat, removed: nat, syncedAt: int)

  function Elements(items: seq<Tuple>): set<Tuple> {
    set t | t in items
  }

  class TupleStore {
    var tuples: set<Tuple>

    constructor ()
      ensures tuples == {}
    {
      tuples := {};
    }
  }

  class InMemoryConnectorStateStore {
    var tuples: map<string, set<Tuple>>
    var synced: map<string, Option<int>>

    constructor ()
      ensures tuples == map[] && synced == map[]
    {
      tuples := map[];
      synced := map[];
    }

    method Register(connector: string)
      modifies this`synced
      ensures synced == Registered(old(synced), connector)
    {
      if connector !in synced {
        synced := synced[connector := None];
      }
    }

    method Save(connector: string, saved: set<Tuple>, syncedAt: int)
      modifies this
      ensures tuples == old(tuples)[connector := saved] && synced == old(synced)[connector := Some(syncedAt)]
    {
      tuples := tuples[connector := saved];
      synced := synced[connector := Some(syncedAt)];
    }

    /** The guard passes exactly when every registered connector has synced recently enough. */
    method AssertFresh(now: int, maxStaleness: int) returns (current: bool)
      ensures current <==> forall c :: c in synced ==> synced[c].Some? && now - synced[c].value <= maxStaleness
    {
      var todo := synced.Keys;
      while todo != {}
        invariant todo <= synced.Keys
        invariant forall c :: c in synced && c !in todo ==>
                    synced[c].Some? && now - synced[c].value <= maxStaleness
        decreases |todo|
      {
        var c :| c in todo;
        if synced[c].None? || now - synced[c].value > maxStaleness {
          return false;
        }
        todo := todo - {c};
      }
      return true;
    }
  }

  function Registered(synced: map<string, Option<int>>, connector: string): map<string, Option<int>> {
    if connector in synced then synced else synced[connector := None]
  }

  function Baseline(saved: map<string, set<Tuple>>, connector: string): set<Tuple> {
    if connector in saved then saved[connector] else {}
  }

  /** The store after an attempt that got as far as `added` and `removed`: no removal before the last addition. */
  predicate Attempt(
    before: set<Tuple>, previous: set<Tuple>, desired: set<Tuple>, after: set<Tuple>,
    added: set<Tuple>, removed: set<Tuple>)
  {
    && added <= desired - previous
    && removed <= previous - desired
    && (removed != {} ==> added == desired - previous)
    && after == (before + added) - removed
  }

  /** The elements of a set in some order, each once. */
  method Listed(items: set<Tuple>) returns (list: seq<Tuple>)
    ensures Elements(list) == items && |list| == |items|
  {
    list := [];
    var rest := items;
    while rest != {}
      invariant Elements(list) + rest == items && Elements(list) !! rest && |list| + |rest| == |items|
      decreases |rest|
    {
      var t :| t in rest;
      ghost var before := list;
      list := list + [t];
      rest := rest - {t};
      assert Elements(list) == Elements(before) + {t};
    }
  }

  lemma ChunkAdds(items: seq<Tuple>, i: nat, j: nat)
    requires i <= j <= |items|
    ensures Elements(items[..j]) == Elements(items[..i]) + Elements(items[i..j]) <= Elements(items)
  {
    assert items[..j] == items[..i] + items[i..j];
    assert forall t :: t in items[..j] <==> t in items[..i] || t in items[i..j];
    assert forall t :: t in items[..j] ==> t in items;
  }

  /** Write the items chunk by chunk; `calls` were made before. */
  method WriteChunks(store: TupleStore, items: seq<Tuple>, fault: Fault, calls: nat)
    returns (ok: bool, next: nat, ghost done: set<Tuple>)
    modifies store
    ensures done <= Elements(items) && store.tuples == old(store.tuples) + done
    ensures ok ==> done == Elements(items) && next == calls + (|items| + 99) / 100
    ensures !ok ==> fault.AtCall?
  {
    next := calls;
    var start := 0;
    while start < |items|
      invariant 0 <= start <= |items|
      invariant if start == |items| then next == calls + (|items| + 99) / 100 else start == (next - calls) * 100
      invariant store.tuples == old(store.tuples) + Elements(items[..start])
    {
      var end := if start + CHUNK <= |items| then start + CHUNK else |items|;
      var chunk := items[start..end];
      ChunkAdds(items, start, end);
      if fault.AtCall? && fault.n == next {
        store.tuples := store.tuples + (fault.part * Elements(chunk));
        return false, next, Elements(items[..start]) + (fault.part * Elements(chunk));
      }
      store.tuples := store.tuples + Elements(chunk);
      next, start := next + 1, end;
    }
    assert items[..start] == items;
    return true, next, Elements(items);
  }

  method DeleteChunks(store: TupleStore, items: seq<Tuple>, fault: Fault, calls: nat)
    returns (ok: bool, next: nat, ghost done: set<Tuple>)
    modifies store
    ensures done <= Elements(items) && store.tuples == old(store.tuples) - done
    ensures ok ==> done == Elements(items) && next == calls + (|items| + 99) / 100
    ensures !ok ==> fault.AtCall?
  {
    next := calls;
    var start := 0;
    while start < |items|
      invariant 0 <= start <= |items|
      invariant if start == |items| then next == calls + (|items| + 99) / 100 else start == (next - calls) * 100
      invariant store.tuples == old(store.tuples) - Elements(items[..start])
    {
      var end := if start + CHUNK <= |items| then start + CHUNK else |items|;
      var chunk := items[start..end];
      ChunkAdds(items, start, end);
      if fault.AtCall? && fault.n == next {
        store.tuples := store.tuples - (fault.part * Elements(chunk));
        return false, next, Elements(items[..start]) + (fault.part * Elements(chunk));
      }
      store.tuples := store.tuples - Elements(chunk);
      next, start := next + 1, end;
    }
    assert items[..start] == items;
    return true, next, Elements(items);
  }

  /** The whole difference, additions first, or as much of it as the fault lets through. */
  method ApplyDifference(store: TupleStore, previous: set<Tuple>, desired: set<Tuple>, fault: Fault)
    returns (ok: bool, additions: nat, removals: nat, ghost added: set<Tuple>, ghost removed: set<Tuple>)
    modifies store
    ensures Attempt(old(store.tuples), previous, desired, store.tuples, added, removed)
    ensures ok ==> added == desired - previous && removed == previous - desired
    ensures !ok ==> fault.AtCall?
    ensures additions == |desired - previous| && removals == |previous - desired|
  {
    var toAdd := Listed(desired - previous);
    var toRemove := Listed(previous - desired);
    additions, removals, removed := |toAdd|, |toRemove|, {};
    var calls;
    ok, calls, added := WriteChunks(store, toAdd, fault, 0);
    if ok {
      ok, calls, removed := DeleteChunks(store, toRemove, fault, calls);
    }
  }

  /** What the saved state of the connectors is, before or after. */
  datatype Saved = Saved(tuples: map<string, set<Tuple>>, synced: map<string, Option<int>>)

  /** The whole difference was applied and the baseline moved to the snapshot. */
  predicate Advanced(
    before: Saved, after: Saved, connector: string, snapshot: set<Tuple>, now: int,
    added: set<Tuple>, removed: set<Tuple>)
  {
    var previous := Baseline(before.tuples, connector);
    && added == snapshot - previous && removed == previous - snapshot
    && after.tuples == before.tuples[connector := snapshot]
    && after.synced == before.synced[connector := Some(now)]
  }

  /** Nothing was saved but the registration. */
  predicate Held(before: Saved, after: Saved, connector: string) {
    after.tuples == before.tuples && after.synced == Registered(before.synced, connector)
  }

  /** The writes of a validated sync, then the save and the journal entry. */
  method SyncTo(
    connector: string, snapshot: set<Tuple>, store: TupleStore, state: InMemoryConnectorStateStore, now: int,
    fault: Fault)
    returns (r: Result<SyncReport, SyncError>, ghost added: set<Tuple>, ghost removed: set<Tuple>)
    modifies store, state
    ensures Attempt(old(store.tuples), Baseline(old(state.tuples), connector), snapshot, store.tuples, added, removed)
    ensures var before, after := old(Saved(state.tuples, state.synced)), Saved(state.tuples, state.synced);
            if r.Ok? || fault == AtAudit then Advanced(before, after, connector, snapshot, now, added, removed)
            else after == before
    ensures r.Ok? ==> fault != AtSave && fault != AtAudit
    ensures r.Err? ==> r.error == Unavailable && (fault.AtCall? || fault == AtSave || fault == AtAudit)
    ensures r.Ok? ==> r.value == SyncReport(connector, |added|, |removed|, now)
  {
    var previous := Baseline(state.tuples, connector);
    var ok, additions, removals;
    ok, additions, removals, added, removed := ApplyDifference(store, previous, snapshot, fault);
    if !ok || fault == AtSave {
      return Err(Unavailable), added, removed;
    }
    state.Save(connector, snapshot, now);
    if fault == AtAudit {
      return Err(Unavailable), added, removed;
    }
    r := Ok(SyncReport(connector, additions, removals, now));
  }

  /**
   * A sync either applies the whole difference and advances the baseline, or raises. When it raises, the baseline
   * and the sync time stand as they were, unless only the journal entry after the save failed.
   */
  method Reconcile(
    connector: string, snapshot: set<Tuple>, valid: Tuple -> bool, store: TupleStore,
    state: InMemoryConnectorStateStore, now: int, fault: Fault)
    returns (r: Result<SyncReport, SyncError>, ghost added: set<Tuple>, ghost removed: set<Tuple>)
    modifies store, state
    ensures Attempt(old(store.tuples), Baseline(old(state.tuples), connector), snapshot, store.tuples, added, removed)
    ensures var before, after := old(Saved(state.tuples, state.synced)), Saved(state.tuples, state.synced);
            if r.Ok? || (fault == AtAudit && AllValid(snapshot, valid)) then
              AllValid(snapshot, valid) && Advanced(before, after, connector, snapshot, now, added, removed)
            else Held(before, after, connector)
    ensures r.Ok? ==> fault.NoFault? || fault.AtCall?
    ensures fault.NoFault? ==> (r.Ok? <==> AllValid(snapshot, valid))
    ensures r.Ok? ==> r.value == SyncReport(connector, |added|, |removed|, now)
  {
    added, removed := {}, {};
    ghost var before := Saved(state.tuples, state.synced);
    state.Register(connector);
    if fault.AtSnapshot? {
      return Err(Unavailable), added, removed;
    }
    if !AllValid(snapshot, valid) {
      return Err(InvalidTuple), added, removed;
    }
    if fault.AtLoad? {
      return Err(Unavailable), added, removed;
    }
    r, added, removed := SyncTo(connector, snapshot, store, state, now, fault);
    assert Registered(before.synced, connector)[connector := Some(now)] == before.synced[connector := Some(now)];
  }

  predicate AllValid(snapshot: set<Tuple>, valid: Tuple -> bool) {
    forall t :: t in snapshot ==> valid(t)
  }
}
