/** What recall returns, and to whom, in every run. */
module MemoryTheorems {
  import opened Wrappers
  import opened Refs
  import opened Policies
  import opened Decider
  import opened MemoryProtocol
  import opened MemorySafety

  /** In the one batch of this decision, the engine said that the subject may view `d`. */
  ghost predicate ViewerOf(e: Engine, ask: Ask, listing: seq<string>, d: string) {
    var b := e.batch(ask.subject, "viewer", listing);
    b.Bools? && |b.bits| == |listing| && exists i :: 0 <= i < |listing| && listing[i] == d && b.bits[i]
  }

  /** The candidate at hand when step `n` of a run decides on it and returns its text. */
  predicate Returns(s: State, e: Event) {
    && e.DecideCandidate? && Enabled(s, e)
    && Returned(e.e, e.policy, e.permits, ClientOf(s, e.k).ask, ClientOf(s, e.k).rows, e.listing)
  }

  /** An allowed set was confirmed member by member. */
  lemma AllowedIsConfirmed(
    e: Engine, policy: Option<Policy>, ask: Ask, listing: seq<string>, ids: seq<string>, d: string)
    requires Admits(e, policy, AsReader(ask), listing, ids) && d in SetOf(listing)
    ensures ViewerOf(e, ask, listing, d)
  {
    var i :| 0 <= i < |listing| && listing[i] == d;
    var a := AsReader(ask);
    FirstRefusalNone(policy, a, listing);
    var b := Batch(e, a, listing);
    assert b.Bools? && |b.bits| == |listing| && AllTrue(b.bits);
    assert b.bits[i];
  }

  /** The memory behind the `i`-th reference of the candidate that client `k` is deciding on. */
  function MemoryBehind(s: State, k: nat, i: nat): string
    requires ClientOf(s, k).Gathering? && i < |ClientOf(s, k).rows|
  {
    ClientOf(s, k).rows[i].memoryId
  }

  /** The ledger row lost its sources, and a forget deleted the tuples after the row was read. */
  predicate Raced(s: State, k: nat, m: string)
    requires ClientOf(s, k).Gathering?
  {
    SideOf(s.h, m) == InLedger && m in ClientOf(s, k).raced
  }

  /** The recall has read, from the row or from the tuples, every document the memory was written from. */
  predicate AllRead(s: State, k: nat, m: string)
    requires ClientOf(s, k).Gathering?
  {
    m in s.h.origins && s.h.origins[m].sources <= AllSources(ClientOf(s, k).rows, ClientOf(s, k).found)
  }

  /** The decision confirmed the reader as a viewer of every document the memory was written from. */
  ghost predicate Confirms(s: State, e: Event, m: string)
    requires e.DecideCandidate? && ClientOf(s, e.k).Gathering? && m in s.h.origins
  {
    forall d :: d in s.h.origins[m].sources ==> ViewerOf(e.e, ClientOf(s, e.k).ask, e.listing, d)
  }

  /** In a sound state, what was not read was lost in a race. */
  lemma UnreadMeansRaced(s: State, k: nat, i: nat)
    requires Inv(s) && ClientOf(s, k).Gathering? && ClientOf(s, k).at == |ClientOf(s, k).rows|
    requires i < |ClientOf(s, k).rows|
    ensures var m := MemoryBehind(s, k, i);
            m in s.h.origins && (AllRead(s, k, m) || Raced(s, k, m))
  {
    ClientHolds(s, k);
    var c := ClientOf(s, k);
    assert RowOk(c.rows[i], s.h);
    assert Known(c.rows[i].memoryId, c.rows[i].derivedFrom + c.found, c.raced, s.h);
    assert c.rows[i].derivedFrom + c.found <= AllSources(c.rows, c.found);
  }

  /**
   * In every run, a text is returned only if, for every reference behind it, the ledger vouches for a memory that was
   * stored under that reference, and the engine confirmed the reader as a viewer of every document the memory was
   * written from. The one exception is a memory of which the recall did not read every source; its ledger row was
   * tampered with, and a forget deleted its tuples between this recall's two reads.
   */
  lemma RecallNeedsEverySource(states: seq<State>, events: seq<Event>, n: nat, i: nat)
    requires IsRun(states, events) && n < |events| && Returns(states[n], events[n])
    requires i < |ClientOf(states[n], events[n].k).todo[0].refs|
    ensures var s, e := states[n], events[n];
            var c := ClientOf(s, e.k);
            && c.Gathering? && |c.rows| == |c.todo[0].refs|
            && var m, ref := MemoryBehind(s, e.k, i), c.todo[0].refs[i];
               && ref in s.h.refs && s.h.refs[ref] == m && m in s.h.origins
               && (Confirms(s, e, m) <==> AllRead(s, e.k, m))
               && (AllRead(s, e.k, m) || Raced(s, e.k, m))
  {
    var s, e := states[n], events[n];
    RunKeeps(states, events, n);
    ClientHolds(s, e.k);
    var c := ClientOf(s, e.k);
    assert RowOk(c.rows[i], s.h);
    UnreadMeansRaced(s, e.k, i);
    ConfirmsIffRead(s, e, c.rows[i].memoryId);
  }

  /** A returning decision confirms exactly what was read. */
  lemma ConfirmsIffRead(s: State, e: Event, m: string)
    requires Returns(s, e) && m in s.h.origins
    ensures Confirms(s, e, m) <==> AllRead(s, e.k, m)
  {
    var c := ClientOf(s, e.k);
    forall d | d in s.h.origins[m].sources
      ensures ViewerOf(e.e, c.ask, e.listing, d) <==> d in AllSources(c.rows, c.found)
    {
      assert d in AllSources(c.rows, c.found) <==> d in SetOf(e.listing);
      if d in SetOf(e.listing) {
        AllowedIsConfirmed(e.e, e.policy, c.ask, e.listing, Ids(c.rows), d);
      }
    }
  }

  /** A hit on a single reference is the very text of that memory. */
  lemma RecallReturnsItsText(states: seq<State>, events: seq<Event>, n: nat)
    requires IsRun(states, events) && n < |events| && Returns(states[n], events[n])
    requires |ClientOf(states[n], events[n].k).todo[0].refs| == 1
    ensures var s, k := states[n], events[n].k;
            var c := ClientOf(s, k);
            && c.Gathering? && |c.rows| == 1 && MemoryBehind(s, k, 0) in s.h.origins
            && c.todo[0].text == s.h.origins[MemoryBehind(s, k, 0)].text
  {
    var s, k := states[n], events[n].k;
    RunKeeps(states, events, n);
    ClientHolds(s, k);
    var c := ClientOf(s, k);
    assert CandidateOk(c.todo[0], s.h) && RowOk(c.rows[0], s.h);
  }

  /** If no memory behind the text was tampered with and none has a source, the reader is whom all were written for. */
  lemma SourcelessGoesToItsOwner(states: seq<State>, events: seq<Event>, n: nat, i: nat)
    requires IsRun(states, events) && n < |events| && Returns(states[n], events[n])
    requires i < |ClientOf(states[n], events[n].k).rows|
    requires var s, k := states[n], events[n].k;
             forall j :: 0 <= j < |ClientOf(s, k).rows| ==>
               var m := MemoryBehind(s, k, j);
               SideOf(s.h, m) == Nowhere && (m in s.h.origins ==> s.h.origins[m].sources == {})
    ensures var s, k := states[n], events[n].k;
            var m := MemoryBehind(s, k, i);
            m in s.h.origins && s.h.origins[m].writtenFor == ClientOf(s, k).ask.subject
  {
    var s, e := states[n], events[n];
    RunKeeps(states, events, n);
    ClientHolds(s, e.k);
    var c := ClientOf(s, e.k);
    assert RowOk(c.rows[i], s.h);
    forall d
      ensures d !in AllSources(c.rows, c.found)
    {
      forall j | 0 <= j < |c.rows|
        ensures d !in c.rows[j].derivedFrom
      {
        assert MemoryBehind(s, e.k, j) == c.rows[j].memoryId;
        assert RowOk(c.rows[j], s.h);
      }
      NothingFound(s, e.k, d);
    }
    NothingListed(e.listing);
  }

  lemma NothingListed(listing: seq<string>)
    ensures SetOf(listing) == {} ==> listing == []
  {
    assert listing != [] ==> listing[0] in SetOf(listing);
  }

  lemma NothingFound(s: State, k: nat, d: string)
    requires Inv(s) && ClientOf(s, k).Gathering?
    requires forall j :: 0 <= j < |ClientOf(s, k).rows| ==>
               var m := MemoryBehind(s, k, j);
               SideOf(s.h, m) == Nowhere && (m in s.h.origins ==> s.h.origins[m].sources == {})
    ensures d !in ClientOf(s, k).found
  {
    ClientHolds(s, k);
    var c := ClientOf(s, k);
    assert forall j :: 0 <= j < |c.rows| ==> c.rows[j].memoryId == MemoryBehind(s, k, j);
  }

  // ---- Whom a text is written for ----------------------------------------------------------

  /** The reader is the subject that every memory behind the candidate was written for. */
  predicate OwnsAll(s: State, k: nat)
    requires ClientOf(s, k).Gathering?
  {
    forall i :: 0 <= i < |ClientOf(s, k).rows| ==>
      var m := MemoryBehind(s, k, i);
      m in s.h.origins && s.h.origins[m].writtenFor == ClientOf(s, k).ask.subject
  }

  predicate AllInScope(s: State, k: nat)
    requires ClientOf(s, k).Gathering?
  {
    forall i :: 0 <= i < |ClientOf(s, k).rows| ==> InScope(AsReader(ClientOf(s, k).ask), MemoryBehind(s, k, i))
  }

  /** However the engine, the policy and the token answer, the text goes to nobody but the owner of every memory. */
  ghost predicate OwnerOnly(s: State, k: nat)
    requires ClientOf(s, k).Gathering?
  {
    forall e: Event :: Returns(s, e) && e.k == k ==> OwnsAll(s, k)
  }

  function AllYes(n: nat): seq<bool> {
    seq(n, i => true)
  }

  /** An engine that relates everybody to everything. */
  function YesEngine(): Engine {
    Engine((u: string, r: string, o: string) => Related(true),
           (u: string, r: string, os: seq<string>) => Bools(AllYes(|os|)),
           (u: string, r: string, t: string) => None)
  }

  lemma YesAdmits(ask: Ask, listing: seq<string>, ids: seq<string>)
    requires ValidRef(ask.subject, "user") && forall i :: 0 <= i < |listing| ==> ValidPattern(listing[i])
    requires forall i :: 0 <= i < |ids| ==> InScope(AsReader(ask), ids[i])
    ensures Admits(YesEngine(), None, AsReader(ask), listing, ids)
  {
    assert Batch(YesEngine(), AsReader(ask), listing) == Bools(AllYes(|listing|));
    assert AsReader(ask).subject == ask.subject;
    FirstRefusalNone(None, AsReader(ask), listing);
  }

  lemma SetListed(items: set<string>) returns (listing: seq<string>)
    ensures SetOf(listing) == items
    decreases items
  {
    if items == {} {
      listing := [];
    } else {
      var x :| x in items;
      var rest := SetListed(items - {x});
      listing := [x] + rest;
      assert SetOf(listing) == {x} + SetOf(rest);
    }
  }

  /** A returned text whose memories name no source goes to their owner. */
  lemma SourcelessNeedsOwner(s: State, e: Event)
    requires Inv(s) && Returns(s, e) && AllSources(ClientOf(s, e.k).rows, ClientOf(s, e.k).found) == {}
    ensures OwnsAll(s, e.k)
  {
    ClientHolds(s, e.k);
    NothingListed(e.listing);
    var c := ClientOf(s, e.k);
    forall i | 0 <= i < |c.rows|
      ensures var m := MemoryBehind(s, e.k, i);
              m in s.h.origins && s.h.origins[m].writtenFor == c.ask.subject
    {
      assert RowOk(c.rows[i], s.h);
    }
  }

  lemma ReturnedIsInScope(s: State, e: Event)
    requires Returns(s, e)
    ensures AllInScope(s, e.k)
  {
    var c := ClientOf(s, e.k);
    forall i | 0 <= i < |c.rows|
      ensures InScope(AsReader(c.ask), MemoryBehind(s, e.k, i))
    {
      assert Ids(c.rows)[i] == c.rows[i].memoryId;
    }
  }

  /** Every source that was read can be asked about. */
  predicate AllRefs(s: State, k: nat)
    requires ClientOf(s, k).Gathering?
  {
    forall d :: d in AllSources(ClientOf(s, k).rows, ClientOf(s, k).found) ==> ValidPattern(d)
  }

  /** No source was read and the reader is not the owner: the one refusal that needs neither engine nor token. */
  predicate Orphan(s: State, k: nat)
    requires ClientOf(s, k).Gathering?
  {
    AllSources(ClientOf(s, k).rows, ClientOf(s, k).found) == {} && !OwnsAll(s, k)
  }

  /** The ids behind a candidate in scope, and the owner of its rows. */
  lemma RowsInScope(s: State, k: nat)
    requires Inv(s) && ClientOf(s, k).Gathering? && AllInScope(s, k)
    ensures var c := ClientOf(s, k);
            && ValidRef(c.ask.subject, "user") && c.todo != []
            && (forall i :: 0 <= i < |Ids(c.rows)| ==> InScope(AsReader(c.ask), Ids(c.rows)[i]))
            && (OwnsAll(s, k) ==> forall i :: 0 <= i < |c.rows| ==> c.rows[i].writtenFor == c.ask.subject)
  {
    ClientHolds(s, k);
    var c := ClientOf(s, k);
    forall i | 0 <= i < |c.rows|
      ensures InScope(AsReader(c.ask), Ids(c.rows)[i]) && (OwnsAll(s, k) ==> c.rows[i].writtenFor == c.ask.subject)
    {
      assert Ids(c.rows)[i] == MemoryBehind(s, k, i) && RowOk(c.rows[i], s.h);
    }
  }

  lemma RefsListed(items: set<string>) returns (listing: seq<string>)
    requires forall d :: d in items ==> ValidPattern(d)
    ensures SetOf(listing) == items && (listing == [] ==> items == {})
    ensures forall i :: 0 <= i < |listing| ==> ValidPattern(listing[i])
  {
    listing := SetListed(items);
    forall i | 0 <= i < |listing|
      ensures ValidPattern(listing[i])
    {
      assert listing[i] in SetOf(listing);
    }
    assert SetOf([]) == {};
  }

  /** A reader with the scope can get the text from some engine, unless a source is ill-formed or it is an orphan. */
  lemma SomeEngineLetsIn(s: State, k: nat) returns (e: Event)
    requires Inv(s) && ClientOf(s, k).Gathering? && ClientOf(s, k).at == |ClientOf(s, k).rows|
    requires AllInScope(s, k) && AllRefs(s, k) && !Orphan(s, k)
    ensures Returns(s, e) && e.k == k
  {
    var c := ClientOf(s, k);
    var listing := RefsListed(AllSources(c.rows, c.found));
    RowsInScope(s, k);
    YesAdmits(c.ask, listing, Ids(c.rows));
    e := DecideCandidate(k, YesEngine(), None, None, listing);
    assert Returned(YesEngine(), None, None, c.ask, c.rows, listing);
  }

  /** A returned text was in scope, its sources well-formed, and it was no orphan. */
  lemma ReturnedIsProper(s: State, e: Event)
    requires Inv(s) && Returns(s, e)
    ensures AllInScope(s, e.k) && AllRefs(s, e.k) && !Orphan(s, e.k)
  {
    var c := ClientOf(s, e.k);
    ReturnedIsInScope(s, e);
    forall d | d in AllSources(c.rows, c.found)
      ensures ValidPattern(d)
    {
      assert d in SetOf(e.listing);
    }
    if AllSources(c.rows, c.found) == {} {
      SourcelessNeedsOwner(s, e);
    }
  }

  /**
   * At every decision point of every run, only the owner of every memory can get the text exactly when no row and no
   * tuple behind it names a source (or the reader owns them all, lacks the scope, or a source is ill-formed).
   */
  lemma OwnerOnlyIff(states: seq<State>, events: seq<Event>, n: nat, k: nat)
    requires IsRun(states, events) && n <= |events|
    requires ClientOf(states[n], k).Gathering? && ClientOf(states[n], k).at == |ClientOf(states[n], k).rows|
    ensures var s := states[n];
            var c := ClientOf(s, k);
            OwnerOnly(s, k) <==>
            AllSources(c.rows, c.found) == {} || OwnsAll(s, k) || !AllInScope(s, k) || !AllRefs(s, k)
  {
    var s := states[n];
    RunKeeps(states, events, n);
    if !Orphan(s, k) && !OwnsAll(s, k) && AllInScope(s, k) && AllRefs(s, k) {
      var e := SomeEngineLetsIn(s, k);
      assert !OwnerOnly(s, k);
    } else {
      forall e: Event | Returns(s, e) && e.k == k
        ensures OwnsAll(s, k)
      {
        ReturnedIsProper(s, e);
      }
    }
  }

  /** However the engine, the policy and the token answer, a return confirms every source of the memory. */
  ghost predicate ConfirmedOnly(s: State, k: nat, m: string)
    requires m in s.h.origins
  {
    forall e: Event :: Returns(s, e) && e.k == k ==> Confirms(s, e, m)
  }

  /**
   * At every decision point of every run, every return confirms all documents the memory was written from exactly when
   * the recall has read them all, or nothing can be returned: the reader lacks the scope, a source is ill-formed, or
   * nothing was read and the reader is not the owner. What was not read was lost in a race.
   */
  lemma ConfirmedOnlyIff(states: seq<State>, events: seq<Event>, n: nat, k: nat, i: nat)
    requires IsRun(states, events) && n <= |events|
    requires ClientOf(states[n], k).Gathering? && ClientOf(states[n], k).at == |ClientOf(states[n], k).rows|
    requires i < |ClientOf(states[n], k).rows|
    ensures var s := states[n];
            var m := MemoryBehind(s, k, i);
            && m in s.h.origins
            && (ConfirmedOnly(s, k, m) <==>
                AllRead(s, k, m) || !AllInScope(s, k) || !AllRefs(s, k) || Orphan(s, k))
            && (!AllRead(s, k, m) ==> Raced(s, k, m))
  {
    var s := states[n];
    var m := MemoryBehind(s, k, i);
    RunKeeps(states, events, n);
    UnreadMeansRaced(s, k, i);
    if AllInScope(s, k) && AllRefs(s, k) && !Orphan(s, k) && !AllRead(s, k, m) {
      var e := SomeEngineLetsIn(s, k);
      ConfirmsIffRead(s, e, m);
      assert !ConfirmedOnly(s, k, m);
    } else {
      forall e: Event | Returns(s, e) && e.k == k
        ensures Confirms(s, e, m)
      {
        ReturnedIsProper(s, e);
        ConfirmsIffRead(s, e, m);
      }
    }
  }

  /** A row in the ledger has its tuples: a reader that finds them deleted lost a race with a forget. */
  lemma RowNotYetCleared(states: seq<State>, events: seq<Event>, n: nat, m: string)
    requires IsRun(states, events) && n <= |events| && m in states[n].ledger
    ensures m !in states[n].h.cleared
  {
    RunKeeps(states, events, n);
  }
}
