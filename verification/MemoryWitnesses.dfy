/** Runs in which the memory service does less than its documents promise. */
module MemoryWitnesses {
  import opened Wrappers
  import opened Refs
  import opened Policies
  import opened Decider
  import opened Tuples
  import opened MemoryStores
  import opened MemoryProtocol
  import opened MemoryTheorems

  // ---- Reachable states --------------------------------------------------------------------

  ghost predicate Reachable(s: State) {
    exists states, events :: IsRun(states, events) && states[|events|] == s
  }

  lemma ReachesInit()
    ensures Reachable(INIT)
  {
    assert IsRun([INIT], []);
  }

  lemma RunAppends(states: seq<State>, events: seq<Event>, e: Event, t: State)
    requires IsRun(states, events) && Step(states[|events|], e, t)
    ensures IsRun(states + [t], events + [e])
  {
  }

  lemma Reaches(s: State, e: Event, t: State)
    requires Reachable(s) && Step(s, e, t)
    ensures Reachable(t)
  {
    var states: seq<State>, events: seq<Event> :| IsRun(states, events) && states[|events|] == s;
    RunAppends(states, events, e, t);
    assert (states + [t])[|events + [e]|] == t;
  }

  /** A memory to be written: by client `k`, from `sources`, under a fresh id and a fresh reference. */
  datatype Draft = Draft(k: nat, m: string, ref: string, sources: seq<string>, text: string, ask: Ask)

  /** One more memory in the stores, and its client idle again. */
  function Remembered(s: State, x: Draft): State {
    State(s.tuples + TrailOf(x), PutRow(s.ledger, RecordOf(x)), StoreText(s.backend, x.ref, Content(x.m, x.text)),
          BegunHistory(s, x).(refs := s.h.refs[x.ref := x.m], placed := s.h.placed + {x.m}), s.clients[x.k := Idle])
  }

  function TrailOf(x: Draft): set<Tuple> {
    Trail(SetOf(x.sources), x.ask.actor, x.m)
  }

  function RecordOf(x: Draft): Record {
    Record(x.m, x.ask.subject, SetOf(x.sources), BACKEND, x.ref)
  }

  function BegunHistory(s: State, x: Draft): History {
    s.h.(origins := s.h.origins[x.m := Origin(SetOf(x.sources), x.ask.subject, x.text, x.k)])
  }

  /** The token asks nothing and the decision allows the memory to be written. */
  predicate MayRemember(s: State, x: Draft, e: Engine, policy: Option<Policy>) {
    && ClientOf(s, x.k).Idle? && x.m !in s.h.origins && x.ref !in s.h.refs
    && (forall i :: 0 <= i < |x.sources| ==> ValidRef(x.sources[i], "document"))
    && Admits(e, policy, AsWriter(x.ask), x.sources, if x.sources == [] then [x.m] else x.sources)
  }

  function Linking(s: State, x: Draft): State {
    s.(h := BegunHistory(s, x), clients := s.clients[x.k := WritingTuples(x.m, TrailOf(x))])
  }

  function Storing(s: State, x: Draft): State {
    s.(tuples := s.tuples + TrailOf(x), h := BegunHistory(s, x),
       clients := s.clients[x.k := StoringContent(x.m, TrailOf(x))])
  }

  function Putting(s: State, x: Draft): State {
    Storing(s, x).(
      backend := StoreText(s.backend, x.ref, Content(x.m, x.text)),
      h := BegunHistory(s, x).(refs := s.h.refs[x.ref := x.m]),
      clients := s.clients[x.k := PuttingRecord(x.m, TrailOf(x), x.ref)])
  }

  lemma ReachesLinking(s: State, x: Draft, e: Engine, policy: Option<Policy>)
    requires Reachable(s) && MayRemember(s, x, e, policy)
    ensures Reachable(Linking(s, x))
  {
    Reaches(s, BeginRemember(x.k, x.m, x.ask, x.text, x.sources, e, policy, None), Linking(s, x));
  }

  lemma ReachesStoring(s: State, x: Draft)
    requires Reachable(Linking(s, x))
    ensures Reachable(Storing(s, x))
  {
    Reaches(Linking(s, x), WriteTuples(x.k), Storing(s, x));
  }

  lemma ReachesPutting(s: State, x: Draft)
    requires Reachable(Storing(s, x)) && x.ref !in s.h.refs
    ensures Reachable(Putting(s, x))
  {
    Reaches(Storing(s, x), StoreContent(x.k, x.ref), Putting(s, x));
  }

  lemma ReachesRemembered(s: State, x: Draft)
    requires Reachable(Putting(s, x))
    ensures Reachable(Remembered(s, x))
  {
    Reaches(Putting(s, x), PutRecord(x.k), Remembered(s, x));
  }

  /** From any reachable state, a memory that may be written is written. */
  lemma Remembers(s: State, x: Draft, e: Engine, policy: Option<Policy>)
    requires Reachable(s) && MayRemember(s, x, e, policy)
    ensures Reachable(Remembered(s, x))
  {
    ReachesLinking(s, x, e, policy);
    ReachesStoring(s, x);
    ReachesPutting(s, x);
    ReachesRemembered(s, x);
  }

  // ---- A merged hit ------------------------------------------------------------------------

  /** A memory without a source beside one with the source `d`, each in the stores. */
  datatype Pair = Pair(bare: Draft, sourced: Draft, d: string, text: string, reader: Ask)

  predicate Merged(p: Pair, e: Engine, policy: Option<Policy>) {
    && p.bare.sources == [] && p.sourced.sources == [p.d] && ValidRef(p.d, "document")
    && p.bare.m != p.sourced.m && p.bare.ref != p.sourced.ref && p.bare.k != p.sourced.k
    && Admits(e, policy, AsWriter(p.bare.ask), [], [p.bare.m])
    && Admits(e, policy, AsWriter(p.sourced.ask), [p.d], [p.d])
    && ValidRef(p.reader.subject, "user")
    && InScope(AsReader(p.reader), p.bare.m) && InScope(AsReader(p.reader), p.sourced.m)
  }

  function Both(p: Pair): State {
    Remembered(Remembered(INIT, p.bare), p.sourced)
  }

  /** Client `k` at `c`, beside everything else. */
  function With(s: State, k: nat, c: Client): State {
    s.(clients := s.clients[k := c])
  }

  function MergedHit(p: Pair): Candidate {
    Candidate(p.text, [p.bare.ref, p.sourced.ref])
  }

  function Rows(p: Pair): seq<Record> {
    [RecordOf(p.bare), RecordOf(p.sourced)]
  }

  lemma ReachesBoth(p: Pair, e: Engine, policy: Option<Policy>)
    requires Merged(p, e, policy)
    ensures Reachable(Both(p))
  {
    ReachesInit();
    Remembers(INIT, p.bare, e, policy);
    Remembers(Remembered(INIT, p.bare), p.sourced, e, policy);
  }

  /** What a recall over the two memories reads. */
  predicate Holds(s: State, p: Pair) {
    && p.bare.m in s.ledger && s.ledger[p.bare.m] == RecordOf(p.bare)
    && p.sourced.m in s.ledger && s.ledger[p.sourced.m] == RecordOf(p.sourced)
    && SourcesIn(s.tuples, p.bare.m) == {} && SourcesIn(s.tuples, p.sourced.m) == {p.d}
    && s.h.cleared == {} && s.h.sides == map[]
    && p.bare.m in s.h.origins && s.h.origins[p.bare.m].writtenFor == p.bare.ask.subject
    && s.h.origins[p.bare.m].sources == {}
  }

  lemma BothTuples(p: Pair)
    requires p.bare.sources == [] && p.sourced.sources == [p.d] && p.bare.m != p.sourced.m
    ensures SourcesIn(TrailOf(p.bare) + TrailOf(p.sourced), p.bare.m) == {}
    ensures SourcesIn(TrailOf(p.bare) + TrailOf(p.sourced), p.sourced.m) == {p.d}
  {
    assert SetOf([p.d]) == {p.d} && SetOf([]) == {};
    var tuples := TrailOf(p.bare) + TrailOf(p.sourced);
    assert Tuple(p.d, "derived_from", p.sourced.m) in tuples;
  }

  lemma BothHolds(p: Pair)
    requires p.bare.sources == [] && p.sourced.sources == [p.d] && p.bare.m != p.sourced.m
    ensures Holds(Both(p), p)
  {
    BothTuples(p);
    var none: set<Tuple> := {};
    assert none + TrailOf(p.bare) == TrailOf(p.bare);
    assert SetOf([]) == {};
  }

  lemma MergedLooks(s: State, p: Pair, k: nat)
    requires Reachable(s) && k !in s.clients && ValidRef(p.reader.subject, "user")
    ensures Reachable(With(s, k, Looking(p.reader, [MergedHit(p)], [])))
  {
    Reaches(s, BeginRecall(k, p.reader, [MergedHit(p)]), With(s, k, Looking(p.reader, [MergedHit(p)], [])));
  }

  lemma MergedFindsBare(s: State, p: Pair, k: nat)
    requires Holds(s, p) && Reachable(With(s, k, Looking(p.reader, [MergedHit(p)], [])))
    ensures Reachable(With(s, k, Looking(p.reader, [MergedHit(p)], [RecordOf(p.bare)])))
  {
    var none: seq<Record> := [];
    assert none + [RecordOf(p.bare)] == [RecordOf(p.bare)];
    Reaches(With(s, k, Looking(p.reader, [MergedHit(p)], [])), ReadLedger(k, Some(RecordOf(p.bare))),
            With(s, k, Looking(p.reader, [MergedHit(p)], [RecordOf(p.bare)])));
  }

  lemma MergedFindsSourced(s: State, p: Pair, k: nat)
    requires Holds(s, p) && Reachable(With(s, k, Looking(p.reader, [MergedHit(p)], [RecordOf(p.bare)])))
    ensures Reachable(With(s, k, Gathering(p.reader, [MergedHit(p)], Rows(p), {}, 0, {})))
  {
    assert [RecordOf(p.bare)] + [RecordOf(p.sourced)] == Rows(p);
    Reaches(With(s, k, Looking(p.reader, [MergedHit(p)], [RecordOf(p.bare)])),
            ReadLedger(k, Some(RecordOf(p.sourced))),
            With(s, k, Gathering(p.reader, [MergedHit(p)], Rows(p), {}, 0, {})));
  }

  lemma MergedReadsBare(s: State, p: Pair, k: nat)
    requires Holds(s, p) && Reachable(With(s, k, Gathering(p.reader, [MergedHit(p)], Rows(p), {}, 0, {})))
    ensures Reachable(With(s, k, Gathering(p.reader, [MergedHit(p)], Rows(p), {}, 1, {})))
  {
    var none: set<string> := {};
    assert none + SourcesIn(s.tuples, p.bare.m) == none;
    Reaches(With(s, k, Gathering(p.reader, [MergedHit(p)], Rows(p), {}, 0, {})), ReadTuples(k),
            With(s, k, Gathering(p.reader, [MergedHit(p)], Rows(p), {}, 1, {})));
  }

  lemma MergedReadsSourced(s: State, p: Pair, k: nat)
    requires Holds(s, p) && Reachable(With(s, k, Gathering(p.reader, [MergedHit(p)], Rows(p), {}, 1, {})))
    ensures Reachable(With(s, k, Gathering(p.reader, [MergedHit(p)], Rows(p), {p.d}, 2, {})))
  {
    var none: set<string> := {};
    assert none + SourcesIn(s.tuples, p.sourced.m) == {p.d};
    Reaches(With(s, k, Gathering(p.reader, [MergedHit(p)], Rows(p), {}, 1, {})), ReadTuples(k),
            With(s, k, Gathering(p.reader, [MergedHit(p)], Rows(p), {p.d}, 2, {})));
  }

  lemma MergedAdmits(p: Pair)
    requires p.bare.sources == [] && p.sourced.sources == [p.d] && ValidRef(p.d, "document")
    requires ValidRef(p.reader.subject, "user")
    requires InScope(AsReader(p.reader), p.bare.m) && InScope(AsReader(p.reader), p.sourced.m)
    ensures SetOf([p.d]) == AllSources(Rows(p), {p.d}) && Ids(Rows(p)) == [p.bare.m, p.sourced.m]
    ensures Returned(YesEngine(), None, None, p.reader, Rows(p), [p.d])
  {
    assert SetOf([p.d]) == {p.d} && SetOf([]) == {};
    assert Ids(Rows(p)) == [p.bare.m, p.sourced.m];
    RefIsPattern(p.d, "document");
    YesAdmits(p.reader, [p.d], Ids(Rows(p)));
  }

  /**
   * The owner rule does fail beside a source: for every two memories that may be written and every reader with both in
   * scope, some run returns a text built from both to that reader, whoever the sourceless one was written for, once the
   * engine relates the reader to the other's source.
   */
  lemma MergedHitSkipsTheOwner(p: Pair, k: nat, e: Engine, policy: Option<Policy>) returns (s: State, decide: Event)
    requires Merged(p, e, policy) && k != p.bare.k && k != p.sourced.k
    ensures Reachable(s) && Returns(s, decide) && decide.k == k && ClientOf(s, k).ask == p.reader
    ensures p.bare.m in Ids(ClientOf(s, k).rows)
    ensures p.bare.m in s.h.origins && s.h.origins[p.bare.m].sources == {} && SideOf(s.h, p.bare.m) == Nowhere
    ensures s.h.origins[p.bare.m].writtenFor == p.bare.ask.subject
  {
    ReachesBoth(p, e, policy);
    BothHolds(p);
    assert k !in Both(p).clients;
    s, decide := MergedReturn(Both(p), p, k);
  }

  lemma MergedReturn(base: State, p: Pair, k: nat) returns (s: State, decide: Event)
    requires Reachable(base) && Holds(base, p) && k !in base.clients
    requires p.bare.sources == [] && p.sourced.sources == [p.d] && ValidRef(p.d, "document")
    requires ValidRef(p.reader.subject, "user")
    requires InScope(AsReader(p.reader), p.bare.m) && InScope(AsReader(p.reader), p.sourced.m)
    ensures Reachable(s) && Returns(s, decide) && decide.k == k && ClientOf(s, k).ask == p.reader
    ensures p.bare.m in Ids(ClientOf(s, k).rows) && s.h == base.h
  {
    s := MergedRun(base, p, k);
    decide := DecideCandidate(k, YesEngine(), None, None, [p.d]);
    MergedAdmits(p);
    MergedDecides(base, p, k);
    assert Ids(Rows(p))[0] == p.bare.m;
  }

  lemma MergedDecides(base: State, p: Pair, k: nat)
    requires SetOf([p.d]) == AllSources(Rows(p), {p.d})
    requires Returned(YesEngine(), None, None, p.reader, Rows(p), [p.d])
    ensures Returns(With(base, k, Gathering(p.reader, [MergedHit(p)], Rows(p), {p.d}, 2, {})),
                    DecideCandidate(k, YesEngine(), None, None, [p.d]))
  {
  }

  lemma MergedRun(base: State, p: Pair, k: nat) returns (s: State)
    requires Reachable(base) && Holds(base, p) && k !in base.clients && ValidRef(p.reader.subject, "user")
    ensures s == With(base, k, Gathering(p.reader, [MergedHit(p)], Rows(p), {p.d}, 2, {})) && Reachable(s)
  {
    MergedLooks(base, p, k);
    MergedFindsBare(base, p, k);
    MergedFindsSourced(base, p, k);
    MergedReadsBare(base, p, k);
    MergedReadsSourced(base, p, k);
    s := With(base, k, Gathering(p.reader, [MergedHit(p)], Rows(p), {p.d}, 2, {}));
  }

  // ---- A lost race -------------------------------------------------------------------------

  /** One memory, written from `d` on behalf of `ask`, and a later reader. */
  datatype Note = Note(m: string, ref: string, d: string, text: string, ask: Ask, reader: Ask)

  function DraftOf(x: Note): Draft {
    Draft(0, x.m, x.ref, [x.d], x.text, x.ask)
  }

  function Wrote(x: Note): History {
    History(map[x.m := Origin({x.d}, x.ask.subject, x.text, 0)], map[x.ref := x.m], {x.m}, {}, {}, map[])
  }

  function Provenance(x: Note): set<Tuple> {
    Trail({x.d}, x.ask.actor, x.m)
  }

  function Texts(x: Note): Contents {
    map[x.ref := Content(x.m, x.text)]
  }

  function Placed(x: Note): State {
    State(Provenance(x), map[x.m := Record(x.m, x.ask.subject, {x.d}, BACKEND, x.ref)], Texts(x), Wrote(x),
          map[0 := Idle])
  }

  lemma ReachesPlaced(x: Note, e: Engine, policy: Option<Policy>)
    requires ValidRef(x.d, "document") && Admits(e, policy, AsWriter(x.ask), [x.d], [x.d])
    ensures Reachable(Placed(x))
  {
    ReachesInit();
    Remembers(INIT, DraftOf(x), e, policy);
    assert SetOf([x.d]) == {x.d};
    var none: set<Tuple> := {};
    assert none + Provenance(x) == Provenance(x);
    assert Remembered(INIT, DraftOf(x)) == Placed(x);
  }

  /** The ledger row lost its source. */
  function Emptied(x: Note): State {
    State(Provenance(x), map[x.m := EmptyRow(x)], Texts(x), Wrote(x).(sides := map[x.m := InLedger]),
          map[0 := Idle])
  }

  function EmptyRow(x: Note): Record {
    Record(x.m, x.ask.subject, {}, BACKEND, x.ref)
  }

  lemma ReachesEmptied(x: Note)
    requires Reachable(Placed(x))
    ensures Reachable(Emptied(x))
  {
    Reaches(Placed(x), TamperLedger(x.m, {}), Emptied(x));
  }

  /** A recall that holds the emptied row, beside a forget. */
  function Beside(x: Note, content: bool, record: bool, reader: Client, forgetter: Client): State {
    State(Provenance(x), if record then map[x.m := EmptyRow(x)] else map[], if content then Texts(x) else map[],
          Wrote(x).(sides := map[x.m := InLedger], gone := if record then {} else {x.m}),
          map[0 := Idle, 1 := reader, 2 := forgetter])
  }

  function Hits(x: Note): seq<Candidate> {
    [Candidate(x.text, [x.ref])]
  }

  function Reader(x: Note): Client {
    Gathering(x.reader, Hits(x), [EmptyRow(x)], {}, 0, {})
  }

  lemma ReachesReader(x: Note)
    requires Reachable(Emptied(x)) && ValidRef(x.reader.subject, "user")
    ensures Reachable(Beside(x, true, true, Reader(x), Idle))
  {
    var s := Emptied(x);
    var looking := s.(clients := map[0 := Idle, 1 := Looking(x.reader, Hits(x), [])]);
    assert Reachable(looking) by {
      Reaches(s, BeginRecall(1, x.reader, Hits(x)), looking);
    }
    var waiting := s.(clients := map[0 := Idle, 1 := Reader(x)]);
    assert Reachable(waiting) by {
      ReachesRow(x, looking, waiting);
    }
    Reaches(waiting, Abort(2), Beside(x, true, true, Reader(x), Idle));
  }

  lemma ReachesRow(x: Note, looking: State, waiting: State)
    requires looking == Emptied(x).(clients := map[0 := Idle, 1 := Looking(x.reader, Hits(x), [])])
    requires waiting == Emptied(x).(clients := map[0 := Idle, 1 := Reader(x)])
    requires Reachable(looking)
    ensures Reachable(waiting)
  {
    assert [] + [EmptyRow(x)] == [EmptyRow(x)];
    Reaches(looking, ReadLedger(1, Some(EmptyRow(x))), waiting);
  }

  lemma ReachesForget(x: Note, e: Engine, policy: Option<Policy>)
    requires Reachable(Beside(x, true, true, Reader(x), Idle)) && Admits(e, policy, AsWriter(x.ask), [], [x.m])
    ensures Reachable(Beside(x, true, true, Reader(x), DeletingContent(x.m, x.ref)))
  {
    Reaches(Beside(x, true, true, Reader(x), Idle), BeginForget(2, x.m, x.ask, e, policy, None),
            Beside(x, true, true, Reader(x), DeletingContent(x.m, x.ref)));
  }

  lemma ReachesContentGone(x: Note)
    requires Reachable(Beside(x, true, true, Reader(x), DeletingContent(x.m, x.ref)))
    ensures Reachable(Beside(x, false, true, Reader(x), DeletingRecord(x.m)))
  {
    Reaches(Beside(x, true, true, Reader(x), DeletingContent(x.m, x.ref)), DeleteContent(2),
            Beside(x, false, true, Reader(x), DeletingRecord(x.m)));
  }

  lemma ReachesRecordGone(x: Note)
    requires Reachable(Beside(x, false, true, Reader(x), DeletingRecord(x.m)))
    ensures Reachable(Beside(x, false, false, Reader(x), ListingSources(x.m)))
  {
    Reaches(Beside(x, false, true, Reader(x), DeletingRecord(x.m)), DeleteRecord(2),
            Beside(x, false, false, Reader(x), ListingSources(x.m)));
  }

  lemma ReachesListed(x: Note)
    requires Reachable(Beside(x, false, false, Reader(x), ListingSources(x.m)))
    ensures Reachable(Beside(x, false, false, Reader(x), DeletingTuples(x.m, Provenance(x))))
  {
    var sources := About(Provenance(x), x.m, "derived_from");
    var s := Beside(x, false, false, Reader(x), ListingSources(x.m));
    var t := Beside(x, false, false, Reader(x), ListingWriter(x.m, sources));
    assert Reachable(t) by {
      Reaches(s, ListSources(2), t);
    }
    assert sources + About(Provenance(x), x.m, "writer") == Provenance(x);
    Reaches(t, ListWriter(2), Beside(x, false, false, Reader(x), DeletingTuples(x.m, Provenance(x))));
  }

  /** The forget is through, and the recall has read the tuples that are left. */
  function Late(x: Note, reader: Client): State {
    State({}, map[], map[], Wrote(x).(sides := map[x.m := InLedger], gone := {x.m}, cleared := {x.m}),
          map[0 := Idle, 1 := reader, 2 := Idle])
  }

  function LateReader(x: Note): Client {
    Gathering(x.reader, Hits(x), [EmptyRow(x)], {}, 1, {x.m})
  }

  lemma ReachesCleared(x: Note)
    requires Reachable(Beside(x, false, false, Reader(x), DeletingTuples(x.m, Provenance(x))))
    ensures Reachable(Late(x, Reader(x)))
  {
    Reaches(Beside(x, false, false, Reader(x), DeletingTuples(x.m, Provenance(x))), DeleteTuples(2),
            Late(x, Reader(x)));
  }

  lemma ReachesLate(x: Note)
    requires Reachable(Late(x, Reader(x)))
    ensures Reachable(Late(x, LateReader(x)))
  {
    var none: set<string> := {};
    assert none + SourcesIn({}, x.m) == none && none + {x.m} == {x.m};
    var s := Late(x, Reader(x));
    assert s.clients[1 := LateReader(x)] == Late(x, LateReader(x)).clients;
    Reaches(Late(x, Reader(x)), ReadTuples(1), Late(x, LateReader(x)));
  }

  /**
   * The exception is real: whatever the engine answers at the end, any agent of the subject that has the memory in
   * scope gets a text that was written from a document nobody asked the engine about.
   */
  lemma RaceReturnsUnchecked(
    x: Note, e: Engine, policy: Option<Policy>, late: Engine)
    requires ValidRef(x.d, "document") && Admits(e, policy, AsWriter(x.ask), [x.d], [x.d])
    requires InScope(AsWriter(x.ask), x.m) && InScope(AsReader(x.reader), x.m) && x.reader.subject == x.ask.subject
    ensures var s, decide := Late(x, LateReader(x)), DecideCandidate(1, late, policy, None, []);
            && Reachable(s) && Returns(s, decide)
            && s.h.origins[x.m].sources == {x.d} && Raced(s, 1, x.m)
            && !ViewerOf(late, x.reader, [], x.d)
  {
    ReachesPlaced(x, e, policy);
    ReachesEmptied(x);
    ReachesReader(x);
    ReachesForget(x, e, policy);
    ReachesContentGone(x);
    ReachesRecordGone(x);
    ReachesListed(x);
    ReachesCleared(x);
    ReachesLate(x);
    LateReturns(x, policy, late);
  }

  lemma LateReturns(x: Note, policy: Option<Policy>, late: Engine)
    requires InScope(AsReader(x.reader), x.m)
    requires x.reader.subject == x.ask.subject && ValidRef(x.reader.subject, "user")
    ensures Returns(Late(x, LateReader(x)), DecideCandidate(1, late, policy, None, []))
  {
    assert Ids([EmptyRow(x)]) == [x.m];
    assert AllSources([EmptyRow(x)], {}) == {} == SetOf([]);
  }
}
