/** What every step of the memory protocol keeps. */
module MemorySafety {
  import opened Wrappers
  import opened Refs
  import opened Tuples
  import opened MemoryStores
  import opened MemoryProtocol

  // ---- Invariant ---------------------------------------------------------------------------

  predicate HistoryOk(h: History) {
    && h.placed <= h.origins.Keys
    && h.gone <= h.placed
    && h.cleared <= h.gone
    && (forall ref :: ref in h.refs ==> h.refs[ref] in h.origins)
    && (forall m :: m in h.sides ==> h.sides[m] != Nowhere)
  }

  /** A record as the ledger held it at some time: whose it is, and its sources unless they were tampered with. */
  predicate RowOk(row: Record, h: History) {
    var m := row.memoryId;
    && m in h.placed && m in h.origins
    && row.ref in h.refs && h.refs[row.ref] == m
    && row.writtenFor == h.origins[m].writtenFor
    && (SideOf(h, m) != InLedger ==> row.derivedFrom == h.origins[m].sources)
  }

  predicate LedgerOk(ledger: Ledger, h: History) {
    forall m :: m in ledger ==> ledger[m].memoryId == m && m !in h.gone && RowOk(ledger[m], h)
  }

  predicate BackendOk(backend: Contents, h: History) {
    forall ref :: ref in backend ==>
      ref in h.refs && h.refs[ref] == backend[ref].memoryId && h.refs[ref] in h.origins
      && backend[ref].text == h.origins[h.refs[ref]].text
  }

  /** All sources of `m` are among its tuples. */
  predicate Backed(tuples: set<Tuple>, m: string, h: History) {
    m in h.origins && (SideOf(h, m) != InTuples ==> h.origins[m].sources <= SourcesIn(tuples, m))
  }

  predicate TuplesOk(tuples: set<Tuple>, h: History) {
    && (forall m :: m in h.placed && m !in h.cleared ==> Backed(tuples, m, h))
    && forall t :: t in tuples && t.relation == "derived_from" ==>
         t.obj in h.sides || (t.obj in h.origins && t.user in h.origins[t.obj].sources)
  }

  predicate CandidateOk(c: Candidate, h: History) {
    |c.refs| == 1 ==>
      c.refs[0] in h.refs && h.refs[c.refs[0]] in h.origins && c.text == h.origins[h.refs[c.refs[0]]].text
  }

  predicate RowsOk(refs: seq<string>, rows: seq<Record>, h: History) {
    |rows| <= |refs| && forall i :: 0 <= i < |rows| ==> RowOk(rows[i], h) && rows[i].ref == refs[i]
  }

  /** The sources of `m` are all known, unless its ledger row was tampered with and its tuples had been deleted. */
  predicate Known(m: string, sources: set<string>, raced: set<string>, h: History) {
    m in h.origins && (h.origins[m].sources <= sources || (SideOf(h, m) == InLedger && m in raced))
  }

  /** Nothing but the sources is known, unless tampered with. */
  predicate OnlyKnown(rows: seq<Record>, found: set<string>, h: History) {
    forall d :: d in found ==>
      exists i :: 0 <= i < |rows| && (rows[i].memoryId in h.sides ||
        (rows[i].memoryId in h.origins && d in h.origins[rows[i].memoryId].sources))
  }

  /** A remember under way: its memory is its own and has no record yet. */
  predicate Unplaced(k: nat, m: string, trail: set<Tuple>, h: History) {
    && m in h.origins && h.origins[m].client == k && m !in h.placed
    && (forall t :: t in trail ==> t.obj == m)
    && (forall d :: d in h.origins[m].sources ==> Tuple(d, "derived_from", m) in trail)
    && (forall t :: t in trail && t.relation == "derived_from" ==> t.user in h.origins[m].sources)
  }

  predicate RememberOk(c: Client, k: nat, tuples: set<Tuple>, h: History) {
    match c
    case WritingTuples(m, trail) => Unplaced(k, m, trail, h)
    case StoringContent(m, trail) => Unplaced(k, m, trail, h) && Backed(tuples, m, h)
    case PuttingRecord(m, trail, ref) =>
      Unplaced(k, m, trail, h) && Backed(tuples, m, h) && ref in h.refs && h.refs[ref] == m
    case RollingContent(m, trail, ref) => Unplaced(k, m, trail, h) && ref in h.refs && h.refs[ref] == m
    case RollingTuples(m, trail) => Unplaced(k, m, trail, h)
    case RollingRecord(m) => m in h.origins && h.origins[m].client == k && m !in h.placed
    case _ => true
  }

  predicate RecallOk(c: Client, h: History) {
    match c
    case Looking(ask, todo, rows) =>
      && ValidRef(ask.subject, "user")
      && todo != [] && (forall i :: 0 <= i < |todo| ==> CandidateOk(todo[i], h))
      && RowsOk(todo[0].refs, rows, h)
    case Gathering(ask, todo, rows, found, at, raced) =>
      && ValidRef(ask.subject, "user")
      && todo != [] && (forall i :: 0 <= i < |todo| ==> CandidateOk(todo[i], h))
      && RowsOk(todo[0].refs, rows, h) && 0 < |rows| == |todo[0].refs| && at <= |rows|
      && (forall i :: 0 <= i < at ==> Known(rows[i].memoryId, rows[i].derivedFrom + found, raced, h))
      && OnlyKnown(rows, found, h)
    case _ => true
  }

  predicate ForgetOk(c: Client, h: History) {
    match c
    case DeletingContent(m, ref) => m in h.placed && ref in h.refs && h.refs[ref] == m
    case DeletingRecord(m) => m in h.placed
    case ListingSources(m) => m in h.gone
    case ListingWriter(m, doomed) => m in h.gone && forall t :: t in doomed ==> t.obj == m
    case DeletingTuples(m, doomed) => m in h.gone && forall t :: t in doomed ==> t.obj == m
    case _ => true
  }

  predicate ClientOk(c: Client, k: nat, tuples: set<Tuple>, h: History) {
    RememberOk(c, k, tuples, h) && RecallOk(c, h) && ForgetOk(c, h)
  }

  predicate StoresOk(s: State) {
    HistoryOk(s.h) && LedgerOk(s.ledger, s.h) && BackendOk(s.backend, s.h) && TuplesOk(s.tuples, s.h)
  }

  predicate ClientsOk(s: State) {
    forall k :: k in s.clients ==> ClientOk(s.clients[k], k, s.tuples, s.h)
  }

  predicate Inv(s: State) {
    StoresOk(s) && ClientsOk(s)
  }

  // ---- Histories only grow -----------------------------------------------------------------

  predicate Extends(h: History, g: History) {
    && (forall m :: m in h.origins ==> m in g.origins && g.origins[m] == h.origins[m])
    && (forall r :: r in h.refs ==> r in g.refs && g.refs[r] == h.refs[r])
    && h.placed <= g.placed && h.gone <= g.gone && h.cleared <= g.cleared
    && (forall m :: m in h.sides ==> m in g.sides && g.sides[m] == h.sides[m] != Nowhere)
  }

  lemma StepExtends(s: State, e: Event)
    requires HistoryOk(s.h) && Enabled(s, e)
    ensures Extends(s.h, Apply(s, e).h)
  {
  }

  lemma RowExtends(row: Record, h: History, g: History)
    requires RowOk(row, h) && Extends(h, g)
    ensures RowOk(row, g)
  {
  }

  lemma RowsExtend(refs: seq<string>, rows: seq<Record>, h: History, g: History)
    requires RowsOk(refs, rows, h) && Extends(h, g)
    ensures RowsOk(refs, rows, g)
  {
    forall i | 0 <= i < |rows|
      ensures RowOk(rows[i], g) && rows[i].ref == refs[i]
    {
      RowExtends(rows[i], h, g);
    }
  }

  lemma OnlyKnownExtends(rows: seq<Record>, found: set<string>, h: History, g: History)
    requires OnlyKnown(rows, found, h) && Extends(h, g)
    ensures OnlyKnown(rows, found, g)
  {
    forall d | d in found
      ensures exists i :: 0 <= i < |rows| && (rows[i].memoryId in g.sides ||
                (rows[i].memoryId in g.origins && d in g.origins[rows[i].memoryId].sources))
    {
      var i :| 0 <= i < |rows| && (rows[i].memoryId in h.sides ||
        (rows[i].memoryId in h.origins && d in h.origins[rows[i].memoryId].sources));
      assert rows[i].memoryId in g.sides || d in g.origins[rows[i].memoryId].sources;
    }
  }

  lemma RecallExtends(c: Client, h: History, g: History)
    requires RecallOk(c, h) && Extends(h, g)
    ensures RecallOk(c, g)
  {
    if c.Looking? || c.Gathering? {
      RowsExtend(c.todo[0].refs, c.rows, h, g);
    }
    if c.Gathering? {
      OnlyKnownExtends(c.rows, c.found, h, g);
      forall i | 0 <= i < c.at
        ensures Known(c.rows[i].memoryId, c.rows[i].derivedFrom + c.found, c.raced, g)
      {
        assert Known(c.rows[i].memoryId, c.rows[i].derivedFrom + c.found, c.raced, h);
      }
    }
  }

  // ---- Tuples ------------------------------------------------------------------------------

  /** The memory whose tuples a step may change. */
  function Touched(s: State, e: Event): Option<string> {
    match e
    case WriteTuples(k) => var c := ClientOf(s, k); if c.WritingTuples? then Some(c.m) else None
    case RollTuples(k) => var c := ClientOf(s, k); if c.RollingTuples? then Some(c.m) else None
    case DeleteTuples(k) => var c := ClientOf(s, k); if c.DeletingTuples? then Some(c.m) else None
    case TamperTuples(m, _) => Some(m)
    case _ => None
  }

  lemma ClientHolds(s: State, k: nat)
    requires ClientsOk(s)
    ensures ClientOk(ClientOf(s, k), k, s.tuples, s.h)
  {
  }

  lemma UntouchedTuple(s: State, e: Event, t: Tuple)
    requires Inv(s) && Enabled(s, e) && Touched(s, e) != Some(t.obj)
    ensures t in Apply(s, e).tuples <==> t in s.tuples
  {
    if !IsTampering(e) {
      ClientHolds(s, e.k);
    }
  }

  lemma UntouchedSources(s: State, e: Event, m: string)
    requires Inv(s) && Enabled(s, e) && Touched(s, e) != Some(m)
    ensures SourcesIn(Apply(s, e).tuples, m) == SourcesIn(s.tuples, m)
  {
    var after := Apply(s, e).tuples;
    forall d
      ensures d in SourcesIn(after, m) <==> d in SourcesIn(s.tuples, m)
    {
      var t := Tuple(d, "derived_from", m);
      UntouchedTuple(s, e, t);
      assert d in SourcesIn(after, m) <==> t in after;
      assert d in SourcesIn(s.tuples, m) <==> t in s.tuples;
    }
  }

  /** Tuples that back a memory stay, unless its own rollback, its forget or a tamperer removes them. */
  lemma BackedStays(s: State, e: Event, m: string)
    requires Inv(s) && Enabled(s, e) && Backed(s.tuples, m, s.h)
    requires !(e.RollTuples? && ClientOf(s, e.k).m == m)
    requires !(e.DeleteTuples? && ClientOf(s, e.k).m == m)
    ensures Backed(Apply(s, e).tuples, m, Apply(s, e).h)
  {
    StepExtends(s, e);
    var after := Apply(s, e);
    if Touched(s, e) != Some(m) {
      UntouchedSources(s, e, m);
    } else if e.WriteTuples? {
      assert forall t :: t in s.tuples ==> t in after.tuples;
      assert SourcesIn(s.tuples, m) <= SourcesIn(after.tuples, m);
    }
  }

  lemma TuplesKept(s: State, e: Event)
    requires Inv(s) && Enabled(s, e)
    ensures TuplesOk(Apply(s, e).tuples, Apply(s, e).h)
  {
    var after := Apply(s, e);
    StepExtends(s, e);
    forall m | m in after.h.placed && m !in after.h.cleared
      ensures Backed(after.tuples, m, after.h)
    {
      PlacedBacked(s, e, m);
    }
    forall t | t in after.tuples && t.relation == "derived_from"
      ensures t.obj in after.h.sides || (t.obj in after.h.origins && t.user in after.h.origins[t.obj].sources)
    {
      NewTupleKnown(s, e, t);
    }
  }

  /** A memory is placed by its own remember, whose tuples back it. */
  lemma NewlyPlaced(s: State, e: Event, m: string)
    requires Inv(s) && Enabled(s, e) && m in NextHistory(s, e).placed && m !in s.h.placed
    ensures e.PutRecord? && ClientOf(s, e.k).m == m && Backed(s.tuples, m, s.h)
  {
    if e.PutRecord? {
      ClientHolds(s, e.k);
    }
  }

  /** Only a memory that is not placed is rolled back. */
  lemma NotRolledBack(s: State, e: Event, m: string)
    requires Inv(s) && Enabled(s, e) && e.RollTuples? && m in s.h.placed
    ensures ClientOf(s, e.k).m != m
  {
    ClientHolds(s, e.k);
  }

  lemma PlacedBacked(s: State, e: Event, m: string)
    requires Inv(s) && Enabled(s, e) && m in NextHistory(s, e).placed && m !in NextHistory(s, e).cleared
    ensures Backed(NextTuples(s, e), m, NextHistory(s, e))
  {
    if m !in s.h.placed {
      NewlyPlaced(s, e, m);
    } else if e.RollTuples? {
      NotRolledBack(s, e, m);
    }
    assert Backed(s.tuples, m, s.h);
    BackedStays(s, e, m);
  }

  lemma NewTupleKnown(s: State, e: Event, t: Tuple)
    requires Inv(s) && Enabled(s, e) && t in Apply(s, e).tuples && t.relation == "derived_from"
    ensures var g := Apply(s, e).h;
            t.obj in g.sides || (t.obj in g.origins && t.user in g.origins[t.obj].sources)
  {
    StepExtends(s, e);
    if t !in s.tuples {
      if !IsTampering(e) {
        ClientHolds(s, e.k);
      }
      assert e.WriteTuples? || e.TamperTuples?;
    }
  }

  // ---- Stores ------------------------------------------------------------------------------

  lemma HistoryKept(s: State, e: Event)
    requires Inv(s) && Enabled(s, e)
    ensures HistoryOk(NextHistory(s, e))
  {
    var h := NextHistory(s, e);
    if e.StoreContent? || e.PutRecord? || e.DeleteRecord? || e.DeleteTuples? {
      ClientHolds(s, e.k);
    } else if !e.BeginRemember? && !IsTampering(e) {
      assert h == s.h;
    }
  }

  lemma PlacedRowOk(s: State, e: Event)
    requires Inv(s) && Enabled(s, e) && e.PutRecord?
    ensures var m := ClientOf(s, e.k).m;
            && m in NextLedger(s, e) && NextLedger(s, e)[m].memoryId == m
            && m !in NextHistory(s, e).gone && RowOk(NextLedger(s, e)[m], NextHistory(s, e))
  {
    ClientHolds(s, e.k);
  }

  lemma LedgerKept(s: State, e: Event)
    requires Inv(s) && Enabled(s, e)
    ensures LedgerOk(NextLedger(s, e), NextHistory(s, e))
  {
    var ledger, h := NextLedger(s, e), NextHistory(s, e);
    StepExtends(s, e);
    forall m | m in ledger
      ensures ledger[m].memoryId == m && m !in h.gone && RowOk(ledger[m], h)
    {
      if e.PutRecord? && m == ClientOf(s, e.k).m {
        PlacedRowOk(s, e);
      } else {
        RowExtends(s.ledger[m], s.h, h);
      }
    }
  }

  lemma BackendKept(s: State, e: Event)
    requires Inv(s) && Enabled(s, e)
    ensures BackendOk(Apply(s, e).backend, Apply(s, e).h)
  {
    StepExtends(s, e);
    if !IsTampering(e) {
      ClientHolds(s, e.k);
    }
  }

  // ---- Clients -----------------------------------------------------------------------------

  /** A client that does not move keeps its place. */
  lemma OtherClientKept(s: State, e: Event, j: nat)
    requires Inv(s) && Enabled(s, e) && (IsTampering(e) || e.k != j)
    ensures ClientOk(ClientOf(s, j), j, Apply(s, e).tuples, Apply(s, e).h)
  {
    ClientHolds(s, j);
    var c, after := ClientOf(s, j), Apply(s, e);
    StepExtends(s, e);
    RecallExtends(c, s.h, after.h);
    OtherRememberKept(s, e, j);
  }

  /** A record is only ever placed by the client that began the memory. */
  lemma StaysUnplaced(s: State, e: Event, j: nat, m: string)
    requires Inv(s) && Enabled(s, e) && (IsTampering(e) || e.k != j)
    requires m in s.h.origins && s.h.origins[m].client == j && m !in s.h.placed
    ensures var g := NextHistory(s, e);
            m in g.origins && g.origins[m] == s.h.origins[m] && m !in g.placed
  {
    StepExtends(s, e);
    if e.PutRecord? {
      ClientHolds(s, e.k);
    }
  }

  /** What a remember under way relies on, in the history alone. */
  lemma UnplacedStays(s: State, e: Event, j: nat, m: string, trail: set<Tuple>)
    requires Inv(s) && Enabled(s, e) && (IsTampering(e) || e.k != j) && Unplaced(j, m, trail, s.h)
    ensures Unplaced(j, m, trail, NextHistory(s, e))
  {
    StaysUnplaced(s, e, j, m);
  }

  lemma OtherRememberKept(s: State, e: Event, j: nat)
    requires Inv(s) && Enabled(s, e) && (IsTampering(e) || e.k != j)
    ensures RememberOk(ClientOf(s, j), j, NextTuples(s, e), NextHistory(s, e))
  {
    ClientHolds(s, j);
    var c := ClientOf(s, j);
    match c
    case WritingTuples(m, trail) => UnplacedStays(s, e, j, m, trail);
    case StoringContent(m, trail) =>
      UnplacedStays(s, e, j, m, trail);
      OtherBackedStays(s, e, j);
    case PuttingRecord(m, trail, ref) =>
      UnplacedStays(s, e, j, m, trail);
      OtherBackedStays(s, e, j);
      StepExtends(s, e);
    case RollingContent(m, trail, ref) =>
      UnplacedStays(s, e, j, m, trail);
      StepExtends(s, e);
    case RollingTuples(m, trail) => UnplacedStays(s, e, j, m, trail);
    case RollingRecord(m) => StaysUnplaced(s, e, j, m);
    case _ =>
  }

  lemma OtherBackedStays(s: State, e: Event, j: nat)
    requires Inv(s) && Enabled(s, e) && (IsTampering(e) || e.k != j)
    requires ClientOf(s, j).StoringContent? || ClientOf(s, j).PuttingRecord?
    ensures Backed(NextTuples(s, e), ClientOf(s, j).m, NextHistory(s, e))
  {
    ClientHolds(s, j);
    NotMine(s, e, j);
    BackedStays(s, e, ClientOf(s, j).m);
  }

  predicate Remembers(c: Client) {
    || c.WritingTuples? || c.StoringContent? || c.PuttingRecord?
    || c.RollingContent? || c.RollingTuples? || c.RollingRecord?
  }

  /** No other client deletes the tuples of a memory that is being written. */
  lemma NotMine(s: State, e: Event, j: nat)
    requires Inv(s) && Enabled(s, e) && (IsTampering(e) || e.k != j) && Remembers(ClientOf(s, j))
    ensures !(e.RollTuples? && ClientOf(s, e.k).m == ClientOf(s, j).m)
    ensures !(e.DeleteTuples? && ClientOf(s, e.k).m == ClientOf(s, j).m)
  {
    ClientHolds(s, j);
    if e.RollTuples? || e.DeleteTuples? {
      ClientHolds(s, e.k);
    }
  }

  lemma MoveOnOk(c: Client, h: History)
    requires RecallOk(c, h) && (c.Looking? || c.Gathering?)
    ensures RecallOk(MoveOn(c), h)
  {
    assert forall i :: 0 < i < |c.todo| ==> c.todo[1..][i - 1] == c.todo[i];
    assert |c.todo| > 1 ==> RowsOk(c.todo[1..][0].refs, [], h);
  }

  lemma FailureOk(c: Client, k: nat, tuples: set<Tuple>, h: History)
    requires ClientOk(c, k, tuples, h)
    ensures ClientOk(AfterFailure(c), k, tuples, h)
  {
    if c.Looking? || c.Gathering? {
      MoveOnOk(c, h);
    }
  }

  lemma RecallMoves(s: State, e: Event)
    requires Inv(s) && Enabled(s, e) && !IsTampering(e) && !e.FailCall?
    ensures RecallOk(NextClient(s, e), s.h)
  {
    ClientHolds(s, e.k);
    var c := ClientOf(s, e.k);
    if e.BeginRecall? {
      HitsOk(s, e.candidates);
    } else if e.ReadLedger? && e.row.Some? {
      LookupOk(s, e);
    } else if e.ReadTuples? {
      GatherOk(s, e);
    } else if e.ReadLedger? || e.SkipCandidate? || e.DecideCandidate? {
      MoveOnOk(c, s.h);
    }
  }

  lemma HitsOk(s: State, candidates: seq<Candidate>)
    requires StoresOk(s) && forall i :: 0 <= i < |candidates| ==> Hit(s.backend, candidates[i])
    ensures forall i :: 0 <= i < |candidates| ==> CandidateOk(candidates[i], s.h)
  {
  }

  lemma LookupOk(s: State, e: Event)
    requires Inv(s) && Enabled(s, e) && e.ReadLedger? && e.row.Some?
    ensures RecallOk(NextClient(s, e), s.h)
  {
    ClientHolds(s, e.k);
    var c := ClientOf(s, e.k);
    assert RowOk(e.row.value, s.h);
    var rows := c.rows + [e.row.value];
    assert RowsOk(c.todo[0].refs, rows, s.h);
  }

  lemma GatherOk(s: State, e: Event)
    requires Inv(s) && Enabled(s, e) && e.ReadTuples?
    ensures RecallOk(NextClient(s, e), s.h)
  {
    ClientHolds(s, e.k);
    var c, d := ClientOf(s, e.k), NextClient(s, e);
    forall i | 0 <= i < d.at
      ensures Known(d.rows[i].memoryId, d.rows[i].derivedFrom + d.found, d.raced, s.h)
    {
      assert RowOk(d.rows[i], s.h);
      if i < c.at {
        assert Known(c.rows[i].memoryId, c.rows[i].derivedFrom + c.found, c.raced, s.h);
      } else {
        var m := d.rows[i].memoryId;
        assert m !in s.h.cleared ==> Backed(s.tuples, m, s.h);
      }
    }
    GatherOnly(s, c.rows, c.found, c.at);
  }

  lemma GatherOnly(s: State, rows: seq<Record>, found: set<string>, at: nat)
    requires StoresOk(s) && at < |rows| && OnlyKnown(rows, found, s.h)
    ensures OnlyKnown(rows, found + SourcesIn(s.tuples, rows[at].memoryId), s.h)
  {
    var m := rows[at].memoryId;
    forall d | d in found + SourcesIn(s.tuples, m)
      ensures exists i :: 0 <= i < |rows| && (rows[i].memoryId in s.h.sides ||
                (rows[i].memoryId in s.h.origins && d in s.h.origins[rows[i].memoryId].sources))
    {
      if d !in found {
        assert Tuple(d, "derived_from", m) in s.tuples;
        assert rows[at].memoryId in s.h.sides || d in s.h.origins[rows[at].memoryId].sources;
      }
    }
  }

  lemma BegunOk(s: State, e: Event)
    requires Inv(s) && Enabled(s, e) && e.BeginRemember?
    ensures RememberOk(NextClient(s, e), e.k, s.tuples, NextHistory(s, e))
  {
    NewIsUnplaced(s.h, e.k, e.m, e.ask.subject, e.ask.actor, e.text, SetOf(e.sources));
  }

  lemma NewIsUnplaced(
    h: History, k: nat, m: string, subject: string, actor: string, text: string, sources: set<string>)
    requires HistoryOk(h) && m !in h.origins
    ensures Unplaced(k, m, Trail(sources, actor, m), h.(origins := h.origins[m := Origin(sources, subject, text, k)]))
  {
  }

  lemma WrittenOk(s: State, e: Event)
    requires Inv(s) && Enabled(s, e) && e.WriteTuples?
    ensures RememberOk(NextClient(s, e), e.k, NextTuples(s, e), s.h)
  {
    ClientHolds(s, e.k);
    var c, tuples := ClientOf(s, e.k), NextTuples(s, e);
    forall d | d in s.h.origins[c.m].sources
      ensures d in SourcesIn(tuples, c.m)
    {
      assert Tuple(d, "derived_from", c.m) in tuples;
    }
  }

  lemma StoredOk(s: State, e: Event)
    requires Inv(s) && Enabled(s, e) && e.StoreContent?
    ensures RememberOk(NextClient(s, e), e.k, s.tuples, NextHistory(s, e))
  {
    ClientHolds(s, e.k);
  }

  lemma RememberMoves(s: State, e: Event)
    requires Inv(s) && Enabled(s, e) && !IsTampering(e) && !e.FailCall?
    ensures RememberOk(NextClient(s, e), e.k, NextTuples(s, e), NextHistory(s, e))
  {
    ClientHolds(s, e.k);
    if e.BeginRemember? {
      BegunOk(s, e);
    } else if e.WriteTuples? {
      WrittenOk(s, e);
    } else if e.StoreContent? {
      StoredOk(s, e);
    }
  }

  predicate IsForget(e: Event) {
    e.BeginForget? || e.DeleteContent? || e.DeleteRecord? || e.ListSources? || e.ListWriter? || e.DeleteTuples?
  }

  predicate Forgets(c: Client) {
    c.DeletingContent? || c.DeletingRecord? || c.ListingSources? || c.ListingWriter? || c.DeletingTuples?
  }

  lemma ForgetWorks(s: State, e: Event)
    requires Inv(s) && Enabled(s, e) && IsForget(e)
    ensures ForgetOk(NextClient(s, e), NextHistory(s, e))
  {
    if !e.BeginForget? {
      ClientHolds(s, e.k);
    }
  }

  lemma OthersDoNotForget(s: State, e: Event)
    requires Enabled(s, e) && !IsTampering(e) && !e.FailCall? && !IsForget(e)
    ensures !Forgets(NextClient(s, e))
  {
  }

  lemma ForgetMoves(s: State, e: Event)
    requires Inv(s) && Enabled(s, e) && !IsTampering(e) && !e.FailCall?
    ensures ForgetOk(NextClient(s, e), NextHistory(s, e))
  {
    if IsForget(e) {
      ForgetWorks(s, e);
    } else {
      OthersDoNotForget(s, e);
    }
  }

  /** The client that moves is in order where it arrives. */
  lemma ActingClientKept(s: State, e: Event)
    requires Inv(s) && Enabled(s, e) && !IsTampering(e)
    ensures ClientOk(NextClient(s, e), e.k, NextTuples(s, e), NextHistory(s, e))
  {
    if e.FailCall? {
      ClientHolds(s, e.k);
      FailureOk(ClientOf(s, e.k), e.k, s.tuples, s.h);
    } else {
      RememberMoves(s, e);
      RecallMoves(s, e);
      StepExtends(s, e);
      RecallExtends(NextClient(s, e), s.h, NextHistory(s, e));
      ForgetMoves(s, e);
    }
  }

  lemma ClientsKept(s: State, e: Event)
    requires Inv(s) && Enabled(s, e)
    ensures ClientsOk(Apply(s, e))
  {
    var after := Apply(s, e);
    forall j | j in after.clients
      ensures ClientOk(after.clients[j], j, after.tuples, after.h)
    {
      if !IsTampering(e) && j == e.k {
        ActingClientKept(s, e);
      } else {
        OtherClientKept(s, e, j);
        assert after.clients[j] == ClientOf(s, j);
      }
    }
  }

  lemma StepKeeps(s: State, e: Event)
    requires Inv(s) && Enabled(s, e)
    ensures Inv(Apply(s, e))
  {
    HistoryKept(s, e);
    LedgerKept(s, e);
    BackendKept(s, e);
    TuplesKept(s, e);
    ClientsKept(s, e);
  }

  lemma {:induction false} RunKeeps(states: seq<State>, events: seq<Event>, n: nat)
    requires IsRun(states, events) && n <= |events|
    ensures Inv(states[n])
  {
    if n == 0 {
    } else {
      var last := n - 1;
      RunKeeps(states, events, last);
      assert Step(states[last], events[last], states[last + 1]);
      StepKeeps(states[last], events[last]);
    }
  }
}
