/**
 * Provenance memory as a transition system: any number of clients remember, recall and forget over a tuple store, a
 * ledger and a content backend. Every store call is one step; every call may fail without effect.
 */
module MemoryProtocol {
  import opened Wrappers
  import opened Refs
  import opened Scopes
  import opened Policies
  import opened Decider
  import opened Tuples
  import opened MemoryStores

  /** The name under which the one content backend is known to the ledger. */
  const BACKEND := "inmemory"

  type Permits = Option<(Kind, seq<string>) -> map<string, bool>>

  // ---- History -----------------------------------------------------------------------------

  /** What a memory was written from, for whom, and by which client. */
  datatype Origin = Origin(sources: set<string>, writtenFor: string, text: string, client: nat)

  /** Which copy of a memory's provenance was tampered with. */
  datatype Side = Nowhere | InLedger | InTuples

  /**
   * What happened so far: every memory begun, the memory each backend reference was issued for, the memories whose
   * record was placed, whose record was deleted, whose tuples a forget deleted, and where provenance was tampered with.
   */
  datatype History = History(
    origins: map<string, Origin>, refs: map<string, string>, placed: set<string>, gone: set<string>,
    cleared: set<string>, sides: map<string, Side>)

  function SideOf(h: History, m: string): Side {
    if m in h.sides then h.sides[m] else Nowhere
  }

  // ---- Clients -----------------------------------------------------------------------------

  datatype Client =
    | Idle
    // remember, and its rollback
    | WritingTuples(m: string, trail: set<Tuple>)
    | StoringContent(m: string, trail: set<Tuple>)
    | PuttingRecord(m: string, trail: set<Tuple>, ref: string)
    | RollingContent(m: string, trail: set<Tuple>, ref: string)
    | RollingTuples(m: string, trail: set<Tuple>)
    | RollingRecord(m: string)
    // recall: the current candidate is the first of `todo`
    | Looking(ask: Ask, todo: seq<Candidate>, rows: seq<Record>)
    | Gathering(ask: Ask, todo: seq<Candidate>, rows: seq<Record>, found: set<string>, at: nat, raced: set<string>)
    // forget
    | DeletingContent(m: string, ref: string)
    | DeletingRecord(m: string)
    | ListingSources(m: string)
    | ListingWriter(m: string, doomed: set<Tuple>)
    | DeletingTuples(m: string, doomed: set<Tuple>)

  datatype State = State(
    tuples: set<Tuple>, ledger: Ledger, backend: Contents, h: History,
    clients: map<nat, Client>)

  function ClientOf(s: State, k: nat): Client {
    if k in s.clients then s.clients[k] else Idle
  }

  const INIT: State := State({}, map[], map[], History(map[], map[], {}, {}, {}, map[]), map[])

  // ---- What the calls compute --------------------------------------------------------------

  function SetOf(items: seq<string>): set<string> {
    set x | x in items
  }

  function SourcesIn(tuples: set<Tuple>, m: string): set<string> {
    set t | t in tuples && t.obj == m && t.relation == "derived_from" :: t.user
  }

  function About(tuples: set<Tuple>, m: string, relation: string): set<Tuple> {
    set t | t in tuples && t.obj == m && t.relation == relation
  }

  function Trail(sources: set<string>, actor: string, m: string): set<Tuple> {
    (set d | d in sources :: Tuple(d, "derived_from", m)) + {Tuple(actor, "writer", m)}
  }

  /** Some resource is refused by the token's own checks. */
  predicate Refused(permits: Permits, kind: Kind, resources: seq<string>) {
    && permits.Some? && resources != []
    && var answers := permits.value(kind, resources);
       exists i :: 0 <= i < |resources| && !(resources[i] in answers && answers[resources[i]])
  }

  function Ids(rows: seq<Record>): seq<string> {
    seq(|rows|, i requires 0 <= i < |rows| => rows[i].memoryId)
  }

  /** The union of what the ledger rows and the tuples name. */
  function AllSources(rows: seq<Record>, found: set<string>): set<string> {
    (set i, d | 0 <= i < |rows| && d in rows[i].derivedFrom :: d) + found
  }

  function AsReader(ask: Ask): Ask {
    ask.(kind := Read, relation := "viewer")
  }

  function AsWriter(ask: Ask): Ask {
    ask.(kind := Remember, relation := "viewer")
  }

  /** `decide_all` allows; an ill-formed subject or resource raises before anything is asked. */
  predicate Admits(e: Engine, policy: Option<Policy>, a: Ask, resources: seq<string>, targets: seq<string>) {
    && ValidRef(a.subject, "user")
    && (forall i :: 0 <= i < |resources| ==> ValidPattern(resources[i]))
    && DecideAll(e, policy, a, resources, targets, true).outcome == Allow
  }

  /** The candidate's text is returned: token, owner rule for sourceless memories, and the decision all agree. */
  predicate Returned(
    e: Engine, policy: Option<Policy>, permits: Permits, ask: Ask, rows: seq<Record>, listing: seq<string>)
  {
    && !Refused(permits, Read, Ids(rows) + listing)
    && (listing == [] ==> forall i :: 0 <= i < |rows| ==> rows[i].writtenFor == ask.subject)
    && Admits(e, policy, AsReader(ask), listing, Ids(rows))
  }

  // ---- Steps -------------------------------------------------------------------------------

  datatype Event =
    | BeginRemember(k: nat, m: string, ask: Ask, text: string, sources: seq<string>, e: Engine,
                    policy: Option<Policy>, permits: Permits)
    | WriteTuples(k: nat)
    | StoreContent(k: nat, ref: string)
    | PutRecord(k: nat)
    | RollContent(k: nat)
    | RollTuples(k: nat)
    | RollRecord(k: nat)
    | BeginRecall(k: nat, ask: Ask, candidates: seq<Candidate>)
    | SkipCandidate(k: nat)
    | ReadLedger(k: nat, row: Option<Record>)
    | ReadTuples(k: nat)
    | DecideCandidate(k: nat, e: Engine, policy: Option<Policy>, permits: Permits, listing: seq<string>)
    | BeginForget(k: nat, m: string, ask: Ask, e: Engine, policy: Option<Policy>, permits: Permits)
    | DeleteContent(k: nat)
    | DeleteRecord(k: nat)
    | ListSources(k: nat)
    | ListWriter(k: nat)
    | DeleteTuples(k: nat)
    | FailCall(k: nat)
    | Abort(k: nat)
    | TamperLedger(m: string, docs: set<string>)
    | TamperTuples(m: string, docs: set<string>)

  predicate IsTampering(e: Event) {
    e.TamperLedger? || e.TamperTuples?
  }

  predicate Enabled(s: State, e: Event) {
    match e
    case BeginRemember(k, m, ask, text, sources, eng, policy, permits) =>
      && ClientOf(s, k).Idle? && m !in s.h.origins
      && (forall i :: 0 <= i < |sources| ==> ValidRef(sources[i], "document"))
      && var targets := if sources == [] then [m] else sources;
         !Refused(permits, Remember, targets) && Admits(eng, policy, AsWriter(ask), sources, targets)
    case WriteTuples(k) => ClientOf(s, k).WritingTuples?
    case StoreContent(k, ref) => ClientOf(s, k).StoringContent? && ref !in s.h.refs
    case PutRecord(k) => ClientOf(s, k).PuttingRecord?
    case RollContent(k) => ClientOf(s, k).RollingContent?
    case RollTuples(k) => ClientOf(s, k).RollingTuples?
    case RollRecord(k) => ClientOf(s, k).RollingRecord?
    case BeginRecall(k, ask, candidates) =>
      && ClientOf(s, k).Idle? && ValidRef(ask.subject, "user")
      && forall i :: 0 <= i < |candidates| ==> Hit(s.backend, candidates[i])
    case SkipCandidate(k) => var c := ClientOf(s, k); c.Looking? && c.todo != [] && c.todo[0].refs == []
    case ReadLedger(k, row) =>
      var c := ClientOf(s, k);
      && c.Looking? && c.todo != [] && |c.rows| < |c.todo[0].refs|
      && var ref := c.todo[0].refs[|c.rows|];
         Finds(s.ledger, BACKEND, ref, row)
    case ReadTuples(k) => var c := ClientOf(s, k); c.Gathering? && c.at < |c.rows|
    case DecideCandidate(k, eng, policy, permits, listing) =>
      var c := ClientOf(s, k);
      c.Gathering? && c.at == |c.rows| && c.todo != [] && SetOf(listing) == AllSources(c.rows, c.found)
    case BeginForget(k, m, ask, eng, policy, permits) =>
      && ClientOf(s, k).Idle? && !Refused(permits, Remember, [m])
      && m in s.ledger && s.ledger[m].writtenFor == ask.subject
      && Admits(eng, policy, AsWriter(ask), [], [m])
    case DeleteContent(k) => ClientOf(s, k).DeletingContent?
    case DeleteRecord(k) => ClientOf(s, k).DeletingRecord?
    case ListSources(k) => ClientOf(s, k).ListingSources?
    case ListWriter(k) => ClientOf(s, k).ListingWriter?
    case DeleteTuples(k) => ClientOf(s, k).DeletingTuples?
    case FailCall(k) => !ClientOf(s, k).Idle?
    case Abort(k) => true
    case TamperLedger(m, docs) => m in s.ledger && SideOf(s.h, m) != InTuples
    case TamperTuples(m, docs) => SideOf(s.h, m) != InLedger
  }

  /** The next candidate, or done. */
  function MoveOn(c: Client): Client
    requires c.Looking? || c.Gathering?
  {
    if |c.todo| <= 1 then Idle else Looking(c.ask, c.todo[1..], [])
  }

  /** Where an exception leads: recall drops the candidate, forget gives up, remember rolls back. */
  function AfterFailure(c: Client): Client {
    match c
    case StoringContent(m, trail) => RollingTuples(m, trail)
    case PuttingRecord(m, trail, ref) => RollingContent(m, trail, ref)
    case RollingContent(m, trail, ref) => RollingTuples(m, trail)
    case RollingTuples(m, trail) => RollingRecord(m)
    case Looking(_, _, _) => MoveOn(c)
    case Gathering(_, _, _, _, _, _) => MoveOn(c)
    case _ => Idle
  }

  /** What a step does to the tuple store. */
  function NextTuples(s: State, e: Event): set<Tuple>
    requires Enabled(s, e)
  {
    match e
    case WriteTuples(k) => s.tuples + ClientOf(s, k).trail
    case RollTuples(k) => s.tuples - ClientOf(s, k).trail
    case DeleteTuples(k) => s.tuples - ClientOf(s, k).doomed
    case TamperTuples(m, docs) =>
      (s.tuples - About(s.tuples, m, "derived_from")) + (set d | d in docs :: Tuple(d, "derived_from", m))
    case _ => s.tuples
  }

  /** What a step does to the ledger. */
  function NextLedger(s: State, e: Event): Ledger
    requires Enabled(s, e)
  {
    match e
    case PutRecord(k) =>
      var c := ClientOf(s, k);
      var o := if c.m in s.h.origins then s.h.origins[c.m] else Origin({}, "", "", k);
      PutRow(s.ledger, Record(c.m, o.writtenFor, o.sources, BACKEND, c.ref))
    case RollRecord(k) => DropRow(s.ledger, ClientOf(s, k).m)
    case DeleteRecord(k) => DropRow(s.ledger, ClientOf(s, k).m)
    case TamperLedger(m, docs) => s.ledger[m := s.ledger[m].(derivedFrom := docs)]
    case _ => s.ledger
  }

  /** What a step does to the content backend. */
  function NextBackend(s: State, e: Event): Contents
    requires Enabled(s, e)
  {
    match e
    case StoreContent(k, ref) =>
      var c := ClientOf(s, k);
      StoreText(s.backend, ref, Content(c.m, if c.m in s.h.origins then s.h.origins[c.m].text else ""))
    case RollContent(k) => DropText(s.backend, ClientOf(s, k).ref)
    case DeleteContent(k) => DropText(s.backend, ClientOf(s, k).ref)
    case _ => s.backend
  }

  /** What a step adds to the history. */
  function NextHistory(s: State, e: Event): History
    requires Enabled(s, e)
  {
    match e
    case BeginRemember(k, m, ask, text, sources, _, _, _) =>
      s.h.(origins := s.h.origins[m := Origin(SetOf(sources), ask.subject, text, k)])
    case StoreContent(k, ref) => s.h.(refs := s.h.refs[ref := ClientOf(s, k).m])
    case PutRecord(k) => s.h.(placed := s.h.placed + {ClientOf(s, k).m})
    case DeleteRecord(k) => s.h.(gone := s.h.gone + {ClientOf(s, k).m})
    case DeleteTuples(k) => s.h.(cleared := s.h.cleared + {ClientOf(s, k).m})
    case TamperLedger(m, _) => s.h.(sides := s.h.sides[m := InLedger])
    case TamperTuples(m, _) => s.h.(sides := s.h.sides[m := InTuples])
    case _ => s.h
  }

  /** Where a step leaves the client that takes it. */
  function NextClient(s: State, e: Event): Client
    requires Enabled(s, e) && !IsTampering(e)
  {
    var c := ClientOf(s, e.k);
    match e
    case BeginRemember(_, m, ask, _, sources, _, _, _) => WritingTuples(m, Trail(SetOf(sources), ask.actor, m))
    case WriteTuples(_) => StoringContent(c.m, c.trail)
    case StoreContent(_, ref) => PuttingRecord(c.m, c.trail, ref)
    case PutRecord(_) => Idle
    case RollContent(_) => RollingTuples(c.m, c.trail)
    case RollTuples(_) => RollingRecord(c.m)
    case RollRecord(_) => Idle
    case BeginRecall(_, ask, candidates) => if candidates == [] then Idle else Looking(ask, candidates, [])
    case SkipCandidate(_) => MoveOn(c)
    case ReadLedger(_, row) =>
      if row.None? then MoveOn(c)
      else
        var rows := c.rows + [row.value];
        if |rows| == |c.todo[0].refs| then Gathering(c.ask, c.todo, rows, {}, 0, {}) else Looking(c.ask, c.todo, rows)
    case ReadTuples(_) =>
      var m := c.rows[c.at].memoryId;
      Gathering(c.ask, c.todo, c.rows, c.found + SourcesIn(s.tuples, m), c.at + 1,
                if m in s.h.cleared then c.raced + {m} else c.raced)
    case DecideCandidate(_, _, _, _, _) => MoveOn(c)
    case BeginForget(_, m, _, _, _, _) => DeletingContent(m, s.ledger[m].ref)
    case DeleteContent(_) => DeletingRecord(c.m)
    case DeleteRecord(_) => ListingSources(c.m)
    case ListSources(_) => ListingWriter(c.m, About(s.tuples, c.m, "derived_from"))
    case ListWriter(_) => DeletingTuples(c.m, c.doomed + About(s.tuples, c.m, "writer"))
    case DeleteTuples(_) => Idle
    case FailCall(_) => AfterFailure(c)
    case Abort(_) => Idle
  }

  function NextClients(s: State, e: Event): map<nat, Client>
    requires Enabled(s, e)
  {
    if IsTampering(e) then s.clients else s.clients[e.k := NextClient(s, e)]
  }

  function Apply(s: State, e: Event): State
    requires Enabled(s, e)
  {
    State(NextTuples(s, e), NextLedger(s, e), NextBackend(s, e), NextHistory(s, e), NextClients(s, e))
  }

  predicate Step(s: State, e: Event, t: State) {
    Enabled(s, e) && t == Apply(s, e)
  }

  predicate IsRun(states: seq<State>, events: seq<Event>) {
    && |states| == |events| + 1
    && states[0] == INIT
    && forall i {:trigger Step(states[i], events[i], states[i + 1])} ::
         0 <= i < |events| ==> Step(states[i], events[i], states[i + 1])
  }
}
