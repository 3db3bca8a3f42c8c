/** Who may write a memory, read it and make it go, in every run; and what the calls leave when nothing interrupts. */
module MemoryHistory {
  import opened Wrappers
  import opened Refs
  import opened Scopes
  import opened Policies
  import opened Decider
  import opened Tuples
  import opened MemoryStores
  import opened MemoryProtocol
  import opened MemorySafety

  // ---- What a call must satisfy ------------------------------------------------------------

  /** The token, when there is one, says yes to each of the resources. */
  predicate TokenLets(permits: Permits, kind: Kind, resources: seq<string>) {
    permits.Some? ==>
      forall r :: r in resources ==> r in permits.value(kind, resources) && permits.value(kind, resources)[r]
  }

  predicate ScopeLets(ask: Ask, kind: Kind, resources: seq<string>) {
    forall r :: r in resources ==> ValidPattern(r) && ScopeCovers(ask.scope, Capability(kind, r))
  }

  /** The subject is a viewer of every document, and the policy lets every one pass. */
  predicate SourcesLet(e: Engine, policy: Option<Policy>, ask: Ask, kind: Kind, sources: seq<string>) {
    sources != [] ==>
      Confirmed(e, ask.subject, "viewer", sources) && PolicyLets(policy, ask.(kind := kind), sources)
  }

  /** What is asked of the writer of `m` from these sources. */
  predicate MayWrite(
    m: string, ask: Ask, sources: seq<string>, e: Engine, policy: Option<Policy>, permits: Permits)
  {
    var targets := if sources == [] then [m] else sources;
    && ValidRef(ask.subject, "user")
    && (forall d :: d in sources ==> ValidRef(d, "document"))
    && TokenLets(permits, Remember, targets) && ScopeLets(ask, Remember, targets)
    && SourcesLet(e, policy, ask, Remember, sources)
  }

  /** What is asked of whoever forgets `m`, a memory written for `owner`. */
  predicate MayForget(m: string, owner: string, ask: Ask, permits: Permits) {
    && ask.subject == owner && ValidRef(ask.subject, "user")
    && TokenLets(permits, Remember, [m]) && ScopeLets(ask, Remember, [m])
  }

  /** What is asked of the reader of the text that these rows stand behind. */
  predicate MayRead(
    rows: seq<Record>, listing: seq<string>, ask: Ask, e: Engine, policy: Option<Policy>, permits: Permits)
  {
    && ValidRef(ask.subject, "user")
    && (forall d :: d in listing ==> ValidPattern(d))
    && TokenLets(permits, Read, Ids(rows) + listing)
    && (forall i :: 0 <= i < |rows| ==> ScopeLets(ask, Read, [rows[i].memoryId]))
    && SourcesLet(e, policy, ask, Read, listing)
    && (listing == [] ==> forall i :: 0 <= i < |rows| ==> rows[i].writtenFor == ask.subject)
  }

  lemma TokenLetsIff(permits: Permits, kind: Kind, resources: seq<string>)
    ensures TokenLets(permits, kind, resources) <==> !Refused(permits, kind, resources)
  {
    if permits.Some? && TokenLets(permits, kind, resources) {
      assert forall i :: 0 <= i < |resources| ==> resources[i] in permits.value(kind, resources);
    }
  }

  lemma AdmitsIff(
    e: Engine, policy: Option<Policy>, ask: Ask, kind: Kind, resources: seq<string>, targets: seq<string>)
    ensures Admits(e, policy, ask.(kind := kind, relation := "viewer"), resources, targets) <==>
            && ValidRef(ask.subject, "user")
            && (forall d :: d in resources ==> ValidPattern(d))
            && ScopeLets(ask, kind, targets)
            && SourcesLet(e, policy, ask, kind, resources)
  {
    var a := ask.(kind := kind, relation := "viewer");
    DecideAllMeaning(e, policy, a, resources, targets, true);
    PolicyIgnoresRelation(policy, ask, kind, resources);
    assert (forall d :: d in resources ==> ValidPattern(d)) <==>
           forall i :: 0 <= i < |resources| ==> ValidPattern(resources[i]);
  }

  lemma PolicyIgnoresRelation(policy: Option<Policy>, ask: Ask, kind: Kind, resources: seq<string>)
    ensures PolicyLets(policy, ask.(kind := kind, relation := "viewer"), resources)
            <==> PolicyLets(policy, ask.(kind := kind), resources)
  {
  }

  lemma DocumentIsPattern(sources: seq<string>)
    requires forall d :: d in sources ==> ValidRef(d, "document")
    ensures forall d :: d in sources ==> ValidPattern(d)
  {
    forall d | d in sources
      ensures ValidPattern(d)
    {
      RefIsPattern(d, "document");
    }
  }

  /** A remember is accepted exactly when its caller may write from every source. */
  lemma RememberAcceptedIff(s: State, e: Event)
    requires e.BeginRemember? && ClientOf(s, e.k).Idle? && e.m !in s.h.origins
    ensures Enabled(s, e) <==> MayWrite(e.m, e.ask, e.sources, e.e, e.policy, e.permits)
  {
    var targets := if e.sources == [] then [e.m] else e.sources;
    TokenLetsIff(e.permits, Remember, targets);
    AdmitsIff(e.e, e.policy, e.ask, Remember, e.sources, targets);
    assert (forall d :: d in e.sources ==> ValidRef(d, "document")) <==>
           forall i :: 0 <= i < |e.sources| ==> ValidRef(e.sources[i], "document");
    if forall d :: d in e.sources ==> ValidRef(d, "document") {
      DocumentIsPattern(e.sources);
    }
  }

  /** A forget is accepted exactly when the ledger has the memory and its caller is whom it was written for. */
  lemma ForgetAcceptedIff(s: State, e: Event)
    requires e.BeginForget? && ClientOf(s, e.k).Idle?
    ensures Enabled(s, e) <==> e.m in s.ledger && MayForget(e.m, s.ledger[e.m].writtenFor, e.ask, e.permits)
  {
    TokenLetsIff(e.permits, Remember, [e.m]);
    AdmitsIff(e.e, e.policy, e.ask, Remember, [], [e.m]);
  }

  /** A text is returned exactly when its reader may read every memory and every source behind it. */
  lemma ReturnedIff(
    rows: seq<Record>, listing: seq<string>, ask: Ask, e: Engine, policy: Option<Policy>, permits: Permits)
    ensures Returned(e, policy, permits, ask, rows, listing) <==> MayRead(rows, listing, ask, e, policy, permits)
  {
    TokenLetsIff(permits, Read, Ids(rows) + listing);
    AdmitsIff(e, policy, ask, Read, listing, Ids(rows));
    EachInScope(ask, rows);
  }

  lemma EachInScope(ask: Ask, rows: seq<Record>)
    ensures ScopeLets(ask, Read, Ids(rows)) <==>
            forall i :: 0 <= i < |rows| ==> ScopeLets(ask, Read, [rows[i].memoryId])
  {
    forall i | 0 <= i < |rows|
      ensures rows[i].memoryId in Ids(rows) && rows[i].memoryId in [rows[i].memoryId]
    {
      assert Ids(rows)[i] == rows[i].memoryId;
    }
  }

  // ---- What was asked before ---------------------------------------------------------------

  /** Step `i` begins the memory `m`, and its caller may write it. */
  predicate BegunAt(events: seq<Event>, i: nat, m: string, o: Origin) {
    && i < |events| && events[i].BeginRemember? && events[i].m == m
    && var e := events[i];
       && MayWrite(m, e.ask, e.sources, e.e, e.policy, e.permits)
       && o == Origin((set d | d in e.sources), e.ask.subject, e.text, e.k)
  }

  /** Step `i` begins the memory `m` of client `k`, whose tuples are `trail`. */
  predicate TrailAt(events: seq<Event>, i: nat, k: nat, m: string, trail: set<Tuple>) {
    && i < |events| && events[i].BeginRemember? && events[i].m == m && events[i].k == k
    && trail == (set d | d in events[i].sources :: Tuple(d, "derived_from", m))
                + {Tuple(events[i].ask.actor, "writer", m)}
  }

  /** Step `i` begins a forget of `m` by client `k`, on behalf of the subject it was written for. */
  predicate ForgetAt(events: seq<Event>, i: nat, k: nat, m: string, owner: string) {
    && i < |events| && events[i].BeginForget? && events[i].m == m && events[i].k == k
    && MayForget(m, owner, events[i].ask, events[i].permits)
  }

  /** Step `i` begins a recall by client `k`, for `ask`; `todo` is the end of the hits that its search gave. */
  predicate RecallAt(events: seq<Event>, i: nat, k: nat, ask: Ask, todo: seq<Candidate>) {
    && i < |events| && events[i].BeginRecall? && events[i].k == k && events[i].ask == ask
    && var all := events[i].candidates;
       |todo| <= |all| && todo == all[|all| - |todo|..]
  }

  ghost predicate Recalled(events: seq<Event>, n: nat, k: nat, ask: Ask, todo: seq<Candidate>) {
    exists i: nat :: i < n && RecallAt(events, i, k, ask, todo)
  }

  ghost predicate Begun(events: seq<Event>, n: nat, m: string, o: Origin) {
    exists i: nat :: i < n && BegunAt(events, i, m, o)
  }

  ghost predicate Trailed(events: seq<Event>, n: nat, k: nat, m: string, trail: set<Tuple>) {
    exists i: nat :: i < n && TrailAt(events, i, k, m, trail)
  }

  ghost predicate Forgot(events: seq<Event>, n: nat, k: nat, m: string, owner: string) {
    exists i: nat :: i < n && ForgetAt(events, i, k, m, owner)
  }

  /** What client `k` is at goes back to a call of its own: tuples to write, hits to decide on, a memory to forget. */
  ghost predicate ClientAsked(events: seq<Event>, n: nat, k: nat, c: Client, origins: map<string, Origin>) {
    && (HasTrail(c) ==> Trailed(events, n, k, c.m, c.trail))
    && (HasHits(c) ==> Recalled(events, n, k, c.ask, c.todo))
    && (Forgets(c) ==> c.m in origins && Forgot(events, n, k, c.m, origins[c.m].writtenFor))
  }

  predicate HasTrail(c: Client) {
    c.WritingTuples? || c.StoringContent? || c.PuttingRecord? || c.RollingContent? || c.RollingTuples?
  }

  predicate HasHits(c: Client) {
    c.Looking? || c.Gathering?
  }

  ghost predicate OriginsAsked(events: seq<Event>, n: nat, origins: map<string, Origin>) {
    forall m :: m in origins ==> Begun(events, n, m, origins[m])
  }

  ghost predicate GoneAsked(events: seq<Event>, n: nat, gone: set<string>, origins: map<string, Origin>) {
    forall m :: m in gone ==> m in origins && SomeoneForgot(events, n, m, origins[m].writtenFor)
  }

  ghost predicate SomeoneForgot(events: seq<Event>, n: nat, m: string, owner: string) {
    exists k: nat :: Forgot(events, n, k, m, owner)
  }

  ghost predicate ClientsAsked(events: seq<Event>, n: nat, clients: map<nat, Client>, origins: map<string, Origin>) {
    forall k :: k in clients ==> ClientAsked(events, n, k, clients[k], origins)
  }

  ghost predicate Asked(events: seq<Event>, n: nat, s: State) {
    && OriginsAsked(events, n, s.h.origins)
    && GoneAsked(events, n, s.h.gone, s.h.origins)
    && ClientsAsked(events, n, s.clients, s.h.origins)
  }

  lemma OriginsStillAsked(events: seq<Event>, n: nat, s: State)
    requires OriginsAsked(events, n, s.h.origins) && n < |events| && Enabled(s, events[n])
    ensures OriginsAsked(events, n + 1, NextHistory(s, events[n]).origins)
  {
    var e, after := events[n], NextHistory(s, events[n]).origins;
    forall m | m in after
      ensures Begun(events, n + 1, m, after[m])
    {
      if e.BeginRemember? && e.m == m {
        RememberAcceptedIff(s, e);
        assert BegunAt(events, n, m, after[m]);
      } else {
        var i: nat :| i < n && BegunAt(events, i, m, s.h.origins[m]);
        assert BegunAt(events, i, m, after[m]);
      }
    }
  }

  lemma ForgotStays(events: seq<Event>, n: nat, k: nat, m: string, owner: string)
    requires Forgot(events, n, k, m, owner)
    ensures Forgot(events, n + 1, k, m, owner)
  {
    var i: nat :| i < n && ForgetAt(events, i, k, m, owner);
    assert i < n + 1 && ForgetAt(events, i, k, m, owner);
  }

  /** What is left of the hits may only lose its first. */
  lemma RecalledStays(
    events: seq<Event>, n: nat, k: nat, ask: Ask, before: seq<Candidate>, after: seq<Candidate>)
    requires Recalled(events, n, k, ask, before) && (after == before || (before != [] && after == before[1..]))
    ensures Recalled(events, n + 1, k, ask, after)
  {
    var i: nat :| i < n && RecallAt(events, i, k, ask, before);
    assert i < n + 1 && RecallAt(events, i, k, ask, after);
  }

  lemma ClientStillAsked(
    events: seq<Event>, n: nat, k: nat, c: Client, before: map<string, Origin>, after: map<string, Origin>)
    requires ClientAsked(events, n, k, c, before)
    requires forall m :: m in before ==> m in after && after[m] == before[m]
    ensures ClientAsked(events, n + 1, k, c, after)
  {
    if HasTrail(c) {
      var i: nat :| i < n && TrailAt(events, i, k, c.m, c.trail);
      assert i < n + 1 && TrailAt(events, i, k, c.m, c.trail);
    }
    if HasHits(c) {
      RecalledStays(events, n, k, c.ask, c.todo, c.todo);
    }
    if Forgets(c) {
      ForgotStays(events, n, k, c.m, before[c.m].writtenFor);
    }
  }

  lemma GoneStillAsked(events: seq<Event>, n: nat, s: State)
    requires Inv(s) && Asked(events, n, s) && n < |events| && Enabled(s, events[n])
    ensures GoneAsked(events, n + 1, NextHistory(s, events[n]).gone, NextHistory(s, events[n]).origins)
  {
    var e, after := events[n], NextHistory(s, events[n]);
    StepExtends(s, e);
    forall m | m in after.gone
      ensures m in after.origins && SomeoneForgot(events, n + 1, m, after.origins[m].writtenFor)
    {
      var k: nat;
      if m in s.h.gone {
        k :| Forgot(events, n, k, m, s.h.origins[m].writtenFor);
      } else {
        assert e.DeleteRecord? && ClientOf(s, e.k).m == m;
        k := e.k;
        assert ClientAsked(events, n, k, ClientOf(s, k), s.h.origins);
      }
      ForgotStays(events, n, k, m, s.h.origins[m].writtenFor);
    }
  }

  /** A step that begins nothing goes on with the memory, the tuples and the hits it had. */
  lemma MovesOnSame(s: State, e: Event)
    requires Enabled(s, e) && !IsTampering(e) && !Begins(e)
    ensures var c, d := ClientOf(s, e.k), NextClient(s, e);
            && (HasTrail(d) ==> HasTrail(c) && c.m == d.m && c.trail == d.trail)
            && (Forgets(d) ==> Forgets(c) && c.m == d.m)
            && (HasHits(d) ==> HasHits(c) && c.ask == d.ask
                               && (d.todo == c.todo || (c.todo != [] && d.todo == c.todo[1..])))
  {
  }

  predicate Begins(e: Event) {
    e.BeginRemember? || e.BeginRecall? || e.BeginForget?
  }

  lemma WriterAsked(events: seq<Event>, n: nat, s: State)
    requires n < |events| && Enabled(s, events[n]) && events[n].BeginRemember?
    ensures var e := events[n];
            ClientAsked(events, n + 1, e.k, NextClient(s, e), NextHistory(s, e).origins)
  {
    var e := events[n];
    assert TrailAt(events, n, e.k, e.m, NextClient(s, e).trail);
  }

  lemma ReaderAsked(events: seq<Event>, n: nat, s: State)
    requires n < |events| && Enabled(s, events[n]) && events[n].BeginRecall?
    ensures var e := events[n];
            ClientAsked(events, n + 1, e.k, NextClient(s, e), s.h.origins)
  {
    var e := events[n];
    assert RecallAt(events, n, e.k, e.ask, e.candidates);
  }

  lemma ForgetterAsked(events: seq<Event>, n: nat, s: State)
    requires StoresOk(s) && n < |events| && Enabled(s, events[n]) && events[n].BeginForget?
    ensures var e := events[n];
            ClientAsked(events, n + 1, e.k, NextClient(s, e), s.h.origins)
  {
    var e := events[n];
    ForgetAcceptedIff(s, e);
    assert RowOk(s.ledger[e.m], s.h);
    assert ForgetAt(events, n, e.k, e.m, s.h.origins[e.m].writtenFor);
  }

  lemma ClientOfAsked(events: seq<Event>, n: nat, s: State, k: nat)
    requires ClientsAsked(events, n, s.clients, s.h.origins)
    ensures ClientAsked(events, n, k, ClientOf(s, k), s.h.origins)
  {
  }

  lemma MoverAsked(events: seq<Event>, n: nat, s: State)
    requires Inv(s) && Asked(events, n, s) && n < |events| && Enabled(s, events[n]) && !IsTampering(events[n])
    ensures var e := events[n];
            ClientAsked(events, n + 1, e.k, NextClient(s, e), NextHistory(s, e).origins)
  {
    var e := events[n];
    if e.BeginRemember? {
      WriterAsked(events, n, s);
    } else if e.BeginRecall? {
      ReaderAsked(events, n, s);
    } else if e.BeginForget? {
      ForgetterAsked(events, n, s);
    } else {
      GoesOnAsked(events, n, s);
    }
  }

  lemma GoesOnAsked(events: seq<Event>, n: nat, s: State)
    requires Inv(s) && Asked(events, n, s) && n < |events| && Enabled(s, events[n]) && !IsTampering(events[n])
    requires !Begins(events[n])
    ensures var e := events[n];
            ClientAsked(events, n + 1, e.k, NextClient(s, e), NextHistory(s, e).origins)
  {
    var e := events[n];
    var c, d := ClientOf(s, e.k), NextClient(s, e);
    MovesOnSame(s, e);
    ClientOfAsked(events, n, s, e.k);
    StepExtends(s, e);
    ClientStillAsked(events, n, e.k, c, s.h.origins, NextHistory(s, e).origins);
    if HasHits(d) {
      RecalledStays(events, n, e.k, c.ask, c.todo, d.todo);
    }
  }

  lemma StepAsked(events: seq<Event>, n: nat, s: State, t: State)
    requires Inv(s) && Asked(events, n, s) && n < |events| && Step(s, events[n], t)
    ensures Asked(events, n + 1, t)
  {
    var e := events[n];
    OriginsStillAsked(events, n, s);
    GoneStillAsked(events, n, s);
    StepExtends(s, e);
    forall k | k in t.clients
      ensures ClientAsked(events, n + 1, k, t.clients[k], t.h.origins)
    {
      if !IsTampering(e) && k == e.k {
        MoverAsked(events, n, s);
      } else {
        ClientStillAsked(events, n, k, s.clients[k], s.h.origins, t.h.origins);
      }
    }
  }

  lemma RunStepAsked(states: seq<State>, events: seq<Event>, n: nat)
    requires IsRun(states, events) && 0 < n <= |events| && Asked(events, n - 1, states[n - 1])
    ensures Asked(events, n, states[n])
  {
    var last := n - 1;
    RunKeeps(states, events, last);
    assert Step(states[last], events[last], states[last + 1]);
    StepAsked(events, last, states[last], states[n]);
  }

  lemma NothingAtFirst(events: seq<Event>, s: State)
    requires s == INIT
    ensures Asked(events, 0, s)
  {
  }

  /**
   * In every run, every memory was begun by a caller who may write it: the token, the scope, the engine and the policy
   * let every source pass, and what is kept of it is what was asked. Every record that is gone, and every forget under
   * way, goes back to a call for the very subject the memory was written for, in scope and permitted by its token. A
   * remember writes and rolls back the tuples of its own sources and of its writer, and a recall decides for whoever
   * asked, on what its search found.
   */
  lemma {:induction false} NothingUnasked(states: seq<State>, events: seq<Event>, n: nat)
    requires IsRun(states, events) && n <= |events|
    ensures Asked(events, n, states[n])
  {
    if n == 0 {
      NothingAtFirst(events, states[0]);
    } else {
      NothingUnasked(states, events, n - 1);
      RunStepAsked(states, events, n);
    }
  }

  /** A memory whose record or tuples a forget deleted was forgotten for the subject it was written for. */
  lemma ForgottenForItsOwner(states: seq<State>, events: seq<Event>, n: nat, m: string)
    requires IsRun(states, events) && n <= |events| && m in states[n].h.gone + states[n].h.cleared
    ensures m in states[n].h.origins
    ensures exists i: nat, k: nat :: i < n && ForgetAt(events, i, k, m, states[n].h.origins[m].writtenFor)
  {
    RunKeeps(states, events, n);
    NothingUnasked(states, events, n);
    var owner := states[n].h.origins[m].writtenFor;
    var k: nat :| Forgot(events, n, k, m, owner);
    var i: nat :| i < n && ForgetAt(events, i, k, m, owner);
  }

  // ---- Who removes what --------------------------------------------------------------------

  /** Client `k` has been asked, for its owner, to forget `m`. */
  ghost predicate ByForget(events: seq<Event>, n: nat, h: History, k: nat, m: string) {
    m in h.origins && Forgot(events, n, k, m, h.origins[m].writtenFor)
  }

  /** Client `k` takes back a memory of its own that was never recorded. */
  predicate ByRollback(h: History, k: nat, m: string) {
    m in h.origins && h.origins[m].client == k && m !in h.placed
  }

  /** Only these steps remove a text, and only one that belongs to the memory at hand. */
  lemma TextStep(s: State, e: Event, ref: string)
    requires Inv(s) && Enabled(s, e) && ref in s.backend
    ensures var t := NextBackend(s, e);
            if ref in t then t[ref] == s.backend[ref]
            else
              && ref in s.h.refs && s.backend[ref].memoryId == s.h.refs[ref]
              && ((e.DeleteContent? && ClientOf(s, e.k).DeletingContent? && ClientOf(s, e.k).m == s.h.refs[ref])
                  || (e.RollContent? && ByRollback(s.h, e.k, s.h.refs[ref])))
  {
    if e.DeleteContent? || e.RollContent? {
      TextDropped(s, e, ref);
    } else if e.StoreContent? {
      assert BackendOk(s.backend, s.h);
      assert ref != e.ref;
    }
  }

  lemma TextDropped(s: State, e: Event, ref: string)
    requires Inv(s) && Enabled(s, e) && ref in s.backend && (e.DeleteContent? || e.RollContent?)
    ensures ClientOf(s, e.k).ref != ref ==> ref in NextBackend(s, e) && NextBackend(s, e)[ref] == s.backend[ref]
    ensures ref in s.h.refs && s.backend[ref].memoryId == s.h.refs[ref]
    ensures ClientOf(s, e.k).ref == ref ==> ClientOf(s, e.k).m == s.h.refs[ref]
    ensures e.RollContent? ==> ByRollback(s.h, e.k, ClientOf(s, e.k).m)
  {
    ClientHolds(s, e.k);
  }

  lemma RecordStep(s: State, e: Event, m: string)
    requires Inv(s) && Enabled(s, e) && m in s.ledger
    ensures var t := NextLedger(s, e);
            if m in t then
              || t[m] == s.ledger[m]
              || (e.TamperLedger? && e.m == m && t[m] == s.ledger[m].(derivedFrom := e.docs))
            else e.DeleteRecord? && ClientOf(s, e.k).DeletingRecord? && ClientOf(s, e.k).m == m
  {
    if e.RollRecord? || e.PutRecord? {
      NotRecordedTwice(s, e, m);
    } else {
      OtherRecordStep(s, e, m);
    }
  }

  lemma OtherRecordStep(s: State, e: Event, m: string)
    requires Enabled(s, e) && m in s.ledger && !e.RollRecord? && !e.PutRecord?
    ensures var t := NextLedger(s, e);
            if m in t then
              || t[m] == s.ledger[m]
              || (e.TamperLedger? && e.m == m && t[m] == s.ledger[m].(derivedFrom := e.docs))
            else e.DeleteRecord? && ClientOf(s, e.k).DeletingRecord? && ClientOf(s, e.k).m == m
  {
  }

  /** A remember places, and rolls back, only what has no record yet. */
  lemma NotRecordedTwice(s: State, e: Event, m: string)
    requires Inv(s) && Enabled(s, e) && m in s.ledger && (e.RollRecord? || e.PutRecord?)
    ensures m in NextLedger(s, e) && NextLedger(s, e)[m] == s.ledger[m]
  {
    ClientHolds(s, e.k);
    assert RowOk(s.ledger[m], s.h);
    assert ClientOf(s, e.k).m != m;
  }

  lemma TupleStep(s: State, e: Event, x: Tuple)
    requires Inv(s) && Enabled(s, e) && x in s.tuples && x !in NextTuples(s, e)
    ensures || (e.DeleteTuples? && ClientOf(s, e.k).DeletingTuples? && ClientOf(s, e.k).m == x.obj)
            || (e.RollTuples? && ByRollback(s.h, e.k, x.obj))
            || (e.TamperTuples? && e.m == x.obj)
  {
    if e.DeleteTuples? || e.RollTuples? {
      ClientHolds(s, e.k);
    }
  }

  lemma ForgetsAsked(states: seq<State>, events: seq<Event>, n: nat, k: nat)
    requires IsRun(states, events) && n <= |events| && Forgets(ClientOf(states[n], k))
    ensures ByForget(events, n, states[n].h, k, ClientOf(states[n], k).m)
  {
    NothingUnasked(states, events, n);
    ClientOfAsked(events, n, states[n], k);
  }

  /** A text goes by a forget of its memory, or by the rollback of the client that stored it; none ever changes. */
  lemma WhoRemovesText(states: seq<State>, events: seq<Event>, n: nat, ref: string)
    requires IsRun(states, events) && n < |events| && ref in states[n].backend
    ensures var s, e, t := states[n], events[n], states[n + 1];
            if ref in t.backend then t.backend[ref] == s.backend[ref]
            else
              && ref in s.h.refs && s.backend[ref].memoryId == s.h.refs[ref]
              && ((e.DeleteContent? && ByForget(events, n, s.h, e.k, s.h.refs[ref]))
                  || (e.RollContent? && ByRollback(s.h, e.k, s.h.refs[ref])))
  {
    assert Step(states[n], events[n], states[n + 1]);
    RunKeeps(states, events, n);
    TextStep(states[n], events[n], ref);
    if ref !in states[n + 1].backend && events[n].DeleteContent? {
      ForgetsAsked(states, events, n, events[n].k);
    }
  }

  /** A record goes by a forget of its memory alone; it changes in nothing but its sources, by tampering. */
  lemma WhoRemovesRecord(states: seq<State>, events: seq<Event>, n: nat, m: string)
    requires IsRun(states, events) && n < |events| && m in states[n].ledger
    ensures var s, e, t := states[n], events[n], states[n + 1];
            if m in t.ledger then
              || t.ledger[m] == s.ledger[m]
              || (e.TamperLedger? && e.m == m && t.ledger[m] == s.ledger[m].(derivedFrom := e.docs))
            else e.DeleteRecord? && ByForget(events, n, s.h, e.k, m)
  {
    assert Step(states[n], events[n], states[n + 1]);
    RunKeeps(states, events, n);
    RecordStep(states[n], events[n], m);
    if m !in states[n + 1].ledger {
      ForgetsAsked(states, events, n, events[n].k);
    }
  }

  /** A tuple goes by a forget of its memory, by the rollback of the client that wrote it, or by tampering. */
  lemma WhoRemovesTuple(states: seq<State>, events: seq<Event>, n: nat, x: Tuple)
    requires IsRun(states, events) && n < |events| && x in states[n].tuples && x !in states[n + 1].tuples
    ensures var s, e := states[n], events[n];
            || (e.DeleteTuples? && ByForget(events, n, s.h, e.k, x.obj))
            || (e.RollTuples? && ByRollback(s.h, e.k, x.obj))
            || (e.TamperTuples? && e.m == x.obj)
  {
    assert Step(states[n], events[n], states[n + 1]);
    RunKeeps(states, events, n);
    TupleStep(states[n], events[n], x);
    if events[n].DeleteTuples? {
      ForgetsAsked(states, events, n, events[n].k);
    }
  }

  // ---- Calls that nothing interrupts -------------------------------------------------------

  predicate StepAt<S, E>(step: (S, E, S) -> bool, path: seq<S>, events: seq<E>, i: nat) {
    i < |events| && i + 1 < |path| && step(path[i], events[i], path[i + 1])
  }

  predicate IsPath<S, E>(step: (S, E, S) -> bool, path: seq<S>, events: seq<E>) {
    |path| == |events| + 1 && forall i: nat :: i < |events| ==> StepAt(step, path, events, i)
  }

  /** The events, one after the other and with nothing in between, lead from `s` to `t`. */
  ghost predicate Leads<S(!new), E>(step: (S, E, S) -> bool, s: S, events: seq<E>, t: S) {
    exists path :: IsPath(step, path, events) && path[0] == s && path[|events|] == t
  }

  lemma OneStep(s: State, e: Event, t: State)
    requires Step(s, e, t)
    ensures Leads(Step, s, [e], t)
  {
    assert StepAt(Step, [s, t], [e], 0);
    assert IsPath(Step, [s, t], [e]);
  }

  lemma LeadsOn<S(!new), E>(step: (S, E, S) -> bool, s: S, events: seq<E>, u: S, rest: seq<E>, t: S)
    requires Leads(step, s, events, u) && Leads(step, u, rest, t)
    ensures Leads(step, s, events + rest, t)
  {
    var p :| IsPath(step, p, events) && p[0] == s && p[|events|] == u;
    var q :| IsPath(step, q, rest) && q[0] == u && q[|rest|] == t;
    var path, all := p[..|events|] + q, events + rest;
    forall i: nat | i < |all|
      ensures StepAt(step, path, all, i)
    {
      if i < |events| {
        assert StepAt(step, p, events, i);
      } else {
        assert StepAt(step, q, rest, i - |events|);
      }
    }
    assert IsPath(step, path, all) && path[|all|] == t;
  }

  /** `s` without the memory: text, record and tuples gone, everything else as it was. */
  function WithoutMemory(s: State, k: nat, m: string, ref: string): State {
    State(Cleared(s.tuples, m), s.ledger - {m}, s.backend - {ref},
          s.h.(gone := s.h.gone + {m}, cleared := s.h.cleared + {m}), s.clients[k := Idle])
  }

  lemma ForgetBegins(s: State, e: Event)
    requires e.BeginForget? && Enabled(s, e)
    ensures Leads(Step, s, [e], s.(clients := s.clients[e.k := DeletingContent(e.m, s.ledger[e.m].ref)]))
  {
    OneStep(s, e, s.(clients := s.clients[e.k := DeletingContent(e.m, s.ledger[e.m].ref)]));
  }

  lemma ForgetDropsText(s: State, k: nat, m: string, ref: string)
    requires ClientOf(s, k) == DeletingContent(m, ref)
    ensures Leads(Step, s, [DeleteContent(k)],
                  s.(backend := s.backend - {ref}, clients := s.clients[k := DeletingRecord(m)]))
  {
    OneStep(s, DeleteContent(k), s.(backend := s.backend - {ref}, clients := s.clients[k := DeletingRecord(m)]));
  }

  lemma ForgetDropsRecord(s: State, k: nat, m: string)
    requires ClientOf(s, k) == DeletingRecord(m)
    ensures Leads(Step, s, [DeleteRecord(k)],
                  s.(ledger := s.ledger - {m}, h := s.h.(gone := s.h.gone + {m}),
                     clients := s.clients[k := ListingSources(m)]))
  {
    OneStep(s, DeleteRecord(k), s.(ledger := s.ledger - {m}, h := s.h.(gone := s.h.gone + {m}),
                                   clients := s.clients[k := ListingSources(m)]));
  }

  lemma ForgetDrops(s: State, k: nat, m: string, ref: string)
    requires ClientOf(s, k) == DeletingContent(m, ref)
    ensures Leads(Step, s, [DeleteContent(k), DeleteRecord(k)],
                  s.(backend := s.backend - {ref}, ledger := s.ledger - {m}, h := s.h.(gone := s.h.gone + {m}),
                     clients := s.clients[k := ListingSources(m)]))
  {
    var u := s.(backend := s.backend - {ref}, clients := s.clients[k := DeletingRecord(m)]);
    var t := s.(backend := s.backend - {ref}, ledger := s.ledger - {m}, h := s.h.(gone := s.h.gone + {m}),
                clients := s.clients[k := ListingSources(m)]);
    ForgetDropsText(s, k, m, ref);
    ForgetDropsRecord(u, k, m);
    assert u.clients[k := ListingSources(m)] == t.clients;
    LeadsOn(Step, s, [DeleteContent(k)], u, [DeleteRecord(k)], t);
    assert [DeleteContent(k)] + [DeleteRecord(k)] == [DeleteContent(k), DeleteRecord(k)];
  }

  /** The tuples without those that say where `m` comes from and who wrote it. */
  function Cleared(tuples: set<Tuple>, m: string): set<Tuple> {
    set x | x in tuples && !(x.obj == m && (x.relation == "derived_from" || x.relation == "writer"))
  }

  lemma ForgetListsSources(s: State, k: nat, m: string)
    requires ClientOf(s, k) == ListingSources(m)
    ensures Leads(Step, s, [ListSources(k)],
                  s.(clients := s.clients[k := ListingWriter(m, About(s.tuples, m, "derived_from"))]))
  {
    OneStep(s, ListSources(k), s.(clients := s.clients[k := ListingWriter(m, About(s.tuples, m, "derived_from"))]));
  }

  lemma ForgetListsWriter(s: State, k: nat, m: string, doomed: set<Tuple>)
    requires ClientOf(s, k) == ListingWriter(m, doomed)
    ensures Leads(Step, s, [ListWriter(k)],
                  s.(clients := s.clients[k := DeletingTuples(m, doomed + About(s.tuples, m, "writer"))]))
  {
    OneStep(s, ListWriter(k),
            s.(clients := s.clients[k := DeletingTuples(m, doomed + About(s.tuples, m, "writer"))]));
  }

  lemma ForgetDropsTuples(s: State, k: nat, m: string, doomed: set<Tuple>)
    requires ClientOf(s, k) == DeletingTuples(m, doomed)
    ensures Leads(Step, s, [DeleteTuples(k)],
                  s.(tuples := s.tuples - doomed, h := s.h.(cleared := s.h.cleared + {m}),
                     clients := s.clients[k := Idle]))
  {
    OneStep(s, DeleteTuples(k), s.(tuples := s.tuples - doomed, h := s.h.(cleared := s.h.cleared + {m}),
                                   clients := s.clients[k := Idle]));
  }

  lemma ForgetClearsTuples(s: State, k: nat, m: string)
    requires ClientOf(s, k) == ListingSources(m)
    ensures Leads(Step, s, [ListSources(k), ListWriter(k), DeleteTuples(k)],
                  s.(tuples := Cleared(s.tuples, m), h := s.h.(cleared := s.h.cleared + {m}),
                     clients := s.clients[k := Idle]))
  {
    var sources := About(s.tuples, m, "derived_from");
    var both := sources + About(s.tuples, m, "writer");
    var s1 := s.(clients := s.clients[k := ListingWriter(m, sources)]);
    var s2 := s.(clients := s.clients[k := DeletingTuples(m, both)]);
    var t := s.(tuples := Cleared(s.tuples, m), h := s.h.(cleared := s.h.cleared + {m}),
                clients := s.clients[k := Idle]);
    ForgetListsSources(s, k, m);
    ForgetListsWriter(s1, k, m, sources);
    ForgetDropsTuples(s2, k, m, both);
    assert s1.clients[k := DeletingTuples(m, both)] == s2.clients && s2.clients[k := Idle] == t.clients;
    assert t.tuples == s.tuples - both;
    LeadsOn(Step, s1, [ListWriter(k)], s2, [DeleteTuples(k)], t);
    LeadsOn(Step, s, [ListSources(k)], s1, [ListWriter(k)] + [DeleteTuples(k)], t);
    assert [ListSources(k)] + ([ListWriter(k)] + [DeleteTuples(k)])
           == [ListSources(k), ListWriter(k), DeleteTuples(k)];
  }

  lemma ForgetGoesOn(s: State, k: nat, m: string, ref: string)
    ensures Leads(Step, s.(clients := s.clients[k := DeletingContent(m, ref)]),
                  [DeleteContent(k), DeleteRecord(k), ListSources(k), ListWriter(k), DeleteTuples(k)],
                  WithoutMemory(s, k, m, ref))
  {
    var s1 := s.(clients := s.clients[k := DeletingContent(m, ref)]);
    var s2 := s1.(backend := s.backend - {ref}, ledger := s.ledger - {m}, h := s.h.(gone := s.h.gone + {m}),
                  clients := s1.clients[k := ListingSources(m)]);
    var t := WithoutMemory(s, k, m, ref);
    ForgetDrops(s1, k, m, ref);
    ForgetClearsTuples(s2, k, m);
    assert s2.clients[k := Idle] == t.clients;
    var first, rest := [DeleteContent(k), DeleteRecord(k)], [ListSources(k), ListWriter(k), DeleteTuples(k)];
    LeadsOn(Step, s1, first, s2, rest, t);
    assert first + rest == [DeleteContent(k), DeleteRecord(k), ListSources(k), ListWriter(k), DeleteTuples(k)];
  }

  /** An accepted forget that nothing interrupts removes the text, the record and all tuples, and nothing else. */
  lemma ForgetClearsAll(s: State, e: Event)
    requires e.BeginForget? && Enabled(s, e)
    ensures Leads(
              Step, s,
              [e, DeleteContent(e.k), DeleteRecord(e.k), ListSources(e.k), ListWriter(e.k), DeleteTuples(e.k)],
              WithoutMemory(s, e.k, e.m, s.ledger[e.m].ref))
  {
    var k, ref := e.k, s.ledger[e.m].ref;
    ForgetBegins(s, e);
    ForgetGoesOn(s, k, e.m, ref);
    var rest := [DeleteContent(k), DeleteRecord(k), ListSources(k), ListWriter(k), DeleteTuples(k)];
    LeadsOn(Step, s, [e], s.(clients := s.clients[k := DeletingContent(e.m, ref)]), rest,
            WithoutMemory(s, k, e.m, ref));
    assert [e] + rest
           == [e, DeleteContent(k), DeleteRecord(k), ListSources(k), ListWriter(k), DeleteTuples(k)];
  }

  // ---- Rollback ----------------------------------------------------------------------------

  /** A call that is made, or one that fails instead. */
  function Tried(ok: bool, e: Event): Event
    requires !IsTampering(e)
  {
    if ok then e else FailCall(e.k)
  }

  lemma RollsText(s: State, k: nat, m: string, trail: set<Tuple>, ref: string, ok: bool)
    requires ClientOf(s, k) == RollingContent(m, trail, ref)
    ensures Leads(Step, s, [Tried(ok, RollContent(k))],
                  s.(backend := if ok then s.backend - {ref} else s.backend,
                     clients := s.clients[k := RollingTuples(m, trail)]))
  {
    OneStep(s, Tried(ok, RollContent(k)),
            s.(backend := if ok then s.backend - {ref} else s.backend,
               clients := s.clients[k := RollingTuples(m, trail)]));
  }

  lemma RollsTuples(s: State, k: nat, m: string, trail: set<Tuple>, ok: bool)
    requires ClientOf(s, k) == RollingTuples(m, trail)
    ensures Leads(Step, s, [Tried(ok, RollTuples(k))],
                  s.(tuples := if ok then s.tuples - trail else s.tuples, clients := s.clients[k := RollingRecord(m)]))
  {
    OneStep(s, Tried(ok, RollTuples(k)),
            s.(tuples := if ok then s.tuples - trail else s.tuples, clients := s.clients[k := RollingRecord(m)]));
  }

  lemma RollsRecord(s: State, k: nat, m: string, ok: bool)
    requires ClientOf(s, k) == RollingRecord(m)
    ensures Leads(Step, s, [Tried(ok, RollRecord(k))],
                  s.(ledger := if ok then s.ledger - {m} else s.ledger, clients := s.clients[k := Idle]))
  {
    OneStep(s, Tried(ok, RollRecord(k)),
            s.(ledger := if ok then s.ledger - {m} else s.ledger, clients := s.clients[k := Idle]));
  }

  /** After a text could not be stored, the tuples and the record are taken back, each whether or not the other is. */
  lemma RollsBackTuples(s: State, k: nat, m: string, trail: set<Tuple>, okTuples: bool, okRecord: bool)
    requires ClientOf(s, k) == RollingTuples(m, trail)
    ensures Leads(Step, s, [Tried(okTuples, RollTuples(k)), Tried(okRecord, RollRecord(k))],
                  s.(tuples := if okTuples then s.tuples - trail else s.tuples,
                     ledger := if okRecord then s.ledger - {m} else s.ledger,
                     clients := s.clients[k := Idle]))
  {
    var u := s.(tuples := if okTuples then s.tuples - trail else s.tuples,
                clients := s.clients[k := RollingRecord(m)]);
    var t := u.(ledger := if okRecord then s.ledger - {m} else s.ledger, clients := s.clients[k := Idle]);
    RollsTuples(s, k, m, trail, okTuples);
    RollsRecord(u, k, m, okRecord);
    assert u.clients[k := Idle] == t.clients;
    LeadsOn(Step, s, [Tried(okTuples, RollTuples(k))], u, [Tried(okRecord, RollRecord(k))], t);
    assert [Tried(okTuples, RollTuples(k))] + [Tried(okRecord, RollRecord(k))]
           == [Tried(okTuples, RollTuples(k)), Tried(okRecord, RollRecord(k))];
  }

  lemma StoreFails(s: State, k: nat, m: string, trail: set<Tuple>)
    requires ClientOf(s, k) == StoringContent(m, trail)
    ensures Leads(Step, s, [FailCall(k)], s.(clients := s.clients[k := RollingTuples(m, trail)]))
  {
    OneStep(s, FailCall(k), s.(clients := s.clients[k := RollingTuples(m, trail)]));
  }

  lemma PutFails(s: State, k: nat, m: string, trail: set<Tuple>, ref: string)
    requires ClientOf(s, k) == PuttingRecord(m, trail, ref)
    ensures Leads(Step, s, [FailCall(k)], s.(clients := s.clients[k := RollingContent(m, trail, ref)]))
  {
    OneStep(s, FailCall(k), s.(clients := s.clients[k := RollingContent(m, trail, ref)]));
  }

  /** A text that cannot be stored leaves no tuple of its memory behind, unless taking them back fails too. */
  lemma FailedStoreRollsBack(s: State, k: nat, okTuples: bool, okRecord: bool)
    requires ClientOf(s, k).StoringContent?
    ensures var StoringContent(m, trail) := ClientOf(s, k);
            Leads(Step, s, [FailCall(k), Tried(okTuples, RollTuples(k)), Tried(okRecord, RollRecord(k))],
                  s.(tuples := if okTuples then s.tuples - trail else s.tuples,
                     ledger := if okRecord then s.ledger - {m} else s.ledger,
                     clients := s.clients[k := Idle]))
  {
    var StoringContent(m, trail) := ClientOf(s, k);
    var u := s.(clients := s.clients[k := RollingTuples(m, trail)]);
    var t := s.(tuples := if okTuples then s.tuples - trail else s.tuples,
                ledger := if okRecord then s.ledger - {m} else s.ledger, clients := s.clients[k := Idle]);
    StoreFails(s, k, m, trail);
    RollsBackTuples(u, k, m, trail, okTuples, okRecord);
    assert u.clients[k := Idle] == t.clients;
    var rest := [Tried(okTuples, RollTuples(k)), Tried(okRecord, RollRecord(k))];
    LeadsOn(Step, s, [FailCall(k)], u, rest, t);
    assert [FailCall(k)] + rest == [FailCall(k), Tried(okTuples, RollTuples(k)), Tried(okRecord, RollRecord(k))];
  }

  lemma RollsBackText(
    s: State, k: nat, m: string, trail: set<Tuple>, ref: string, okText: bool, okTuples: bool, okRecord: bool)
    requires ClientOf(s, k) == RollingContent(m, trail, ref)
    ensures Leads(
              Step, s,
              [Tried(okText, RollContent(k)), Tried(okTuples, RollTuples(k)), Tried(okRecord, RollRecord(k))],
              s.(backend := if okText then s.backend - {ref} else s.backend,
                 tuples := if okTuples then s.tuples - trail else s.tuples,
                 ledger := if okRecord then s.ledger - {m} else s.ledger,
                 clients := s.clients[k := Idle]))
  {
    var u := s.(backend := if okText then s.backend - {ref} else s.backend,
                clients := s.clients[k := RollingTuples(m, trail)]);
    var t := u.(tuples := if okTuples then s.tuples - trail else s.tuples,
                ledger := if okRecord then s.ledger - {m} else s.ledger, clients := s.clients[k := Idle]);
    RollsText(s, k, m, trail, ref, okText);
    RollsBackTuples(u, k, m, trail, okTuples, okRecord);
    assert u.clients[k := Idle] == t.clients;
    var rest := [Tried(okTuples, RollTuples(k)), Tried(okRecord, RollRecord(k))];
    LeadsOn(Step, s, [Tried(okText, RollContent(k))], u, rest, t);
    assert [Tried(okText, RollContent(k))] + rest
           == [Tried(okText, RollContent(k)), Tried(okTuples, RollTuples(k)), Tried(okRecord, RollRecord(k))];
  }

  /** A record that cannot be put leaves neither text nor tuple behind, but for what cannot be taken back. */
  lemma FailedPutRollsBack(s: State, k: nat, okText: bool, okTuples: bool, okRecord: bool)
    requires ClientOf(s, k).PuttingRecord?
    ensures var PuttingRecord(m, trail, ref) := ClientOf(s, k);
            Leads(
              Step, s,
              [FailCall(k), Tried(okText, RollContent(k)), Tried(okTuples, RollTuples(k)),
               Tried(okRecord, RollRecord(k))],
              s.(backend := if okText then s.backend - {ref} else s.backend,
                 tuples := if okTuples then s.tuples - trail else s.tuples,
                 ledger := if okRecord then s.ledger - {m} else s.ledger,
                 clients := s.clients[k := Idle]))
  {
    var PuttingRecord(m, trail, ref) := ClientOf(s, k);
    var u := s.(clients := s.clients[k := RollingContent(m, trail, ref)]);
    var t := s.(backend := if okText then s.backend - {ref} else s.backend,
                tuples := if okTuples then s.tuples - trail else s.tuples,
                ledger := if okRecord then s.ledger - {m} else s.ledger, clients := s.clients[k := Idle]);
    PutFails(s, k, m, trail, ref);
    RollsBackText(u, k, m, trail, ref, okText, okTuples, okRecord);
    assert u.clients[k := Idle] == t.clients;
    var rest := [Tried(okText, RollContent(k)), Tried(okTuples, RollTuples(k)), Tried(okRecord, RollRecord(k))];
    LeadsOn(Step, s, [FailCall(k)], u, rest, t);
    assert [FailCall(k)] + rest
           == [FailCall(k), Tried(okText, RollContent(k)), Tried(okTuples, RollTuples(k)),
               Tried(okRecord, RollRecord(k))];
  }

  // ---- Remember, then recall ---------------------------------------------------------------

  /** The tuples of a memory, written out. */
  function Provenance(sources: seq<string>, actor: string, m: string): set<Tuple> {
    (set d | d in sources :: Tuple(d, "derived_from", m)) + {Tuple(actor, "writer", m)}
  }

  /** The record of the memory that `e` begins, stored under `ref`. */
  function Row(e: Event, ref: string): Record
    requires e.BeginRemember?
  {
    Record(e.m, e.ask.subject, (set d | d in e.sources), "inmemory", ref)
  }

  /** `s` after the memory was stored under `ref`. */
  function WithMemory(s: State, e: Event, ref: string): State
    requires e.BeginRemember?
  {
    State(s.tuples + Provenance(e.sources, e.ask.actor, e.m), s.ledger[e.m := Row(e, ref)],
          s.backend[ref := Content(e.m, e.text)],
          BegunWith(s, e).(refs := s.h.refs[ref := e.m], placed := s.h.placed + {e.m}), s.clients[e.k := Idle])
  }

  function BegunWith(s: State, e: Event): History
    requires e.BeginRemember?
  {
    s.h.(origins := s.h.origins[e.m := Origin((set d | d in e.sources), e.ask.subject, e.text, e.k)])
  }

  lemma RememberBegins(s: State, e: Event)
    requires e.BeginRemember? && Enabled(s, e)
    ensures Leads(Step, s, [e],
                  s.(h := BegunWith(s, e),
                     clients := s.clients[e.k := WritingTuples(e.m, Provenance(e.sources, e.ask.actor, e.m))]))
  {
    var trail := Provenance(e.sources, e.ask.actor, e.m);
    assert trail == Trail(SetOf(e.sources), e.ask.actor, e.m);
    OneStep(s, e, s.(h := BegunWith(s, e), clients := s.clients[e.k := WritingTuples(e.m, trail)]));
  }

  lemma RememberWrites(s: State, k: nat, m: string, trail: set<Tuple>)
    requires ClientOf(s, k) == WritingTuples(m, trail)
    ensures Leads(Step, s, [WriteTuples(k)],
                  s.(tuples := s.tuples + trail, clients := s.clients[k := StoringContent(m, trail)]))
  {
    OneStep(s, WriteTuples(k), s.(tuples := s.tuples + trail, clients := s.clients[k := StoringContent(m, trail)]));
  }

  lemma RememberStores(s: State, k: nat, m: string, trail: set<Tuple>, ref: string)
    requires ClientOf(s, k) == StoringContent(m, trail) && ref !in s.h.refs && m in s.h.origins
    ensures Leads(Step, s, [StoreContent(k, ref)],
                  s.(backend := s.backend[ref := Content(m, s.h.origins[m].text)],
                     h := s.h.(refs := s.h.refs[ref := m]), clients := s.clients[k := PuttingRecord(m, trail, ref)]))
  {
    OneStep(s, StoreContent(k, ref),
            s.(backend := s.backend[ref := Content(m, s.h.origins[m].text)],
               h := s.h.(refs := s.h.refs[ref := m]), clients := s.clients[k := PuttingRecord(m, trail, ref)]));
  }

  lemma RememberRecords(s: State, k: nat, m: string, trail: set<Tuple>, ref: string)
    requires ClientOf(s, k) == PuttingRecord(m, trail, ref) && m in s.h.origins
    ensures var o := s.h.origins[m];
            Leads(Step, s, [PutRecord(k)],
                  s.(ledger := s.ledger[m := Record(m, o.writtenFor, o.sources, "inmemory", ref)],
                     h := s.h.(placed := s.h.placed + {m}), clients := s.clients[k := Idle]))
  {
    var o := s.h.origins[m];
    OneStep(s, PutRecord(k),
            s.(ledger := s.ledger[m := Record(m, o.writtenFor, o.sources, "inmemory", ref)],
               h := s.h.(placed := s.h.placed + {m}), clients := s.clients[k := Idle]));
  }

  lemma RememberFiles(s: State, k: nat, m: string, trail: set<Tuple>, ref: string)
    requires ClientOf(s, k) == StoringContent(m, trail) && ref !in s.h.refs && m in s.h.origins
    ensures var o := s.h.origins[m];
            Leads(Step, s, [StoreContent(k, ref), PutRecord(k)],
                  s.(backend := s.backend[ref := Content(m, o.text)],
                     ledger := s.ledger[m := Record(m, o.writtenFor, o.sources, "inmemory", ref)],
                     h := s.h.(refs := s.h.refs[ref := m], placed := s.h.placed + {m}),
                     clients := s.clients[k := Idle]))
  {
    var o := s.h.origins[m];
    var u := s.(backend := s.backend[ref := Content(m, o.text)], h := s.h.(refs := s.h.refs[ref := m]),
                clients := s.clients[k := PuttingRecord(m, trail, ref)]);
    var t := s.(backend := s.backend[ref := Content(m, o.text)],
                ledger := s.ledger[m := Record(m, o.writtenFor, o.sources, "inmemory", ref)],
                h := s.h.(refs := s.h.refs[ref := m], placed := s.h.placed + {m}), clients := s.clients[k := Idle]);
    RememberStores(s, k, m, trail, ref);
    RememberRecords(u, k, m, trail, ref);
    assert u.clients[k := Idle] == t.clients;
    LeadsOn(Step, s, [StoreContent(k, ref)], u, [PutRecord(k)], t);
    assert [StoreContent(k, ref)] + [PutRecord(k)] == [StoreContent(k, ref), PutRecord(k)];
  }

  /** The tuples are written, the text is not. */
  function WithTuples(s: State, e: Event): State
    requires e.BeginRemember?
  {
    var trail := Provenance(e.sources, e.ask.actor, e.m);
    s.(tuples := s.tuples + trail, h := BegunWith(s, e), clients := s.clients[e.k := StoringContent(e.m, trail)])
  }

  lemma RememberLinks(s: State, e: Event)
    requires e.BeginRemember? && Enabled(s, e)
    ensures Leads(Step, s, [e, WriteTuples(e.k)], WithTuples(s, e))
  {
    var k, trail := e.k, Provenance(e.sources, e.ask.actor, e.m);
    var s1 := s.(h := BegunWith(s, e), clients := s.clients[k := WritingTuples(e.m, trail)]);
    var t := WithTuples(s, e);
    RememberBegins(s, e);
    RememberWrites(s1, k, e.m, trail);
    assert s1.clients[k := StoringContent(e.m, trail)] == t.clients;
    LeadsOn(Step, s, [e], s1, [WriteTuples(k)], t);
    assert [e] + [WriteTuples(k)] == [e, WriteTuples(k)];
  }

  lemma RememberEnds(s: State, e: Event, ref: string)
    requires e.BeginRemember? && ref !in s.h.refs
    ensures Leads(Step, WithTuples(s, e), [StoreContent(e.k, ref), PutRecord(e.k)], WithMemory(s, e, ref))
  {
    var u := WithTuples(s, e);
    RememberFiles(u, e.k, e.m, Provenance(e.sources, e.ask.actor, e.m), ref);
    assert u.clients[e.k := Idle] == s.clients[e.k := Idle];
  }

  /** An accepted remember that nothing interrupts leaves its tuples, its text and its record, and nothing else. */
  lemma RememberKeepsAll(s: State, e: Event, ref: string)
    requires e.BeginRemember? && Enabled(s, e) && ref !in s.h.refs
    ensures Leads(Step, s, [e, WriteTuples(e.k), StoreContent(e.k, ref), PutRecord(e.k)], WithMemory(s, e, ref))
  {
    var k := e.k;
    RememberLinks(s, e);
    RememberEnds(s, e, ref);
    LeadsOn(Step, s, [e, WriteTuples(k)], WithTuples(s, e), [StoreContent(k, ref), PutRecord(k)],
            WithMemory(s, e, ref));
    assert [e, WriteTuples(k)] + [StoreContent(k, ref), PutRecord(k)]
           == [e, WriteTuples(k), StoreContent(k, ref), PutRecord(k)];
  }

  /** A recall that found one hit, its record and its tuples, and has yet to decide. */
  function Deciding(s: State, j: nat, reader: Ask, hit: Candidate, row: Record): State {
    var found := set x | x in s.tuples && x.obj == row.memoryId && x.relation == "derived_from" :: x.user;
    var raced := if row.memoryId in s.h.cleared then {row.memoryId} else {};
    s.(clients := s.clients[j := Gathering(reader, [hit], [row], found, 1, raced)])
  }

  lemma RecallBegins(s: State, j: nat, reader: Ask, hit: Candidate)
    requires ClientOf(s, j).Idle? && ValidRef(reader.subject, "user") && Hit(s.backend, hit)
    ensures Leads(Step, s, [BeginRecall(j, reader, [hit])], s.(clients := s.clients[j := Looking(reader, [hit], [])]))
  {
    OneStep(s, BeginRecall(j, reader, [hit]), s.(clients := s.clients[j := Looking(reader, [hit], [])]));
  }

  lemma RecallLooks(s: State, j: nat, reader: Ask, hit: Candidate, row: Record)
    requires ClientOf(s, j) == Looking(reader, [hit], []) && hit.refs == [row.ref] && row.backend == "inmemory"
    requires row.memoryId in s.ledger && s.ledger[row.memoryId] == row
    ensures Leads(Step, s, [ReadLedger(j, Some(row))],
                  s.(clients := s.clients[j := Gathering(reader, [hit], [row], {}, 0, {})]))
  {
    assert [] + [row] == [row];
    OneStep(s, ReadLedger(j, Some(row)), s.(clients := s.clients[j := Gathering(reader, [hit], [row], {}, 0, {})]));
  }

  lemma RecallGathers(s: State, j: nat, reader: Ask, hit: Candidate, row: Record)
    requires ClientOf(s, j) == Gathering(reader, [hit], [row], {}, 0, {})
    ensures Leads(Step, s, [ReadTuples(j)], Deciding(s, j, reader, hit, row))
  {
    var t := Deciding(s, j, reader, hit, row);
    assert t.clients[j].found == {} + SourcesIn(s.tuples, row.memoryId);
    assert t.clients[j].raced == if row.memoryId in s.h.cleared then {} + {row.memoryId} else {};
    OneStep(s, ReadTuples(j), t);
  }

  /** A recall that nothing interrupts decides on what the ledger and the tuples say about its hit. */
  lemma RecallReadsBoth(s: State, j: nat, reader: Ask, hit: Candidate, row: Record)
    requires ClientOf(s, j).Idle? && ValidRef(reader.subject, "user") && Hit(s.backend, hit)
    requires hit.refs == [row.ref] && row.backend == "inmemory"
    requires row.memoryId in s.ledger && s.ledger[row.memoryId] == row
    ensures Leads(Step, s, [BeginRecall(j, reader, [hit]), ReadLedger(j, Some(row)), ReadTuples(j)],
                  Deciding(s, j, reader, hit, row))
  {
    var s1 := s.(clients := s.clients[j := Looking(reader, [hit], [])]);
    var s2 := s1.(clients := s1.clients[j := Gathering(reader, [hit], [row], {}, 0, {})]);
    var t := Deciding(s, j, reader, hit, row);
    RecallBegins(s, j, reader, hit);
    RecallLooks(s1, j, reader, hit, row);
    RecallGathers(s2, j, reader, hit, row);
    assert Deciding(s2, j, reader, hit, row).clients == t.clients;
    LeadsOn(Step, s1, [ReadLedger(j, Some(row))], s2, [ReadTuples(j)], t);
    LeadsOn(Step, s, [BeginRecall(j, reader, [hit])], s1, [ReadLedger(j, Some(row))] + [ReadTuples(j)], t);
    assert [BeginRecall(j, reader, [hit])] + ([ReadLedger(j, Some(row))] + [ReadTuples(j)])
           == [BeginRecall(j, reader, [hit]), ReadLedger(j, Some(row)), ReadTuples(j)];
  }

  /** A memory nobody has touched has no tuples yet, so the tuples read back are those of its own sources. */
  lemma SourcesReadBack(s: State, e: Event, ref: string, j: nat, reader: Ask)
    requires Inv(s) && e.BeginRemember? && e.m !in s.h.origins && e.m !in s.h.sides
    ensures var t := WithMemory(s, e, ref);
            Deciding(t, j, reader, Candidate(e.text, [ref]), Row(e, ref)).clients[j]
            == Gathering(reader, [Candidate(e.text, [ref])], [Row(e, ref)], (set d | d in e.sources), 1, {})
  {
    var t := WithMemory(s, e, ref);
    var found := set x | x in t.tuples && x.obj == e.m && x.relation == "derived_from" :: x.user;
    forall d
      ensures d in found <==> d in e.sources
    {
      var x := Tuple(d, "derived_from", e.m);
      assert x !in s.tuples;
      assert d in found <==> x in t.tuples;
    }
    assert found == set d | d in e.sources;
  }

  /**
   * What is remembered is recalled: the record and the tuples name exactly the sources it was written from, and the
   * text goes to exactly those readers who may read the memory and every one of these sources.
   */
  lemma RememberThenRecall(s: State, e: Event, ref: string, j: nat, reader: Ask)
    requires Inv(s) && e.BeginRemember? && Enabled(s, e) && ref !in s.h.refs && e.m !in s.h.sides
    requires ClientOf(s, j).Idle? && ValidRef(reader.subject, "user")
    ensures var hit, row := Candidate(e.text, [ref]), Row(e, ref);
            var t := WithMemory(s, e, ref);
            && Leads(Step, s, [e, WriteTuples(e.k), StoreContent(e.k, ref), PutRecord(e.k)]
                              + [BeginRecall(j, reader, [hit]), ReadLedger(j, Some(row)), ReadTuples(j)],
                     t.(clients := t.clients[j := Gathering(reader, [hit], [row], (set d | d in e.sources), 1, {})]))
            && forall eng, policy, permits, listing :: (set d | d in listing) == (set d | d in e.sources) ==>
                 (Returned(eng, policy, permits, reader, [row], listing) <==>
                  MayRead([row], listing, reader, eng, policy, permits))
  {
    var hit, row := Candidate(e.text, [ref]), Row(e, ref);
    var t := WithMemory(s, e, ref);
    RememberKeepsAll(s, e, ref);
    RecallReadsBoth(t, j, reader, hit, row);
    SourcesReadBack(s, e, ref, j, reader);
    LeadsOn(Step, s, [e, WriteTuples(e.k), StoreContent(e.k, ref), PutRecord(e.k)], t,
            [BeginRecall(j, reader, [hit]), ReadLedger(j, Some(row)), ReadTuples(j)],
            Deciding(t, j, reader, hit, row));
    forall eng, policy, permits, listing
      ensures Returned(eng, policy, permits, reader, [row], listing) <==>
              MayRead([row], listing, reader, eng, policy, permits)
    {
      ReturnedIff([row], listing, reader, eng, policy, permits);
    }
  }

  /** The reference that a recall looks up next. */
  predicate LooksUp(c: Client, ref: string) {
    c.Looking? && c.todo != [] && |c.rows| < |c.todo[0].refs| && c.todo[0].refs[|c.rows|] == ref
  }

  /** A lookup finds a record under this reference of this backend, and finds none exactly when there is none. */
  lemma LookupExact(s: State, k: nat, ref: string)
    requires LooksUp(ClientOf(s, k), ref)
    ensures forall row :: Enabled(s, ReadLedger(k, Some(row))) <==>
              row.memoryId in s.ledger && s.ledger[row.memoryId] == row && row.backend == "inmemory" && row.ref == ref
    ensures Enabled(s, ReadLedger(k, None)) <==>
            forall m :: m in s.ledger ==> !(s.ledger[m].backend == "inmemory" && s.ledger[m].ref == ref)
  {
  }

  /** A hit that is dropped, for whatever reason, costs no other hit its turn. */
  lemma DroppedHitIsOne(s: State, e: Event)
    requires e.SkipCandidate? || e.DecideCandidate? || e.FailCall? || (e.ReadLedger? && e.row.None?)
    requires Enabled(s, e) && HasHits(ClientOf(s, e.k)) && |ClientOf(s, e.k).todo| > 1
    ensures var c := ClientOf(s, e.k);
            Apply(s, e) == s.(clients := s.clients[e.k := Looking(c.ask, c.todo[1..], [])])
  {
  }
}
