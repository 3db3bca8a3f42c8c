/** Keep only the items whose document the subject may view. */
module ReadFilter {
  import opened Wrappers
  import opened Refs
  import opened Scopes
  import opened Policies
  import opened Decider

  const LIST_OBJECTS_THRESHOLD := 100

  /** What reading the reference field of an item gives. */
  datatype Extracted = Text(text: string) | NotText | Raised

  datatype Strategy = Auto | ByBatch | ByListing

  function Reference(x: Extracted): Option<string> {
    if x.Text? && ValidRef(x.text, "document") then Some(x.text) else None
  }

  function Choose(strategy: Strategy, count: nat): Strategy {
    if strategy == Auto then (if count > LIST_OBJECTS_THRESHOLD then ByListing else ByBatch) else strategy
  }

  /** Everything a filter call is given besides the items; `engine` answers the decider, `lister` the listing. */
  datatype Filter<!T> = Filter(
    extract: T -> Extracted,
    permits: Option<set<string> -> map<string, bool>>,
    strategy: Strategy,
    lister: Engine,
    engine: Engine,
    policy: Option<Policy>,
    ask: Ask)
  {
    function RefOf(item: T): Option<string> {
      Reference(extract(item))
    }

    /** The distinct references of the items. */
    function Wanted(items: seq<T>): set<string> {
      if items == [] then {}
      else
        var n := |items| - 1;
        Wanted(items[..n]) + if RefOf(items[n]).Some? then {RefOf(items[n]).value} else {}
    }

    /** The token's answer about one of the wanted references; one it does not mention is refused. */
    predicate TokenAllows(wanted: set<string>, ref: string) {
      permits.None? || (ref in permits.value(wanted) && permits.value(wanted)[ref])
    }

    /** The references among `items` that the token, asked about `wanted`, permits. */
    function Permitted(wanted: set<string>, items: seq<T>): set<string> {
      if items == [] then {}
      else
        var n := |items| - 1;
        var ref := RefOf(items[n]);
        Permitted(wanted, items[..n]) + if ref.Some? && TokenAllows(wanted, ref.value) then {ref.value} else {}
    }

    function Candidates(items: seq<T>): set<string> {
      Permitted(Wanted(items), items)
    }

    function Listing(): Option<set<string>> {
      lister.list(ask.subject, ask.relation, "document")
    }

    predicate Listed(ref: string) {
      Listing().Some? && ref in Listing().value
    }

    predicate UsesListing(items: seq<T>) {
      Choose(strategy, |Candidates(items)|) == ByListing
    }

    /** The pointwise rule: a valid reference that the token permits and that `decide` allows. */
    predicate Viewable(items: seq<T>, item: T) {
      && RefOf(item).Some?
      && TokenAllows(Wanted(items), RefOf(item).value)
      && Decided(RefOf(item).value)
    }

    /** `decide` allows reading the reference. */
    predicate Decided(ref: string) {
      Decide(engine, policy, ask, ref) == Some(Verdict(Allow, "allowed"))
    }

    predicate Keeps(items: seq<T>, item: T) {
      Viewable(items, item) && (UsesListing(items) ==> Listed(RefOf(item).value))
    }

    /** The first `n` items that are kept, in order and with duplicates. */
    function KeptOf(items: seq<T>, n: nat): seq<T>
      requires n <= |items|
    {
      if n == 0 then [] else KeptOf(items, n - 1) + if Keeps(items, items[n - 1]) then [items[n - 1]] else []
    }

    /** The first `n` items whose reference is in `allowed`. */
    function KeptIn(items: seq<T>, n: nat, allowed: set<string>): seq<T>
      requires n <= |items|
    {
      if n == 0 then []
      else
        var ref := RefOf(items[n - 1]);
        KeptIn(items, n - 1, allowed) + if ref.Some? && ref.value in allowed then [items[n - 1]] else []
    }

    /** What the journal names of the first `n` items that are not kept: their references in order. */
    function DroppedOf(items: seq<T>, n: nat): seq<string>
      requires n <= |items|
    {
      if n == 0 then []
      else
        var x := items[n - 1];
        DroppedOf(items, n - 1)
        + if Keeps(items, x) then [] else [if RefOf(x).Some? then RefOf(x).value else "invalid"]
    }

    function DroppedIn(items: seq<T>, n: nat, allowed: set<string>): seq<string>
      requires n <= |items|
    {
      if n == 0 then []
      else
        var ref := RefOf(items[n - 1]);
        DroppedIn(items, n - 1, allowed)
        + if ref.None? then ["invalid"] else if ref.value in allowed then [] else [ref.value]
    }

    function ViewableOf(items: seq<T>, n: nat): seq<T>
      requires n <= |items|
    {
      if n == 0 then [] else ViewableOf(items, n - 1) + if Viewable(items, items[n - 1]) then [items[n - 1]] else []
    }
  }

  lemma AllowReason(policy: Option<Policy>, a: Ask, resource: string, answer: Answer)
    requires DecideWith(policy, a, resource, answer).outcome == Allow
    ensures DecideWith(policy, a, resource, answer) == Verdict(Allow, "allowed")
  {
  }

  lemma {:induction false} PermittedHas<T>(f: Filter<T>, wanted: set<string>, items: seq<T>, i: nat)
    requires i < |items| && f.RefOf(items[i]).Some?
    ensures f.RefOf(items[i]).value in f.Permitted(wanted, items) <==> f.TokenAllows(wanted, f.RefOf(items[i]).value)
  {
    var n := |items| - 1;
    var ref := f.RefOf(items[i]).value;
    if i < n {
      PermittedHas(f, wanted, items[..n], i);
    } else {
      PermittedAllows(f, wanted, items[..n], ref);
    }
  }

  lemma {:induction false} PermittedAllows<T>(f: Filter<T>, wanted: set<string>, items: seq<T>, ref: string)
    ensures ref in f.Permitted(wanted, items) ==> f.TokenAllows(wanted, ref)
  {
    if items == [] {
    } else {
      PermittedAllows(f, wanted, items[..|items| - 1], ref);
    }
  }

  /** The item's field holds this well-formed document reference. */
  predicate Names<T>(f: Filter<T>, item: T, r: string) {
    f.extract(item) == Text(r) && ValidRef(r, "document")
  }

  /** The token is asked about exactly the well-formed document references of the items. */
  lemma {:induction false} WantedExact<T>(f: Filter<T>, items: seq<T>, r: string)
    ensures r in f.Wanted(items) <==> exists i :: 0 <= i < |items| && Names(f, items[i], r)
  {
    if items == [] {
    } else {
      var n := |items| - 1;
      WantedExact(f, items[..n], r);
      if r in f.Wanted(items) && r !in f.Wanted(items[..n]) {
        assert Names(f, items[n], r);
      }
      if i :| 0 <= i < |items| && Names(f, items[i], r) {
        assert i < n ==> items[..n][i] == items[i];
      }
    }
  }

  /** The candidates are the wanted references that the token, asked about all of them at once, permits. */
  lemma {:induction false} PermittedExact<T>(f: Filter<T>, wanted: set<string>, items: seq<T>, r: string)
    ensures r in f.Permitted(wanted, items) <==>
            && r in f.Wanted(items)
            && (f.permits.None? || (r in f.permits.value(wanted) && f.permits.value(wanted)[r]))
  {
    if items == [] {
    } else {
      PermittedExact(f, wanted, items[..|items| - 1], r);
    }
  }

  /**
   * What keeps an item: a document reference that the token permits, that is in scope, that the engine relates to the
   * subject and that the policy lets pass; and, if a listing was asked for or there are more than a hundred
   * candidates, one that the listing shows.
   */
  lemma KeepsExact<T>(f: Filter<T>, items: seq<T>, x: T)
    requires ValidRef(f.ask.subject, "user")
    ensures f.Keeps(items, x) <==>
            && f.extract(x).Text? && ValidRef(f.extract(x).text, "document")
            && var r, wanted, ask := f.extract(x).text, f.Wanted(items), f.ask;
               && (f.permits.Some? ==> r in f.permits.value(wanted) && f.permits.value(wanted)[r])
               && ValidPattern(r) && ScopeCovers(ask.scope, Capability(ask.kind, r))
               && f.engine.check(ask.subject, ask.relation, r) == Related(true)
               && PolicyLets(f.policy, ask, [r])
               && (f.strategy == ByListing || (f.strategy == Auto && |f.Candidates(items)| > 100) ==>
                     var listing := f.lister.list(ask.subject, ask.relation, "document");
                     listing.Some? && r in listing.value)
  {
    var ref := f.RefOf(x);
    if ref.Some? {
      var answer := f.engine.check(f.ask.subject, f.ask.relation, ref.value);
      RefIsPattern(ref.value, "document");
      AllowNeedsAll(f.policy, f.ask, ref.value, answer);
      if DecideWith(f.policy, f.ask, ref.value, answer).outcome == Allow {
        AllowReason(f.policy, f.ask, ref.value, answer);
      }
    }
  }

  /** The wanted references that the token permits, each once. */
  method Collect<T>(f: Filter<T>, items: seq<T>) returns (candidates: seq<string>)
    ensures forall r :: r in candidates <==> r in f.Candidates(items)
    ensures |candidates| == |f.Candidates(items)|
    ensures forall i :: 0 <= i < |candidates| ==> ValidRef(candidates[i], "document")
  {
    var wanted := f.Wanted(items);
    candidates := [];
    for i := 0 to |items|
      invariant forall r :: r in candidates <==> r in f.Permitted(wanted, items[..i])
      invariant |candidates| == |f.Permitted(wanted, items[..i])|
      invariant forall j :: 0 <= j < |candidates| ==> ValidRef(candidates[j], "document")
    {
      assert items[..i + 1][..i] == items[..i];
      ghost var before := f.Permitted(wanted, items[..i]);
      var ref := f.RefOf(items[i]);
      if ref.Some? && f.TokenAllows(wanted, ref.value) {
        if ref.value !in candidates {
          candidates := candidates + [ref.value];
        } else {
          assert before + {ref.value} == before;
        }
      }
    }
    assert items[..|items|] == items;
  }

  method AllowedOf(candidates: seq<string>, decisions: seq<Verdict>) returns (allowed: set<string>)
    requires |candidates| == |decisions|
    ensures forall r :: r in allowed <==>
              exists i :: 0 <= i < |candidates| && candidates[i] == r && decisions[i].outcome == Allow
  {
    allowed := {};
    for i := 0 to |candidates|
      invariant forall r :: r in allowed <==>
                  exists j :: 0 <= j < i && candidates[j] == r && decisions[j].outcome == Allow
    {
      if decisions[i].outcome == Allow {
        allowed := allowed + {candidates[i]};
      }
    }
  }

  /** One outcome per candidate, as the batch strategy finds it; `calls` are the engine calls made. */
  method ViaBatch<T>(f: Filter<T>, candidates: seq<string>) returns (allowed: set<string>, calls: seq<seq<string>>)
    requires ValidRef(f.ask.subject, "user")
    requires forall i :: 0 <= i < |candidates| ==> ValidRef(candidates[i], "document")
    ensures forall k :: 0 <= k < |calls| ==> 0 < |calls[k]| <= 50
    ensures forall r :: r in allowed ==> r in candidates && Confirmed(f, calls, r)
    ensures forall r :: r in candidates && AgreesOn(f.engine, f.ask, calls, r) ==> (r in allowed <==> f.Decided(r))
  {
    forall i | 0 <= i < |candidates|
      ensures ValidPattern(candidates[i])
    {
      RefIsPattern(candidates[i], "document");
    }
    var decisions, made := DecideEach(f.engine, f.policy, f.ask, candidates);
    calls := made;
    allowed := AllowedOf(candidates, decisions.value);
    forall r | r in allowed
      ensures r in candidates && Confirmed(f, calls, r)
    {
      var i :| 0 <= i < |candidates| && candidates[i] == r && decisions.value[i].outcome == Allow;
      AllowedIsConfirmed(f, calls, r, decisions.value[i]);
    }
    forall r | r in candidates && AgreesOn(f.engine, f.ask, calls, r)
      ensures r in allowed <==> f.Decided(r)
    {
      forall i | 0 <= i < |candidates| && candidates[i] == r
        ensures decisions.value[i].outcome == Allow <==> f.Decided(r)
      {
        assert Some(decisions.value[i]) == Decide(f.engine, f.policy, f.ask, r);
        if decisions.value[i].outcome == Allow {
          AllowReason(f.policy, f.ask, r, f.engine.check(f.ask.subject, f.ask.relation, r));
        }
      }
    }
  }

  /** In scope, related to the subject in some call of the engine, and let pass by every part of the policy. */
  ghost predicate Confirmed<T>(f: Filter<T>, calls: seq<seq<string>>, r: string) {
    && ValidPattern(r) && ScopeCovers(f.ask.scope, Capability(f.ask.kind, r))
    && RelatedIn(f.engine, f.ask.subject, f.ask.relation, calls, r)
    && PolicyLets(f.policy, f.ask, [r])
  }

  lemma AllowedIsConfirmed<T>(f: Filter<T>, calls: seq<seq<string>>, r: string, v: Verdict)
    requires Sound(f.engine, f.policy, f.ask, calls, r, v) && v.outcome == Allow
    ensures Confirmed(f, calls, r)
  {
    AllowedIsRelated(f.engine, f.policy, f.ask, calls, r, v);
  }

  /** The listing is asked once; what it does not show is refused, the rest is decided as usual. */
  method ViaListObjects<T>(f: Filter<T>, candidates: seq<string>)
    returns (allowed: set<string>, calls: seq<seq<string>>)
    requires ValidRef(f.ask.subject, "user")
    requires forall i :: 0 <= i < |candidates| ==> ValidRef(candidates[i], "document")
    ensures forall k :: 0 <= k < |calls| ==> 0 < |calls[k]| <= 50
    ensures forall r :: r in allowed ==> r in candidates && f.Listed(r) && Confirmed(f, calls, r)
    ensures forall r :: r in candidates && f.Listed(r) && AgreesOn(f.engine, f.ask, calls, r) ==>
              (r in allowed <==> f.Decided(r))
  {
    var visible := f.Listing();
    if visible.None? {
      return {}, [];
    }
    var listed: seq<string> := [];
    for i := 0 to |candidates|
      invariant forall r :: r in listed <==> r in candidates[..i] && r in visible.value
      invariant forall j :: 0 <= j < |listed| ==> ValidRef(listed[j], "document")
    {
      if candidates[i] in visible.value {
        listed := listed + [candidates[i]];
      }
    }
    assert candidates[..|candidates|] == candidates;
    allowed, calls := ViaBatch(f, listed);
  }

  /** The references that survive, by either strategy. */
  method Admit<T>(f: Filter<T>, items: seq<T>, candidates: seq<string>)
    returns (allowed: set<string>, calls: seq<seq<string>>)
    requires ValidRef(f.ask.subject, "user")
    requires forall r :: r in candidates <==> r in f.Candidates(items)
    requires |candidates| == |f.Candidates(items)|
    requires forall i :: 0 <= i < |candidates| ==> ValidRef(candidates[i], "document")
    ensures forall k :: 0 <= k < |calls| ==> 0 < |calls[k]| <= 50
    ensures forall r :: r in allowed ==>
              r in f.Candidates(items) && (f.UsesListing(items) ==> f.Listed(r)) && Confirmed(f, calls, r)
    ensures forall r :: r in f.Candidates(items) && AgreesOn(f.engine, f.ask, calls, r) ==>
              (r in allowed <==> f.Decided(r) && (f.UsesListing(items) ==> f.Listed(r)))
  {
    if Choose(f.strategy, |candidates|) == ByListing {
      allowed, calls := ViaListObjects(f, candidates);
    } else {
      allowed, calls := ViaBatch(f, candidates);
    }
  }

  /**
   * `kept` is exactly the viewable items in input order with duplicates, minus under the listing strategy those that
   * the listing does not show, when the engine calls made agree with single checks; an item whose own reference was
   * answered like a single check is judged rightly whatever happened to the others. With any engine, a kept item has
   * a valid reference that the token permits and the engine confirmed, in scope and allowed by the policy.
   */
  method FilterItems<T>(f: Filter<T>, items: seq<T>)
    returns (kept: seq<T>, dropped: seq<string>, calls: seq<seq<string>>)
    requires ValidRef(f.ask.subject, "user")
    ensures forall k :: 0 <= k < |calls| ==> 0 < |calls[k]| <= 50
    ensures (forall r :: r in f.Candidates(items) ==> AgreesOn(f.engine, f.ask, calls, r)) ==>
              kept == f.KeptOf(items, |items|) && dropped == f.DroppedOf(items, |items|)
    ensures forall x :: x in items && f.RefOf(x).Some? && AgreesOn(f.engine, f.ask, calls, f.RefOf(x).value) ==>
              (x in kept <==> f.Keeps(items, x))
    ensures |kept| + |dropped| == |items|
    ensures forall x :: x in kept ==>
              && x in items
              && f.RefOf(x).Some?
              && f.TokenAllows(f.Wanted(items), f.RefOf(x).value)
              && Confirmed(f, calls, f.RefOf(x).value)
              && (f.UsesListing(items) ==> f.Listed(f.RefOf(x).value))
  {
    var candidates := Collect(f, items);
    var allowed;
    allowed, calls := Admit(f, items, candidates);
    kept, dropped := Sift(f, items, allowed);
    JudgedByReference(f, items, allowed, calls);
    if forall r :: r in f.Candidates(items) ==> AgreesOn(f.engine, f.ask, calls, r) {
      KeptInIsKeptOf(f, items, |items|, allowed);
    }
  }

  /** The pass over the items, with what `allowed` says of their references. */
  method Sift<T>(f: Filter<T>, items: seq<T>, allowed: set<string>) returns (kept: seq<T>, dropped: seq<string>)
    ensures kept == f.KeptIn(items, |items|, allowed) && dropped == f.DroppedIn(items, |items|, allowed)
    ensures |kept| + |dropped| == |items|
    ensures forall x :: x in kept <==> x in items && f.RefOf(x).Some? && f.RefOf(x).value in allowed
  {
    kept, dropped := [], [];
    for i := 0 to |items|
      invariant kept == f.KeptIn(items, i, allowed) && dropped == f.DroppedIn(items, i, allowed)
      invariant |kept| + |dropped| == i
      invariant forall x :: x in kept <==> x in items[..i] && f.RefOf(x).Some? && f.RefOf(x).value in allowed
    {
      var ref := f.RefOf(items[i]);
      if ref.Some? && ref.value in allowed {
        kept := kept + [items[i]];
      } else {
        dropped := dropped + [if ref.Some? then ref.value else "invalid"];
      }
      assert items[..i + 1] == items[..i] + [items[i]];
    }
    assert items[..|items|] == items;
  }

  /** What the admitted references say of every item. */
  ghost predicate Judges<T>(f: Filter<T>, items: seq<T>, allowed: set<string>, x: T) {
    f.RefOf(x).Some? ==> (f.RefOf(x).value in allowed <==> f.Keeps(items, x))
  }

  ghost predicate Admitted<T>(f: Filter<T>, items: seq<T>, allowed: set<string>, calls: seq<seq<string>>) {
    && (forall r :: r in allowed ==> r in f.Candidates(items))
    && forall r :: r in f.Candidates(items) && AgreesOn(f.engine, f.ask, calls, r) ==>
         (r in allowed <==> f.Decided(r) && (f.UsesListing(items) ==> f.Listed(r)))
  }

  lemma JudgedByReference<T>(f: Filter<T>, items: seq<T>, allowed: set<string>, calls: seq<seq<string>>)
    requires Admitted(f, items, allowed, calls)
    ensures forall x :: x in items && f.RefOf(x).Some? && f.RefOf(x).value in allowed ==>
              f.TokenAllows(f.Wanted(items), f.RefOf(x).value)
    ensures forall x :: x in items && f.RefOf(x).Some? && AgreesOn(f.engine, f.ask, calls, f.RefOf(x).value) ==>
              Judges(f, items, allowed, x)
    ensures (forall r :: r in f.Candidates(items) ==> AgreesOn(f.engine, f.ask, calls, r)) ==>
              forall x :: x in items ==> Judges(f, items, allowed, x)
  {
    forall x | x in items && f.RefOf(x).Some?
      ensures f.RefOf(x).value in f.Candidates(items) <==> f.TokenAllows(f.Wanted(items), f.RefOf(x).value)
    {
      var i :| 0 <= i < |items| && items[i] == x;
      PermittedHas(f, f.Wanted(items), items, i);
    }
  }

  lemma {:induction false} KeptInIsKeptOf<T>(f: Filter<T>, items: seq<T>, n: nat, allowed: set<string>)
    requires n <= |items| && forall x :: x in items ==> Judges(f, items, allowed, x)
    ensures f.KeptIn(items, n, allowed) == f.KeptOf(items, n)
    ensures f.DroppedIn(items, n, allowed) == f.DroppedOf(items, n)
    decreases n
  {
    if n == 0 {
    } else {
      KeptInIsKeptOf(f, items, n - 1, allowed);
      assert Judges(f, items, allowed, items[n - 1]);
    }
  }

  /** `s` is `t` with some elements left out, the others in order. */
  ghost predicate Subsequence<T(!new)>(s: seq<T>, t: seq<T>)
    decreases |t|
  {
    if t == [] then s == []
    else
      var front, last := t[..|t| - 1], t[|t| - 1];
      Subsequence(s, front) || (s != [] && s[|s| - 1] == last && Subsequence(s[..|s| - 1], front))
  }

  lemma SubsequenceSnoc<T(!new)>(s: seq<T>, t: seq<T>, x: T)
    requires Subsequence(s, t)
    ensures Subsequence(s, t + [x]) && Subsequence(s + [x], t + [x])
  {
    assert (t + [x])[..|t|] == t;
    assert (s + [x])[..|s|] == s;
  }

  /** For any listing or a failing one, what is kept is a subsequence of what is viewable. */
  lemma {:induction false} KeptIsSubsequence<T(!new)>(f: Filter<T>, items: seq<T>, n: nat)
    requires n <= |items|
    ensures Subsequence(f.KeptOf(items, n), f.ViewableOf(items, n))
    decreases n
  {
    if n == 0 {
    } else {
      KeptIsSubsequence(f, items, n - 1);
      var k, v, x := f.KeptOf(items, n - 1), f.ViewableOf(items, n - 1), items[n - 1];
      SubsequenceSnoc(k, v, x);
      assert f.KeptOf(items, n) == if f.Keeps(items, x) then k + [x] else k;
      assert f.ViewableOf(items, n) == if f.Viewable(items, x) then v + [x] else v;
    }
  }

  /** Listing and batching keep the same items when the listing shows every candidate that the engine relates. */
  lemma {:induction false} ListingAgrees<T>(f: Filter<T>, items: seq<T>, n: nat)
    requires n <= |items|
    requires forall r :: r in f.Candidates(items) ==>
               f.engine.check(f.ask.subject, f.ask.relation, r) == Related(true) ==> f.Listed(r)
    ensures f.KeptOf(items, n) == f.ViewableOf(items, n)
    decreases n
  {
    if n == 0 {
    } else {
      ListingAgrees(f, items, n - 1);
      var x := items[n - 1];
      if f.Viewable(items, x) {
        var ref := f.RefOf(x).value;
        PermittedHas(f, f.Wanted(items), items, n - 1);
        AllowNeedsAll(f.policy, f.ask, ref, f.engine.check(f.ask.subject, f.ask.relation, ref));
      }
    }
  }
}
