/** The single decision path: scope, then engine, then policy; one at a time, all together, or in batches. */
module Decider {
  import opened Wrappers
  import opened Refs
  import opened Scopes
  import opened Policies

  const BATCH_LIMIT := 50

  /** One engine answer; a failure carries the reason that the denial will show. */
  datatype Answer = Related(yes: bool) | Failed(reason: string)

  datatype BatchAnswer = Bools(bits: seq<bool>) | BatchFailed(reason: string)

  datatype Engine = Engine(
    check: (string, string, string) -> Answer,
    batch: (string, string, seq<string>) -> BatchAnswer,
    list: (string, string, string) -> Option<set<string>>)

  /** Who asks, and what is asked of each resource. */
  datatype Ask = Ask(
    subject: string,
    actor: string,
    scope: Scope,
    kind: Kind,
    relation: string,
    args: Args,
    approval: Option<string>)

  function QueryOf(a: Ask, resource: string): Query {
    Query(a.subject, a.actor, a.kind, resource, a.args, a.approval)
  }

  /** A failing policy is a denial; an allowing one gives the plain reason. */
  function PolicyVerdict(policy: Option<Policy>, q: Query): Verdict {
    match policy
    case None => Verdict(Allow, "allowed")
    case Some(p) =>
      match Evaluate(p, q)
      case None => Verdict(Deny, "policy_error")
      case Some(v) => if v.outcome == Allow then Verdict(Allow, "allowed") else v
  }

  /** What is decided once the engine has answered about one resource. */
  function AfterEngine(policy: Option<Policy>, a: Ask, resource: string, answer: Answer): Verdict {
    match answer
    case Failed(reason) => Verdict(Deny, reason)
    case Related(yes) => if !yes then Verdict(Deny, "not_related") else PolicyVerdict(policy, QueryOf(a, resource))
  }

  predicate InScope(a: Ask, resource: string) {
    ValidPattern(resource) && ScopeCovers(a.scope, Capability(a.kind, resource))
  }

  /** The pointwise decision, for an answer the engine gives when asked. */
  function DecideWith(policy: Option<Policy>, a: Ask, resource: string, answer: Answer): Verdict {
    if !InScope(a, resource) then Verdict(Deny, "scope_excluded") else AfterEngine(policy, a, resource, answer)
  }

  /** `decide`: an ill-formed resource or subject raises. */
  function Decide(e: Engine, policy: Option<Policy>, a: Ask, resource: string): Option<Verdict> {
    if ValidPattern(resource) && ValidRef(a.subject, "user") then
      Some(DecideWith(policy, a, resource, e.check(a.subject, a.relation, resource)))
    else None
  }

  /**
   * ALLOW needs all three: the actor's scope, the subject's relation, and every part of the policy; a part that vetoes
   * or raises is a denial, and a decision that passed scope and engine is in the policy's words.
   */
  lemma AllowNeedsAll(policy: Option<Policy>, a: Ask, resource: string, answer: Answer)
    ensures DecideWith(policy, a, resource, answer).outcome == Allow <==>
            && ValidPattern(resource) && ScopeCovers(a.scope, Capability(a.kind, resource))
            && answer == Related(true)
            && PolicyLets(policy, a, [resource])
    ensures policy.Some? && Vetoes(policy.value, QueryOf(a, resource)) ==>
              DecideWith(policy, a, resource, answer).outcome == Deny
    ensures InScope(a, resource) && answer == Related(true) ==>
              SpokenBy(policy, QueryOf(a, resource), DecideWith(policy, a, resource, answer))
    ensures !InScope(a, resource) ==> DecideWith(policy, a, resource, answer) == Verdict(Deny, "scope_excluded")
    ensures InScope(a, resource) && answer != Related(true) ==>
              DecideWith(policy, a, resource, answer)
              == Verdict(Deny, if answer.Failed? then answer.reason else "not_related")
  {
    var q := QueryOf(a, resource);
    assert PolicyLets(policy, a, [resource]) <==>
           (policy.Some? ==> !Raises(policy.value, q) && Passes(policy.value, q)) by {
      assert [resource][0] == resource;
    }
    if policy.Some? {
      PolicyMeaning(policy.value, q);
    }
  }

  /** The verdict once scope and engine said yes: the plain ALLOW, the words of a part, or a failed policy. */
  predicate SpokenBy(policy: Option<Policy>, q: Query, v: Verdict) {
    match policy
    case None => v == Verdict(Allow, "allowed")
    case Some(p) =>
      if Raises(p, q) then v == Verdict(Deny, "policy_error")
      else if Passes(p, q) then v == Verdict(Allow, "allowed")
      else SaidBy(p, q, v) && v.outcome == if Vetoes(p, q) then Deny else RequireApprovalOutcome
  }

  /** `decide` answers about a well-formed subject and resource, with the engine's answer to this very question. */
  lemma DecideMeaning(e: Engine, policy: Option<Policy>, a: Ask, resource: string)
    ensures var r := Decide(e, policy, a, resource);
            && (r.Some? <==> ValidPattern(resource) && ValidRef(a.subject, "user"))
            && (r.Some? ==>
                  (r.value.outcome == Allow <==>
                   && ScopeCovers(a.scope, Capability(a.kind, resource))
                   && e.check(a.subject, a.relation, resource) == Related(true)
                   && PolicyLets(policy, a, [resource])))
  {
    AllowNeedsAll(policy, a, resource, e.check(a.subject, a.relation, resource));
  }

  // ---- Batches -----------------------------------------------------------------------------

  /** `_batch`: every failure, including a list of the wrong length, becomes one denial reason. */
  function Batch(e: Engine, a: Ask, resources: seq<string>): BatchAnswer {
    match e.batch(a.subject, a.relation, resources)
    case BatchFailed(reason) => BatchFailed(reason)
    case Bools(bits) => if |bits| == |resources| then Bools(bits) else BatchFailed("engine_error")
  }

  function BatchAnswerAt(b: BatchAnswer, i: nat): Answer
    requires b.Bools? ==> i < |b.bits|
  {
    match b
    case BatchFailed(reason) => Failed(reason)
    case Bools(bits) => Related(bits[i])
  }

  /** The `i`-th answer of one engine call. */
  function AnswerIn(e: Engine, a: Ask, call: seq<string>, i: nat): Answer
    requires i < |call|
  {
    BatchAnswerAt(Batch(e, a, call), i)
  }

  /** One call says of each of its resources what a single check says of it. */
  predicate Agrees(e: Engine, a: Ask, call: seq<string>) {
    forall i :: 0 <= i < |call| ==> AnswerIn(e, a, call, i) == e.check(a.subject, a.relation, call[i])
  }

  /** Every call that asked about `resource` gave the answer of a single check; other resources may have failed. */
  predicate AgreesOn(e: Engine, a: Ask, calls: seq<seq<string>>, resource: string) {
    forall k, i {:trigger calls[k][i]} ::
      0 <= k < |calls| && 0 <= i < |calls[k]| && calls[k][i] == resource ==>
        AnswerIn(e, a, calls[k], i) == e.check(a.subject, a.relation, resource)
  }

  /** The `i`-th answer of the `k`-th call is about `resource`. */
  predicate AskedAt(calls: seq<seq<string>>, k: nat, i: nat, resource: string) {
    k < |calls| && i < |calls[k]| && calls[k][i] == resource
  }

  function Flatten(calls: seq<seq<string>>): seq<string> {
    if calls == [] then [] else Flatten(calls[..|calls| - 1]) + calls[|calls| - 1]
  }

  function Pick(targets: seq<string>, indices: seq<nat>): seq<string>
    requires forall j :: 0 <= j < |indices| ==> indices[j] < |targets|
  {
    seq(|indices|, j requires 0 <= j < |indices| => targets[indices[j]])
  }

  lemma PickSplit(targets: seq<string>, indices: seq<nat>, start: nat, end: nat)
    requires start <= end <= |indices|
    requires forall j :: 0 <= j < |indices| ==> indices[j] < |targets|
    ensures Pick(targets, indices[..end]) == Pick(targets, indices[..start]) + Pick(targets, indices[start..end])
    ensures forall j :: j in indices[..end] <==> j in indices[..start] || j in indices[start..end]
  {
    assert indices[..end] == indices[..start] + indices[start..end];
  }

  lemma PickSnoc(targets: seq<string>, indices: seq<nat>, i: nat)
    requires i < |targets| && forall j :: 0 <= j < |indices| ==> indices[j] < |targets|
    ensures Pick(targets, indices + [i]) == Pick(targets, indices) + [targets[i]]
  {
  }

  lemma FlattenSnoc(calls: seq<seq<string>>, call: seq<string>)
    ensures Flatten(calls + [call]) == Flatten(calls) + call
  {
    assert (calls + [call])[..|calls|] == calls;
  }

  /** The resources in scope, in order. */
  function Covered(a: Ask, targets: seq<string>): seq<string> {
    if targets == [] then []
    else
      var n := |targets| - 1;
      Covered(a, targets[..n]) + if InScope(a, targets[n]) then [targets[n]] else []
  }

  /** The verdict that the answer at one position of the calls leads to. */
  predicate FromAnswer(
    e: Engine, policy: Option<Policy>, a: Ask, calls: seq<seq<string>>, resource: string, v: Verdict, k: nat, i: nat)
  {
    AskedAt(calls, k, i, resource) && v == AfterEngine(policy, a, resource, AnswerIn(e, a, calls[k], i))
  }

  /** What a batched verdict must be: out of scope, or what the engine answered about the resource in some call. */
  ghost predicate Sound(
    e: Engine, policy: Option<Policy>, a: Ask, calls: seq<seq<string>>, resource: string, v: Verdict)
  {
    if !InScope(a, resource) then v == Verdict(Deny, "scope_excluded")
    else exists k: nat, i: nat :: FromAnswer(e, policy, a, calls, resource, v, k, i)
  }

  lemma SoundGrows(
    e: Engine, policy: Option<Policy>, a: Ask, calls: seq<seq<string>>, call: seq<string>, resource: string, v: Verdict)
    requires Sound(e, policy, a, calls, resource, v)
    ensures Sound(e, policy, a, calls + [call], resource, v)
  {
    if InScope(a, resource) {
      var k: nat, i: nat :| FromAnswer(e, policy, a, calls, resource, v, k, i);
      assert FromAnswer(e, policy, a, calls + [call], resource, v, k, i);
    }
  }

  lemma SoundAfterBatch(
    e: Engine, policy: Option<Policy>, a: Ask, calls: seq<seq<string>>, call: seq<string>, i: nat)
    requires i < |call| && InScope(a, call[i])
    ensures Sound(e, policy, a, calls + [call], call[i], AfterEngine(policy, a, call[i], AnswerIn(e, a, call, i)))
  {
    var v := AfterEngine(policy, a, call[i], AnswerIn(e, a, call, i));
    assert FromAnswer(e, policy, a, calls + [call], call[i], v, |calls|, i);
  }

  /** A sound verdict is the one `decide` gives as soon as the calls about that one resource agree with a check. */
  lemma SoundIsDecide(
    e: Engine, policy: Option<Policy>, a: Ask, calls: seq<seq<string>>, resource: string, v: Verdict)
    requires Sound(e, policy, a, calls, resource, v) && AgreesOn(e, a, calls, resource)
    ensures v == DecideWith(policy, a, resource, e.check(a.subject, a.relation, resource))
  {
    if InScope(a, resource) {
      var k: nat, i: nat :| FromAnswer(e, policy, a, calls, resource, v, k, i);
      assert calls[k][i] == resource;
    }
  }

  /** In some call, the engine related the subject to the resource. */
  ghost predicate RelatedIn(e: Engine, subject: string, relation: string, calls: seq<seq<string>>, resource: string) {
    exists k: nat, i: nat :: RelatedAt(e, subject, relation, calls, resource, k, i)
  }

  predicate RelatedAt(
    e: Engine, subject: string, relation: string, calls: seq<seq<string>>, resource: string, k: nat, i: nat)
  {
    && AskedAt(calls, k, i, resource)
    && var b := e.batch(subject, relation, calls[k]);
       b.Bools? && |b.bits| == |calls[k]| && b.bits[i]
  }

  lemma AllowedIsRelated(
    e: Engine, policy: Option<Policy>, a: Ask, calls: seq<seq<string>>, resource: string, v: Verdict)
    requires Sound(e, policy, a, calls, resource, v) && v.outcome == Allow
    ensures RelatedIn(e, a.subject, a.relation, calls, resource) && PolicyLets(policy, a, [resource])
  {
    var k: nat, i: nat :| FromAnswer(e, policy, a, calls, resource, v, k, i);
    AllowNeedsAll(policy, a, resource, AnswerIn(e, a, calls[k], i));
    assert RelatedAt(e, a.subject, a.relation, calls, resource, k, i);
  }

  /** One chunk: a single engine call, then one verdict per position. */
  method DecideChunk(e: Engine, policy: Option<Policy>, a: Ask, call: seq<string>) returns (verdicts: seq<Verdict>)
    ensures |verdicts| == |call|
    ensures forall i :: 0 <= i < |call| ==>
              verdicts[i] == AfterEngine(policy, a, call[i], AnswerIn(e, a, call, i))
  {
    var b := Batch(e, a, call);
    verdicts := [];
    for i := 0 to |call|
      invariant |verdicts| == i
      invariant forall j :: 0 <= j < i ==>
                  verdicts[j] == AfterEngine(policy, a, call[j], BatchAnswerAt(b, j))
    {
      verdicts := verdicts + [AfterEngine(policy, a, call[i], BatchAnswerAt(b, i))];
    }
  }

  /** The first pass: refuse what the scope excludes, keep the indices of the rest. */
  method SplitByScope(a: Ask, targets: seq<string>) returns (toCheck: seq<nat>, outcomes: map<nat, Verdict>)
    ensures forall j :: 0 <= j < |toCheck| ==> toCheck[j] < |targets| && InScope(a, targets[toCheck[j]])
    ensures forall j :: 0 <= j < |targets| ==> j in toCheck || j in outcomes
    ensures forall j :: j in outcomes ==>
              j < |targets| && !InScope(a, targets[j]) && outcomes[j] == Verdict(Deny, "scope_excluded")
    ensures Pick(targets, toCheck) == Covered(a, targets)
  {
    toCheck, outcomes := [], map[];
    for index := 0 to |targets|
      invariant forall j :: 0 <= j < |toCheck| ==> toCheck[j] < index && InScope(a, targets[toCheck[j]])
      invariant forall j :: 0 <= j < index ==> j in toCheck || j in outcomes
      invariant forall j :: j in outcomes ==>
                  j < index && !InScope(a, targets[j]) && outcomes[j] == Verdict(Deny, "scope_excluded")
      invariant Pick(targets, toCheck) == Covered(a, targets[..index])
    {
      assert targets[..index + 1][..index] == targets[..index];
      if InScope(a, targets[index]) {
        PickSnoc(targets, toCheck, index);
        toCheck := toCheck + [index];
      } else {
        outcomes := outcomes[index := Verdict(Deny, "scope_excluded")];
      }
    }
    assert targets[..|targets|] == targets;
  }

  /** Every recorded verdict is sound for its target. */
  ghost predicate SoundTable(
    e: Engine, policy: Option<Policy>, a: Ask, calls: seq<seq<string>>, targets: seq<string>,
    outcomes: map<nat, Verdict>)
  {
    forall j :: j in outcomes ==> j < |targets| && Sound(e, policy, a, calls, targets[j], outcomes[j])
  }

  /** One engine call for `chunk`, and its verdicts written over the table. */
  method RecordChunk(
    e: Engine, policy: Option<Policy>, a: Ask, ghost calls: seq<seq<string>>, targets: seq<string>, chunk: seq<nat>,
    before: map<nat, Verdict>)
    returns (outcomes: map<nat, Verdict>, call: seq<string>)
    requires forall j :: 0 <= j < |chunk| ==> chunk[j] < |targets| && InScope(a, targets[chunk[j]])
    requires SoundTable(e, policy, a, calls, targets, before)
    ensures call == Pick(targets, chunk)
    ensures SoundTable(e, policy, a, calls + [call], targets, outcomes)
    ensures forall j :: j in outcomes <==> j in before || j in chunk
  {
    call := Pick(targets, chunk);
    var verdicts := DecideChunk(e, policy, a, call);
    forall j | j in before {
      SoundGrows(e, policy, a, calls, call, targets[j], before[j]);
    }
    outcomes := before;
    for position := 0 to |chunk|
      invariant SoundTable(e, policy, a, calls + [call], targets, outcomes)
      invariant forall j :: j in outcomes <==> j in before || j in chunk[..position]
    {
      SoundAfterBatch(e, policy, a, calls, call, position);
      outcomes := outcomes[chunk[position] := verdicts[position]];
      assert chunk[..position + 1] == chunk[..position] + [chunk[position]];
    }
    assert chunk[..|chunk|] == chunk;
  }

  /** The second pass: the indices to check, fifty at a time. */
  method DecideChunks(
    e: Engine, policy: Option<Policy>, a: Ask, targets: seq<string>, toCheck: seq<nat>, denied: map<nat, Verdict>)
    returns (outcomes: map<nat, Verdict>, calls: seq<seq<string>>)
    requires forall j :: 0 <= j < |toCheck| ==> toCheck[j] < |targets| && InScope(a, targets[toCheck[j]])
    requires SoundTable(e, policy, a, [], targets, denied)
    ensures forall k :: 0 <= k < |calls| ==> 0 < |calls[k]| <= 50
    ensures Flatten(calls) == Pick(targets, toCheck) && |calls| == (|toCheck| + 49) / 50
    ensures SoundTable(e, policy, a, calls, targets, outcomes)
    ensures forall j :: j in denied || j in toCheck ==> j in outcomes
  {
    outcomes, calls := denied, [];
    var start := 0;
    while start < |toCheck|
      invariant 0 <= start <= |toCheck|
      invariant forall k :: 0 <= k < |calls| ==> 0 < |calls[k]| <= 50
      invariant Flatten(calls) == Pick(targets, toCheck[..start])
      invariant if start == |toCheck| then |calls| == (|toCheck| + 49) / 50 else start == |calls| * 50
      invariant SoundTable(e, policy, a, calls, targets, outcomes)
      invariant forall j :: j in denied || j in toCheck[..start] ==> j in outcomes
    {
      var end := if start + BATCH_LIMIT <= |toCheck| then start + BATCH_LIMIT else |toCheck|;
      var table, call := RecordChunk(e, policy, a, calls, targets, toCheck[start..end], outcomes);
      FlattenSnoc(calls, call);
      PickSplit(targets, toCheck, start, end);
      outcomes, calls, start := table, calls + [call], end;
    }
    assert toCheck[..|toCheck|] == toCheck;
  }

  /** The verdicts in the order of the targets. */
  method InOrder(outcomes: map<nat, Verdict>, count: nat) returns (decisions: seq<Verdict>)
    requires forall j: nat :: j < count ==> j in outcomes
    ensures |decisions| == count && forall j :: 0 <= j < count ==> decisions[j] == outcomes[j]
  {
    decisions := [];
    for index := 0 to count
      invariant |decisions| == index
      invariant forall j :: 0 <= j < index ==> decisions[j] == outcomes[j]
    {
      decisions := decisions + [outcomes[index]];
    }
  }

  /**
   * One verdict per resource from batched engine calls. The engine is asked about exactly the resources in scope, in
   * order, at most fifty per call and in as few calls as that takes. Every verdict follows the engine's own answer
   * about its resource, and is the one `decide` gives wherever the calls about that resource agree with a single
   * check, whatever other calls did.
   */
  method DecideEach(e: Engine, policy: Option<Policy>, a: Ask, targets: seq<string>)
    returns (r: Option<seq<Verdict>>, calls: seq<seq<string>>)
    ensures r.Some? <==> ValidRef(a.subject, "user") && forall i :: 0 <= i < |targets| ==> ValidPattern(targets[i])
    ensures forall k :: 0 <= k < |calls| ==> 0 < |calls[k]| <= 50
    ensures r.Some? ==> Flatten(calls) == Covered(a, targets) && |calls| == (|Covered(a, targets)| + 49) / 50
    ensures r.Some? ==> |r.value| == |targets|
    ensures r.Some? ==> forall i :: 0 <= i < |targets| ==> Sound(e, policy, a, calls, targets[i], r.value[i])
    ensures r.Some? ==>
              forall i :: 0 <= i < |targets| && AgreesOn(e, a, calls, targets[i]) ==>
                Some(r.value[i]) == Decide(e, policy, a, targets[i])
    ensures r.Some? ==>
              forall i :: 0 <= i < |targets| && r.value[i].outcome == Allow ==>
                RelatedIn(e, a.subject, a.relation, calls, targets[i]) && PolicyLets(policy, a, [targets[i]])
  {
    calls := [];
    if !ValidRef(a.subject, "user") || exists i :: 0 <= i < |targets| && !ValidPattern(targets[i]) {
      return None, calls;
    }
    var toCheck, denied := SplitByScope(a, targets);
    var outcomes, made := DecideChunks(e, policy, a, targets, toCheck, denied);
    var decisions := InOrder(outcomes, |targets|);
    forall i | 0 <= i < |targets| && AgreesOn(e, a, made, targets[i])
      ensures Some(decisions[i]) == Decide(e, policy, a, targets[i])
    {
      SoundIsDecide(e, policy, a, made, targets[i], decisions[i]);
    }
    forall i | 0 <= i < |targets| && decisions[i].outcome == Allow
      ensures RelatedIn(e, a.subject, a.relation, made, targets[i]) && PolicyLets(policy, a, [targets[i]])
    {
      AllowedIsRelated(e, policy, a, made, targets[i], decisions[i]);
    }
    return Some(decisions), made;
  }

  // ---- All resources together --------------------------------------------------------------

  /** The first verdict that is not ALLOW, in resource order. */
  function FirstRefusal(policy: Option<Policy>, a: Ask, resources: seq<string>): Option<Verdict> {
    if resources == [] then None
    else
      var v := PolicyVerdict(policy, QueryOf(a, resources[0]));
      if v.outcome != Allow then Some(v) else FirstRefusal(policy, a, resources[1..])
  }

  predicate AllTrue(bits: seq<bool>) {
    forall i :: 0 <= i < |bits| ==> bits[i]
  }

  /** `decide_all` over well-formed resources; `explicitScope` tells that the scope targets were given. */
  function DecideAll(
    e: Engine, policy: Option<Policy>, a: Ask, resources: seq<string>, scopeTargets: seq<string>, explicitScope: bool
  ): Verdict
  {
    if resources == [] && !explicitScope then Verdict(Deny, "no_resource")
    else if exists i :: 0 <= i < |scopeTargets| && !InScope(a, scopeTargets[i]) then Verdict(Deny, "scope_excluded")
    else if resources == [] then Verdict(Allow, "scope_only")
    else
      match Batch(e, a, resources)
      case BatchFailed(reason) => Verdict(Deny, reason)
      case Bools(bits) =>
        if !AllTrue(bits) then Verdict(Deny, "not_related")
        else
          match FirstRefusal(policy, a, resources)
          case Some(v) => v
          case None => Verdict(Allow, "allowed")
  }

  /** The policy refuses the `i`-th resource with `v` and allows all before it. */
  predicate RefusedFirst(policy: Option<Policy>, a: Ask, resources: seq<string>, i: nat, v: Verdict)
    requires i < |resources|
  {
    && PolicyVerdict(policy, QueryOf(a, resources[i])) == v && v.outcome != Allow
    && forall j :: 0 <= j < i ==> PolicyVerdict(policy, QueryOf(a, resources[j])).outcome == Allow
  }

  /** There is no refusal exactly when the policy allows every resource; otherwise it is the first one in order. */
  lemma {:induction false} FirstRefusalNone(policy: Option<Policy>, a: Ask, resources: seq<string>)
    ensures FirstRefusal(policy, a, resources) == None <==>
            forall i :: 0 <= i < |resources| ==> PolicyVerdict(policy, QueryOf(a, resources[i])).outcome == Allow
    ensures FirstRefusal(policy, a, resources).Some? ==> FirstRefusal(policy, a, resources).value.outcome != Allow
    ensures forall v :: FirstRefusal(policy, a, resources) == Some(v) ==>
              exists i :: 0 <= i < |resources| && RefusedFirst(policy, a, resources, i, v)
  {
    if resources == [] {
    } else {
      var head := PolicyVerdict(policy, QueryOf(a, resources[0]));
      if head.outcome != Allow {
        assert RefusedFirst(policy, a, resources, 0, head);
      } else {
        FirstRefusalNone(policy, a, resources[1..]);
        forall v | FirstRefusal(policy, a, resources) == Some(v)
          ensures exists i :: 0 <= i < |resources| && RefusedFirst(policy, a, resources, i, v)
        {
          var i :| 0 <= i < |resources[1..]| && RefusedFirst(policy, a, resources[1..], i, v);
          assert forall j :: 0 < j <= i + 1 ==> resources[j] == resources[1..][j - 1];
          assert RefusedFirst(policy, a, resources, i + 1, v);
        }
      }
      FirstRefusalNone(policy, a, resources[1..]);
      assert forall i :: 1 <= i < |resources| ==> resources[i] == resources[1..][i - 1];
    }
  }

  /** One engine call related the subject to every one of the resources. */
  predicate Confirmed(e: Engine, subject: string, relation: string, resources: seq<string>) {
    var b := e.batch(subject, relation, resources);
    b.Bools? && |b.bits| == |resources| && forall i :: 0 <= i < |b.bits| ==> b.bits[i]
  }

  /** Every part of the policy lets every one of the resources pass. */
  predicate PolicyLets(policy: Option<Policy>, a: Ask, resources: seq<string>) {
    policy.Some? ==>
      forall i :: 0 <= i < |resources| ==>
        var q := Query(a.subject, a.actor, a.kind, resources[i], a.args, a.approval);
        !Raises(policy.value, q) && Passes(policy.value, q)
  }

  lemma PolicyLetsIff(policy: Option<Policy>, a: Ask, resources: seq<string>)
    ensures PolicyLets(policy, a, resources) <==> FirstRefusal(policy, a, resources) == None
  {
    FirstRefusalNone(policy, a, resources);
    if policy.Some? {
      forall i | 0 <= i < |resources| {
        PolicyMeaning(policy.value, QueryOf(a, resources[i]));
      }
    }
  }

  /**
   * A set is allowed exactly when its scope targets are all covered and, unless there is nothing to ask about, the
   * engine confirmed all of it in one call and the policy lets all of it pass. No engine is asked about nothing.
   */
  lemma DecideAllMeaning(
    e: Engine, policy: Option<Policy>, a: Ask, resources: seq<string>, targets: seq<string>, explicitScope: bool)
    ensures var v := DecideAll(e, policy, a, resources, targets, explicitScope);
            var covered := forall r :: r in targets ==> ValidPattern(r) && ScopeCovers(a.scope, Capability(a.kind, r));
            && (v.outcome == Allow <==>
                && covered
                && if resources == [] then explicitScope
                   else Confirmed(e, a.subject, a.relation, resources) && PolicyLets(policy, a, resources))
            && (v.outcome == Allow ==> v.reason == if resources == [] then "scope_only" else "allowed")
            && (resources == [] && !explicitScope ==> v.reason == "no_resource")
            && ((resources != [] || explicitScope) && !covered ==> v.reason == "scope_excluded")
  {
    PolicyLetsIff(policy, a, resources);
    FirstRefusalNone(policy, a, resources);
    assert (forall r :: r in targets ==> InScope(a, r)) <==> forall i :: 0 <= i < |targets| ==> InScope(a, targets[i]);
  }

  /**
   * When the one batch about the set agrees with single checks, the set is allowed exactly when it is not empty and
   * `decide` allows each member.
   */
  lemma DecideAllIsConjunction(e: Engine, policy: Option<Policy>, a: Ask, resources: seq<string>)
    requires Agrees(e, a, resources) && ValidRef(a.subject, "user")
    requires forall i :: 0 <= i < |resources| ==> ValidPattern(resources[i])
    ensures DecideAll(e, policy, a, resources, resources, false).outcome == Allow <==>
            && resources != []
            && forall i :: 0 <= i < |resources| ==> Decide(e, policy, a, resources[i]).value.outcome == Allow
  {
    FirstRefusalNone(policy, a, resources);
    var b := Batch(e, a, resources);
    var v := DecideAll(e, policy, a, resources, resources, false);
    forall i | 0 <= i < |resources|
      ensures Decide(e, policy, a, resources[i]).value.outcome == Allow <==>
              && InScope(a, resources[i])
              && AnswerIn(e, a, resources, i) == Related(true)
              && PolicyVerdict(policy, QueryOf(a, resources[i])).outcome == Allow
    {
      assert AnswerIn(e, a, resources, i) == e.check(a.subject, a.relation, resources[i]);
    }
    if && resources != []
       && forall i :: 0 <= i < |resources| ==> Decide(e, policy, a, resources[i]).value.outcome == Allow
    {
      assert AnswerIn(e, a, resources, 0) == Related(true);
      assert forall i :: 0 <= i < |resources| ==> b.bits[i] == AnswerIn(e, a, resources, i).yes;
      assert v.outcome == Allow;
    }
    if v.outcome == Allow {
      assert forall i :: 0 <= i < |resources| ==> AnswerIn(e, a, resources, i) == Related(b.bits[i]);
    }
  }
}
