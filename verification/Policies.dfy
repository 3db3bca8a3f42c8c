/** Decision policies: extra constraints that can only lower an outcome. */
module Policies {
  import opened Wrappers
  import opened Refs
  import opened Scopes

  datatype Outcome = Allow | RequireApprovalOutcome | Deny

  datatype Verdict = Verdict(outcome: Outcome, reason: string)

  const ALLOW := Verdict(Allow, "policy_allowed")

  /** Tool arguments, only ever looked at by predicates and by the hash. */
  type Args = string

  /** One policy call: what is asked, and the approval the gate vouches for, if any. */
  datatype Query = Query(
    subject: string, actor: string, kind: Kind, resource: string, args: Args, approval: Option<string>)

  /** A predicate over the arguments; `None` is an exception. */
  type Predicate = Args -> Option<bool>

  datatype Policy =
    | RequireApproval(tools: seq<Capability>, when: Option<Predicate>, reason: string)
    | DenyWhen(tools: seq<Capability>, hit: Predicate, reason: string)
    | Composite(parts: seq<Policy>)
    | Custom(verdict: Query -> Option<Verdict>)

  function Severity(o: Outcome): nat {
    match o
    case Allow => 0
    case RequireApprovalOutcome => 1
    case Deny => 2
  }

  function MostRestrictive(a: Verdict, b: Verdict): Verdict {
    if Severity(b.outcome) > Severity(a.outcome) then b else a
  }

  predicate Applies(tools: seq<Capability>, q: Query) {
    && q.kind == Act && ValidPattern(q.resource)
    && exists i :: 0 <= i < |tools| && Covers(tools[i], Capability(Act, q.resource))
  }

  /** The pattern names the resource, exactly or by its prefix. */
  predicate NamesTool(tool: Capability, resource: string) {
    && tool.kind == Act
    && (tool.resource == resource || (EndsWith(tool.resource, '*') && StartsWith(resource, Chop(tool.resource))))
  }

  /** A built-in policy speaks about acting on a resource that one of its patterns names, and about nothing else. */
  lemma AppliesExact(tools: seq<Capability>, q: Query)
    ensures Applies(tools, q) <==>
            q.kind == Act && ValidPattern(q.resource) && exists i :: 0 <= i < |tools| && NamesTool(tools[i], q.resource)
  {
    if q.kind == Act && ValidPattern(q.resource) {
      forall i | 0 <= i < |tools|
        ensures Covers(tools[i], Capability(Act, q.resource)) <==> NamesTool(tools[i], q.resource)
      {
      }
    }
  }

  /** The verdict of a policy; `None` when it raises. */
  function Evaluate(p: Policy, q: Query): Option<Verdict>
    decreases p
  {
    match p
    case RequireApproval(tools, when, reason) =>
      if !Applies(tools, q) then Some(ALLOW)
      else if when.Some? && when.value(q.args) == None then Some(Verdict(Deny, "policy_error"))
      else if when.Some? && when.value(q.args) == Some(false) then Some(ALLOW)
      else if q.approval.Some? then Some(ALLOW)
      else Some(Verdict(RequireApprovalOutcome, reason))
    case DenyWhen(tools, hit, reason) =>
      if !Applies(tools, q) then Some(ALLOW)
      else (match hit(q.args)
            case None => Some(Verdict(Deny, "policy_error"))
            case Some(b) => Some(if b then Verdict(Deny, reason) else ALLOW))
    case Composite(parts) => EvaluateParts(p, parts, |parts|, q)
    case Custom(verdict) => verdict(q)
  }

  /** The fold over the first `n` parts; an exception of any part is an exception of the whole. */
  function EvaluateParts(p: Policy, parts: seq<Policy>, n: nat, q: Query): Option<Verdict>
    requires n <= |parts| && p == Composite(parts)
    decreases p, n
  {
    if n == 0 then Some(ALLOW)
    else
      match EvaluateParts(p, parts, n - 1, q)
      case None => None
      case Some(sofar) =>
        match Evaluate(parts[n - 1], q)
        case None => None
        case Some(v) => Some(MostRestrictive(sofar, v))
  }

  /** How strict a part is on the query; nothing if it raises. */
  function PartSeverity(part: Policy, q: Query): nat {
    match Evaluate(part, q)
    case None => 0
    case Some(v) => Severity(v.outcome)
  }

  /** `v` is the verdict of the first part stricter than all before it that no later part exceeds, or plain ALLOW. */
  ghost predicate Attained(parts: seq<Policy>, n: nat, q: Query, v: Verdict)
    requires n <= |parts|
  {
    && (forall i :: 0 <= i < n ==> PartSeverity(parts[i], q) <= Severity(v.outcome))
    && (v == ALLOW || exists i :: 0 <= i < n && AttainedAt(parts, q, v, i))
  }

  predicate AttainedAt(parts: seq<Policy>, q: Query, v: Verdict, i: nat)
    requires i < |parts|
  {
    && Evaluate(parts[i], q) == Some(v) && Severity(v.outcome) > Severity(ALLOW.outcome)
    && forall j :: 0 <= j < i ==> PartSeverity(parts[j], q) < Severity(v.outcome)
  }

  /** The composite as it runs: one pass that keeps the strictest verdict, the first of equals; a raise ends it. */
  method EvaluateComposite(parts: seq<Policy>, q: Query) returns (r: Option<Verdict>)
    ensures r == Evaluate(Composite(parts), q)
    ensures r.Some? <==> forall i :: 0 <= i < |parts| ==> Evaluate(parts[i], q).Some?
    ensures r.Some? ==> Attained(parts, |parts|, q, r.value)
  {
    ghost var p := Composite(parts);
    var verdict := ALLOW;
    for n := 0 to |parts|
      invariant EvaluateParts(p, parts, n, q) == Some(verdict)
      invariant forall i :: 0 <= i < n ==> Evaluate(parts[i], q).Some?
      invariant Attained(parts, n, q, verdict)
    {
      var v := Evaluate(parts[n], q);
      if v.None? {
        RaiseSticks(p, parts, n + 1, |parts|, q);
        return None;
      }
      AttainedStep(parts, n, q, verdict, v.value);
      verdict := MostRestrictive(verdict, v.value);
    }
    return Some(verdict);
  }

  lemma AttainedStep(parts: seq<Policy>, n: nat, q: Query, v: Verdict, w: Verdict)
    requires n < |parts| && Attained(parts, n, q, v) && Evaluate(parts[n], q) == Some(w)
    ensures Attained(parts, n + 1, q, MostRestrictive(v, w))
  {
    if Severity(w.outcome) > Severity(v.outcome) {
      assert AttainedAt(parts, q, w, n);
    }
  }

  lemma {:induction false} RaiseSticks(p: Policy, parts: seq<Policy>, n: nat, m: nat, q: Query)
    requires p == Composite(parts) && n <= m <= |parts|
    requires EvaluateParts(p, parts, n, q) == None
    ensures EvaluateParts(p, parts, m, q) == None
    decreases m
  {
    if n == m {
    } else {
      RaiseSticks(p, parts, n, m - 1, q);
    }
  }

  /** The policy asks for approval on this tool whatever the arguments, directly or in some composite. */
  predicate Demands(p: Policy, q: Query)
    decreases p
  {
    match p
    case RequireApproval(tools, when, _) => when.None? && Applies(tools, q)
    case Composite(parts) => exists i :: 0 <= i < |parts| && Demands(parts[i], q)
    case _ => false
  }

  lemma {:induction false} PartsLower(p: Policy, parts: seq<Policy>, n: nat, q: Query, i: nat)
    requires p == Composite(parts) && i < n <= |parts|
    requires EvaluateParts(p, parts, n, q).Some?
    ensures Evaluate(parts[i], q).Some?
    ensures Severity(EvaluateParts(p, parts, n, q).value.outcome) >= Severity(Evaluate(parts[i], q).value.outcome)
    decreases n
  {
    if i < n - 1 {
      PartsLower(p, parts, n - 1, q, i);
    }
  }

  /** A composite is at least as strict as each of its parts; without a raise, no part can be bypassed. */
  lemma CompositeLowers(parts: seq<Policy>, q: Query, i: nat)
    requires i < |parts| && Evaluate(Composite(parts), q).Some?
    ensures Evaluate(parts[i], q).Some?
    ensures Severity(Evaluate(Composite(parts), q).value.outcome) >= Severity(Evaluate(parts[i], q).value.outcome)
  {
    PartsLower(Composite(parts), parts, |parts|, q, i);
  }

  /** A policy that demands approval never allows a call that carries none. */
  lemma {:induction false} DemandsNeverAllows(p: Policy, q: Query)
    requires Demands(p, q) && q.approval == None
    ensures Evaluate(p, q).Some? ==> Evaluate(p, q).value.outcome != Allow
    decreases p
  {
    match p
    case Composite(parts) =>
      var i :| 0 <= i < |parts| && Demands(parts[i], q);
      DemandsNeverAllows(parts[i], q);
      if Evaluate(p, q).Some? {
        CompositeLowers(parts, q, i);
      }
    case _ =>
  }

  // ---- What a policy says, part by part ----------------------------------------------------

  /** Some custom part raises; the built-in ones never do. */
  predicate Raises(p: Policy, q: Query)
    decreases p
  {
    match p
    case Composite(parts) => exists i :: 0 <= i < |parts| && Raises(parts[i], q)
    case Custom(verdict) => verdict(q) == None
    case _ => false
  }

  /** Some part, at any depth, refuses: its predicate hits or fails on a matching tool, or it says so itself. */
  predicate Vetoes(p: Policy, q: Query)
    decreases p
  {
    match p
    case RequireApproval(tools, when, _) => Applies(tools, q) && when.Some? && when.value(q.args) == None
    case DenyWhen(tools, hit, _) => Applies(tools, q) && hit(q.args) != Some(false)
    case Composite(parts) => exists i :: 0 <= i < |parts| && Vetoes(parts[i], q)
    case Custom(verdict) => verdict(q).Some? && verdict(q).value.outcome == Deny
  }

  /** Every part, at any depth, lets the call pass: it does not match, its predicate is false, or it is approved. */
  predicate Passes(p: Policy, q: Query)
    decreases p
  {
    match p
    case RequireApproval(tools, when, _) =>
      || !Applies(tools, q)
      || (when.Some? && when.value(q.args) == Some(false))
      || (q.approval.Some? && (when.Some? ==> when.value(q.args).Some?))
    case DenyWhen(tools, hit, _) => !Applies(tools, q) || hit(q.args) == Some(false)
    case Composite(parts) => forall i :: 0 <= i < |parts| ==> Passes(parts[i], q)
    case Custom(verdict) => verdict(q).Some? && verdict(q).value.outcome == Allow
  }

  /** Some part, at any depth, gives this very verdict, with its own reason or that of a failing predicate. */
  predicate SaidBy(p: Policy, q: Query, v: Verdict)
    decreases p
  {
    match p
    case RequireApproval(_, _, reason) =>
      if Vetoes(p, q) then v == Verdict(Deny, "policy_error")
      else if Passes(p, q) then v == ALLOW
      else v == Verdict(RequireApprovalOutcome, reason)
    case DenyWhen(_, hit, reason) =>
      if Passes(p, q) then v == ALLOW
      else v == Verdict(Deny, if hit(q.args) == None then "policy_error" else reason)
    case Composite(parts) => v == ALLOW || exists i :: 0 <= i < |parts| && SaidBy(parts[i], q, v)
    case Custom(verdict) => verdict(q) == Some(v)
  }

  /** What the verdict of a policy means: the strictest that any part demands, in that part's words. */
  predicate Meant(p: Policy, q: Query, r: Option<Verdict>) {
    && (r.None? <==> Raises(p, q))
    && (r.Some? ==>
          && (r.value.outcome == Deny <==> Vetoes(p, q))
          && (r.value.outcome == Allow <==> Passes(p, q))
          && SaidBy(p, q, r.value))
  }

  /** The same for the first `n` parts of a composite. */
  ghost predicate MeantSoFar(parts: seq<Policy>, n: nat, q: Query, r: Option<Verdict>)
    requires n <= |parts|
  {
    && (r.None? <==> exists i :: 0 <= i < n && Raises(parts[i], q))
    && (r.Some? ==>
          && (r.value.outcome == Deny <==> exists i :: 0 <= i < n && Vetoes(parts[i], q))
          && (r.value.outcome == Allow <==> forall i :: 0 <= i < n ==> Passes(parts[i], q))
          && (r.value == ALLOW || exists i :: 0 <= i < n && SaidBy(parts[i], q, r.value)))
  }

  lemma MeantOneMore(parts: seq<Policy>, n: nat, q: Query, r: Option<Verdict>, part: Option<Verdict>)
    requires n < |parts| && MeantSoFar(parts, n, q, r) && Meant(parts[n], q, part)
    ensures MeantSoFar(parts, n + 1, q,
                       if r.None? || part.None? then None else Some(MostRestrictive(r.value, part.value)))
  {
    if r.Some? && part.Some? {
      var v := MostRestrictive(r.value, part.value);
      assert v == part.value ==> SaidBy(parts[n], q, v);
    }
  }

  lemma {:induction false} PartsMeant(p: Policy, parts: seq<Policy>, n: nat, q: Query)
    requires p == Composite(parts) && n <= |parts|
    ensures MeantSoFar(parts, n, q, EvaluateParts(p, parts, n, q))
    decreases p, n
  {
    if n == 0 {
    } else {
      PartsMeant(p, parts, n - 1, q);
      PolicyMeaning(parts[n - 1], q);
      MeantOneMore(parts, n - 1, q, EvaluateParts(p, parts, n - 1, q), Evaluate(parts[n - 1], q));
    }
  }

  /**
   * For every policy, however its parts are nested: it raises exactly when a custom part does, denies exactly when a
   * part vetoes, allows exactly when every part lets the call pass, and speaks in the words of a part.
   */
  lemma {:induction false} PolicyMeaning(p: Policy, q: Query)
    ensures Meant(p, q, Evaluate(p, q))
    decreases p, |if p.Composite? then p.parts else []| + 1
  {
    match p
    case Composite(parts) => PartsMeant(p, parts, |parts|, q);
    case _ =>
  }
}
