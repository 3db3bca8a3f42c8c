/** Principal chains: who is acted for, who acts, and how the scope was narrowed on the way. */
module Chains {
  import opened Wrappers
  import opened Refs
  import opened Scopes

  const MAX_DELEGATION_DEPTH := 8

  datatype Delegation = Delegation(from: string, to: string, scope: Scope)

  datatype Chain = Chain(subject: string, actor: string, links: seq<Delegation>, scope: Scope)

  datatype Fault =
    | NotAUser
    | NotAnAgent
    | SelfDelegation
    | TooDeep
    | WrongActor
    | WrongScope
    | NotContiguous
    | ScopeEscalation

  /** One hop asked of `Delegate`. */
  datatype Hop = Hop(to: string, scope: Scope)

  // ---- Construction ------------------------------------------------------------------------

  function DelegationFault(from: string, to: string): Option<Fault> {
    if !ValidRef(from, "agent") || !ValidRef(to, "agent") then Some(NotAnAgent)
    else if from == to then Some(SelfDelegation)
    else None
  }

  predicate ValidLink(d: Delegation) {
    DelegationFault(d.from, d.to) == None
  }

  /** The first fault of the links from position `k` on, each compared with the one before it. */
  function LinkFault(links: seq<Delegation>, k: nat): Option<Fault>
    requires 1 <= k <= |links|
    decreases |links| - k
  {
    if k == |links| then None
    else if links[k].from != links[k - 1].to then Some(NotContiguous)
    else if !SubsetOf(links[k].scope, links[k - 1].scope) then Some(ScopeEscalation)
    else LinkFault(links, k + 1)
  }

  /** The constructor's answer: `None` accepts. */
  function ChainFault(subject: string, actor: string, links: seq<Delegation>, scope: Scope): Option<Fault> {
    if !ValidRef(subject, "user") then Some(NotAUser)
    else if !ValidRef(actor, "agent") then Some(NotAnAgent)
    else if |links| > MAX_DELEGATION_DEPTH then Some(TooDeep)
    else if links == [] then None
    else if links[|links| - 1].to != actor then Some(WrongActor)
    else if links[|links| - 1].scope != scope then Some(WrongScope)
    else LinkFault(links, 1)
  }

  /** The constructor as it runs: a loop that keeps the previous link. */
  method CheckChain(subject: string, actor: string, links: seq<Delegation>, scope: Scope)
    returns (fault: Option<Fault>)
    ensures fault == ChainFault(subject, actor, links, scope)
    ensures fault == None <==> WellFormed(Chain(subject, actor, links, scope))
  {
    ChainFaultNone(subject, actor, links, scope);
    if !ValidRef(subject, "user") {
      return Some(NotAUser);
    }
    if !ValidRef(actor, "agent") {
      return Some(NotAnAgent);
    }
    if |links| > MAX_DELEGATION_DEPTH {
      return Some(TooDeep);
    }
    if links == [] {
      return None;
    }
    if links[|links| - 1].to != actor {
      return Some(WrongActor);
    }
    if links[|links| - 1].scope != scope {
      return Some(WrongScope);
    }
    var previous := links[0];
    for k := 1 to |links|
      invariant previous == links[k - 1]
      invariant LinkFault(links, 1) == LinkFault(links, k)
    {
      if links[k].from != previous.to {
        return Some(NotContiguous);
      }
      if !SubsetOf(links[k].scope, previous.scope) {
        return Some(ScopeEscalation);
      }
      previous := links[k];
    }
    return None;
  }

  /** What an accepted chain satisfies, position by position. */
  predicate WellFormed(c: Chain) {
    && ValidRef(c.subject, "user")
    && ValidRef(c.actor, "agent")
    && |c.links| <= 8
    && (c.links != [] ==> c.links[|c.links| - 1].to == c.actor && c.links[|c.links| - 1].scope == c.scope)
    && (forall k :: 0 < k < |c.links| ==> c.links[k].from == c.links[k - 1].to)
    && (forall k :: 0 < k < |c.links| ==> SubsetOf(c.links[k].scope, c.links[k - 1].scope))
  }

  lemma LinkFaultNone(links: seq<Delegation>, k: nat)
    requires 1 <= k <= |links|
    ensures LinkFault(links, k) == None <==>
            forall j :: k <= j < |links| ==>
              links[j].from == links[j - 1].to && SubsetOf(links[j].scope, links[j - 1].scope)
    decreases |links| - k
  {
    if k < |links| {
      LinkFaultNone(links, k + 1);
    }
  }

  lemma ChainFaultNone(subject: string, actor: string, links: seq<Delegation>, scope: Scope)
    ensures ChainFault(subject, actor, links, scope) == None <==> WellFormed(Chain(subject, actor, links, scope))
  {
    if links != [] {
      LinkFaultNone(links, 1);
    }
  }

  function NewChain(subject: string, actor: string, links: seq<Delegation>, scope: Scope): Result<Chain, Fault> {
    match ChainFault(subject, actor, links, scope)
    case Some(fault) => Err(fault)
    case None => Ok(Chain(subject, actor, links, scope))
  }

  function Root(subject: string, actor: string, scope: Scope): Result<Chain, Fault> {
    NewChain(subject, actor, [], scope)
  }

  function Delegate(c: Chain, to: string, scope: Scope): Result<Chain, Fault> {
    if !SubsetOf(scope, c.scope) then Err(ScopeEscalation)
    else
      match DelegationFault(c.actor, to)
      case Some(fault) => Err(fault)
      case None => NewChain(c.subject, to, c.links + [Delegation(c.actor, to, scope)], scope)
  }

  /** Delegation applied hop after hop. */
  function DelegateAll(root: Chain, hops: seq<Hop>): Result<Chain, Fault> {
    if hops == [] then Ok(root)
    else
      var last := hops[|hops| - 1];
      match DelegateAll(root, hops[..|hops| - 1])
      case Err(fault) => Err(fault)
      case Ok(c) => Delegate(c, last.to, last.scope)
  }

  lemma DelegateAllSnoc(root: Chain, hops: seq<Hop>, hop: Hop)
    ensures DelegateAll(root, hops + [hop]) ==
            match DelegateAll(root, hops)
            case Err(fault) => Err(fault)
            case Ok(c) => Delegate(c, hop.to, hop.scope)
  {
    assert (hops + [hop])[..|hops|] == hops;
  }

  // ---- What the constructor accepts --------------------------------------------------------

  function HopsOf(links: seq<Delegation>): (hops: seq<Hop>)
    ensures |hops| == |links|
  {
    seq(|links|, i requires 0 <= i < |links| => Hop(links[i].to, links[i].scope))
  }

  /** `c` is what some root reaches by delegation alone. */
  ghost predicate Reachable(c: Chain) {
    exists actor, scope, hops ::
      Root(c.subject, actor, scope).Ok? && DelegateAll(Root(c.subject, actor, scope).value, hops) == Ok(c)
  }

  /** An accepted chain minus its last link is accepted, and delegating the last link gives it back. */
  lemma LastLinkDelegates(c: Chain, before: Chain)
    requires WellFormed(c) && c.links != []
    requires forall d :: d in c.links ==> ValidLink(d)
    requires var n := |c.links| - 1;
             && before.subject == c.subject
             && before.actor == c.links[n].from
             && before.links == c.links[..n]
             && before.scope == if n == 0 then c.links[0].scope else c.links[n - 1].scope
    ensures WellFormed(before)
    ensures Delegate(before, c.actor, c.scope) == Ok(c)
  {
    var n := |c.links| - 1;
    var last := c.links[n];
    assert last in c.links;
    SubsetReflexive(last.scope);
    assert before.links + [Delegation(before.actor, c.actor, c.scope)] == c.links;
    ChainFaultNone(c.subject, c.actor, c.links, c.scope);
  }

  lemma {:induction false} AcceptedIsDelegated(c: Chain, root: Chain)
    requires WellFormed(c)
    requires forall d :: d in c.links ==> ValidLink(d)
    requires root.subject == c.subject && root.links == []
    requires c.links == [] ==> root == c
    requires c.links != [] ==> root.actor == c.links[0].from && root.scope == c.links[0].scope
    ensures WellFormed(root)
    ensures DelegateAll(root, HopsOf(c.links)) == Ok(c)
    decreases |c.links|
  {
    if c.links == [] {
    } else {
      var n := |c.links| - 1;
      var before := Chain(c.subject, c.links[n].from, c.links[..n],
                          if n == 0 then c.links[0].scope else c.links[n - 1].scope);
      LastLinkDelegates(c, before);
      AcceptedIsDelegated(before, root);
      assert HopsOf(c.links)[..n] == HopsOf(before.links);
    }
  }

  /** One delegation appends one valid link to what was there. */
  lemma DelegateAppends(before: Chain, to: string, scope: Scope)
    requires Delegate(before, to, scope).Ok?
    ensures var c := Delegate(before, to, scope).value;
            && WellFormed(c) && c.subject == before.subject
            && c.links == before.links + [Delegation(before.actor, to, scope)]
            && ValidLink(Delegation(before.actor, to, scope)) && SubsetOf(scope, before.scope)
            && HopsOf(c.links) == HopsOf(before.links) + [Hop(to, scope)]
  {
    var c := Delegate(before, to, scope).value;
    ChainFaultNone(c.subject, c.actor, c.links, c.scope);
  }

  /** A chain can be delegated exactly to another agent, within its scope, and fewer than eight links deep. */
  lemma DelegateIff(c: Chain, to: string, scope: Scope)
    requires WellFormed(c)
    ensures Delegate(c, to, scope).Ok? <==>
            ValidRef(to, "agent") && to != c.actor && SubsetOf(scope, c.scope) && |c.links| < 8
    ensures Delegate(c, to, scope).Ok? ==>
              Delegate(c, to, scope).value == Chain(c.subject, to, c.links + [Delegation(c.actor, to, scope)], scope)
  {
    var links := c.links + [Delegation(c.actor, to, scope)];
    ChainFaultNone(c.subject, to, links, scope);
    if ValidRef(to, "agent") && to != c.actor && SubsetOf(scope, c.scope) && |c.links| < 8 {
      assert WellFormed(Chain(c.subject, to, links, scope));
    }
  }

  /** What delegation from `root` along `hops` leaves: the subject kept and one valid link per hop, from the root on. */
  predicate Follows(root: Chain, hops: seq<Hop>, c: Chain) {
    && WellFormed(c)
    && c.subject == root.subject
    && HopsOf(c.links) == hops
    && (forall k :: 0 <= k < |c.links| ==> ValidLink(c.links[k]))
    && (c.links != [] ==> c.links[0].from == root.actor && SubsetOf(c.links[0].scope, root.scope))
    && (c.links == [] ==> c == root)
  }

  lemma FollowsStep(root: Chain, hops: seq<Hop>, before: Chain, hop: Hop)
    requires Follows(root, hops, before) && Delegate(before, hop.to, hop.scope).Ok?
    ensures Follows(root, hops + [hop], Delegate(before, hop.to, hop.scope).value)
  {
    DelegateAppends(before, hop.to, hop.scope);
  }

  /** Every chain that delegation produces is accepted, keeps the subject and adds one link per hop. */
  lemma {:induction false} DelegatedIsAccepted(root: Chain, hops: seq<Hop>)
    requires WellFormed(root) && root.links == []
    ensures DelegateAll(root, hops).Ok? ==> Follows(root, hops, DelegateAll(root, hops).value)
  {
    if hops != [] && DelegateAll(root, hops).Ok? {
      var front, last := hops[..|hops| - 1], hops[|hops| - 1];
      DelegatedIsAccepted(root, front);
      FollowsStep(root, front, DelegateAll(root, front).value, last);
      assert front + [last] == hops;
    }
  }

  /** The constructor accepts exactly the link tuples that some root can reach by delegation. */
  lemma AcceptedIffReachable(c: Chain)
    requires forall d :: d in c.links ==> ValidLink(d)
    ensures ChainFault(c.subject, c.actor, c.links, c.scope) == None <==> Reachable(c)
  {
    ChainFaultNone(c.subject, c.actor, c.links, c.scope);
    if WellFormed(c) {
      var root := if c.links == [] then c else Chain(c.subject, c.links[0].from, [], c.links[0].scope);
      AcceptedIsDelegated(c, root);
      assert Root(c.subject, root.actor, root.scope) == Ok(root);
    }
    if Reachable(c) {
      var actor, scope, hops :|
        Root(c.subject, actor, scope).Ok? && DelegateAll(Root(c.subject, actor, scope).value, hops) == Ok(c);
      ChainFaultNone(c.subject, actor, [], scope);
      DelegatedIsAccepted(Root(c.subject, actor, scope).value, hops);
    }
  }

  // ---- Narrowing over the whole chain ------------------------------------------------------

  lemma {:induction false} LaterIsSubset(c: Chain, i: nat, j: nat)
    requires WellFormed(c) && i <= j < |c.links|
    ensures SubsetOf(c.links[j].scope, c.links[i].scope)
    decreases j
  {
    if i == j {
      SubsetReflexive(c.links[i].scope);
    } else {
      LaterIsSubset(c, i, j - 1);
      SubsetTransitive(c.links[j].scope, c.links[j - 1].scope, c.links[i].scope);
    }
  }

  /** Along an accepted chain the meaning of the scope only shrinks, between any two links. */
  lemma ScopesShrink(c: Chain, i: nat, j: nat)
    requires WellFormed(c) && i <= j < |c.links|
    ensures Narrower(c.links[j].scope, c.links[i].scope)
  {
    LaterIsSubset(c, i, j);
    SubsetSound(c.links[j].scope, c.links[i].scope);
  }
}
