/** Issue, attenuate and verify tokens. */
module TokenService {
  import opened Wrappers
  import opened Refs
  import opened Scopes
  import opened Chains
  import opened Tokens

  // ---- Operations --------------------------------------------------------------------------

  /** A zero lifetime counts as no lifetime given. */
  function Lifetime(ttl: Option<int>, defaultTtl: int): int {
    match ttl
    case None => defaultTtl
    case Some(t) => if t == 0 then defaultTtl else t
  }

  function Issue(
    chain: Chain, ttl: Option<int>, defaultTtl: int, mandate: Option<string>, now: int, id: nat
  ): Result<Biscuit, TokenFault>
  {
    if chain.links != [] then Err(NotRoot)
    else
      var a := Authority(id, chain.subject, chain.actor, Facts(chain.scope), now + Lifetime(ttl, defaultTtl), mandate);
      Ok(Biscuit(a, []))
  }

  ghost function Attenuate(b: Biscuit, to: string, scope: Scope, id: nat): Result<Biscuit, TokenFault> {
    if !ValidRef(to, "agent") then Err(BadCaller)
    else
      match Load(b)
      case Err(e) => Err(e)
      case Ok(c) =>
        if |c.links| >= MAX_DELEGATION_DEPTH then Err(DelegationTooDeep)
        else
          match Delegate(c, to, scope)
          case Err(fault) => Err(BadChain(fault))
          case Ok(child) => Ok(Biscuit(b.authority, b.blocks + [AttenuationBlock(id, c.actor, to, scope)]))
  }

  function BlockIds(blocks: seq<Block>): seq<RevocationId> {
    seq(|blocks|, i requires 0 <= i < |blocks| => BlockId(blocks[i].id))
  }

  /** Block ids, and the mandate's own id, so that one revocation covers every derived token. */
  function RevocationIds(b: Biscuit): seq<RevocationId> {
    [BlockId(b.authority.id)] + BlockIds(b.blocks)
    + if b.authority.mandate.Some? then [MandateId(b.authority.mandate.value)] else []
  }

  /** The id of the token's own last block. */
  function OwnRevocationId(b: Biscuit): RevocationId {
    if b.blocks == [] then BlockId(b.authority.id) else BlockId(b.blocks[|b.blocks| - 1].id)
  }

  predicate IsRevoked(ids: seq<RevocationId>, revoked: set<RevocationId>) {
    exists i :: 0 <= i < |ids| && ids[i] in revoked
  }

  predicate CheckHolds(check: Check, caller: string, op: Kind, resource: string, now: int) {
    match check
    case ScopeCheck(clauses) => FactsAllow(clauses, op, resource)
    case OpaqueCheck(holds) => holds(caller, op, resource, now)
  }

  predicate BlockHolds(block: Block, caller: string, op: Kind, resource: string, now: int) {
    forall i :: 0 <= i < |block.checks| ==> CheckHolds(block.checks[i], caller, op, resource, now)
  }

  /** The authorizer: an authority fact allows the request and every check of every block holds. */
  predicate Authorized(b: Biscuit, caller: string, op: Kind, resource: string, now: int) {
    && FactsAllow(b.authority.caps, op, resource)
    && now < b.authority.expiresAt
    && forall k :: 0 <= k < |b.blocks| ==> BlockHolds(b.blocks[k], caller, op, resource, now)
  }

  function Verify(b: Biscuit, revoked: set<RevocationId>, caller: string, op: Kind, resource: string, now: int)
    : Result<Chain, TokenFault>
  {
    if !ValidRef(caller, "agent") then Err(BadCaller)
    else if !ValidPattern(resource) then Err(BadResource)
    else
      match Load(b)
      case Err(e) => Err(e)
      case Ok(c) =>
        if IsRevoked(RevocationIds(b), revoked) then Err(Revoked)
        else if caller != c.actor then Err(NotHolder)
        else if Authorized(b, caller, op, resource, now) then Ok(c)
        else if now >= b.authority.expiresAt then Err(Expired)
        else Err(NotPermitted)
  }

  /**
   * What a verification answers: the loaded chain itself, exactly when the token loads, carries no revoked id, is the
   * caller's and passes the authorizer; otherwise the first of these that fails.
   */
  lemma VerifyAnswers(b: Biscuit, revoked: set<RevocationId>, caller: string, op: Kind, resource: string, now: int)
    ensures var r := Verify(b, revoked, caller, op, resource, now);
            && (r.Ok? <==>
                && ValidRef(caller, "agent") && ValidPattern(resource) && Load(b).Ok?
                && !IsRevoked(RevocationIds(b), revoked)
                && caller == Load(b).value.actor
                && Authorized(b, caller, op, resource, now))
            && (r.Ok? ==> r == Load(b))
            && (!ValidRef(caller, "agent") ==> r == Err(BadCaller))
            && (ValidRef(caller, "agent") && !ValidPattern(resource) ==> r == Err(BadResource))
            && (ValidRef(caller, "agent") && ValidPattern(resource) ==>
                  && (Load(b).Err? ==> r == Load(b))
                  && (Load(b).Ok? ==>
                        && (r == Err(Revoked) <==> IsRevoked(RevocationIds(b), revoked))
                        && (r == Err(NotHolder) <==>
                            !IsRevoked(RevocationIds(b), revoked) && caller != Load(b).value.actor)
                        && (r == Err(Expired) ==> now >= b.authority.expiresAt)
                        && (r == Err(NotPermitted) ==> now < b.authority.expiresAt)))
  {
  }

  /** Many resources at once: load once, run the authorizer once per distinct resource. */
  method VerifyMany(b: Biscuit, revoked: set<RevocationId>, caller: string, op: Kind, resources: seq<string>, now: int)
    returns (r: Result<(Chain, map<string, bool>), TokenFault>)
    ensures r.Ok? <==>
            && ValidRef(caller, "agent")
            && Load(b).Ok?
            && !IsRevoked(RevocationIds(b), revoked)
            && caller == Load(b).value.actor
            && now < b.authority.expiresAt
            && forall i :: 0 <= i < |resources| ==> ValidPattern(resources[i])
    ensures r.Ok? ==>
              && Load(b) == Ok(r.value.0)
              && (forall x :: x in r.value.1 <==> x in resources)
              && forall x :: x in r.value.1 ==> (r.value.1[x] <==> Verify(b, revoked, caller, op, x, now).Ok?)
  {
    if !ValidRef(caller, "agent") {
      return Err(BadCaller);
    }
    var loaded := LoadToken(b);
    if loaded.Err? {
      return Err(loaded.error);
    }
    var chain := loaded.value;
    if IsRevoked(RevocationIds(b), revoked) {
      return Err(Revoked);
    }
    if caller != chain.actor {
      return Err(NotHolder);
    }
    if now >= b.authority.expiresAt {
      return Err(Expired);
    }
    var permits: map<string, bool> := map[];
    for k := 0 to |resources|
      invariant forall i :: 0 <= i < k ==> ValidPattern(resources[i])
      invariant forall x :: x in permits <==> x in resources[..k]
      invariant forall x :: x in permits ==>
                              ValidPattern(x) && (permits[x] <==> Authorized(b, caller, op, x, now))
    {
      assert resources[..k + 1] == resources[..k] + [resources[k]];
      if resources[k] in permits {
        continue;
      }
      if !ValidPattern(resources[k]) {
        return Err(BadResource);
      }
      permits := permits[resources[k] := Authorized(b, caller, op, resources[k], now)];
    }
    assert resources[..|resources|] == resources;
    return Ok((chain, permits));
  }

  // ---- Any blocks, forged or opaque --------------------------------------------------------

  lemma LoadRootWellFormed(a: Authority)
    requires LoadRoot(a).Ok?
    ensures var root := LoadRoot(a).value;
            && WellFormed(root) && root.links == []
            && root.subject == a.subject && root.actor == a.actor
            && ReadFacts(a.caps) == Some(root.scope)
  {
    ChainFaultNone(a.subject, a.actor, [], ReadFacts(a.caps).value);
  }

  /**
   * Whatever blocks were appended, loading succeeds exactly when there are at most eight of them, all of them parse
   * and folding `Delegate` from the authority root over what they declare gives a chain with exactly those links.
   */
  lemma LoadAnyBlocks(b: Biscuit, c: Chain)
    ensures Load(b) == Ok(c) <==>
            && |b.blocks| <= 8
            && LoadRoot(b.authority).Ok?
            && AllParse(b.blocks)
            && DelegateAll(LoadRoot(b.authority).value, HopsOf(Declared(b.blocks))) == Ok(c)
            && c.links == Declared(b.blocks)
  {
    if LoadRoot(b.authority).Ok? {
      LoadRootWellFormed(b.authority);
      LoadIsFold(LoadRoot(b.authority).value, b.blocks, c);
    }
  }

  /** A loaded chain keeps the subject, is contiguous from the root actor, and its scopes only shrink in meaning. */
  lemma LoadedChainNarrows(b: Biscuit)
    requires Load(b).Ok?
    ensures var c := Load(b).value;
            var root := LoadRoot(b.authority);
            && WellFormed(c)
            && c.subject == b.authority.subject
            && |c.links| <= 8
            && (c.links != [] ==> c.links[0].from == b.authority.actor)
            && root.Ok?
            && Narrower(c.scope, root.value.scope)
            && forall k :: 0 <= k < |c.links| ==> Narrower(c.links[k].scope, root.value.scope)
  {
    var c := Load(b).value;
    LoadAnyBlocks(b, c);
    LoadRootWellFormed(b.authority);
    var root := LoadRoot(b.authority).value;
    DelegatedIsAccepted(root, HopsOf(Declared(b.blocks)));
    forall k | 0 <= k < |c.links|
      ensures Narrower(c.links[k].scope, root.scope)
    {
      LaterIsSubset(c, 0, k);
      SubsetTransitive(c.links[k].scope, c.links[0].scope, root.scope);
      SubsetSound(c.links[k].scope, root.scope);
    }
    if c.links == [] {
      SubsetReflexive(root.scope);
      SubsetSound(root.scope, root.scope);
    }
  }

  /**
   * A token that loads can be attenuated exactly to another agent, within the scope it holds and fewer than eight
   * delegations deep; the child is the parent and one more block.
   */
  lemma AttenuateIff(b: Biscuit, to: string, scope: Scope, id: nat)
    ensures Attenuate(b, to, scope, id).Ok? <==>
            && ValidRef(to, "agent") && Load(b).Ok?
            && var c := Load(b).value;
               to != c.actor && SubsetOf(scope, c.scope) && |c.links| < 8
    ensures Attenuate(b, to, scope, id).Ok? ==>
              Attenuate(b, to, scope, id).value
              == Biscuit(b.authority, b.blocks + [AttenuationBlock(id, Load(b).value.actor, to, scope)])
  {
    if Load(b).Ok? {
      LoadedChainNarrows(b);
      DelegateIff(Load(b).value, to, scope);
    }
  }

  /** What one check asks of the request. */
  ghost predicate Asks(check: Check, caller: string, op: Kind, resource: string, now: int) {
    match check
    case ScopeCheck(clauses) => exists f :: f in clauses && FactAllows(f, op, resource)
    case OpaqueCheck(holds) => holds(caller, op, resource, now)
  }

  /**
   * An appended block, whatever its content, only adds its own checks: the longer token allows exactly the requests
   * that the shorter one allows and that pass every check of the block.
   */
  lemma AppendOnlyRestricts(b: Biscuit, block: Block, caller: string, op: Kind, resource: string, now: int)
    ensures Authorized(Biscuit(b.authority, b.blocks + [block]), caller, op, resource, now) <==>
            Authorized(b, caller, op, resource, now) && BlockHolds(block, caller, op, resource, now)
    ensures Authorized(Biscuit(b.authority, b.blocks + [block]), caller, op, resource, now) <==>
            && Authorized(b, caller, op, resource, now)
            && forall i :: 0 <= i < |block.checks| ==> Asks(block.checks[i], caller, op, resource, now)
  {
    var longer := b.blocks + [block];
    assert longer[|b.blocks|] == block;
    assert forall k :: 0 <= k < |b.blocks| ==> longer[k] == b.blocks[k];
    assert forall i :: 0 <= i < |block.checks| ==>
        (Asks(block.checks[i], caller, op, resource, now) <==> CheckHolds(block.checks[i], caller, op, resource, now));
  }

  /** Dropping capabilities from a scope keeps a delegation acceptable. */
  lemma DelegateLess(c: Chain, to: string, scope: Scope, less: Scope)
    requires Delegate(c, to, scope).Ok? && less <= scope
    ensures Delegate(c, to, less).Ok?
  {
    DelegateAppends(c, to, scope);
    var whole := Delegate(c, to, scope).value;
    var links := c.links + [Delegation(c.actor, to, less)];
    assert forall k :: 0 <= k < |c.links| ==> links[k] == whole.links[k];
    assert WellFormed(Chain(c.subject, to, links, less)) by {
      forall k | 0 < k < |links|
        ensures links[k].from == links[k - 1].to && SubsetOf(links[k].scope, links[k - 1].scope)
      {
        assert SubsetOf(whole.links[k].scope, whole.links[k - 1].scope);
      }
    }
    ChainFaultNone(c.subject, to, links, less);
  }

  /** The appended delegation is read back: both actors stay on one line. */
  predicate Declares(from: string, to: string) {
    OneLine(from) && OneLine(to)
  }

  /**
   * Attenuation counts delegations, loading counts blocks: the child of a loadable token loads again exactly when the
   * parent has fewer than eight blocks of any kind. It then holds the delegated chain, with the legible part of the
   * scope, exactly when neither actor's text holds a newline; otherwise the parent's chain.
   */
  lemma ChildLoadsIff(b: Biscuit, to: string, scope: Scope, id: nat)
    requires Attenuate(b, to, scope, id).Ok?
    ensures var child, c := Attenuate(b, to, scope, id).value, Load(b).value;
            && (Load(child).Ok? <==> |b.blocks| < 8)
            && Delegate(c, to, Legible(scope)).Ok?
            && (Load(child).Ok? ==>
                  Load(child) == Ok(if Declares(c.actor, to) then Delegate(c, to, Legible(scope)).value else c))
            && (Load(child).Ok? ==> (Load(child).value.actor == to <==> Declares(c.actor, to)))
  {
    var child, c := Attenuate(b, to, scope, id).value, Load(b).value;
    AttenuationBlockParses(id, c.actor, to, scope);
    DelegateLess(c, to, scope, Legible(scope));
    DelegateAppends(c, to, Legible(scope));
    assert child.blocks[..|b.blocks|] == b.blocks;
  }

  /** Blocks that declare nothing leave the chain as it is. */
  lemma {:induction false} OpaqueBlocksLoad(root: Chain, blocks: seq<Block>)
    requires forall k :: 0 <= k < |blocks| ==> blocks[k].lines == []
    ensures LoadBlocks(root, blocks) == Ok(root)
  {
    if blocks == [] {
    } else {
      OpaqueBlocksLoad(root, blocks[..|blocks| - 1]);
    }
  }

  /** A token with eight blocks that declare nothing loads and can be attenuated, but its child does not load. */
  lemma EightOpaqueBlocks(b: Biscuit, to: string, scope: Scope, id: nat)
    requires LoadRoot(b.authority).Ok? && |b.blocks| == 8
    requires forall k :: 0 <= k < |b.blocks| ==> b.blocks[k].lines == []
    requires ValidRef(to, "agent") && to != b.authority.actor && SubsetOf(scope, LoadRoot(b.authority).value.scope)
    ensures Load(b).Ok? && Load(b).value.links == []
    ensures Attenuate(b, to, scope, id).Ok? && Load(Attenuate(b, to, scope, id).value).Err?
  {
    var root := LoadRoot(b.authority).value;
    LoadRootWellFormed(b.authority);
    OpaqueBlocksLoad(root, b.blocks);
    OneLinkAccepted(root, to, scope);
    ChildLoadsIff(b, to, scope, id);
  }

  /** The check an attenuation appends asks exactly whether its scope covers the request. */
  lemma AttenuationCheck(id: nat, from: string, to: string, scope: Scope, caller: string, op: Kind, r: string, now: int)
    requires ValidPattern(r)
    ensures BlockHolds(AttenuationBlock(id, from, to, scope), caller, op, r, now) <==>
            ScopeCovers(scope, Capability(op, r))
  {
    FactsAllowIsCovers(scope, op, r);
    var block := AttenuationBlock(id, from, to, scope);
    assert CheckHolds(block.checks[0], caller, op, r, now) <==> FactsAllow(Facts(scope), op, r);
  }

  // ---- Tokens built by issue and attenuate alone -------------------------------------------

  /** One attenuation: the new holder, the scope it gets and the fresh block id. */
  datatype Cut = Cut(to: string, scope: Scope, id: nat)

  lemma SplitLast(cuts: seq<Cut>)
    requires cuts != []
    ensures cuts[..|cuts| - 1] + [cuts[|cuts| - 1]] == cuts
  {
  }

  ghost function AttenuateAll(b: Biscuit, cuts: seq<Cut>): Result<Biscuit, TokenFault> {
    if cuts == [] then Ok(b)
    else
      var last := cuts[|cuts| - 1];
      match AttenuateAll(b, cuts[..|cuts| - 1])
      case Err(e) => Err(e)
      case Ok(parent) => Attenuate(parent, last.to, last.scope, last.id)
  }

  function LastScope(chain: Chain, cuts: seq<Cut>): Scope {
    if cuts == [] then chain.scope else cuts[|cuts| - 1].scope
  }

  function LastActor(chain: Chain, cuts: seq<Cut>): string {
    if cuts == [] then chain.actor else cuts[|cuts| - 1].to
  }

  /** Whom the loaded token names as its holder: the last delegate whose delegation was read back. */
  function Holder(chain: Chain, cuts: seq<Cut>): string {
    if cuts == [] then chain.actor
    else
      var held, last := Holder(chain, cuts[..|cuts| - 1]), cuts[|cuts| - 1];
      if Declares(held, last.to) then last.to else held
  }

  /** The scope of the loaded chain. */
  function HeldScope(chain: Chain, cuts: seq<Cut>): Scope {
    if cuts == [] then chain.scope
    else
      var front, last := cuts[..|cuts| - 1], cuts[|cuts| - 1];
      if Declares(Holder(chain, front), last.to) then Legible(last.scope) else HeldScope(chain, front)
  }

  /** No delegation of the token is lost in print. */
  predicate Written(chain: Chain, cuts: seq<Cut>) {
    cuts != [] ==> OneLine(chain.actor) && forall i :: 0 <= i < |cuts| ==> OneLine(cuts[i].to)
  }

  predicate IssuedFor(issued: Biscuit, chain: Chain) {
    && WellFormed(chain) && chain.links == []
    && issued.blocks == [] && issued.authority.caps == Facts(chain.scope)
    && issued.authority.subject == chain.subject && issued.authority.actor == chain.actor
  }

  lemma {:induction false} WrittenHolder(chain: Chain, cuts: seq<Cut>)
    requires Written(chain, cuts)
    ensures Holder(chain, cuts) == LastActor(chain, cuts)
    ensures cuts != [] ==> OneLine(Holder(chain, cuts)) && HeldScope(chain, cuts) == Legible(LastScope(chain, cuts))
  {
    if cuts == [] {
    } else {
      WrittenHolder(chain, cuts[..|cuts| - 1]);
    }
  }

  /** What is known of a token after some attenuations. */
  ghost predicate Built(chain: Chain, cuts: seq<Cut>, b: Biscuit) {
    && |b.blocks| == |cuts|
    && (Load(b).Ok? <==> |cuts| <= 8)
    && (Load(b).Ok? ==>
          var c := Load(b).value;
          && WellFormed(c) && c.subject == chain.subject
          && c.actor == Holder(chain, cuts) && c.scope == HeldScope(chain, cuts)
          && |c.links| <= |cuts| && (|c.links| == |cuts| <==> Written(chain, cuts)))
    && (Written(chain, cuts) ==> Load(b).Ok?)
  }

  lemma BuiltStep(chain: Chain, cuts: seq<Cut>, parent: Biscuit, cut: Cut)
    requires Built(chain, cuts, parent) && Attenuate(parent, cut.to, cut.scope, cut.id).Ok?
    ensures Built(chain, cuts + [cut], Attenuate(parent, cut.to, cut.scope, cut.id).value)
  {
    var more, c := cuts + [cut], Load(parent).value;
    assert more[..|more| - 1] == cuts;
    ChildLoadsIff(parent, cut.to, cut.scope, cut.id);
    DelegateAppends(c, cut.to, Legible(cut.scope));
    assert Written(chain, more) <==> Written(chain, cuts) && Declares(Holder(chain, cuts), cut.to) by {
      if Written(chain, cuts) {
        WrittenHolder(chain, cuts);
      }
      WrittenFront(chain, cuts, cut);
    }
  }

  lemma WrittenFront(chain: Chain, cuts: seq<Cut>, cut: Cut)
    ensures Written(chain, cuts + [cut]) <==> OneLine(chain.actor) && Written(chain, cuts) && OneLine(cut.to)
  {
    var more := cuts + [cut];
    assert more[|cuts|] == cut && forall i :: 0 <= i < |cuts| ==> more[i] == cuts[i];
  }

  /**
   * A token built by issue and attenuate alone loads exactly when it has at most eight blocks, for the last delegate
   * whose delegation was read back; it has one link per block exactly when no actor's text holds a newline.
   */
  lemma {:induction false} BuiltLoads(chain: Chain, issued: Biscuit, cuts: seq<Cut>)
    requires IssuedFor(issued, chain) && AttenuateAll(issued, cuts).Ok?
    ensures Built(chain, cuts, AttenuateAll(issued, cuts).value)
    ensures AttenuateAll(issued, cuts).value.authority == issued.authority
  {
    if cuts == [] {
      BuiltRoot(chain, issued);
    } else {
      var front, last := cuts[..|cuts| - 1], cuts[|cuts| - 1];
      BuiltLoads(chain, issued, front);
      var parent := AttenuateAll(issued, front).value;
      BuiltStep(chain, front, parent, last);
      SplitLast(cuts);
      assert AttenuateAll(issued, cuts) == Attenuate(parent, last.to, last.scope, last.id);
    }
  }

  lemma BuiltRoot(chain: Chain, issued: Biscuit)
    requires IssuedFor(issued, chain)
    ensures Built(chain, [], issued)
  {
    FactsRoundTrip(chain.scope);
    ChainFaultNone(chain.subject, chain.actor, [], chain.scope);
    assert Load(issued) == Ok(Chain(chain.subject, chain.actor, [], chain.scope));
  }

  lemma AllCoverSnoc(chain: Chain, cuts: seq<Cut>, cut: Cut, op: Kind, resource: string)
    requires ValidPattern(resource)
    ensures AllCover(chain, cuts + [cut], op, resource) <==>
            AllCover(chain, cuts, op, resource) && ScopeCovers(cut.scope, Capability(op, resource))
  {
    var more := cuts + [cut];
    assert more[|cuts|] == cut && forall i :: 0 <= i < |cuts| ==> more[i] == cuts[i];
  }

  lemma AttenuatedAsksToo(parent: Biscuit, cut: Cut, caller: string, op: Kind, resource: string, now: int)
    requires Attenuate(parent, cut.to, cut.scope, cut.id).Ok? && ValidPattern(resource)
    ensures Authorized(Attenuate(parent, cut.to, cut.scope, cut.id).value, caller, op, resource, now) <==>
            Authorized(parent, caller, op, resource, now) && ScopeCovers(cut.scope, Capability(op, resource))
  {
    var block := AttenuationBlock(cut.id, Load(parent).value.actor, cut.to, cut.scope);
    AttenuationCheck(cut.id, Load(parent).value.actor, cut.to, cut.scope, caller, op, resource, now);
    AppendOnlyRestricts(parent, block, caller, op, resource, now);
  }

  /** The root scope and every scope cut since cover the request. */
  predicate AllCover(chain: Chain, cuts: seq<Cut>, op: Kind, resource: string)
    requires ValidPattern(resource)
  {
    && ScopeCovers(chain.scope, Capability(op, resource))
    && forall i :: 0 <= i < |cuts| ==> ScopeCovers(cuts[i].scope, Capability(op, resource))
  }

  /** The authority facts and all block checks together ask every scope, whether or not its delegation was read back. */
  lemma {:induction false} ChecksAskEveryScope(
    chain: Chain, issued: Biscuit, cuts: seq<Cut>, caller: string, op: Kind, resource: string, now: int)
    requires IssuedFor(issued, chain) && AttenuateAll(issued, cuts).Ok? && ValidPattern(resource)
    ensures Authorized(AttenuateAll(issued, cuts).value, caller, op, resource, now) <==>
            now < issued.authority.expiresAt && AllCover(chain, cuts, op, resource)
  {
    if cuts == [] {
      FactsAllowIsCovers(chain.scope, op, resource);
    } else {
      var front, last := cuts[..|cuts| - 1], cuts[|cuts| - 1];
      var parent := AttenuateAll(issued, front).value;
      ChecksAskEveryScope(chain, issued, front, caller, op, resource, now);
      AttenuatedAsksToo(parent, last, caller, op, resource, now);
      SplitLast(cuts);
      AllCoverSnoc(chain, front, last, op, resource);
    }
  }

  /** When every delegation was read back, the last scope is within all the others, and the checks come down to it. */
  lemma {:induction false} ChecksCollapse(chain: Chain, issued: Biscuit, cuts: seq<Cut>, op: Kind, resource: string)
    requires IssuedFor(issued, chain) && AttenuateAll(issued, cuts).Ok? && ValidPattern(resource)
    requires Written(chain, cuts)
    ensures AllCover(chain, cuts, op, resource) <==> ScopeCovers(LastScope(chain, cuts), Capability(op, resource))
  {
    if cuts == [] {
    } else {
      var front, last := cuts[..|cuts| - 1], cuts[|cuts| - 1];
      assert Written(chain, front);
      ChecksCollapse(chain, issued, front, op, resource);
      LastWithinBefore(chain, issued, front, last, op, resource);
      SplitLast(cuts);
      AllCoverSnoc(chain, front, last, op, resource);
    }
  }

  /** What a cut covers, the scope it was cut from covers. */
  lemma LastWithinBefore(chain: Chain, issued: Biscuit, front: seq<Cut>, last: Cut, op: Kind, resource: string)
    requires IssuedFor(issued, chain) && AttenuateAll(issued, front).Ok? && ValidPattern(resource)
    requires Attenuate(AttenuateAll(issued, front).value, last.to, last.scope, last.id).Ok? && Written(chain, front)
    ensures ScopeCovers(last.scope, Capability(op, resource)) ==>
              ScopeCovers(LastScope(chain, front), Capability(op, resource))
  {
    var cap: Capability := Capability(op, resource);
    var c := Load(AttenuateAll(issued, front).value).value;
    BuiltLoads(chain, issued, front);
    WrittenHolder(chain, front);
    DelegateAppends(c, last.to, last.scope);
    if ScopeCovers(last.scope, cap) {
      ScopeCoversMonotone(last.scope, c.scope, cap);
      LegibleCovers(LastScope(chain, front), cap);
    }
  }

  lemma LegibleCovers(scope: Scope, cap: Capability)
    ensures ScopeCovers(Legible(scope), cap) ==> ScopeCovers(scope, cap)
  {
  }

  /** The last delegate is the holder exactly when its own delegation was read back. */
  lemma HolderIsLastIff(chain: Chain, issued: Biscuit, cuts: seq<Cut>)
    requires IssuedFor(issued, chain) && AttenuateAll(issued, cuts).Ok?
    ensures Holder(chain, cuts) == LastActor(chain, cuts) <==>
            cuts == [] || Declares(Holder(chain, cuts[..|cuts| - 1]), cuts[|cuts| - 1].to)
  {
    if cuts != [] {
      var front, last := cuts[..|cuts| - 1], cuts[|cuts| - 1];
      BuiltLoads(chain, issued, front);
      DelegateAppends(Load(AttenuateAll(issued, front).value).value, last.to, last.scope);
    }
  }

  /**
   * A token built by issue and attenuate alone is accepted exactly when it has at most eight blocks, none of its ids
   * is revoked, the caller is the holder, it has not expired, and every scope it was cut to covers the request. When
   * no actor's text holds a newline, that is: the caller is the last actor and the last scope covers the request.
   */
  lemma VerifyIsLastScope(
    chain: Chain, ttl: Option<int>, defaultTtl: int, mandate: Option<string>, issuedAt: int, id: nat, cuts: seq<Cut>,
    revoked: set<RevocationId>, caller: string, op: Kind, resource: string, now: int)
    requires WellFormed(chain)
    requires Issue(chain, ttl, defaultTtl, mandate, issuedAt, id).Ok?
    requires AttenuateAll(Issue(chain, ttl, defaultTtl, mandate, issuedAt, id).value, cuts).Ok?
    ensures var b := AttenuateAll(Issue(chain, ttl, defaultTtl, mandate, issuedAt, id).value, cuts).value;
            Verify(b, revoked, caller, op, resource, now).Ok? <==>
            && |cuts| <= 8
            && !IsRevoked(RevocationIds(b), revoked)
            && caller == Holder(chain, cuts)
            && now < issuedAt + (if ttl == None || ttl == Some(0) then defaultTtl else ttl.value)
            && ValidPattern(resource)
            && AllCover(chain, cuts, op, resource)
    ensures Written(chain, cuts) ==>
              var b := AttenuateAll(Issue(chain, ttl, defaultTtl, mandate, issuedAt, id).value, cuts).value;
              Verify(b, revoked, caller, op, resource, now).Ok? <==>
              && !IsRevoked(RevocationIds(b), revoked)
              && caller == LastActor(chain, cuts)
              && now < issuedAt + (if ttl == None || ttl == Some(0) then defaultTtl else ttl.value)
              && ValidPattern(resource)
              && ScopeCovers(LastScope(chain, cuts), Capability(op, resource))
    ensures var b := AttenuateAll(Issue(chain, ttl, defaultTtl, mandate, issuedAt, id).value, cuts).value;
            var r := Verify(b, revoked, caller, op, resource, now);
            r.Ok? ==>
              && r.value.subject == chain.subject && r.value.actor == Holder(chain, cuts)
              && r.value.scope == HeldScope(chain, cuts)
  {
    var issued := Issue(chain, ttl, defaultTtl, mandate, issuedAt, id).value;
    var b := AttenuateAll(issued, cuts).value;
    assert issued.authority.expiresAt == issuedAt + if ttl == None || ttl == Some(0) then defaultTtl else ttl.value;
    BuiltLoads(chain, issued, cuts);
    VerifyAnswers(b, revoked, caller, op, resource, now);
    if ValidPattern(resource) {
      ChecksAskEveryScope(chain, issued, cuts, caller, op, resource, now);
    }
    if Written(chain, cuts) {
      WrittenHolder(chain, cuts);
      if ValidPattern(resource) {
        ChecksCollapse(chain, issued, cuts, op, resource);
      }
    }
  }

  /**
   * The delegate "agent:b" with a trailing newline passes validation, yet its token is refused to it for every
   * request and stays the parent's.
   */
  lemma NewlineDelegateIsNotHolder(
    chain: Chain, ttl: Option<int>, defaultTtl: int, issuedAt: int, scope: Scope,
    revoked: set<RevocationId>, op: Kind, resource: string, now: int)
    requires WellFormed(chain) && chain.links == [] && SubsetOf(scope, chain.scope) && chain.actor != "agent:b\n"
    ensures var cuts := [Cut("agent:b\n", scope, 1)];
            var issued := Issue(chain, ttl, defaultTtl, None, issuedAt, 0).value;
            && AttenuateAll(issued, cuts).Ok?
            && var b := AttenuateAll(issued, cuts).value;
               && !Verify(b, revoked, "agent:b\n", op, resource, now).Ok?
               && (Verify(b, revoked, chain.actor, op, resource, now).Ok? <==>
                   && !IsRevoked(RevocationIds(b), revoked)
                   && now < issuedAt + (if ttl == None || ttl == Some(0) then defaultTtl else ttl.value)
                   && ValidPattern(resource) && ScopeCovers(scope, Capability(op, resource)))
  {
    var to, cuts := "agent:b\n", [Cut("agent:b\n", scope, 1)];
    NewlineRef();
    LoneCut(chain, Issue(chain, ttl, defaultTtl, None, issuedAt, 0).value, cuts[0]);
    VerifyIsLastScope(chain, ttl, defaultTtl, None, issuedAt, 0, cuts, revoked, to, op, resource, now);
    VerifyIsLastScope(chain, ttl, defaultTtl, None, issuedAt, 0, cuts, revoked, chain.actor, op, resource, now);
    if ValidPattern(resource) {
      LoneCover(chain, cuts[0], op, resource);
    }
  }

  lemma LoneCut(chain: Chain, issued: Biscuit, cut: Cut)
    requires IssuedFor(issued, chain) && SubsetOf(cut.scope, chain.scope)
    requires ValidRef(cut.to, "agent") && chain.actor != cut.to
    ensures AttenuateAll(issued, [cut]).Ok?
    ensures Holder(chain, [cut]) == if Declares(chain.actor, cut.to) then cut.to else chain.actor
  {
    BuiltRoot(chain, issued);
    OneLinkAccepted(chain, cut.to, cut.scope);
    assert [cut][..0] == [];
    assert AttenuateAll(issued, []) == Ok(issued);
  }

  lemma LoneCover(chain: Chain, cut: Cut, op: Kind, resource: string)
    requires SubsetOf(cut.scope, chain.scope) && ValidPattern(resource)
    ensures AllCover(chain, [cut], op, resource) <==> ScopeCovers(cut.scope, Capability(op, resource))
  {
    if ScopeCovers(cut.scope, Capability(op, resource)) {
      ScopeCoversMonotone(cut.scope, chain.scope, Capability(op, resource));
    }
    assert [] + [cut] == [cut];
    AllCoverSnoc(chain, [], cut, op, resource);
  }

  lemma NewlineRef()
    ensures ValidRef("agent:b\n", "agent") && !OneLine("agent:b\n")
  {
    var s := "agent:b\n";
    assert s[|s| - 1] == '\n';
    assert Chop(s) == "agent:b";
    assert PlainText("agent:b", "agent");
  }

  lemma OneLinkAccepted(chain: Chain, to: string, scope: Scope)
    requires WellFormed(chain) && chain.links == [] && SubsetOf(scope, chain.scope)
    requires ValidRef(to, "agent") && chain.actor != to
    ensures Delegate(chain, to, scope).Ok?
  {
    ChainFaultNone(chain.subject, to, [Delegation(chain.actor, to, scope)], scope);
  }
}
