/** All the tokens ever made, and the revocations: every run of issue, attenuate, append and revoke. */
module Fleet {
  import opened Wrappers
  import opened Scopes
  import opened Chains
  import opened Tokens
  import opened TokenService

  /**
   * Block ids are signatures, fresh per block: `nextId` has not been used. `parents` records, for every token, which
   * token it was attenuated from or appended to, if any.
   */
  datatype Fleet = Fleet(tokens: seq<Biscuit>, parents: seq<Option<nat>>, revoked: set<RevocationId>, nextId: nat)

  datatype Deed =
    | IssueToken(chain: Chain, ttl: Option<int>, mandate: Option<string>, now: int)
    | AttenuateToken(parent: nat, to: string, scope: Scope)
    | AppendBlock(parent: nat, lines: seq<Line>, checks: seq<Check>)
    | RevokeToken(token: nat, caller: string)
    | RevokeMandate(mandateId: string)

  ghost function Add(f: Fleet, made: Result<Biscuit, TokenFault>, parent: Option<nat>): Fleet {
    match made
    case Err(_) => f
    case Ok(b) => Fleet(f.tokens + [b], f.parents + [parent], f.revoked, f.nextId + 1)
  }

  /** A refused deed changes nothing. */
  ghost function Do(f: Fleet, d: Deed, defaultTtl: int): Fleet {
    match d
    case IssueToken(chain, ttl, mandate, now) => Add(f, Issue(chain, ttl, defaultTtl, mandate, now, f.nextId), None)
    case AttenuateToken(p, to, scope) =>
      if p < |f.tokens| then Add(f, Attenuate(f.tokens[p], to, scope, f.nextId), Some(p)) else f
    case AppendBlock(p, lines, checks) =>
      if p < |f.tokens| then
        Add(f, Ok(Biscuit(f.tokens[p].authority, f.tokens[p].blocks + [Block(f.nextId, lines, checks)])), Some(p))
      else f
    case RevokeToken(i, caller) =>
      if i < |f.tokens| && Load(f.tokens[i]).Ok? && caller == Load(f.tokens[i]).value.actor then
        f.(revoked := f.revoked + {OwnRevocationId(f.tokens[i])})
      else f
    case RevokeMandate(m) => f.(revoked := f.revoked + {MandateId(m)})
  }

  ghost function Run(f: Fleet, deeds: seq<Deed>, defaultTtl: int): Fleet {
    if deeds == [] then f
    else Do(Run(f, deeds[..|deeds| - 1], defaultTtl), deeds[|deeds| - 1], defaultTtl)
  }

  const EMPTY := Fleet([], [], {}, 0)

  // ---- Shared ids mean shared history ------------------------------------------------------

  function IdAt(b: Biscuit, k: nat): nat
    requires k <= |b.blocks|
  {
    if k == 0 then b.authority.id else b.blocks[k - 1].id
  }

  predicate IdsBelow(b: Biscuit, n: nat) {
    forall k :: 0 <= k <= |b.blocks| ==> IdAt(b, k) < n
  }

  /** The store behind the revocations; it only grows. */
  class InMemoryRevocationStore {
    var revoked: map<RevocationId, (string, int)>

    constructor ()
      ensures revoked == map[]
    {
      revoked := map[];
    }

    method Revoke(id: RevocationId, reason: string, at: int)
      modifies this
      ensures revoked == old(revoked)[id := (reason, at)]
      ensures revoked.Keys == old(revoked.Keys) + {id}
    {
      revoked := revoked[id := (reason, at)];
    }

    method AnyRevoked(ids: seq<RevocationId>) returns (hit: bool)
      ensures hit <==> IsRevoked(ids, revoked.Keys)
    {
      for i := 0 to |ids|
        invariant !IsRevoked(ids[..i], revoked.Keys)
      {
        if ids[i] in revoked {
          return true;
        }
      }
      assert ids[..|ids|] == ids;
      return false;
    }
  }

  /** Two tokens with an id in common are equal up to the block that carries it. */
  ghost predicate Agree(s: Biscuit, t: Biscuit) {
    forall a, b {:trigger IdAt(s, a), IdAt(t, b)} ::
      0 <= a <= |s.blocks| && 0 <= b <= |t.blocks| && IdAt(s, a) == IdAt(t, b) ==>
        a == b && s.authority == t.authority && s.blocks[..a] == t.blocks[..a]
  }

  ghost predicate Tree(f: Fleet) {
    && (forall i :: 0 <= i < |f.tokens| ==> IdsBelow(f.tokens[i], f.nextId))
    && (forall i, j :: 0 <= i < |f.tokens| && 0 <= j < |f.tokens| ==> Agree(f.tokens[i], f.tokens[j]))
    && Family(f.tokens, f.parents)
  }

  /** A token without a parent was issued; any other is its parent, made before it, and one block. */
  ghost predicate Born(tokens: seq<Biscuit>, parents: seq<Option<nat>>, j: nat)
    requires j < |tokens| && |parents| == |tokens|
  {
    match parents[j]
    case None => tokens[j].blocks == []
    case Some(p) => p < j && Extends(tokens[j], tokens[p])
  }

  ghost predicate Extends(t: Biscuit, parent: Biscuit) {
    t.authority == parent.authority && t.blocks != [] && t.blocks[..|t.blocks| - 1] == parent.blocks
  }

  /** Every token was born from its parent, and no two have the same last block. */
  ghost predicate Family(tokens: seq<Biscuit>, parents: seq<Option<nat>>) {
    && |parents| == |tokens|
    && (forall j: nat :: j < |tokens| ==> Born(tokens, parents, j))
    && (forall i, j :: 0 <= i < j < |tokens| ==> LastId(tokens[i]) != LastId(tokens[j]))
  }

  function LastId(b: Biscuit): nat {
    IdAt(b, |b.blocks|)
  }

  lemma FreshAgrees(s: Biscuit, t: Biscuit)
    requires s.blocks == [] && IdsBelow(t, s.authority.id)
    ensures Agree(s, t) && Agree(t, s)
  {
    assert IdAt(s, 0) == s.authority.id;
  }

  lemma ExtendedAgrees(p: Biscuit, block: Block, t: Biscuit)
    requires Agree(p, p) && IdsBelow(p, block.id)
    requires Agree(p, t) && IdsBelow(t, block.id)
    ensures var s := Biscuit(p.authority, p.blocks + [block]);
            Agree(s, t) && Agree(t, s) && Agree(s, s) && IdsBelow(s, block.id + 1)
  {
    var s := Biscuit(p.authority, p.blocks + [block]);
    assert forall k :: 0 <= k <= |p.blocks| ==> IdAt(s, k) == IdAt(p, k) && s.blocks[..k] == p.blocks[..k];
    assert IdAt(s, |s.blocks|) == block.id;
  }

  ghost predicate Bred(f: Fleet, made: Biscuit, parent: Option<nat>) {
    match parent
    case None => made.blocks == []
    case Some(p) => p < |f.tokens| && Extends(made, f.tokens[p])
  }

  lemma AddKeepsFamily(f: Fleet, made: Biscuit, parent: Option<nat>)
    requires Family(f.tokens, f.parents) && Bred(f, made, parent)
    requires forall i :: 0 <= i < |f.tokens| ==> LastId(f.tokens[i]) != LastId(made)
    ensures Family(f.tokens + [made], f.parents + [parent])
  {
    var tokens, parents := f.tokens + [made], f.parents + [parent];
    forall j: nat | j < |tokens|
      ensures Born(tokens, parents, j)
    {
      assert j < |f.tokens| ==> Born(f.tokens, f.parents, j);
    }
  }

  lemma AddKeepsTree(f: Fleet, made: Biscuit, parent: Option<nat>)
    requires Tree(f)
    requires IdsBelow(made, f.nextId + 1) && Agree(made, made) && LastId(made) == f.nextId
    requires forall t :: t in f.tokens ==> Agree(made, t) && Agree(t, made)
    requires Bred(f, made, parent)
    ensures Tree(Add(f, Ok(made), parent))
  {
    var g := Add(f, Ok(made), parent);
    forall i | 0 <= i < |f.tokens|
      ensures LastId(f.tokens[i]) != LastId(made)
    {
      assert IdsBelow(f.tokens[i], f.nextId);
    }
    AddKeepsFamily(f, made, parent);
    forall i | 0 <= i < |g.tokens|
      ensures IdsBelow(g.tokens[i], g.nextId)
    {
      if i < |f.tokens| {
        assert IdsBelow(f.tokens[i], f.nextId);
      }
    }
  }

  lemma AppendKeepsTree(f: Fleet, p: nat, block: Block)
    requires Tree(f) && p < |f.tokens| && block.id == f.nextId
    ensures Tree(Add(f, Ok(Biscuit(f.tokens[p].authority, f.tokens[p].blocks + [block])), Some(p)))
  {
    var made := Biscuit(f.tokens[p].authority, f.tokens[p].blocks + [block]);
    ExtendedAgrees(f.tokens[p], block, f.tokens[p]);
    forall t | t in f.tokens
      ensures Agree(made, t) && Agree(t, made)
    {
      ExtendedAgrees(f.tokens[p], block, t);
    }
    assert made.blocks[..|made.blocks| - 1] == f.tokens[p].blocks;
    AddKeepsTree(f, made, Some(p));
  }

  lemma DoKeepsTree(f: Fleet, d: Deed, defaultTtl: int)
    requires Tree(f)
    ensures Tree(Do(f, d, defaultTtl))
  {
    match d
    case IssueToken(chain, ttl, mandate, now) =>
      var made := Issue(chain, ttl, defaultTtl, mandate, now, f.nextId);
      if made.Ok? {
        forall t | t in f.tokens {
          FreshAgrees(made.value, t);
        }
        AddKeepsTree(f, made.value, None);
      }
    case AttenuateToken(p, to, scope) =>
      if p < |f.tokens| && Attenuate(f.tokens[p], to, scope, f.nextId).Ok? {
        AppendKeepsTree(f, p, AttenuationBlock(f.nextId, Load(f.tokens[p]).value.actor, to, scope));
      }
    case AppendBlock(p, lines, checks) =>
      if p < |f.tokens| {
        AppendKeepsTree(f, p, Block(f.nextId, lines, checks));
      }
    case RevokeToken(_, _) =>
    case RevokeMandate(_) =>
  }

  lemma {:induction false} RunKeepsTree(deeds: seq<Deed>, defaultTtl: int)
    ensures Tree(Run(EMPTY, deeds, defaultTtl))
  {
    if deeds == [] {
    } else {
      RunKeepsTree(deeds[..|deeds| - 1], defaultTtl);
      DoKeepsTree(Run(EMPTY, deeds[..|deeds| - 1], defaultTtl), deeds[|deeds| - 1], defaultTtl);
    }
  }

  // ---- What a revocation reaches -----------------------------------------------------------

  /** `t` is `s` or was attenuated from it, in any number of blocks. */
  ghost predicate Descends(t: Biscuit, s: Biscuit) {
    t.authority == s.authority && |s.blocks| <= |t.blocks| && t.blocks[..|s.blocks|] == s.blocks
  }

  lemma CarriesIffDescends(s: Biscuit, t: Biscuit)
    requires Agree(s, t)
    ensures OwnRevocationId(s) in RevocationIds(t) <==> Descends(t, s)
  {
    var n, ids := |s.blocks|, RevocationIds(t);
    assert OwnRevocationId(s) == BlockId(IdAt(s, n));
    assert forall k :: 0 <= k <= |t.blocks| ==> ids[k] == BlockId(IdAt(t, k));
    if OwnRevocationId(s) in ids {
      var k :| 0 <= k < |ids| && ids[k] == OwnRevocationId(s);
      assert IdAt(t, k) == IdAt(s, n);
      assert s.blocks[..n] == s.blocks;
    }
    if Descends(t, s) {
      assert IdAt(t, n) == IdAt(s, n);
      assert ids[n] == OwnRevocationId(s);
    }
  }

  /** Token `j` is token `i` or was grown from it, by the steps that made them. */
  predicate Grown(f: Fleet, j: nat, i: nat)
    requires |f.parents| == |f.tokens| && j < |f.tokens|
    decreases j
  {
    j == i || (f.parents[j].Some? && f.parents[j].value < j && Grown(f, f.parents[j].value, i))
  }

  /** In a fleet that some run made, the tokens that extend another's blocks are those that were grown from it. */
  lemma {:induction false} DescendsIffGrown(f: Fleet, j: nat, i: nat)
    requires Family(f.tokens, f.parents) && j < |f.tokens| && i < |f.tokens|
    ensures Descends(f.tokens[j], f.tokens[i]) <==> Grown(f, j, i)
    decreases j
  {
    var s, t := f.tokens[i], f.tokens[j];
    assert Born(f.tokens, f.parents, j);
    if |s.blocks| == |t.blocks| && Descends(t, s) {
      assert t.blocks[..|s.blocks|] == t.blocks;
      assert LastId(s) == LastId(t);
    }
    if f.parents[j].Some? {
      var p := f.parents[j].value;
      DescendsIffGrown(f, p, i);
      var u := f.tokens[p];
      if |s.blocks| < |t.blocks| {
        assert t.blocks[..|s.blocks|] == u.blocks[..|s.blocks|];
      }
    }
  }

  /**
   * After any run, a holder's revocation refuses every request on that token and on everything grown from it,
   * answers every other token exactly as before, and adds no mandate id.
   */
  lemma RevokeReachesDescendants(deeds: seq<Deed>, defaultTtl: int, i: nat, holder: string)
    requires i < |Run(EMPTY, deeds, defaultTtl).tokens|
    requires Load(Run(EMPTY, deeds, defaultTtl).tokens[i]).Ok?
    requires Load(Run(EMPTY, deeds, defaultTtl).tokens[i]).value.actor == holder
    ensures var f := Run(EMPTY, deeds, defaultTtl);
            var g := Do(f, RevokeToken(i, holder), defaultTtl);
            && g.tokens == f.tokens && |f.parents| == |f.tokens|
            && (forall m :: MandateId(m) in g.revoked ==> MandateId(m) in f.revoked)
            && forall j, caller, op, r, now {:trigger Verify(f.tokens[j], g.revoked, caller, op, r, now)} ::
                 0 <= j < |f.tokens| ==>
                   if Grown(f, j, i) then
                     !Verify(f.tokens[j], g.revoked, caller, op, r, now).Ok?
                   else
                     Verify(f.tokens[j], g.revoked, caller, op, r, now)
                     == Verify(f.tokens[j], f.revoked, caller, op, r, now)
  {
    RunKeepsTree(deeds, defaultTtl);
    var f := Run(EMPTY, deeds, defaultTtl);
    var g := Do(f, RevokeToken(i, holder), defaultTtl);
    forall j | 0 <= j < |f.tokens|
      ensures IsRevoked(RevocationIds(f.tokens[j]), g.revoked) <==>
              IsRevoked(RevocationIds(f.tokens[j]), f.revoked) || Grown(f, j, i)
    {
      CarriesIffDescends(f.tokens[i], f.tokens[j]);
      DescendsIffGrown(f, j, i);
    }
  }

  /** Step `n` of the run is a revocation of this id by the holder of a token that the fleet then has. */
  ghost predicate RevokedByHolder(deeds: seq<Deed>, defaultTtl: int, n: nat, id: RevocationId) {
    && n < |deeds| && deeds[n].RevokeToken?
    && var f := Run(EMPTY, deeds[..n], defaultTtl);
       && deeds[n].token < |f.tokens|
       && var b := f.tokens[deeds[n].token];
          && Load(b).Ok? && Load(b).value.actor == deeds[n].caller
          && id == BlockId(if b.blocks == [] then b.authority.id else b.blocks[|b.blocks| - 1].id)
  }

  /** In every run, a block is revoked only by the holder of the token it ends, a mandate only as a mandate. */
  lemma {:induction false} OnlyHoldersRevoke(deeds: seq<Deed>, defaultTtl: int, id: RevocationId)
    requires id in Run(EMPTY, deeds, defaultTtl).revoked
    ensures id.BlockId? ==> exists n: nat :: RevokedByHolder(deeds, defaultTtl, n, id)
    ensures id.MandateId? ==> RevokeMandate(id.mandate) in deeds
  {
    if deeds == [] {
    } else {
      var n := |deeds| - 1;
      var front := deeds[..n];
      if id in Run(EMPTY, front, defaultTtl).revoked {
        OnlyHoldersRevoke(front, defaultTtl, id);
        if id.BlockId? {
          var k: nat :| RevokedByHolder(front, defaultTtl, k, id);
          assert front[..k] == deeds[..k];
          assert RevokedByHolder(deeds, defaultTtl, k, id);
        }
      } else if id.BlockId? {
        assert RevokedByHolder(deeds, defaultTtl, n, id);
      } else {
        assert deeds[n] == RevokeMandate(id.mandate);
      }
    }
  }

  /** A revocation is never undone and no token disappears, whatever is done afterwards. */
  lemma {:induction false} RevocationsPersist(f: Fleet, deeds: seq<Deed>, defaultTtl: int)
    ensures f.revoked <= Run(f, deeds, defaultTtl).revoked
    ensures f.tokens <= Run(f, deeds, defaultTtl).tokens
  {
    if deeds == [] {
    } else {
      RevocationsPersist(f, deeds[..|deeds| - 1], defaultTtl);
    }
  }

  /** Once any id that a token carries is revoked, the token is refused for every request in every later state. */
  lemma RevokedStaysRefused(
    f: Fleet, deeds: seq<Deed>, defaultTtl: int, b: Biscuit, caller: string, op: Kind, r: string, now: int)
    requires IsRevoked(RevocationIds(b), f.revoked)
    ensures !Verify(b, Run(f, deeds, defaultTtl).revoked, caller, op, r, now).Ok?
  {
    RevocationsPersist(f, deeds, defaultTtl);
    var k :| 0 <= k < |RevocationIds(b)| && RevocationIds(b)[k] in f.revoked;
    assert RevocationIds(b)[k] in Run(f, deeds, defaultTtl).revoked;
  }
}
