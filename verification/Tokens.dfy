/** Delegation tokens: a signed authority, appended blocks, the chain they declare and the checks they carry. */
module Tokens {
  import opened Wrappers
  import opened Refs
  import opened Scopes
  import opened Chains

  /** Capabilities as they are written in a token: the kind by name, a pattern by its prefix. */
  datatype Fact = CapExact(kind: string, resource: string) | CapPrefix(kind: string, prefix: string)

  /** The first block, signed by the issuer. */
  datatype Authority = Authority(
    id: nat,
    subject: string,
    actor: string,
    caps: set<Fact>,
    expiresAt: int,
    mandate: Option<string>)

  /** One line of a block's source, as the two trail expressions classify it. */
  datatype Line = DelegationLine(from: string, to: string) | ScopeCapLine(kind: string, resource: string) | OtherLine

  datatype Check =
    | ScopeCheck(clauses: set<Fact>)
    | OpaqueCheck(holds: (string, Kind, string, int) -> bool)

  datatype Block = Block(id: nat, lines: seq<Line>, checks: seq<Check>)

  datatype Biscuit = Biscuit(authority: Authority, blocks: seq<Block>)

  datatype RevocationId = BlockId(block: nat) | MandateId(mandate: string)

  datatype TokenFault =
    | NotRoot
    | TooManyBlocks
    | DelegationTooDeep
    | MalformedBlock
    | BadCapability
    | TrailNotContiguous
    | BadChain(fault: Fault)
    | BadCaller
    | BadResource
    | NotHolder
    | Revoked
    | Expired
    | NotPermitted

  // ---- Capabilities as facts ---------------------------------------------------------------

  function KindName(kind: Kind): string {
    match kind
    case Read => "read"
    case Act => "act"
    case Remember => "remember"
  }

  function ParseKind(name: string): Option<Kind> {
    if name == "read" then Some(Read)
    else if name == "act" then Some(Act)
    else if name == "remember" then Some(Remember)
    else None
  }

  function ParseCapability(kind: string, resource: string): Option<Capability> {
    match ParseKind(kind)
    case None => None
    case Some(k) => if ValidPattern(resource) then Some(Capability(k, resource)) else None
  }

  function CapFact(c: Capability): Fact {
    if IsPattern(c) then CapPrefix(KindName(c.kind), Chop(c.resource)) else CapExact(KindName(c.kind), c.resource)
  }

  function ReadFact(f: Fact): Option<Capability> {
    match f
    case CapExact(kind, resource) => ParseCapability(kind, resource)
    case CapPrefix(kind, prefix) => ParseCapability(kind, prefix + "*")
  }

  function Facts(scope: Scope): set<Fact> {
    set c | c in scope :: CapFact(c)
  }

  function ReadFacts(facts: set<Fact>): Option<Scope> {
    if forall f :: f in facts ==> ReadFact(f).Some? then Some(set f | f in facts :: ReadFact(f).value) else None
  }

  lemma ReadCapFact(c: Capability)
    ensures ReadFact(CapFact(c)) == Some(c)
  {
    if IsPattern(c) {
      assert Chop(c.resource) + "*" == c.resource;
    }
  }

  /** A scope written as authority facts reads back as itself. */
  lemma FactsRoundTrip(scope: Scope)
    ensures ReadFacts(Facts(scope)) == Some(scope)
  {
    forall c | c in scope
      ensures CapFact(c) in Facts(scope) && ReadFact(CapFact(c)) == Some(c)
    {
      ReadCapFact(c);
    }
    var back := set f | f in Facts(scope) :: ReadFact(f).value;
    assert back == scope by {
      forall c | c in scope
        ensures c in back
      {
        assert CapFact(c) in Facts(scope);
      }
    }
  }

  /** Does one fact, or one clause of a check, allow the request? */
  predicate FactAllows(f: Fact, op: Kind, resource: string) {
    match f
    case CapExact(kind, r) => kind == KindName(op) && r == resource
    case CapPrefix(kind, prefix) => kind == KindName(op) && StartsWith(resource, prefix)
  }

  predicate FactsAllow(facts: set<Fact>, op: Kind, resource: string) {
    exists f :: f in facts && FactAllows(f, op, resource)
  }

  /** The datalog reading of a scope and its syntactic reading give the same answer. */
  lemma FactsAllowIsCovers(scope: Scope, op: Kind, resource: string)
    requires ValidPattern(resource)
    ensures FactsAllow(Facts(scope), op, resource) <==> ScopeCovers(scope, Capability(op, resource))
  {
    var cap: Capability := Capability(op, resource);
    if ScopeCovers(scope, cap) {
      var own :| own in scope && Covers(own, cap);
      assert CapFact(own) in Facts(scope) && FactAllows(CapFact(own), op, resource);
    }
    if FactsAllow(Facts(scope), op, resource) {
      var f :| f in Facts(scope) && FactAllows(f, op, resource);
      var own :| own in scope && f == CapFact(own);
      assert Covers(own, cap);
    }
  }

  // ---- The trail of one block --------------------------------------------------------------

  datatype Trail = Trail(from: string, to: string, scope: Scope)

  /** Reading lines in order, given what was read so far. `None` in the result is an opaque block. */
  function ParseTrail(lines: seq<Line>, seen: Option<(string, string)>, caps: Scope): Result<Option<Trail>, TokenFault>
  {
    if lines == [] then
      match seen
      case None => Ok(None)
      case Some(d) => Ok(Some(Trail(d.0, d.1, caps)))
    else
      match lines[0]
      case DelegationLine(from, to) =>
        if seen.Some? then Err(MalformedBlock) else ParseTrail(lines[1..], Some((from, to)), caps)
      case ScopeCapLine(kind, resource) =>
        (match ParseCapability(kind, resource)
         case None => Err(BadCapability)
         case Some(c) => ParseTrail(lines[1..], seen, caps + {c}))
      case OtherLine => ParseTrail(lines[1..], seen, caps)
  }

  /** The capabilities that some line declares. */
  function CapsOn(lines: seq<Line>): Scope {
    set i | 0 <= i < |lines| && LineCap(lines[i]).Some? :: LineCap(lines[i]).value
  }

  function LineCap(line: Line): Option<Capability> {
    if line.ScopeCapLine? then ParseCapability(line.kind, line.resource) else None
  }

  /** What is wrong at position `k`: a second delegation, or a capability that does not parse. */
  function FaultAt(lines: seq<Line>, k: nat): Option<TokenFault>
    requires k < |lines|
  {
    match lines[k]
    case DelegationLine(_, _) =>
      if exists j :: 0 <= j < k && lines[j].DelegationLine? then Some(MalformedBlock) else None
    case ScopeCapLine(_, _) => if LineCap(lines[k]).None? then Some(BadCapability) else None
    case OtherLine => None
  }

  predicate FaultFree(lines: seq<Line>, n: nat)
    requires n <= |lines|
  {
    forall k: nat :: k < n ==> FaultAt(lines, k) == None
  }

  /**
   * What a block's lines mean, by position: the first fault, or else the one delegation with all declared
   * capabilities, or else nothing.
   */
  ghost predicate Means(lines: seq<Line>, r: Result<Option<Trail>, TokenFault>) {
    match r
    case Err(e) => exists k: nat :: k < |lines| && FaultFree(lines, k) && FaultAt(lines, k) == Some(e)
    case Ok(None) => FaultFree(lines, |lines|) && forall i :: 0 <= i < |lines| ==> !lines[i].DelegationLine?
    case Ok(Some(t)) =>
      FaultFree(lines, |lines|) && t.scope == CapsOn(lines) && DelegationLine(t.from, t.to) in lines
  }

  /** The loop's variables after `k` lines: the delegation seen, if any, and the capabilities so far. */
  ghost predicate ReadSoFar(lines: seq<Line>, k: nat, seen: Option<(string, string)>, caps: Scope)
    requires k <= |lines|
  {
    && FaultFree(lines, k) && caps == CapsOn(lines[..k])
    && (seen.None? ==> forall i :: 0 <= i < k ==> !lines[i].DelegationLine?)
    && (seen.Some? ==> DelegationLine(seen.value.0, seen.value.1) in lines[..k])
  }

  lemma ReadOneMore(lines: seq<Line>, k: nat, seen: Option<(string, string)>, caps: Scope)
    requires k < |lines| && ReadSoFar(lines, k, seen, caps)
    ensures FaultAt(lines, k) == None ==>
              var line := lines[k];
              ReadSoFar(lines, k + 1,
                        if line.DelegationLine? then Some((line.from, line.to)) else seen,
                        caps + if line.ScopeCapLine? then {LineCap(line).value} else {})
    ensures lines[k].DelegationLine? ==> (FaultAt(lines, k).Some? <==> seen.Some?)
  {
    var more, less := lines[..k + 1], lines[..k];
    assert more == less + [lines[k]];
    assert forall i :: 0 <= i < k ==> more[i] == less[i];
    assert CapsOn(more) == CapsOn(less) + if LineCap(lines[k]).Some? then {LineCap(lines[k]).value} else {} by {
      forall c | c in CapsOn(less)
        ensures c in CapsOn(more)
      {
        var i :| 0 <= i < |less| && LineCap(less[i]) == Some(c);
        assert LineCap(more[i]) == Some(c);
      }
    }
    if seen.Some? {
      var i :| 0 <= i < |less| && less[i] == DelegationLine(seen.value.0, seen.value.1);
      assert lines[i].DelegationLine?;
    }
  }

  /** A block has one meaning. */
  lemma MeansUnique(lines: seq<Line>, r: Result<Option<Trail>, TokenFault>, q: Result<Option<Trail>, TokenFault>)
    requires Means(lines, r) && Means(lines, q)
    ensures r == q
  {
    if r.Ok? && q.Ok? && r.value.Some? && q.value.Some? {
      var t, u := r.value.value, q.value.value;
      var i :| 0 <= i < |lines| && lines[i] == DelegationLine(t.from, t.to);
      var j :| 0 <= j < |lines| && lines[j] == DelegationLine(u.from, u.to);
      assert FaultAt(lines, i) == None && FaultAt(lines, j) == None;
    }
  }

  /** Reading the rest of the lines from what was read so far gives the meaning of them all. */
  lemma {:induction false} ParseTrailMeans(lines: seq<Line>, k: nat, seen: Option<(string, string)>, caps: Scope)
    requires k <= |lines| && ReadSoFar(lines, k, seen, caps)
    ensures Means(lines, ParseTrail(lines[k..], seen, caps))
    decreases |lines| - k
  {
    if k == |lines| {
      assert lines[..k] == lines;
    } else {
      ReadOneMore(lines, k, seen, caps);
      assert lines[k..][0] == lines[k] && lines[k..][1..] == lines[k + 1..];
      if FaultAt(lines, k) == None {
        var line := lines[k];
        var seenNext := if line.DelegationLine? then Some((line.from, line.to)) else seen;
        var capsNext := caps + if line.ScopeCapLine? then {LineCap(line).value} else {};
        assert !line.ScopeCapLine? ==> capsNext == caps;
        ParseTrailMeans(lines, k + 1, seenNext, capsNext);
      }
    }
  }

  /** The one pass over a block's lines returns the meaning of the block, and no other result has it. */
  method ParseTrailBlock(lines: seq<Line>) returns (r: Result<Option<Trail>, TokenFault>)
    ensures r == ParseTrail(lines, None, {})
    ensures forall q :: Means(lines, q) <==> q == r
  {
    var delegation: Option<(string, string)> := None;
    var caps: Scope := {};
    assert ReadSoFar(lines, 0, None, {});
    ParseTrailMeans(lines, 0, None, {});
    assert lines[0..] == lines;
    forall q | Means(lines, q)
      ensures q == ParseTrail(lines, None, {})
    {
      MeansUnique(lines, q, ParseTrail(lines, None, {}));
    }
    for k := 0 to |lines|
      invariant ParseTrail(lines, None, {}) == ParseTrail(lines[k..], delegation, caps)
    {
      match lines[k]
      case DelegationLine(from, to) =>
        if delegation.Some? {
          return Err(MalformedBlock);
        }
        delegation := Some((from, to));
      case ScopeCapLine(kind, resource) =>
        var c := ParseCapability(kind, resource);
        if c.None? {
          return Err(BadCapability);
        }
        caps := caps + {c.value};
      case OtherLine =>
    }
    match delegation
    case None => r := Ok(None);
    case Some(d) => r := Ok(Some(Trail(d.0, d.1, caps)));
  }

  /** The capabilities of a scope, each once. */
  ghost function Listed(scope: Scope): (caps: seq<Capability>)
    ensures Elements(caps) == scope
  {
    if scope == {} then []
    else
      var c :| c in scope;
      var rest := Listed(scope - {c});
      assert Elements([c] + rest) == {c} + Elements(rest);
      [c] + rest
  }

  ghost function Elements(caps: seq<Capability>): Scope {
    set c | c in caps
  }

  lemma ElementsCons(caps: seq<Capability>)
    requires caps != []
    ensures Elements(caps) == {caps[0]} + Elements(caps[1..])
  {
    assert caps == [caps[0]] + caps[1..];
  }

  lemma ParseKindName(kind: Kind)
    ensures ParseKind(KindName(kind)) == Some(kind)
  {
  }

  /** A text that stays on one line when the block is printed. */
  predicate OneLine(s: string) {
    '\n' !in s
  }

  /** The capabilities whose line survives printing and splitting. */
  function Legible(scope: Scope): Scope {
    set c | c in scope && OneLine(c.resource)
  }

  /** The line that a delegation fact becomes: neither half of a broken one matches either expression. */
  function DelegationPrinted(from: string, to: string): Line {
    if OneLine(from) && OneLine(to) then DelegationLine(from, to) else OtherLine
  }

  function CapPrinted(c: Capability): Line {
    if OneLine(c.resource) then ScopeCapLine(KindName(c.kind), c.resource) else OtherLine
  }

  function CapLines(caps: seq<Capability>): seq<Line> {
    seq(|caps|, i requires 0 <= i < |caps| => CapPrinted(caps[i]))
  }

  ghost function AttenuationBlock(id: nat, from: string, to: string, scope: Scope): Block {
    Block(id, [DelegationPrinted(from, to)] + CapLines(Listed(scope)), [ScopeCheck(Facts(scope))])
  }

  lemma {:induction false} ParseCapLines(caps: seq<Capability>, seen: Option<(string, string)>, acc: Scope)
    ensures ParseTrail(CapLines(caps), seen, acc)
            == if seen.None? then Ok(None)
               else Ok(Some(Trail(seen.value.0, seen.value.1, acc + Legible(Elements(caps)))))
  {
    if caps == [] {
      assert acc + Legible(Elements(caps)) == acc;
    } else {
      var c := caps[0];
      ParseKindName(c.kind);
      assert CapLines(caps)[1..] == CapLines(caps[1..]);
      var next := if OneLine(c.resource) then acc + {c} else acc;
      ParseCapLines(caps[1..], seen, next);
      ElementsCons(caps);
      assert next + Legible(Elements(caps[1..])) == acc + Legible(Elements(caps));
    }
  }

  /**
   * The block an attenuation appends declares that delegation with the legible part of its scope, or nothing when
   * either actor holds a newline: it reads back whole exactly when no text of it holds one.
   */
  lemma AttenuationBlockParses(id: nat, from: string, to: string, scope: Scope)
    ensures var parsed := ParseTrail(AttenuationBlock(id, from, to, scope).lines, None, {});
            && parsed == (if OneLine(from) && OneLine(to) then Ok(Some(Trail(from, to, Legible(scope)))) else Ok(None))
            && (parsed == Ok(Some(Trail(from, to, scope))) <==>
                OneLine(from) && OneLine(to) && forall c :: c in scope ==> OneLine(c.resource))
  {
    var lines := AttenuationBlock(id, from, to, scope).lines;
    assert lines[1..] == CapLines(Listed(scope));
    ParseCapLines(Listed(scope), if OneLine(from) && OneLine(to) then Some((from, to)) else None, {});
    assert {} + Legible(scope) == Legible(scope);
    if Legible(scope) == scope {
      forall c | c in scope
        ensures OneLine(c.resource)
      {
        assert c in Legible(scope);
      }
    }
  }

  // ---- Loading -----------------------------------------------------------------------------

  function LoadBlock(c: Chain, block: Block): Result<Chain, TokenFault> {
    match ParseTrail(block.lines, None, {})
    case Err(e) => Err(e)
    case Ok(None) => Ok(c)
    case Ok(Some(t)) =>
      if t.from != c.actor then Err(TrailNotContiguous)
      else
        match Delegate(c, t.to, t.scope)
        case Err(fault) => Err(BadChain(fault))
        case Ok(next) => Ok(next)
  }

  function LoadBlocks(root: Chain, blocks: seq<Block>): Result<Chain, TokenFault> {
    if blocks == [] then Ok(root)
    else
      match LoadBlocks(root, blocks[..|blocks| - 1])
      case Err(e) => Err(e)
      case Ok(c) => LoadBlock(c, blocks[|blocks| - 1])
  }

  function LoadRoot(a: Authority): Result<Chain, TokenFault> {
    match ReadFacts(a.caps)
    case None => Err(BadCapability)
    case Some(scope) =>
      match Root(a.subject, a.actor, scope)
      case Err(fault) => Err(BadChain(fault))
      case Ok(root) => Ok(root)
  }

  /** The chain that `load` rebuilds. */
  function Load(b: Biscuit): Result<Chain, TokenFault> {
    if |b.blocks| > MAX_DELEGATION_DEPTH then Err(TooManyBlocks)
    else
      match LoadRoot(b.authority)
      case Err(e) => Err(e)
      case Ok(root) => LoadBlocks(root, b.blocks)
  }

  lemma {:induction false} LoadErrorSticks(root: Chain, blocks: seq<Block>, k: nat)
    requires k <= |blocks| && LoadBlocks(root, blocks[..k]).Err?
    ensures LoadBlocks(root, blocks) == LoadBlocks(root, blocks[..k])
    decreases |blocks|
  {
    if k == |blocks| {
      assert blocks[..k] == blocks;
    } else {
      assert blocks[..|blocks| - 1][..k] == blocks[..k];
      LoadErrorSticks(root, blocks[..|blocks| - 1], k);
    }
  }

  /** What one block does to the chain. */
  method LoadOne(chain: Chain, block: Block) returns (r: Result<Chain, TokenFault>)
    ensures r == LoadBlock(chain, block)
  {
    var parsed := ParseTrailBlock(block.lines);
    match parsed
    case Err(e) => return Err(e);
    case Ok(None) => return Ok(chain);
    case Ok(Some(t)) =>
      if t.from != chain.actor {
        return Err(TrailNotContiguous);
      }
      match Delegate(chain, t.to, t.scope)
      case Err(fault) => return Err(BadChain(fault));
      case Ok(next) => return Ok(next);
  }

  /** `load` as it runs: one pass over the blocks that rebinds the chain. */
  method LoadToken(b: Biscuit) returns (r: Result<Chain, TokenFault>)
    ensures r == Load(b)
  {
    if |b.blocks| > MAX_DELEGATION_DEPTH {
      return Err(TooManyBlocks);
    }
    var start := LoadRoot(b.authority);
    if start.Err? {
      return start;
    }
    var chain := start.value;
    for k := 0 to |b.blocks|
      invariant LoadBlocks(start.value, b.blocks[..k]) == Ok(chain)
    {
      assert b.blocks[..k + 1][..k] == b.blocks[..k];
      var next := LoadOne(chain, b.blocks[k]);
      if next.Err? {
        LoadErrorSticks(start.value, b.blocks, k + 1);
        return next;
      }
      chain := next.value;
    }
    assert b.blocks[..|b.blocks|] == b.blocks;
    return Ok(chain);
  }

  predicate AllParse(blocks: seq<Block>) {
    forall k :: 0 <= k < |blocks| ==> ParseTrail(blocks[k].lines, None, {}).Ok?
  }

  /** The delegations the blocks declare, in order; opaque blocks declare none. */
  function Declared(blocks: seq<Block>): seq<Delegation> {
    if blocks == [] then []
    else
      Declared(blocks[..|blocks| - 1])
      + match ParseTrail(blocks[|blocks| - 1].lines, None, {})
        case Ok(Some(t)) => [Delegation(t.from, t.to, t.scope)]
        case _ => []
  }

  /** One more declared delegation on both sides of the fold. */
  lemma LoadExtends(root: Chain, declared: seq<Delegation>, before: Chain, last: Block, t: Trail, c: Chain)
    requires ParseTrail(last.lines, None, {}) == Ok(Some(t))
    requires DelegateAll(root, HopsOf(declared)) == Ok(before) && before.links == declared
    requires LoadBlock(before, last) == Ok(c)
    ensures DelegateAll(root, HopsOf(declared + [Delegation(t.from, t.to, t.scope)])) == Ok(c)
    ensures c.links == declared + [Delegation(t.from, t.to, t.scope)]
  {
    DelegateAllSnoc(root, HopsOf(declared), Hop(t.to, t.scope));
    assert HopsOf(declared + [Delegation(t.from, t.to, t.scope)]) == HopsOf(declared) + [Hop(t.to, t.scope)];
  }

  lemma FoldExtends(root: Chain, declared: seq<Delegation>, last: Block, t: Trail, c: Chain) returns (before: Chain)
    requires ParseTrail(last.lines, None, {}) == Ok(Some(t))
    requires DelegateAll(root, HopsOf(declared + [Delegation(t.from, t.to, t.scope)])) == Ok(c)
    requires c.links == declared + [Delegation(t.from, t.to, t.scope)]
    ensures DelegateAll(root, HopsOf(declared)) == Ok(before) && before.links == declared
    ensures LoadBlock(before, last) == Ok(c)
  {
    DelegateAllSnoc(root, HopsOf(declared), Hop(t.to, t.scope));
    assert HopsOf(declared + [Delegation(t.from, t.to, t.scope)]) == HopsOf(declared) + [Hop(t.to, t.scope)];
    before := DelegateAll(root, HopsOf(declared)).value;
    assert c.links[..|c.links| - 1] == declared;
    assert c.links[..|c.links| - 1] == before.links;
  }

  /** Loading any blocks, forged or opaque, is folding `Delegate` over what they declare. */
  lemma {:induction false} LoadIsFold(root: Chain, blocks: seq<Block>, c: Chain)
    requires WellFormed(root) && root.links == []
    ensures LoadBlocks(root, blocks) == Ok(c) <==>
            && AllParse(blocks)
            && DelegateAll(root, HopsOf(Declared(blocks))) == Ok(c)
            && c.links == Declared(blocks)
  {
    if blocks == [] {
    } else {
      var n := |blocks| - 1;
      var front, last := blocks[..n], blocks[n];
      assert AllParse(blocks) <==> AllParse(front) && ParseTrail(last.lines, None, {}).Ok?;
      match ParseTrail(last.lines, None, {})
      case Err(_) =>
      case Ok(None) =>
        assert Declared(blocks) == Declared(front);
        LoadIsFold(root, front, c);
      case Ok(Some(t)) =>
        var link := Delegation(t.from, t.to, t.scope);
        assert Declared(blocks) == Declared(front) + [link];
        if LoadBlocks(root, blocks) == Ok(c) {
          var before := LoadBlocks(root, front).value;
          LoadIsFold(root, front, before);
          LoadExtends(root, Declared(front), before, last, t, c);
        } else if && AllParse(blocks)
                  && DelegateAll(root, HopsOf(Declared(blocks))) == Ok(c)
                  && c.links == Declared(blocks)
        {
          var before := FoldExtends(root, Declared(front), last, t, c);
          LoadIsFold(root, front, before);
        }
    }
  }
}
