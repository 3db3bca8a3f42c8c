/** Standing mandates: the store, and every interleaving of create, get, issue, revoke, sweep and attenuation. */
module Mandates {
  import opened Wrappers
  import opened Refs
  import opened Scopes
  import opened Chains
  import opened Tokens
  import opened TokenService

  datatype Status = Active | RevokedStatus | ExpiredStatus

  datatype Mandate = Mandate(
    id: string,
    subject: string,
    agent: string,
    scope: Scope,
    createdAt: int,
    expiresAt: int,
    maxTtl: int,
    createdBy: string,
    status: Status,
    revokedAt: Option<int>,
    reason: Option<string>)

  type Rows = map<string, Mandate>

  /** What the human agreed to: everything but the status and the revocation note. */
  predicate SameTerms(a: Mandate, b: Mandate) {
    b == a.(status := b.status, revokedAt := b.revokedAt, reason := b.reason)
  }

  function MarkExpired(m: Mandate): Mandate {
    m.(status := ExpiredStatus)
  }

  function MarkRevoked(m: Mandate, now: int, reason: Option<string>): Mandate {
    m.(status := RevokedStatus, revokedAt := Some(now), reason := reason)
  }

  predicate Overdue(m: Mandate, now: int) {
    m.status == Active && m.expiresAt <= now
  }

  function ExpireActive(rows: Rows, now: int): Rows {
    map id | id in rows :: if Overdue(rows[id], now) then MarkExpired(rows[id]) else rows[id]
  }

  class InMemoryMandateStore {
    var rows: Rows

    constructor ()
      ensures rows == map[]
    {
      rows := map[];
    }

    method Create(m: Mandate) returns (ok: bool)
      modifies this
      ensures ok == (m.id !in old(rows))
      ensures rows == if ok then old(rows)[m.id := m] else old(rows)
    {
      ok := m.id !in rows;
      if ok {
        rows := rows[m.id := m];
      }
    }

    method Update(m: Mandate) returns (ok: bool)
      modifies this
      ensures ok == (m.id in old(rows))
      ensures rows == if ok then old(rows)[m.id := m] else old(rows)
    {
      ok := m.id in rows;
      if ok {
        rows := rows[m.id := m];
      }
    }

    /**
     * Marks every active mandate whose date has come, one row at a time, and returns the marked ones: afterwards no
     * active row is past its date, and every other row is as it was.
     */
    method Sweep(now: int) returns (expired: set<string>)
      modifies this
      ensures rows.Keys == old(rows).Keys
      ensures forall id :: id in rows ==>
                if old(rows)[id].status == Active && old(rows)[id].expiresAt <= now then
                  id in expired && rows[id] == old(rows)[id].(status := ExpiredStatus)
                else id !in expired && rows[id] == old(rows)[id]
      ensures expired <= rows.Keys
      ensures expired == set id | id in old(rows) && Overdue(old(rows)[id], now)
      ensures rows == ExpireActive(old(rows), now)
    {
      expired := set id | id in rows && Overdue(rows[id], now);
      var todo := expired;
      while todo != {}
        invariant todo <= expired
        invariant rows.Keys == old(rows).Keys
        invariant forall id :: id in rows ==>
                    rows[id] == if id in expired && id !in todo then MarkExpired(old(rows)[id]) else old(rows)[id]
        decreases |todo|
      {
        var id :| id in todo;
        rows := rows[id := MarkExpired(rows[id])];
        todo := todo - {id};
      }
      SweptRows(old(rows), rows, expired, now);
    }
  }

  lemma SweptRows(before: Rows, after: Rows, expired: set<string>, now: int)
    requires after.Keys == before.Keys && expired == set id | id in before && Overdue(before[id], now)
    requires forall id :: id in after ==> after[id] == if id in expired then MarkExpired(before[id]) else before[id]
    ensures after == ExpireActive(before, now)
  {
    var swept := ExpireActive(before, now);
    assert swept.Keys == after.Keys;
    forall id | id in after
      ensures after[id] == swept[id]
    {
      assert id in before && (id in expired <==> Overdue(before[id], now));
    }
  }

  // ---- Lifetime of a token under a mandate -------------------------------------------------

  function Min(a: int, b: int): int {
    if a <= b then a else b
  }

  function Wanted(m: Mandate, ttl: Option<int>): int {
    Lifetime(ttl, m.maxTtl)
  }

  function Clamp(m: Mandate, ttl: Option<int>, now: int): int {
    Min(Min(Wanted(m, ttl), m.maxTtl), m.expiresAt - now)
  }

  /** When a token clamped at `clampedAt` and signed at `mintedAt` expires. */
  function TokenExpiry(m: Mandate, ttl: Option<int>, defaultTtl: int, clampedAt: int, mintedAt: int): int {
    mintedAt + Lifetime(Some(Clamp(m, ttl, clampedAt)), defaultTtl)
  }

  /**
   * The token outlives its mandate by no more than the time between the two clock reads, unless the clamping read
   * hits the expiry instant exactly: then the clamped lifetime is zero, which the issuer takes as "use the default".
   */
  lemma ExpiryBoundExact(m: Mandate, ttl: Option<int>, defaultTtl: int, clampedAt: int, mintedAt: int)
    requires m.maxTtl > 0
    ensures TokenExpiry(m, ttl, defaultTtl, clampedAt, mintedAt) <= m.expiresAt + (mintedAt - clampedAt) <==>
            m.expiresAt != clampedAt || Wanted(m, ttl) <= 0 || defaultTtl <= 0
  {
  }

  // ---- Every interleaving ------------------------------------------------------------------

  datatype Config = Config(maxLife: int, defaultMaxTtl: int, defaultTtl: int)

  /** What to do with a mandate once it was read fresh. */
  datatype Purpose = Look | IssueFor(caller: string, scope: Scope, ttl: Option<int>)

  /** A caller between two atomic calls, with the copy of the mandate it holds. */
  datatype Client =
    | CreateStart(subject: string, agent: string, wanted: Scope, until: int, createdBy: string, maxTtl: Option<int>)
    | CreateBind(draft: Mandate)
    | CreateWrite(draft: Mandate)
    | Fetch(id: string, purpose: Purpose)
    | FreshClock(copy: Mandate, purpose: Purpose)
    | FreshExpire(copy: Mandate)
    | FreshAsk(copy: Mandate, purpose: Purpose, now: int)
    | FreshRevoke(copy: Mandate, now: int)
    | IssueBind(copy: Mandate, purpose: Purpose)
    | IssueClamp(copy: Mandate, purpose: Purpose)
    | IssueMint(copy: Mandate, purpose: Purpose, now: int)
    | RevokeFetch(id: string, caller: string, note: string)
    | RevokeId(copy: Mandate, note: string)
    | RevokeWrite(copy: Mandate, note: string, now: int)
    | SweepClock
    | SweepWrite(now: int)
    | Finished

  /** The two clock reads behind a minted token, kept per authority id. */
  datatype Mint = Mint(ttl: Option<int>, clampedAt: int, mintedAt: int)

  datatype State = State(
    clock: int,
    rows: Rows,
    revoked: set<RevocationId>,
    clients: map<nat, Client>,
    tokens: seq<Biscuit>,
    mints: map<nat, Mint>,
    nextId: nat)

  datatype Act =
    | Tick(seconds: nat)
    | Spawn(client: nat, start: Client)
    | Advance(client: nat, bound: bool, freshId: string)
    | Abort(client: nat)
    | AttenuateToken(parent: nat, to: string, scope: Scope)
    | AppendBlock(parent: nat, lines: seq<Line>, checks: seq<Check>)

  predicate IsStart(c: Client) {
    c.CreateStart? || c.Fetch? || c.RevokeFetch? || c.SweepClock?
  }

  function Goto(s: State, c: nat, next: Client): State {
    s.(clients := s.clients[c := next])
  }

  /** Checks of `create` before the engine is asked; the identifier is the one later stored. */
  function Draft(cfg: Config, s: State, c: Client, id: string): Option<Mandate>
    requires c.CreateStart?
  {
    var ttl := Lifetime(c.maxTtl, cfg.defaultMaxTtl);
    if && ValidRef(c.subject, "user") && ValidRef(c.agent, "agent")
       && c.createdBy == c.subject
       && s.clock < c.until <= s.clock + cfg.maxLife
       && c.wanted != {}
       && ttl > 0
    then
      Some(Mandate(id, c.subject, c.agent, c.wanted, s.clock, c.until, ttl, c.createdBy, Active, None, None))
    else None
  }

  /** What `issue` does with an active mandate: refuse, or go on to the binding check. */
  function UseActive(s: State, c: nat, m: Mandate, purpose: Purpose): State {
    match purpose
    case Look => Goto(s, c, Finished)
    case IssueFor(caller, scope, ttl) =>
      if caller == m.agent && SubsetOf(scope, m.scope) then Goto(s, c, IssueBind(m, purpose)) else Goto(s, c, Finished)
  }

  function Write(s: State, c: nat, m: Mandate): State {
    if m.id in s.rows then Goto(s.(rows := s.rows[m.id := m]), c, Finished) else Goto(s, c, Finished)
  }

  /** Signs the token: the clock is read again here. */
  function MintToken(cfg: Config, s: State, c: nat, m: Mandate, p: Purpose, clampedAt: int): State
    requires p.IssueFor?
  {
    match Root(m.subject, m.agent, p.scope)
    case Err(_) => Goto(s, c, Finished)
    case Ok(chain) =>
      var ttl := Some(Clamp(m, p.ttl, clampedAt));
      match Issue(chain, ttl, cfg.defaultTtl, Some(m.id), s.clock, s.nextId)
      case Err(_) => Goto(s, c, Finished)
      case Ok(b) =>
        Goto(s.(tokens := s.tokens + [b],
                mints := s.mints[s.nextId := Mint(p.ttl, clampedAt, s.clock)],
                nextId := s.nextId + 1), c, Finished)
  }

  /** One atomic call of one client. `bound` is the engine's answer, `freshId` the identifier drawn. */
  function Next(cfg: Config, s: State, c: nat, bound: bool, freshId: string): State
    requires c in s.clients
  {
    match s.clients[c]
    case CreateStart(_, _, _, _, _, _) =>
      (match Draft(cfg, s, s.clients[c], freshId)
       case None => Goto(s, c, Finished)
       case Some(m) => Goto(s, c, CreateBind(m)))
    case CreateBind(m) => Goto(s, c, if bound then CreateWrite(m) else Finished)
    case CreateWrite(m) =>
      Goto(if m.id in s.rows then s else s.(rows := s.rows[m.id := m]), c, Finished)
    case Fetch(id, purpose) =>
      Goto(s, c, if id in s.rows && s.rows[id].status == Active then FreshClock(s.rows[id], purpose) else Finished)
    case FreshClock(m, purpose) =>
      Goto(s, c, if m.expiresAt <= s.clock then FreshExpire(m) else FreshAsk(m, purpose, s.clock))
    case FreshExpire(m) => Write(s, c, MarkExpired(m))
    case FreshAsk(m, purpose, now) =>
      if MandateId(m.id) in s.revoked then Goto(s, c, FreshRevoke(m, now)) else UseActive(s, c, m, purpose)
    case FreshRevoke(m, now) => Write(s, c, MarkRevoked(m, now, Some("revocation_id_revoked")))
    case IssueBind(m, purpose) => Goto(s, c, if bound then IssueClamp(m, purpose) else Finished)
    case IssueClamp(m, purpose) => Goto(s, c, IssueMint(m, purpose, s.clock))
    case IssueMint(m, purpose, now) =>
      if purpose.IssueFor? then MintToken(cfg, s, c, m, purpose, now) else Goto(s, c, Finished)
    case RevokeFetch(id, caller, note) =>
      Goto(s, c, if id in s.rows && caller == s.rows[id].subject then RevokeId(s.rows[id], note) else Finished)
    case RevokeId(m, note) =>
      Goto(s.(revoked := s.revoked + {MandateId(m.id)}), c, RevokeWrite(m, note, s.clock))
    case RevokeWrite(m, note, now) =>
      Write(s, c, MarkRevoked(m, now, if note == "" then None else Some(note)))
    case SweepClock => Goto(s, c, SweepWrite(s.clock))
    case SweepWrite(now) => Goto(s.(rows := ExpireActive(s.rows, now)), c, Finished)
    case Finished => s
  }

  ghost function AddToken(s: State, b: Biscuit): State {
    s.(tokens := s.tokens + [b], nextId := s.nextId + 1)
  }

  ghost function Step(cfg: Config, s: State, a: Act): State {
    match a
    case Tick(d) => s.(clock := s.clock + d)
    case Spawn(c, start) => if c !in s.clients && IsStart(start) then Goto(s, c, start) else s
    case Advance(c, bound, freshId) => if c in s.clients then Next(cfg, s, c, bound, freshId) else s
    case Abort(c) => if c in s.clients then Goto(s, c, Finished) else s
    case AttenuateToken(p, to, scope) =>
      if p < |s.tokens| && Attenuate(s.tokens[p], to, scope, s.nextId).Ok? then
        AddToken(s, Attenuate(s.tokens[p], to, scope, s.nextId).value)
      else s
    case AppendBlock(p, lines, checks) =>
      if p < |s.tokens| then
        AddToken(s, Biscuit(s.tokens[p].authority, s.tokens[p].blocks + [Block(s.nextId, lines, checks)]))
      else s
  }

  ghost function Run(cfg: Config, s: State, acts: seq<Act>): State {
    if acts == [] then s else Step(cfg, Run(cfg, s, acts[..|acts| - 1]), acts[|acts| - 1])
  }

  function Init(clock: int): State {
    State(clock, map[], {}, map[], [], map[], 0)
  }

  // ---- Invariant ---------------------------------------------------------------------------

  predicate CopyOk(s: State, m: Mandate) {
    m.id in s.rows && SameTerms(m, s.rows[m.id])
  }

  predicate PurposeOk(m: Mandate, p: Purpose) {
    p.IssueFor? && p.caller == m.agent && SubsetOf(p.scope, m.scope)
  }

  predicate ClientOk(s: State, c: Client) {
    match c
    case CreateBind(m) => m.maxTtl > 0
    case CreateWrite(m) => m.maxTtl > 0
    case FreshClock(m, _) => CopyOk(s, m)
    case FreshExpire(m) => CopyOk(s, m)
    case FreshAsk(m, _, _) => CopyOk(s, m)
    case FreshRevoke(m, _) => CopyOk(s, m)
    case IssueBind(m, p) => CopyOk(s, m) && PurposeOk(m, p)
    case IssueClamp(m, p) => CopyOk(s, m) && PurposeOk(m, p)
    case IssueMint(m, p, now) => CopyOk(s, m) && PurposeOk(m, p) && now <= s.clock
    case RevokeId(m, _) => CopyOk(s, m)
    case RevokeWrite(m, _, _) => CopyOk(s, m)
    case _ => true
  }

  /** A token's signed authority stays within the mandate it names, and its expiry is the clamped one. */
  ghost predicate AuthorityOk(cfg: Config, s: State, a: Authority) {
    && a.mandate.Some? && a.mandate.value in s.rows && a.id in s.mints
    && var m, mint := s.rows[a.mandate.value], s.mints[a.id];
       && a.subject == m.subject && a.actor == m.agent
       && (exists scope :: SubsetOf(scope, m.scope) && a.caps == Facts(scope))
       && mint.clampedAt <= mint.mintedAt <= s.clock
       && a.expiresAt == TokenExpiry(m, mint.ttl, cfg.defaultTtl, mint.clampedAt, mint.mintedAt)
  }

  ghost predicate Inv(cfg: Config, s: State) {
    && (forall id :: id in s.rows ==> s.rows[id].id == id && s.rows[id].maxTtl > 0)
    && (forall c :: c in s.clients ==> ClientOk(s, s.clients[c]))
    && (forall i :: 0 <= i < |s.tokens| ==> AuthorityOk(cfg, s, s.tokens[i].authority))
    && (forall id :: id in s.mints ==> id < s.nextId)
  }

  /** What every atomic step keeps of the rest of the state. */
  predicate Evolves(s: State, t: State) {
    && s.clock <= t.clock
    && s.revoked <= t.revoked
    && (forall id :: id in s.rows ==>
          && id in t.rows
          && SameTerms(s.rows[id], t.rows[id])
          && (s.rows[id].status != Active ==> t.rows[id].status != Active))
    && (forall id :: id in s.mints ==> id in t.mints && t.mints[id] == s.mints[id])
  }

  lemma ClientStable(s: State, t: State, c: Client)
    requires Evolves(s, t) && ClientOk(s, c)
    ensures ClientOk(t, c)
  {
  }

  lemma AuthorityStable(cfg: Config, s: State, t: State, a: Authority)
    requires Evolves(s, t) && AuthorityOk(cfg, s, a)
    ensures AuthorityOk(cfg, t, a)
  {
  }

  /** A step that evolves the state and leaves one client in a sound position keeps the invariant. */
  lemma EvolvedKeepsInv(cfg: Config, s: State, t: State, c: nat, next: Client)
    requires Inv(cfg, s) && Evolves(s, t)
    requires forall id :: id in t.rows ==> t.rows[id].id == id && t.rows[id].maxTtl > 0
    requires t.clients == s.clients[c := next] && ClientOk(t, next)
    requires t.tokens == s.tokens && t.mints == s.mints && t.nextId == s.nextId
    ensures Inv(cfg, t)
  {
    forall d | d in s.clients {
      ClientStable(s, t, s.clients[d]);
    }
    forall i | 0 <= i < |s.tokens| {
      AuthorityStable(cfg, s, t, s.tokens[i].authority);
    }
  }

  lemma GotoKeeps(cfg: Config, s: State, c: nat, next: Client)
    requires Inv(cfg, s) && ClientOk(s, next)
    ensures Inv(cfg, Goto(s, c, next)) && Evolves(s, Goto(s, c, next))
  {
    EvolvedKeepsInv(cfg, s, Goto(s, c, next), c, next);
  }

  /** Writing from a stale copy only ever moves the status away from ACTIVE. */
  lemma WriteKeeps(cfg: Config, s: State, c: nat, m: Mandate)
    requires Inv(cfg, s) && CopyOk(s, m) && m.status != Active
    ensures Inv(cfg, Write(s, c, m)) && Evolves(s, Write(s, c, m))
  {
    EvolvedKeepsInv(cfg, s, Write(s, c, m), c, Finished);
  }

  lemma CreateKeeps(cfg: Config, s: State, c: nat, m: Mandate)
    requires Inv(cfg, s) && m.maxTtl > 0 && m.id !in s.rows
    ensures var t := Goto(s.(rows := s.rows[m.id := m]), c, Finished);
            Inv(cfg, t) && Evolves(s, t)
  {
    EvolvedKeepsInv(cfg, s, Goto(s.(rows := s.rows[m.id := m]), c, Finished), c, Finished);
  }

  lemma SweepKeeps(cfg: Config, s: State, c: nat, now: int)
    requires Inv(cfg, s)
    ensures var t := Goto(s.(rows := ExpireActive(s.rows, now)), c, Finished);
            Inv(cfg, t) && Evolves(s, t)
  {
    EvolvedKeepsInv(cfg, s, Goto(s.(rows := ExpireActive(s.rows, now)), c, Finished), c, Finished);
  }

  lemma RevokeIdKeeps(cfg: Config, s: State, c: nat, m: Mandate, next: Client)
    requires Inv(cfg, s) && ClientOk(s, next)
    ensures var t := Goto(s.(revoked := s.revoked + {MandateId(m.id)}), c, next);
            Inv(cfg, t) && Evolves(s, t)
  {
    var t := Goto(s.(revoked := s.revoked + {MandateId(m.id)}), c, next);
    ClientStable(s, t, next);
    EvolvedKeepsInv(cfg, s, t, c, next);
  }

  lemma AddTokenKeeps(cfg: Config, s: State, t: State, b: Biscuit)
    requires Inv(cfg, s) && Evolves(s, t)
    requires t.rows == s.rows && t.clients == s.clients && t.clock == s.clock && t.nextId == s.nextId + 1
    requires t.tokens == s.tokens + [b] && AuthorityOk(cfg, t, b.authority)
    requires forall id :: id in t.mints ==> id in s.mints || id == s.nextId
    ensures Inv(cfg, t)
  {
    forall d | d in s.clients {
      ClientStable(s, t, s.clients[d]);
    }
    forall i | 0 <= i < |s.tokens| {
      AuthorityStable(cfg, s, t, s.tokens[i].authority);
    }
  }

  lemma MintKeeps(cfg: Config, s: State, c: nat, m: Mandate, p: Purpose, clampedAt: int)
    requires Inv(cfg, s) && CopyOk(s, m) && PurposeOk(m, p) && clampedAt <= s.clock
    ensures var t := MintToken(cfg, s, c, m, p, clampedAt);
            Inv(cfg, t) && Evolves(s, t)
  {
    GotoKeeps(cfg, s, c, Finished);
    var chain := Root(m.subject, m.agent, p.scope);
    if chain.Ok? {
      var g := Goto(s, c, Finished);
      var ttl := Some(Clamp(m, p.ttl, clampedAt));
      var b := Issue(chain.value, ttl, cfg.defaultTtl, Some(m.id), s.clock, s.nextId).value;
      var mint := Mint(p.ttl, clampedAt, s.clock);
      var t := MintToken(cfg, s, c, m, p, clampedAt);
      assert t == g.(tokens := g.tokens + [b], mints := g.mints[s.nextId := mint], nextId := s.nextId + 1);
      assert SameTerms(m, t.rows[m.id]);
      assert b.authority.caps == Facts(p.scope);
      assert AuthorityOk(cfg, t, b.authority);
      AddTokenKeeps(cfg, g, t, b);
    }
  }

  /** The calls that only read: the client moves on with what it read. */
  predicate Reads(c: Client) {
    || c.CreateStart? || c.CreateBind? || c.Fetch? || c.FreshClock? || c.FreshAsk? || c.IssueBind? || c.IssueClamp?
    || c.RevokeFetch? || c.SweepClock?
  }

  lemma ReadKeeps(cfg: Config, s: State, c: nat, bound: bool, freshId: string)
    requires Inv(cfg, s) && c in s.clients && Reads(s.clients[c])
    ensures Inv(cfg, Next(cfg, s, c, bound, freshId)) && Evolves(s, Next(cfg, s, c, bound, freshId))
  {
    assert ClientOk(s, s.clients[c]);
    var t := Next(cfg, s, c, bound, freshId);
    ReadMoves(cfg, s, c, bound, freshId);
    GotoKeeps(cfg, s, c, t.clients[c]);
  }

  lemma NextKeeps(cfg: Config, s: State, c: nat, bound: bool, freshId: string)
    requires Inv(cfg, s) && c in s.clients
    ensures Inv(cfg, Next(cfg, s, c, bound, freshId)) && Evolves(s, Next(cfg, s, c, bound, freshId))
  {
    assert ClientOk(s, s.clients[c]);
    match s.clients[c]
    case CreateWrite(m) =>
      if m.id in s.rows {
        GotoKeeps(cfg, s, c, Finished);
      } else {
        CreateKeeps(cfg, s, c, m);
      }
    case FreshExpire(m) => WriteKeeps(cfg, s, c, MarkExpired(m));
    case FreshRevoke(m, now) => WriteKeeps(cfg, s, c, MarkRevoked(m, now, Some("revocation_id_revoked")));
    case IssueMint(m, p, now) => MintKeeps(cfg, s, c, m, p, now);
    case RevokeId(m, note) => RevokeIdKeeps(cfg, s, c, m, RevokeWrite(m, note, s.clock));
    case RevokeWrite(m, note, now) =>
      WriteKeeps(cfg, s, c, MarkRevoked(m, now, if note == "" then None else Some(note)));
    case SweepWrite(now) => SweepKeeps(cfg, s, c, now);
    case Finished =>
    case _ => ReadKeeps(cfg, s, c, bound, freshId);
  }

  lemma TickKeeps(cfg: Config, s: State, t: State)
    requires Inv(cfg, s) && t == s.(clock := t.clock) && s.clock <= t.clock
    ensures Inv(cfg, t) && Evolves(s, t)
  {
    forall d | d in s.clients {
      ClientStable(s, t, s.clients[d]);
    }
    forall i | 0 <= i < |s.tokens| {
      AuthorityStable(cfg, s, t, s.tokens[i].authority);
    }
  }

  /** A token grown from an old one keeps that one's authority. */
  lemma GrowKeeps(cfg: Config, s: State, a: Act)
    requires Inv(cfg, s) && (a.AttenuateToken? || a.AppendBlock?)
    ensures Inv(cfg, Step(cfg, s, a)) && Evolves(s, Step(cfg, s, a))
  {
    var t := Step(cfg, s, a);
    if t.tokens != s.tokens {
      var p := a.parent;
      AuthorityStable(cfg, s, t, s.tokens[p].authority);
      AddTokenKeeps(cfg, s, t, t.tokens[|s.tokens|]);
    }
  }

  lemma StepKeeps(cfg: Config, s: State, a: Act)
    requires Inv(cfg, s)
    ensures Inv(cfg, Step(cfg, s, a)) && Evolves(s, Step(cfg, s, a))
  {
    match a
    case Tick(_) => TickKeeps(cfg, s, Step(cfg, s, a));
    case Spawn(c, start) =>
      if c !in s.clients && IsStart(start) {
        GotoKeeps(cfg, s, c, start);
      }
    case Advance(c, bound, freshId) =>
      if c in s.clients {
        NextKeeps(cfg, s, c, bound, freshId);
      }
    case Abort(c) =>
      if c in s.clients {
        GotoKeeps(cfg, s, c, Finished);
      }
    case AttenuateToken(_, _, _) => GrowKeeps(cfg, s, a);
    case AppendBlock(_, _, _) => GrowKeeps(cfg, s, a);
  }

  lemma {:induction false} RunKeeps(cfg: Config, s: State, acts: seq<Act>)
    requires Inv(cfg, s)
    ensures Inv(cfg, Run(cfg, s, acts)) && Evolves(s, Run(cfg, s, acts))
  {
    if acts == [] {
    } else {
      RunKeeps(cfg, s, acts[..|acts| - 1]);
      StepKeeps(cfg, Run(cfg, s, acts[..|acts| - 1]), acts[|acts| - 1]);
    }
  }

  // ---- Theorems ----------------------------------------------------------------------------

  /** After any run, whatever is done next, a mandate's terms never change and a status that left ACTIVE stays away. */
  lemma StatusNeverReturnsToActive(cfg: Config, clock: int, before: seq<Act>, after: seq<Act>, id: string)
    requires id in Run(cfg, Init(clock), before).rows
    ensures var s := Run(cfg, Init(clock), before);
            var t := Run(cfg, s, after);
            && id in t.rows
            && SameTerms(s.rows[id], t.rows[id])
            && (s.rows[id].status != Active ==> t.rows[id].status != Active)
  {
    RunKeeps(cfg, Init(clock), before);
    RunKeeps(cfg, Run(cfg, Init(clock), before), after);
  }

  /**
   * From the moment a mandate's revocation id is recorded, no token under it verifies any request in any later state:
   * not those issued before, not those attenuated from them, not those of an issue that had already passed its checks.
   */
  lemma RevokedMandateKillsEveryToken(
    cfg: Config, clock: int, before: seq<Act>, after: seq<Act>, id: string, i: nat,
    caller: string, op: Kind, resource: string, now: int)
    requires MandateId(id) in Run(cfg, Init(clock), before).revoked
    requires i < |Run(cfg, Run(cfg, Init(clock), before), after).tokens|
    requires Run(cfg, Run(cfg, Init(clock), before), after).tokens[i].authority.mandate == Some(id)
    ensures var t := Run(cfg, Run(cfg, Init(clock), before), after);
            !Verify(t.tokens[i], t.revoked, caller, op, resource, now).Ok?
  {
    RunKeeps(cfg, Init(clock), before);
    RunKeeps(cfg, Run(cfg, Init(clock), before), after);
    var t := Run(cfg, Run(cfg, Init(clock), before), after);
    var ids := RevocationIds(t.tokens[i]);
    assert ids[|ids| - 1] == MandateId(id);
  }

  /**
   * Every token of every run names a stored mandate, acts for its subject, has a scope within the mandate's after any
   * delegation, and expires within the bound unless it was clamped exactly at the mandate's expiry instant.
   */
  lemma TokensStayWithinMandate(cfg: Config, clock: int, acts: seq<Act>, i: nat)
    requires i < |Run(cfg, Init(clock), acts).tokens|
    ensures var s := Run(cfg, Init(clock), acts);
            var b := s.tokens[i];
            && b.authority.mandate.Some? && b.authority.mandate.value in s.rows && b.authority.id in s.mints
            && var m, mint := s.rows[b.authority.mandate.value], s.mints[b.authority.id];
               && b.authority.subject == m.subject && b.authority.actor == m.agent
               && (Load(b).Ok? ==> Load(b).value.subject == m.subject && Narrower(Load(b).value.scope, m.scope))
               && mint.clampedAt <= mint.mintedAt
               && (b.authority.expiresAt <= m.expiresAt + (mint.mintedAt - mint.clampedAt) <==>
                   m.expiresAt != mint.clampedAt || Wanted(m, mint.ttl) <= 0 || cfg.defaultTtl <= 0)
  {
    RunKeeps(cfg, Init(clock), acts);
    var s := Run(cfg, Init(clock), acts);
    var b := s.tokens[i];
    assert AuthorityOk(cfg, s, b.authority);
    var m, mint := s.rows[b.authority.mandate.value], s.mints[b.authority.id];
    ExpiryBoundExact(m, mint.ttl, cfg.defaultTtl, mint.clampedAt, mint.mintedAt);
    if Load(b).Ok? {
      var scope :| SubsetOf(scope, m.scope) && b.authority.caps == Facts(scope);
      LoadedChainNarrows(b);
      FactsRoundTrip(scope);
      LoadRootWellFormed(b.authority);
      SubsetSound(scope, m.scope);
    }
  }

  // ---- Revoked rows ------------------------------------------------------------------------

  /** A row is marked revoked only after its id was recorded, by whichever client writes it. */
  predicate Recorded(s: State) {
    && (forall id :: id in s.rows && s.rows[id].status == RevokedStatus ==> MandateId(id) in s.revoked)
    && (forall c :: c in s.clients ==> RecordedClient(s.revoked, s.clients[c]))
  }

  predicate RecordedClient(revoked: set<RevocationId>, c: Client) {
    match c
    case CreateBind(m) => m.status == Active
    case CreateWrite(m) => m.status == Active
    case FreshRevoke(m, _) => MandateId(m.id) in revoked
    case RevokeWrite(m, _, _) => MandateId(m.id) in revoked
    case _ => true
  }

  lemma StepRecorded(cfg: Config, s: State, a: Act)
    requires Recorded(s)
    ensures Recorded(Step(cfg, s, a))
  {
    if a.Advance? && a.client in s.clients {
      NextRecorded(cfg, s, a.client, a.bound, a.freshId);
    }
  }

  /** Writing a row that is not revoked, or whose id is recorded, keeps the rows recorded. */
  lemma RowWrittenRecorded(rows: Rows, revoked: set<RevocationId>, m: Mandate)
    requires forall id :: id in rows && rows[id].status == RevokedStatus ==> MandateId(id) in revoked
    requires m.status == RevokedStatus ==> MandateId(m.id) in revoked
    ensures var after := rows[m.id := m];
            forall id :: id in after && after[id].status == RevokedStatus ==> MandateId(id) in revoked
  {
  }

  lemma RowsRecorded(cfg: Config, s: State, c: nat, bound: bool, freshId: string)
    requires Recorded(s) && c in s.clients
    ensures var t := Next(cfg, s, c, bound, freshId);
            forall id :: id in t.rows && t.rows[id].status == RevokedStatus ==> MandateId(id) in t.revoked
  {
    assert RecordedClient(s.revoked, s.clients[c]);
    match s.clients[c]
    case CreateWrite(m) => RowWrittenRecorded(s.rows, s.revoked, m);
    case FreshExpire(m) => RowWrittenRecorded(s.rows, s.revoked, MarkExpired(m));
    case FreshRevoke(m, now) =>
      RowWrittenRecorded(s.rows, s.revoked, MarkRevoked(m, now, Some("revocation_id_revoked")));
    case RevokeWrite(m, note, now) =>
      RowWrittenRecorded(s.rows, s.revoked, MarkRevoked(m, now, if note == "" then None else Some(note)));
    case _ =>
  }

  lemma ClientRecorded(cfg: Config, s: State, c: nat, bound: bool, freshId: string)
    requires c in s.clients && RecordedClient(s.revoked, s.clients[c])
    ensures var t := Next(cfg, s, c, bound, freshId);
            c in t.clients && RecordedClient(t.revoked, t.clients[c])
  {
    if Reads(s.clients[c]) {
      ReadMoves(cfg, s, c, bound, freshId);
    }
  }

  /** A call moves its own client only, and no call takes a revocation back. */
  lemma OnlyOneMoves(cfg: Config, s: State, c: nat, bound: bool, freshId: string)
    requires c in s.clients
    ensures var t := Next(cfg, s, c, bound, freshId);
            && s.revoked <= t.revoked
            && forall d :: d in t.clients && d != c ==> d in s.clients && t.clients[d] == s.clients[d]
  {
    if Reads(s.clients[c]) {
      ReadMoves(cfg, s, c, bound, freshId);
    }
  }

  /** A call that only reads changes nothing but its own client. */
  lemma ReadMoves(cfg: Config, s: State, c: nat, bound: bool, freshId: string)
    requires c in s.clients && Reads(s.clients[c])
    ensures var t := Next(cfg, s, c, bound, freshId);
            c in t.clients && t == Goto(s, c, t.clients[c])
  {
  }

  lemma NextRecorded(cfg: Config, s: State, c: nat, bound: bool, freshId: string)
    requires Recorded(s) && c in s.clients
    ensures Recorded(Next(cfg, s, c, bound, freshId))
  {
    assert RecordedClient(s.revoked, s.clients[c]);
    RowsRecorded(cfg, s, c, bound, freshId);
    ClientRecorded(cfg, s, c, bound, freshId);
    OnlyOneMoves(cfg, s, c, bound, freshId);
    var t := Next(cfg, s, c, bound, freshId);
    forall d | d in t.clients
      ensures RecordedClient(t.revoked, t.clients[d])
    {
      if d != c {
        assert RecordedClient(s.revoked, s.clients[d]);
      }
    }
  }

  lemma {:induction false} RunRecorded(cfg: Config, clock: int, acts: seq<Act>)
    ensures Recorded(Run(cfg, Init(clock), acts))
  {
    if acts == [] {
    } else {
      var front := acts[..|acts| - 1];
      RunRecorded(cfg, clock, front);
      StepRecorded(cfg, Run(cfg, Init(clock), front), acts[|acts| - 1]);
    }
  }

  /** In every reachable state, a mandate stored as REVOKED has its id recorded, and no token under it verifies. */
  lemma RevokedStatusMeansDeadTokens(
    cfg: Config, clock: int, acts: seq<Act>, id: string, i: nat, caller: string, op: Kind, resource: string, now: int)
    requires var s := Run(cfg, Init(clock), acts);
             && id in s.rows && s.rows[id].status == RevokedStatus
             && i < |s.tokens| && s.tokens[i].authority.mandate == Some(id)
    ensures var s := Run(cfg, Init(clock), acts);
            MandateId(id) in s.revoked && !Verify(s.tokens[i], s.revoked, caller, op, resource, now).Ok?
  {
    RunRecorded(cfg, clock, acts);
    RevokedMandateKillsEveryToken(cfg, clock, acts, [], id, i, caller, op, resource, now);
  }

  // ---- A token that outlives its mandate ---------------------------------------------------

  ghost predicate Reachable(cfg: Config, clock: int, s: State) {
    exists acts :: Run(cfg, Init(clock), acts) == s
  }

  lemma Reaches(cfg: Config, clock: int, s: State, a: Act)
    requires Reachable(cfg, clock, s)
    ensures Reachable(cfg, clock, Step(cfg, s, a))
  {
    var acts :| Run(cfg, Init(clock), acts) == s;
    var longer := acts + [a];
    assert longer[..|longer| - 1] == acts;
    assert Run(cfg, Init(clock), longer) == Step(cfg, s, a);
  }

  /** A mandate asked for at `clock`, to end `life` seconds later. */
  datatype Wish = Wish(id: string, subject: string, agent: string, scope: Scope, clock: int, life: nat)

  predicate Grantable(cfg: Config, w: Wish) {
    && ValidRef(w.subject, "user") && ValidRef(w.agent, "agent") && w.scope != {}
    && 0 < w.life <= cfg.maxLife && 0 < cfg.defaultMaxTtl && 0 < cfg.defaultTtl
  }

  function Granted(cfg: Config, w: Wish): Mandate {
    Mandate(w.id, w.subject, w.agent, w.scope, w.clock, w.clock + w.life, cfg.defaultMaxTtl, w.subject, Active,
            None, None)
  }

  function Asking(w: Wish): Purpose {
    IssueFor(w.agent, w.scope, None)
  }

  /** The mandate is stored; client 1, if any, is issuing under it. */
  function Holding(cfg: Config, w: Wish, clock: int, clients: map<nat, Client>): State {
    State(clock, map[w.id := Granted(cfg, w)], {}, clients, [], map[], 0)
  }

  /** Nothing is stored yet; client 0 is creating the mandate. */
  function Creating(w: Wish, c: Client): State {
    State(w.clock, map[], {}, map[0 := c], [], map[], 0)
  }

  lemma ReachesDraft(cfg: Config, w: Wish)
    requires Grantable(cfg, w)
    ensures Reachable(cfg, w.clock, Creating(w, CreateBind(Granted(cfg, w))))
  {
    var s0 := Init(w.clock);
    assert Run(cfg, s0, []) == s0;
    var start := CreateStart(w.subject, w.agent, w.scope, w.clock + w.life, w.subject, None);
    assert Step(cfg, s0, Spawn(0, start)) == Creating(w, start);
    Reaches(cfg, w.clock, s0, Spawn(0, start));
    assert Draft(cfg, Creating(w, start), start, w.id) == Some(Granted(cfg, w));
    assert Step(cfg, Creating(w, start), Advance(0, true, w.id)) == Creating(w, CreateBind(Granted(cfg, w)));
    Reaches(cfg, w.clock, Creating(w, start), Advance(0, true, w.id));
  }

  lemma ReachesGranted(cfg: Config, w: Wish)
    requires Grantable(cfg, w)
    ensures Reachable(cfg, w.clock, Holding(cfg, w, w.clock, map[0 := Finished]))
  {
    var m := Granted(cfg, w);
    ReachesDraft(cfg, w);
    assert Step(cfg, Creating(w, CreateBind(m)), Advance(0, true, "")) == Creating(w, CreateWrite(m));
    Reaches(cfg, w.clock, Creating(w, CreateBind(m)), Advance(0, true, ""));
    assert Step(cfg, Creating(w, CreateWrite(m)), Advance(0, true, "")) == Holding(cfg, w, w.clock, map[0 := Finished]);
    Reaches(cfg, w.clock, Creating(w, CreateWrite(m)), Advance(0, true, ""));
  }

  lemma HoldingSteps(cfg: Config, w: Wish, clock: int, before: Client, after: Client)
    requires Reachable(cfg, w.clock, Holding(cfg, w, clock, map[0 := Finished, 1 := before]))
    requires var s := Holding(cfg, w, clock, map[0 := Finished, 1 := before]);
             Next(cfg, s, 1, true, "") == Goto(s, 1, after)
    ensures Reachable(cfg, w.clock, Holding(cfg, w, clock, map[0 := Finished, 1 := after]))
  {
    var s := Holding(cfg, w, clock, map[0 := Finished, 1 := before]);
    assert Goto(s, 1, after) == Holding(cfg, w, clock, map[0 := Finished, 1 := after]);
    Reaches(cfg, w.clock, s, Advance(1, true, ""));
  }

  lemma ReachesFetch(cfg: Config, w: Wish)
    requires Grantable(cfg, w)
    ensures Reachable(cfg, w.clock, Holding(cfg, w, w.clock, map[0 := Finished, 1 := Fetch(w.id, Asking(w))]))
  {
    var s := Holding(cfg, w, w.clock, map[0 := Finished]);
    ReachesGranted(cfg, w);
    assert Step(cfg, s, Spawn(1, Fetch(w.id, Asking(w))))
        == Holding(cfg, w, w.clock, map[0 := Finished, 1 := Fetch(w.id, Asking(w))]);
    Reaches(cfg, w.clock, s, Spawn(1, Fetch(w.id, Asking(w))));
  }

  /** The steps of an issue in time, up to the clock read for the clamp. */
  lemma IssueSteps(cfg: Config, w: Wish, c: Client)
    requires Grantable(cfg, w)
    requires var m, p := Granted(cfg, w), Asking(w);
             c == Fetch(w.id, p) || c == FreshClock(m, p) || c == FreshAsk(m, p, w.clock) || c == IssueBind(m, p)
    ensures var m, p := Granted(cfg, w), Asking(w);
            var s := Holding(cfg, w, w.clock, map[0 := Finished, 1 := c]);
            Next(cfg, s, 1, true, "") == Goto(s, 1,
              if c.Fetch? then FreshClock(m, p)
              else if c.FreshClock? then FreshAsk(m, p, w.clock)
              else if c.FreshAsk? then IssueBind(m, p)
              else IssueClamp(m, p))
  {
    SubsetReflexive(w.scope);
  }

  /** The issue has passed every check in time, and is about to read the clock for the clamp. */
  lemma ReachesClamp(cfg: Config, w: Wish)
    requires Grantable(cfg, w)
    ensures Reachable(cfg, w.clock,
                      Holding(cfg, w, w.clock, map[0 := Finished, 1 := IssueClamp(Granted(cfg, w), Asking(w))]))
  {
    var m, p := Granted(cfg, w), Asking(w);
    ReachesFetch(cfg, w);
    IssueSteps(cfg, w, Fetch(w.id, p));
    HoldingSteps(cfg, w, w.clock, Fetch(w.id, p), FreshClock(m, p));
    IssueSteps(cfg, w, FreshClock(m, p));
    HoldingSteps(cfg, w, w.clock, FreshClock(m, p), FreshAsk(m, p, w.clock));
    IssueSteps(cfg, w, FreshAsk(m, p, w.clock));
    HoldingSteps(cfg, w, w.clock, FreshAsk(m, p, w.clock), IssueBind(m, p));
    IssueSteps(cfg, w, IssueBind(m, p));
    HoldingSteps(cfg, w, w.clock, IssueBind(m, p), IssueClamp(m, p));
  }

  /**
   * The expiry bound does fail: for every mandate that can be granted, an issue that passed its checks in time and
   * reads the clock for the clamp at the very instant of expiry mints a token that lives a whole default lifetime on.
   */
  lemma ZeroClampOutlivesMandate(cfg: Config, w: Wish) returns (s: State)
    requires Grantable(cfg, w)
    ensures Reachable(cfg, w.clock, s)
    ensures w.id in s.rows && s.rows[w.id].expiresAt == w.clock + w.life == s.clock
    ensures |s.tokens| == 1 && s.tokens[0].authority.mandate == Some(w.id)
    ensures s.tokens[0].authority.expiresAt == s.rows[w.id].expiresAt + cfg.defaultTtl > s.rows[w.id].expiresAt
  {
    var m, p, end := Granted(cfg, w), Asking(w), w.clock + w.life;
    ReachesClamp(cfg, w);
    var held := map[0 := Finished, 1 := IssueClamp(m, p)];
    Reaches(cfg, w.clock, Holding(cfg, w, w.clock, held), Tick(w.life));
    HoldingSteps(cfg, w, end, IssueClamp(m, p), IssueMint(m, p, end));
    var ready := Holding(cfg, w, end, map[0 := Finished, 1 := IssueMint(m, p, end)]);
    Reaches(cfg, w.clock, ready, Advance(1, true, ""));
    s := Step(cfg, ready, Advance(1, true, ""));
    assert s == MintToken(cfg, ready, 1, m, p, end);
    MintsAtExpiry(cfg, w, ready);
  }

  lemma MintsAtExpiry(cfg: Config, w: Wish, ready: State)
    requires Grantable(cfg, w) && ready.clock == w.clock + w.life && ready.tokens == []
    ensures var s := MintToken(cfg, ready, 1, Granted(cfg, w), Asking(w), ready.clock);
            && s.rows == ready.rows && s.clock == ready.clock
            && |s.tokens| == 1 && s.tokens[0].authority.mandate == Some(w.id)
            && s.tokens[0].authority.expiresAt == ready.clock + cfg.defaultTtl
  {
    ChainFaultNone(w.subject, w.agent, [], w.scope);
    assert Clamp(Granted(cfg, w), None, ready.clock) == 0;
  }
}
