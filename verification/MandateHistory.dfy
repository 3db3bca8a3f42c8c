/** What must have happened, in every run, before a mandate, a token or a revocation is there. */
module MandateHistory {
  import opened Wrappers
  import opened Refs
  import opened Scopes
  import opened Chains
  import opened Tokens
  import opened TokenService
  import opened Mandates

  // ---- Milestones --------------------------------------------------------------------------

  /** A step of one client that a later effect rests on. */
  datatype Milestone =
    | Drafted(m: Mandate)
    | CreateBound(m: Mandate)
    | InDate(m: Mandate)
    | Free(m: Mandate, p: Purpose)
    | IssueBound(m: Mandate, p: Purpose)
    | RevokeAsked(id: string)

  /** The subject asked for this very mandate, in time and for a while that is allowed. */
  predicate AskedFor(cfg: Config, s: State, c: Client, freshId: string, m: Mandate) {
    && c.CreateStart? && c.subject == m.subject == c.createdBy == m.createdBy && c.agent == m.agent
    && ValidRef(m.subject, "user") && ValidRef(m.agent, "agent")
    && c.wanted == m.scope != {} && c.until == m.expiresAt && m.createdAt == s.clock && m.id == freshId
    && m.createdAt < m.expiresAt <= m.createdAt + cfg.maxLife
    && m.maxTtl == (if c.maxTtl == None || c.maxTtl == Some(0) then cfg.defaultMaxTtl else c.maxTtl.value) > 0
    && m.status == Active && m.revokedAt == None && m.reason == None
  }

  /** Client `c` of `s` passes the milestone with the answer `bound` and the identifier `freshId`. */
  predicate Passes(cfg: Config, s: State, c: Client, bound: bool, freshId: string, g: Milestone) {
    match g
    case Drafted(m) => AskedFor(cfg, s, c, freshId, m)
    case CreateBound(m) => c == CreateBind(m) && bound
    case InDate(m) => c.FreshClock? && c.copy == m && m.status == Active && s.clock < m.expiresAt
    case Free(m, p) =>
      && c.FreshAsk? && c.copy == m && c.purpose == p && MandateId(m.id) !in s.revoked
      && p.IssueFor? && p.caller == m.agent && SubsetOf(p.scope, m.scope)
    case IssueBound(m, p) => c == IssueBind(m, p) && bound
    case RevokeAsked(id) => c.RevokeFetch? && c.id == id && id in s.rows && c.caller == s.rows[id].subject
  }

  ghost predicate PassedAt(cfg: Config, clock: int, acts: seq<Act>, n: nat, c: nat, g: Milestone) {
    && n < |acts| && acts[n].Advance? && acts[n].client == c
    && var s := Run(cfg, Init(clock), acts[..n]);
       c in s.clients && Passes(cfg, s, s.clients[c], acts[n].bound, acts[n].freshId, g)
  }

  ghost predicate Passed(cfg: Config, clock: int, acts: seq<Act>, c: nat, g: Milestone) {
    exists n: nat :: PassedAt(cfg, clock, acts, n, c, g)
  }

  lemma PassedGrows(cfg: Config, clock: int, acts: seq<Act>, more: seq<Act>, c: nat, g: Milestone)
    requires acts <= more && Passed(cfg, clock, acts, c, g)
    ensures Passed(cfg, clock, more, c, g)
  {
    var n: nat :| PassedAt(cfg, clock, acts, n, c, g);
    assert acts[..n] == more[..n];
    assert PassedAt(cfg, clock, more, n, c, g);
  }

  // ---- What rests on them ------------------------------------------------------------------

  ghost predicate ClientPassed(cfg: Config, clock: int, acts: seq<Act>, c: nat, client: Client) {
    match client
    case CreateBind(m) => Passed(cfg, clock, acts, c, Drafted(m))
    case CreateWrite(m) => Created(cfg, clock, acts, c, m)
    case FreshClock(m, p) => m.status == Active
    case FreshAsk(m, p, _) => Passed(cfg, clock, acts, c, InDate(m))
    case IssueBind(m, p) => Passed(cfg, clock, acts, c, InDate(m)) && Passed(cfg, clock, acts, c, Free(m, p))
    case IssueClamp(m, p) => MayIssue(cfg, clock, acts, c, m, p)
    case IssueMint(m, p, _) => MayIssue(cfg, clock, acts, c, m, p)
    case RevokeId(m, _) => Passed(cfg, clock, acts, c, RevokeAsked(m.id))
    case _ => true
  }

  /** The subject asked for the mandate and the engine confirmed the binding. */
  ghost predicate Created(cfg: Config, clock: int, acts: seq<Act>, c: nat, m: Mandate) {
    Passed(cfg, clock, acts, c, Drafted(m)) && Passed(cfg, clock, acts, c, CreateBound(m))
  }

  /** The mandate was active, in date and not revoked, its agent asked within its scope, and the binding held. */
  ghost predicate MayIssue(cfg: Config, clock: int, acts: seq<Act>, c: nat, m: Mandate, p: Purpose) {
    && Passed(cfg, clock, acts, c, InDate(m))
    && Passed(cfg, clock, acts, c, Free(m, p))
    && Passed(cfg, clock, acts, c, IssueBound(m, p))
  }

  ghost predicate RowCreated(cfg: Config, clock: int, acts: seq<Act>, row: Mandate) {
    exists c: nat, m: Mandate :: Created(cfg, clock, acts, c, m) && SameTerms(m, row)
  }

  ghost predicate AuthorityIssued(cfg: Config, clock: int, acts: seq<Act>, a: Authority) {
    exists c: nat, m: Mandate, p: Purpose ::
      && MayIssue(cfg, clock, acts, c, m, p) && p.IssueFor?
      && a.mandate == Some(m.id) && a.subject == m.subject && a.actor == m.agent && a.caps == Facts(p.scope)
  }

  ghost predicate IdRevoked(cfg: Config, clock: int, acts: seq<Act>, id: string) {
    exists c: nat :: Passed(cfg, clock, acts, c, RevokeAsked(id))
  }

  ghost predicate ClientsStand(cfg: Config, clock: int, acts: seq<Act>, clients: map<nat, Client>) {
    forall c :: c in clients ==> ClientPassed(cfg, clock, acts, c, clients[c])
  }

  ghost predicate RowsStand(cfg: Config, clock: int, acts: seq<Act>, rows: Rows) {
    forall id :: id in rows ==> RowCreated(cfg, clock, acts, rows[id])
  }

  ghost predicate TokensStand(cfg: Config, clock: int, acts: seq<Act>, tokens: seq<Biscuit>) {
    forall i :: 0 <= i < |tokens| ==> AuthorityIssued(cfg, clock, acts, tokens[i].authority)
  }

  ghost predicate RevocationsStand(cfg: Config, clock: int, acts: seq<Act>, revoked: set<RevocationId>) {
    forall id :: MandateId(id) in revoked ==> IdRevoked(cfg, clock, acts, id)
  }

  ghost predicate Grounded(cfg: Config, clock: int, acts: seq<Act>, s: State) {
    && ClientsStand(cfg, clock, acts, s.clients)
    && RowsStand(cfg, clock, acts, s.rows)
    && TokensStand(cfg, clock, acts, s.tokens)
    && RevocationsStand(cfg, clock, acts, s.revoked)
  }

  lemma ClientPassedGrows(cfg: Config, clock: int, acts: seq<Act>, more: seq<Act>, c: nat, client: Client)
    requires acts <= more && ClientPassed(cfg, clock, acts, c, client)
    ensures ClientPassed(cfg, clock, more, c, client)
  {
    match client
    case CreateBind(m) => PassedGrows(cfg, clock, acts, more, c, Drafted(m));
    case CreateWrite(m) => CreatedGrows(cfg, clock, acts, more, c, m);
    case FreshAsk(m, p, _) => PassedGrows(cfg, clock, acts, more, c, InDate(m));
    case IssueBind(m, p) =>
      PassedGrows(cfg, clock, acts, more, c, InDate(m));
      PassedGrows(cfg, clock, acts, more, c, Free(m, p));
    case IssueClamp(m, p) => MayIssueGrows(cfg, clock, acts, more, c, m, p);
    case IssueMint(m, p, _) => MayIssueGrows(cfg, clock, acts, more, c, m, p);
    case RevokeId(m, _) => PassedGrows(cfg, clock, acts, more, c, RevokeAsked(m.id));
    case _ =>
  }

  lemma CreatedGrows(cfg: Config, clock: int, acts: seq<Act>, more: seq<Act>, c: nat, m: Mandate)
    requires acts <= more && Created(cfg, clock, acts, c, m)
    ensures Created(cfg, clock, more, c, m)
  {
    PassedGrows(cfg, clock, acts, more, c, Drafted(m));
    PassedGrows(cfg, clock, acts, more, c, CreateBound(m));
  }

  lemma MayIssueGrows(cfg: Config, clock: int, acts: seq<Act>, more: seq<Act>, c: nat, m: Mandate, p: Purpose)
    requires acts <= more && MayIssue(cfg, clock, acts, c, m, p)
    ensures MayIssue(cfg, clock, more, c, m, p)
  {
    PassedGrows(cfg, clock, acts, more, c, InDate(m));
    PassedGrows(cfg, clock, acts, more, c, Free(m, p));
    PassedGrows(cfg, clock, acts, more, c, IssueBound(m, p));
  }

  lemma RowCreatedGrows(cfg: Config, clock: int, acts: seq<Act>, more: seq<Act>, row: Mandate, later: Mandate)
    requires acts <= more && RowCreated(cfg, clock, acts, row) && SameTerms(row, later)
    ensures RowCreated(cfg, clock, more, later)
  {
    var c: nat, m: Mandate :| Created(cfg, clock, acts, c, m) && SameTerms(m, row);
    CreatedGrows(cfg, clock, acts, more, c, m);
    assert SameTerms(m, later);
  }

  lemma AuthorityIssuedGrows(cfg: Config, clock: int, acts: seq<Act>, more: seq<Act>, a: Authority)
    requires acts <= more && AuthorityIssued(cfg, clock, acts, a)
    ensures AuthorityIssued(cfg, clock, more, a)
  {
    var c: nat, m: Mandate, p: Purpose :|
      && MayIssue(cfg, clock, acts, c, m, p) && p.IssueFor?
      && a.mandate == Some(m.id) && a.subject == m.subject && a.actor == m.agent && a.caps == Facts(p.scope);
    MayIssueGrows(cfg, clock, acts, more, c, m, p);
  }

  lemma IdRevokedGrows(cfg: Config, clock: int, acts: seq<Act>, more: seq<Act>, id: string)
    requires acts <= more && IdRevoked(cfg, clock, acts, id)
    ensures IdRevoked(cfg, clock, more, id)
  {
    var c: nat :| Passed(cfg, clock, acts, c, RevokeAsked(id));
    PassedGrows(cfg, clock, acts, more, c, RevokeAsked(id));
  }

  // ---- One step ----------------------------------------------------------------------------

  /** The last step of the run passes the milestone. */
  lemma PassesNow(cfg: Config, clock: int, acts: seq<Act>, a: Act, c: nat, g: Milestone)
    requires a.Advance? && a.client == c
    requires var s := Run(cfg, Init(clock), acts);
             c in s.clients && Passes(cfg, s, s.clients[c], a.bound, a.freshId, g)
    ensures Passed(cfg, clock, acts + [a], c, g)
  {
    var more := acts + [a];
    assert more[..|acts|] == acts;
    assert PassedAt(cfg, clock, more, |acts|, c, g);
  }

  /** The client's step, in a state whose clients all stand on what they passed. */
  ghost predicate Moves(cfg: Config, clock: int, acts: seq<Act>, a: Act, s: State) {
    && s == Run(cfg, Init(clock), acts) && Inv(cfg, s) && a.Advance? && a.client in s.clients
    && ClientPassed(cfg, clock, acts, a.client, s.clients[a.client])
  }

  lemma CreatePasses(cfg: Config, clock: int, acts: seq<Act>, a: Act, s: State)
    requires Moves(cfg, clock, acts, a, s) && (s.clients[a.client].CreateStart? || s.clients[a.client].CreateBind?)
    ensures var t := Next(cfg, s, a.client, a.bound, a.freshId);
            a.client in t.clients && ClientPassed(cfg, clock, acts + [a], a.client, t.clients[a.client])
  {
    var c, next := a.client, Next(cfg, s, a.client, a.bound, a.freshId).clients[a.client];
    if next.CreateBind? {
      PassesNow(cfg, clock, acts, a, c, Drafted(next.draft));
    } else if next.CreateWrite? {
      PassedGrows(cfg, clock, acts, acts + [a], c, Drafted(next.draft));
      PassesNow(cfg, clock, acts, a, c, CreateBound(next.draft));
    }
  }

  lemma FreshClockPasses(cfg: Config, clock: int, acts: seq<Act>, a: Act, s: State)
    requires Moves(cfg, clock, acts, a, s) && s.clients[a.client].FreshClock?
    ensures var t := Next(cfg, s, a.client, a.bound, a.freshId);
            a.client in t.clients && ClientPassed(cfg, clock, acts + [a], a.client, t.clients[a.client])
  {
    var FreshClock(m, p) := s.clients[a.client];
    if s.clock < m.expiresAt {
      PassesNow(cfg, clock, acts, a, a.client, InDate(m));
    }
  }

  lemma FreshAskPasses(cfg: Config, clock: int, acts: seq<Act>, a: Act, s: State)
    requires Moves(cfg, clock, acts, a, s) && s.clients[a.client].FreshAsk?
    ensures var t := Next(cfg, s, a.client, a.bound, a.freshId);
            a.client in t.clients && ClientPassed(cfg, clock, acts + [a], a.client, t.clients[a.client])
  {
    var FreshAsk(m, p, now) := s.clients[a.client];
    var next := Next(cfg, s, a.client, a.bound, a.freshId).clients[a.client];
    assert next.FreshRevoke? || next.Finished? || next == IssueBind(m, p);
    if next == IssueBind(m, p) {
      PassedGrows(cfg, clock, acts, acts + [a], a.client, InDate(m));
      PassesNow(cfg, clock, acts, a, a.client, Free(m, p));
    }
  }

  lemma IssuePasses(cfg: Config, clock: int, acts: seq<Act>, a: Act, s: State)
    requires Moves(cfg, clock, acts, a, s) && (s.clients[a.client].IssueBind? || s.clients[a.client].IssueClamp?)
    ensures var t := Next(cfg, s, a.client, a.bound, a.freshId);
            a.client in t.clients && ClientPassed(cfg, clock, acts + [a], a.client, t.clients[a.client])
  {
    var c, client := a.client, s.clients[a.client];
    var next := Next(cfg, s, a.client, a.bound, a.freshId).clients[a.client];
    ClientPassedGrows(cfg, clock, acts, acts + [a], c, client);
    if next.IssueClamp? {
      PassesNow(cfg, clock, acts, a, c, IssueBound(next.copy, next.purpose));
    }
  }

  lemma RevokePasses(cfg: Config, clock: int, acts: seq<Act>, a: Act, s: State)
    requires Moves(cfg, clock, acts, a, s) && s.clients[a.client].RevokeFetch?
    ensures var t := Next(cfg, s, a.client, a.bound, a.freshId);
            a.client in t.clients && ClientPassed(cfg, clock, acts + [a], a.client, t.clients[a.client])
  {
    var c, next := a.client, Next(cfg, s, a.client, a.bound, a.freshId).clients[a.client];
    if next.RevokeId? {
      PassesNow(cfg, clock, acts, a, c, RevokeAsked(next.copy.id));
    }
  }

  /** A call that writes is the client's last, but for the one that records a revocation. */
  lemma WritesThenEnds(cfg: Config, s: State, c: nat, bound: bool, freshId: string)
    requires c in s.clients && !Reads(s.clients[c])
    ensures var t := Next(cfg, s, c, bound, freshId);
            c in t.clients && (t.clients[c].Finished? || t.clients[c].RevokeWrite?)
  {
  }

  lemma FetchFindsActive(cfg: Config, s: State, c: nat, bound: bool, freshId: string)
    requires c in s.clients && (s.clients[c].Fetch? || s.clients[c].SweepClock?)
    ensures var t := Next(cfg, s, c, bound, freshId);
            && c in t.clients
            && (t.clients[c].Finished? || t.clients[c].SweepWrite?
                || (t.clients[c].FreshClock? && t.clients[c].copy.status == Active))
  {
  }

  lemma OtherPasses(cfg: Config, clock: int, acts: seq<Act>, a: Act, s: State)
    requires Moves(cfg, clock, acts, a, s)
    requires var k := s.clients[a.client];
             !Reads(k) || k.Fetch? || k.SweepClock?
    ensures var t := Next(cfg, s, a.client, a.bound, a.freshId);
            a.client in t.clients && ClientPassed(cfg, clock, acts + [a], a.client, t.clients[a.client])
  {
    if Reads(s.clients[a.client]) {
      FetchFindsActive(cfg, s, a.client, a.bound, a.freshId);
    } else {
      WritesThenEnds(cfg, s, a.client, a.bound, a.freshId);
    }
  }

  lemma MoverPasses(cfg: Config, clock: int, acts: seq<Act>, a: Act, s: State)
    requires Moves(cfg, clock, acts, a, s)
    ensures var t := Next(cfg, s, a.client, a.bound, a.freshId);
            a.client in t.clients && ClientPassed(cfg, clock, acts + [a], a.client, t.clients[a.client])
  {
    var k := s.clients[a.client];
    if k.CreateStart? || k.CreateBind? {
      CreatePasses(cfg, clock, acts, a, s);
    } else if k.FreshClock? {
      FreshClockPasses(cfg, clock, acts, a, s);
    } else if k.FreshAsk? {
      FreshAskPasses(cfg, clock, acts, a, s);
    } else if k.IssueBind? || k.IssueClamp? {
      IssuePasses(cfg, clock, acts, a, s);
    } else if k.RevokeFetch? {
      RevokePasses(cfg, clock, acts, a, s);
    } else {
      OtherPasses(cfg, clock, acts, a, s);
    }
  }

  /** A client that did not take the step is new, done, or where it was. */
  lemma Bystander(cfg: Config, s: State, a: Act, c: nat)
    requires c in Step(cfg, s, a).clients && !(a.Advance? && a.client == c)
    ensures var t := Step(cfg, s, a);
            (c in s.clients && t.clients[c] == s.clients[c]) || IsStart(t.clients[c]) || t.clients[c].Finished?
  {
    if a.Advance? && a.client in s.clients {
      OnlyOneMoves(cfg, s, a.client, a.bound, a.freshId);
    }
  }

  /** Every client stands on what it passed, after one more step. */
  lemma ClientsGrounded(cfg: Config, clock: int, acts: seq<Act>, a: Act, s: State)
    requires s == Run(cfg, Init(clock), acts) && Inv(cfg, s) && ClientsStand(cfg, clock, acts, s.clients)
    ensures ClientsStand(cfg, clock, acts + [a], Step(cfg, s, a).clients)
  {
    var t := Step(cfg, s, a);
    forall c | c in t.clients
      ensures ClientPassed(cfg, clock, acts + [a], c, t.clients[c])
    {
      if a.Advance? && a.client == c {
        MoverGrounded(cfg, clock, acts, a, s);
      } else {
        Bystander(cfg, s, a, c);
        if c in s.clients && t.clients[c] == s.clients[c] {
          ClientPassedGrows(cfg, clock, acts, acts + [a], c, s.clients[c]);
        }
      }
    }
  }

  lemma MoverGrounded(cfg: Config, clock: int, acts: seq<Act>, a: Act, s: State)
    requires s == Run(cfg, Init(clock), acts) && Inv(cfg, s) && ClientsStand(cfg, clock, acts, s.clients)
    requires a.Advance? && a.client in Step(cfg, s, a).clients
    ensures ClientPassed(cfg, clock, acts + [a], a.client, Step(cfg, s, a).clients[a.client])
  {
    if a.client in s.clients {
      assert ClientPassed(cfg, clock, acts, a.client, s.clients[a.client]);
      MoverPasses(cfg, clock, acts, a, s);
    }
  }

  /** A row is as it was but for its status, or it is the one that its creator writes. */
  lemma RowComesFrom(cfg: Config, s: State, a: Act, id: string)
    requires Inv(cfg, s) && id in Step(cfg, s, a).rows
    ensures var t := Step(cfg, s, a);
            || (id in s.rows && SameTerms(s.rows[id], t.rows[id]))
            || (a.Advance? && a.client in s.clients && s.clients[a.client] == CreateWrite(t.rows[id]))
  {
    if id in s.rows {
      assert Evolves(s, Step(cfg, s, a)) by {
        StepKeeps(cfg, s, a);
      }
    } else if a.Advance? && a.client in s.clients {
      OnlyCreateAdds(cfg, s, a.client, a.bound, a.freshId, id);
    }
  }

  lemma OnlyCreateAdds(cfg: Config, s: State, c: nat, bound: bool, freshId: string, id: string)
    requires c in s.clients && id !in s.rows && id in Next(cfg, s, c, bound, freshId).rows
    ensures s.clients[c] == CreateWrite(Next(cfg, s, c, bound, freshId).rows[id])
  {
    if Reads(s.clients[c]) {
      ReadMoves(cfg, s, c, bound, freshId);
    }
  }

  lemma RowsGrounded(cfg: Config, clock: int, acts: seq<Act>, a: Act, s: State)
    requires Inv(cfg, s) && ClientsStand(cfg, clock, acts, s.clients) && RowsStand(cfg, clock, acts, s.rows)
    ensures RowsStand(cfg, clock, acts + [a], Step(cfg, s, a).rows)
  {
    var t := Step(cfg, s, a);
    forall id | id in t.rows
      ensures RowCreated(cfg, clock, acts + [a], t.rows[id])
    {
      RowComesFrom(cfg, s, a, id);
      if id in s.rows && SameTerms(s.rows[id], t.rows[id]) {
        RowCreatedGrows(cfg, clock, acts, acts + [a], s.rows[id], t.rows[id]);
      } else {
        assert ClientPassed(cfg, clock, acts, a.client, s.clients[a.client]);
        CreatedGrows(cfg, clock, acts, acts + [a], a.client, t.rows[id]);
        assert SameTerms(t.rows[id], t.rows[id]);
      }
    }
  }

  /** A new token has an old one's authority, or the one that an issue at its last step signs. */
  lemma TokenComesFrom(cfg: Config, s: State, a: Act, i: nat)
    requires i < |Step(cfg, s, a).tokens|
    ensures var t := Step(cfg, s, a);
            || (exists j :: 0 <= j < |s.tokens| && t.tokens[i].authority == s.tokens[j].authority)
            || (&& a.Advance? && a.client in s.clients && s.clients[a.client].IssueMint?
                && s.clients[a.client].purpose.IssueFor?
                && var m, p, b := s.clients[a.client].copy, s.clients[a.client].purpose, t.tokens[i].authority;
                   b.mandate == Some(m.id) && b.subject == m.subject && b.actor == m.agent && b.caps == Facts(p.scope))
  {
    var t := Step(cfg, s, a);
    if a.Advance? && a.client in s.clients {
      OnlyMintSigns(cfg, s, a.client, a.bound, a.freshId);
    }
    if i < |s.tokens| {
      assert t.tokens[i].authority == s.tokens[i].authority;
    } else if !a.Advance? {
      assert t.tokens[i].authority == s.tokens[a.parent].authority;
    }
  }

  /** Only the last step of an issue signs a token, for the mandate it holds and the scope that was asked. */
  lemma OnlyMintSigns(cfg: Config, s: State, c: nat, bound: bool, freshId: string)
    requires c in s.clients
    ensures var t, client := Next(cfg, s, c, bound, freshId), s.clients[c];
            || t.tokens == s.tokens
            || (&& client.IssueMint? && client.purpose.IssueFor?
                && |t.tokens| == |s.tokens| + 1 && t.tokens[..|s.tokens|] == s.tokens
                && var a := t.tokens[|s.tokens|].authority;
                   && a.mandate == Some(client.copy.id) && a.subject == client.copy.subject
                   && a.actor == client.copy.agent && a.caps == Facts(client.purpose.scope))
  {
    if Reads(s.clients[c]) {
      ReadMoves(cfg, s, c, bound, freshId);
    } else if s.clients[c].IssueMint? && s.clients[c].purpose.IssueFor? {
      MintSigns(cfg, s, c, s.clients[c].copy, s.clients[c].purpose, s.clients[c].now);
    }
  }

  lemma MintSigns(cfg: Config, s: State, c: nat, m: Mandate, p: Purpose, clampedAt: int)
    requires p.IssueFor?
    ensures var t := MintToken(cfg, s, c, m, p, clampedAt);
            || t.tokens == s.tokens
            || (&& |t.tokens| == |s.tokens| + 1 && t.tokens[..|s.tokens|] == s.tokens
                && var a := t.tokens[|s.tokens|].authority;
                   && a.mandate == Some(m.id) && a.subject == m.subject && a.actor == m.agent
                   && a.caps == Facts(p.scope))
  {
  }

  lemma TokensGrounded(cfg: Config, clock: int, acts: seq<Act>, a: Act, s: State)
    requires ClientsStand(cfg, clock, acts, s.clients) && TokensStand(cfg, clock, acts, s.tokens)
    ensures TokensStand(cfg, clock, acts + [a], Step(cfg, s, a).tokens)
  {
    var t := Step(cfg, s, a);
    forall i | 0 <= i < |t.tokens|
      ensures AuthorityIssued(cfg, clock, acts + [a], t.tokens[i].authority)
    {
      TokenComesFrom(cfg, s, a, i);
      if j :| 0 <= j < |s.tokens| && t.tokens[i].authority == s.tokens[j].authority {
        AuthorityIssuedGrows(cfg, clock, acts, acts + [a], s.tokens[j].authority);
      } else {
        var client := s.clients[a.client];
        assert ClientPassed(cfg, clock, acts, a.client, client);
        MayIssueGrows(cfg, clock, acts, acts + [a], a.client, client.copy, client.purpose);
      }
    }
  }

  /** A mandate id is recorded by a revoke at its second step, and by nothing else. */
  lemma IdComesFrom(cfg: Config, s: State, a: Act, id: string)
    requires MandateId(id) in Step(cfg, s, a).revoked && MandateId(id) !in s.revoked
    ensures a.Advance? && a.client in s.clients && s.clients[a.client].RevokeId? && s.clients[a.client].copy.id == id
  {
    if a.Advance? && a.client in s.clients {
      OnlyRevokeRecords(cfg, s, a.client, a.bound, a.freshId);
    }
  }

  lemma OnlyRevokeRecords(cfg: Config, s: State, c: nat, bound: bool, freshId: string)
    requires c in s.clients
    ensures Next(cfg, s, c, bound, freshId).revoked
            == if s.clients[c].RevokeId? then s.revoked + {MandateId(s.clients[c].copy.id)} else s.revoked
  {
    if Reads(s.clients[c]) {
      ReadMoves(cfg, s, c, bound, freshId);
    }
  }

  lemma RevocationsGrounded(cfg: Config, clock: int, acts: seq<Act>, a: Act, s: State)
    requires ClientsStand(cfg, clock, acts, s.clients) && RevocationsStand(cfg, clock, acts, s.revoked)
    ensures RevocationsStand(cfg, clock, acts + [a], Step(cfg, s, a).revoked)
  {
    forall id | MandateId(id) in Step(cfg, s, a).revoked
      ensures IdRevoked(cfg, clock, acts + [a], id)
    {
      if MandateId(id) in s.revoked {
        IdRevokedGrows(cfg, clock, acts, acts + [a], id);
      } else {
        IdComesFrom(cfg, s, a, id);
        assert ClientPassed(cfg, clock, acts, a.client, s.clients[a.client]);
        PassedGrows(cfg, clock, acts, acts + [a], a.client, RevokeAsked(id));
      }
    }
  }

  /**
   * In every run: every stored mandate was asked for by its own subject, within the allowed time, and its binding was
   * confirmed; every token stands on a mandate that was found active, in date and unrevoked, on a request of its agent
   * within its scope, and on a confirmed binding; and every recorded mandate id on a request of the mandate's subject.
   */
  lemma {:induction false} NothingWithoutItsGrounds(cfg: Config, clock: int, acts: seq<Act>)
    ensures Grounded(cfg, clock, acts, Run(cfg, Init(clock), acts))
  {
    if acts == [] {
    } else {
      var front, last := acts[..|acts| - 1], acts[|acts| - 1];
      var s := Run(cfg, Init(clock), front);
      NothingWithoutItsGrounds(cfg, clock, front);
      assert Inv(cfg, s) by {
        RunKeeps(cfg, Init(clock), front);
      }
      ClientsGrounded(cfg, clock, front, last, s);
      RowsGrounded(cfg, clock, front, last, s);
      TokensGrounded(cfg, clock, front, last, s);
      RevocationsGrounded(cfg, clock, front, last, s);
      assert front + [last] == acts;
    }
  }

  // ---- Dates -------------------------------------------------------------------------------

  predicate Dated(s: State) {
    && (forall id :: id in s.rows && s.rows[id].status == ExpiredStatus ==> s.rows[id].expiresAt <= s.clock)
    && (forall c :: c in s.clients ==> ClientDated(s.clock, s.clients[c]))
  }

  predicate ClientDated(clock: int, c: Client) {
    match c
    case CreateBind(m) => m.status == Active
    case CreateWrite(m) => m.status == Active
    case FreshExpire(m) => m.expiresAt <= clock
    case SweepWrite(now) => now <= clock
    case _ => true
  }

  lemma MoverDated(cfg: Config, s: State, c: nat, bound: bool, freshId: string)
    requires c in s.clients && ClientDated(s.clock, s.clients[c])
    ensures var t := Next(cfg, s, c, bound, freshId);
            t.clock == s.clock && c in t.clients && ClientDated(t.clock, t.clients[c])
  {
    if Reads(s.clients[c]) {
      ReadMoves(cfg, s, c, bound, freshId);
    }
  }

  lemma RowsDated(cfg: Config, s: State, c: nat, bound: bool, freshId: string)
    requires Inv(cfg, s) && Dated(s) && c in s.clients
    ensures var t := Next(cfg, s, c, bound, freshId);
            forall id :: id in t.rows && t.rows[id].status == ExpiredStatus ==> t.rows[id].expiresAt <= s.clock
  {
    assert ClientDated(s.clock, s.clients[c]) && ClientOk(s, s.clients[c]);
    if Reads(s.clients[c]) {
      ReadMoves(cfg, s, c, bound, freshId);
    }
  }

  lemma StepDated(cfg: Config, s: State, a: Act)
    requires Inv(cfg, s) && Dated(s)
    ensures Dated(Step(cfg, s, a))
  {
    if a.Advance? && a.client in s.clients {
      var c, t := a.client, Step(cfg, s, a);
      RowsDated(cfg, s, c, a.bound, a.freshId);
      assert ClientDated(s.clock, s.clients[c]);
      MoverDated(cfg, s, c, a.bound, a.freshId);
      OnlyOneMoves(cfg, s, c, a.bound, a.freshId);
      forall d | d in t.clients
        ensures ClientDated(t.clock, t.clients[d])
      {
        if d != c {
          assert ClientDated(s.clock, s.clients[d]);
        }
      }
    }
  }

  lemma {:induction false} RunDated(cfg: Config, clock: int, acts: seq<Act>)
    ensures Dated(Run(cfg, Init(clock), acts))
  {
    if acts == [] {
    } else {
      var front := acts[..|acts| - 1];
      RunDated(cfg, clock, front);
      RunKeeps(cfg, Init(clock), front);
      StepDated(cfg, Run(cfg, Init(clock), front), acts[|acts| - 1]);
    }
  }

  /** In every run, whichever client wrote it, a mandate is EXPIRED only once the clock has reached its date. */
  lemma ExpiredOnlyAtItsDate(cfg: Config, clock: int, acts: seq<Act>, id: string)
    requires var s := Run(cfg, Init(clock), acts);
             id in s.rows && s.rows[id].status == ExpiredStatus
    ensures var s := Run(cfg, Init(clock), acts);
            s.rows[id].expiresAt <= s.clock
  {
    RunDated(cfg, clock, acts);
  }

  // ---- A revocation takes effect -----------------------------------------------------------

  lemma RevokeFetchStep(cfg: Config, s: State, c: nat, bound: bool)
    requires c in s.clients && s.clients[c].RevokeFetch? && s.clients[c].id in s.rows
    ensures var RevokeFetch(id, caller, note) := s.clients[c];
            Step(cfg, s, Advance(c, bound, ""))
            == Goto(s, c, if caller == s.rows[id].subject then RevokeId(s.rows[id], note) else Finished)
  {
  }

  lemma RevokeIdStep(cfg: Config, s: State, c: nat, bound: bool)
    requires c in s.clients && s.clients[c].RevokeId?
    ensures var RevokeId(m, note) := s.clients[c];
            Step(cfg, s, Advance(c, bound, ""))
            == Goto(s.(revoked := s.revoked + {MandateId(m.id)}), c, RevokeWrite(m, note, s.clock))
  {
  }

  lemma RevokeWriteStep(cfg: Config, s: State, c: nat, bound: bool)
    requires c in s.clients && s.clients[c].RevokeWrite? && s.clients[c].copy.id in s.rows
    ensures var RevokeWrite(m, note, now) := s.clients[c];
            Step(cfg, s, Advance(c, bound, "")).rows
            == s.rows[m.id := m.(status := RevokedStatus, revokedAt := Some(now),
                                 reason := if note == "" then None else Some(note))]
  {
  }

  /**
   * In every reachable state, a revoke by the subject records the id with its second step and marks the row with its
   * third, with the time and the reason; a revoke by anybody else ends without a change.
   */
  lemma RevokeTakesEffect(cfg: Config, clock: int, acts: seq<Act>, c: nat, b1: bool, b2: bool, b3: bool)
    requires var s := Run(cfg, Init(clock), acts);
             c in s.clients && s.clients[c].RevokeFetch? && s.clients[c].id in s.rows
    ensures var s := Run(cfg, Init(clock), acts);
            var RevokeFetch(id, caller, note) := s.clients[c];
            var s1 := Step(cfg, s, Advance(c, b1, ""));
            var s2 := Step(cfg, s1, Advance(c, b2, ""));
            var s3 := Step(cfg, s2, Advance(c, b3, ""));
            if caller != s.rows[id].subject then s1 == Goto(s, c, Finished)
            else
              && MandateId(id) in s2.revoked
              && s3.rows == s.rows[id := s.rows[id].(status := RevokedStatus, revokedAt := Some(s.clock),
                                                     reason := if note == "" then None else Some(note))]
  {
    var s := Run(cfg, Init(clock), acts);
    assert s.rows[s.clients[c].id].id == s.clients[c].id by {
      RunKeeps(cfg, Init(clock), acts);
    }
    var RevokeFetch(id, caller, note) := s.clients[c];
    RevokeFetchStep(cfg, s, c, b1);
    if caller == s.rows[id].subject {
      var s1 := Goto(s, c, RevokeId(s.rows[id], note));
      RevokeIdStep(cfg, s1, c, b2);
      RevokeWriteStep(cfg, Step(cfg, s1, Advance(c, b2, "")), c, b3);
    }
  }

  /** In every reachable state, a reader that found its mandate past its date or revoked marks the row so. */
  lemma FreshMarksTheRow(cfg: Config, clock: int, acts: seq<Act>, c: nat, bound: bool)
    requires var s := Run(cfg, Init(clock), acts);
             c in s.clients && (s.clients[c].FreshExpire? || s.clients[c].FreshRevoke?)
    ensures var s := Run(cfg, Init(clock), acts);
            var m := s.clients[c].copy;
            && m.id in s.rows
            && Step(cfg, s, Advance(c, bound, "")).rows
               == s.rows[m.id := if s.clients[c].FreshExpire? then m.(status := ExpiredStatus)
                                 else m.(status := RevokedStatus, revokedAt := Some(s.clients[c].now),
                                         reason := Some("revocation_id_revoked"))]
  {
    var s := Run(cfg, Init(clock), acts);
    assert ClientOk(s, s.clients[c]) by {
      RunKeeps(cfg, Init(clock), acts);
    }
  }

  /** A sweep marks every active mandate whose date is not after its clock read, and touches no other row. */
  lemma SweepGoesThrough(cfg: Config, s: State, c: nat, b1: bool, b2: bool)
    requires c in s.clients && s.clients[c].SweepClock?
    ensures var read := Next(cfg, s, c, b1, "");
            && c in read.clients
            && var t := Next(cfg, read, c, b2, "");
               && t.rows.Keys == s.rows.Keys
               && forall id :: id in s.rows ==>
                    t.rows[id] == if s.rows[id].status == Active && s.rows[id].expiresAt <= s.clock
                                  then s.rows[id].(status := ExpiredStatus) else s.rows[id]
  {
  }

  // ---- Create and issue go through ---------------------------------------------------------

  lemma CreateDrafts(cfg: Config, s: State, c: nat, bound: bool, freshId: string)
    requires c in s.clients && s.clients[c].CreateStart?
    ensures var CreateStart(subject, agent, wanted, until, createdBy, maxTtl) := s.clients[c];
            var ttl := if maxTtl == None || maxTtl == Some(0) then cfg.defaultMaxTtl else maxTtl.value;
            Next(cfg, s, c, bound, freshId)
            == Goto(s, c,
                    if && ValidRef(subject, "user") && ValidRef(agent, "agent") && createdBy == subject && wanted != {}
                       && s.clock < until <= s.clock + cfg.maxLife && ttl > 0
                    then
                      CreateBind(Mandate(freshId, subject, agent, wanted, s.clock, until, ttl, subject, Active, None,
                                         None))
                    else Finished)
  {
  }

  lemma CreateWrites(cfg: Config, s: State, c: nat, bound: bool, b3: bool, freshId: string)
    requires c in s.clients && s.clients[c].CreateBind? && s.clients[c].draft.id !in s.rows
    ensures var m := s.clients[c].draft;
            var t := Next(cfg, Next(cfg, s, c, bound, freshId), c, b3, freshId);
            t.rows == if bound then s.rows[m.id := m] else s.rows
  {
  }

  /**
   * A create puts the asked mandate under the identifier it drew, exactly when the subject asks for itself, for a
   * valid agent and a scope, within the allowed life, and the engine confirms the binding.
   */
  lemma CreateGoesThrough(cfg: Config, s: State, c: nat, b1: bool, bound: bool, b3: bool, freshId: string)
    requires c in s.clients && s.clients[c].CreateStart? && freshId !in s.rows
    ensures var CreateStart(subject, agent, wanted, until, createdBy, maxTtl) := s.clients[c];
            var ttl := if maxTtl == None || maxTtl == Some(0) then cfg.defaultMaxTtl else maxTtl.value;
            var drafted := Next(cfg, s, c, b1, freshId);
            && c in drafted.clients
            && var told := Next(cfg, drafted, c, bound, freshId);
               && c in told.clients
               && Next(cfg, told, c, b3, freshId).rows
                  == if && ValidRef(subject, "user") && ValidRef(agent, "agent") && createdBy == subject && wanted != {}
                        && s.clock < until <= s.clock + cfg.maxLife && ttl > 0 && bound
                     then s.rows[freshId := Mandate(freshId, subject, agent, wanted, s.clock, until, ttl, subject,
                                                    Active, None, None)]
                     else s.rows
  {
    CreateDrafts(cfg, s, c, b1, freshId);
    var drafted := Next(cfg, s, c, b1, freshId);
    if drafted.clients[c].CreateBind? {
      CreateWrites(cfg, drafted, c, bound, b3, freshId);
    }
  }

  /** A mandate in force and an issue by its agent within its scope. */
  predicate Issuable(s: State, c: nat) {
    && c in s.clients && s.clients[c].Fetch? && s.clients[c].purpose.IssueFor?
    && var Fetch(id, p) := s.clients[c];
       && id in s.rows && s.rows[id].id == id && s.rows[id].status == Active && s.clock < s.rows[id].expiresAt
       && MandateId(id) !in s.revoked && p.caller == s.rows[id].agent && SubsetOf(p.scope, s.rows[id].scope)
       && ValidRef(s.rows[id].subject, "user") && ValidRef(s.rows[id].agent, "agent")
  }

  /** An issue under a mandate in force, by its agent and within its scope, comes to ask the engine for the binding. */
  lemma IssueReaches(cfg: Config, s: State, c: nat, b1: bool, b2: bool, b3: bool)
    requires Issuable(s, c)
    ensures var m, p := s.rows[s.clients[c].id], s.clients[c].purpose;
            var read := Next(cfg, s, c, b1, "");
            && c in read.clients
            && var timed := Next(cfg, read, c, b2, "");
               c in timed.clients && Next(cfg, timed, c, b3, "") == Goto(s, c, IssueBind(m, p))
  {
    var Fetch(id, p) := s.clients[c];
    var m := s.rows[id];
    var read := Next(cfg, s, c, b1, "");
    assert read == Goto(s, c, FreshClock(m, p));
    var timed := Next(cfg, read, c, b2, "");
    assert timed.clients == s.clients[c := FreshAsk(m, p, s.clock)];
    assert Next(cfg, timed, c, b3, "").clients == s.clients[c := IssueBind(m, p)];
  }

  /** The shortest of the wanted lifetime, the mandate's limit and what is left of it; zero counts as the default. */
  function LifeOf(m: Mandate, ttl: Option<int>, defaultTtl: int, now: int): int {
    var wanted := if ttl == None || ttl == Some(0) then m.maxTtl else ttl.value;
    var capped := if wanted <= m.maxTtl then wanted else m.maxTtl;
    var left := m.expiresAt - now;
    var life := if capped <= left then capped else left;
    if life == 0 then defaultTtl else life
  }

  lemma IssueMints(cfg: Config, s: State, c: nat, bound: bool)
    requires c in s.clients && s.clients[c].IssueMint? && s.clients[c].purpose.IssueFor?
    requires ValidRef(s.clients[c].copy.subject, "user") && ValidRef(s.clients[c].copy.agent, "agent")
    ensures var IssueMint(m, p, now) := s.clients[c];
            var a := Authority(s.nextId, m.subject, m.agent, Facts(p.scope),
                               s.clock + LifeOf(m, p.ttl, cfg.defaultTtl, now), Some(m.id));
            Next(cfg, s, c, bound, "").tokens == s.tokens + [Biscuit(a, [])]
  {
    var IssueMint(m, p, now) := s.clients[c];
    var chain := Root(m.subject, m.agent, p.scope).value;
    assert Lifetime(Some(Clamp(m, p.ttl, now)), cfg.defaultTtl) == LifeOf(m, p.ttl, cfg.defaultTtl, now);
  }

  /**
   * From there it signs one token for the mandate's subject exactly when the engine confirms the binding, with the
   * asked scope and the clamped lifetime.
   */
  lemma IssueSigns(cfg: Config, s: State, c: nat, bound: bool, b5: bool, b6: bool)
    requires c in s.clients && s.clients[c].IssueBind? && s.clients[c].purpose.IssueFor?
    requires ValidRef(s.clients[c].copy.subject, "user") && ValidRef(s.clients[c].copy.agent, "agent")
    ensures var IssueBind(m, p) := s.clients[c];
            var a := Authority(s.nextId, m.subject, m.agent, Facts(p.scope),
                               s.clock + LifeOf(m, p.ttl, cfg.defaultTtl, s.clock), Some(m.id));
            var told := Next(cfg, s, c, bound, "");
            && c in told.clients
            && var clamped := Next(cfg, told, c, b5, "");
               && c in clamped.clients
               && Next(cfg, clamped, c, b6, "").tokens == s.tokens + (if bound then [Biscuit(a, [])] else [])
  {
    var IssueBind(m, p) := s.clients[c];
    var told := Next(cfg, s, c, bound, "");
    if bound {
      assert told == Goto(s, c, IssueClamp(m, p));
      IssueMints(cfg, Next(cfg, told, c, b5, ""), c, b6);
    } else {
      assert told == Goto(s, c, Finished);
      assert s.tokens + [] == s.tokens;
    }
  }
}
