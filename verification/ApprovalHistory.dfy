/** What every row and every event of the approval protocol goes back to: the call that was made, and the clock. */
module ApprovalHistory {
  import opened Wrappers
  import opened Refs
  import opened Scopes
  import opened Policies
  import opened Decider
  import opened Approvals
  import opened ApprovalProtocol
  import opened ApprovalSafety
  import opened ApprovalTheorems

  // ---- Milestones --------------------------------------------------------------------------

  datatype Milestone =
    | Began(start: Client)
    | Stamped(terms: Terms)
    | ReadClock(now: int)

  /** A gate call, past its decision, stamps its request at this clock and with this identifier. */
  predicate Stamps(cfg: Config, clock: int, c: Client, freshId: string, t: Terms) {
    && c.GateStamp?
    && t.id == freshId && t.subject == c.who.subject && t.actor == c.who.actor && t.depth == c.who.depth
    && t.tool == c.tool && t.argsHash == cfg.hash(c.args) && t.reason == c.why
    && t.createdAt == clock && t.expiresAt == clock + cfg.ttl
  }

  predicate Passes(cfg: Config, s: State, m: Move, c: nat, g: Milestone) {
    match g
    case Began(start) => m == Spawn(c, start) && c !in s.clients && IsStart(start)
    case Stamped(terms) =>
      m.Advance? && m.client == c && c in s.clients && Stamps(cfg, s.clock, s.clients[c], m.freshId, terms)
    case ReadClock(now) => m.Advance? && m.client == c && c in s.clients && s.clients[c].ResolveClock? && s.clock == now
  }

  ghost predicate PassedAt(cfg: Config, clock: int, moves: seq<Move>, n: nat, c: nat, g: Milestone) {
    n < |moves| && Passes(cfg, Run(cfg, Init(clock), moves[..n]), moves[n], c, g)
  }

  ghost predicate Passed(cfg: Config, clock: int, moves: seq<Move>, c: nat, g: Milestone) {
    exists n: nat :: PassedAt(cfg, clock, moves, n, c, g)
  }

  lemma PassedGrows(cfg: Config, clock: int, moves: seq<Move>, m: Move, c: nat, g: Milestone)
    requires Passed(cfg, clock, moves, c, g)
    ensures Passed(cfg, clock, moves + [m], c, g)
  {
    var n: nat :| PassedAt(cfg, clock, moves, n, c, g);
    assert (moves + [m])[..n] == moves[..n];
    assert PassedAt(cfg, clock, moves + [m], n, c, g);
  }

  lemma PassesNow(cfg: Config, clock: int, moves: seq<Move>, m: Move, c: nat, g: Milestone)
    requires Passes(cfg, Run(cfg, Init(clock), moves), m, c, g)
    ensures Passed(cfg, clock, moves + [m], c, g)
  {
    assert (moves + [m])[..|moves|] == moves;
    assert PassedAt(cfg, clock, moves + [m], |moves|, c, g);
  }

  // ---- Serving the call --------------------------------------------------------------------

  /** The tool a redeem is about: the one that was asked, or the request's own. */
  predicate TargetOf(start: Client, target: string, own: string)
    requires start.RedeemFetch?
  {
    target == if start.asked.Some? && start.asked.value != "" then start.asked.value else own
  }

  predicate RedeemsFor(start: Client, who: Caller, args: Args, target: string, copy: Request) {
    && start.RedeemFetch? && start.who == who && start.args == args && start.id == copy.terms.id
    && TargetOf(start, target, copy.terms.tool)
  }

  /** Where a call that began at `start` can be, still about the same thing. */
  predicate Serves(cfg: Config, start: Client, c: Client) {
    match c
    case GateStamp(who, tool, args, _) => start == GateAsk(who, tool, args)
    case GateCreate(draft) =>
      && start.GateAsk? && draft == NewRequest(draft.terms) && draft.terms.tool == start.tool
      && draft.terms.subject == start.who.subject && draft.terms.actor == start.who.actor
      && draft.terms.depth == start.who.depth && draft.terms.argsHash == cfg.hash(start.args)
    case ResolveFetch(id, approver, approve, why, _) => start == ResolveClock(id, approver, approve, why)
    case ResolveAsk(copy, approver, approve, why, _) => start == ResolveClock(copy.terms.id, approver, approve, why)
    case ResolveReload(id, approver, approve, why, _) => start == ResolveClock(id, approver, approve, why)
    case ResolveExpire(copy, _) => start.ResolveClock? && start.id == copy.terms.id
    case ResolveWrite(id, approver, approve, why, _) => start == ResolveClock(id, approver, approve, why)
    case RedeemCheck(who, args, target, copy) => RedeemsFor(start, who, args, target, copy)
    case RedeemExpire(who, args, target, copy) => RedeemsFor(start, who, args, target, copy)
    case RedeemReread(who, args, target, copy) => RedeemsFor(start, who, args, target, copy)
    case RedeemStamp(who, args, target, copy, _) => RedeemsFor(start, who, args, target, copy)
    case RedeemClaim(who, args, target, copy, _, _) => RedeemsFor(start, who, args, target, copy)
    case RedeemDecide(who, args, target, id) =>
      && start.RedeemFetch? && start.who == who && start.args == args && start.id == id
      && (start.asked.Some? && start.asked.value != "" ==> target == start.asked.value)
    case SweepWrite(_) => start == SweepClock
    case Ended(_) => true
    case _ => c == start
  }

  /** The clock reads behind a client's position. */
  ghost predicate Clocked(cfg: Config, clock: int, moves: seq<Move>, c: nat, client: Client) {
    match client
    case GateCreate(draft) => Passed(cfg, clock, moves, c, Stamped(draft.terms))
    case ResolveFetch(_, _, _, _, now) => Passed(cfg, clock, moves, c, ReadClock(now))
    case ResolveAsk(_, _, _, _, now) => Passed(cfg, clock, moves, c, ReadClock(now))
    case ResolveReload(_, _, _, _, now) => Passed(cfg, clock, moves, c, ReadClock(now))
    case ResolveWrite(_, _, _, _, now) => Passed(cfg, clock, moves, c, ReadClock(now))
    case _ => true
  }

  ghost predicate ClientServes(cfg: Config, clock: int, moves: seq<Move>, c: nat, client: Client) {
    && Clocked(cfg, clock, moves, c, client)
    && exists start :: Passed(cfg, clock, moves, c, Began(start)) && Serves(cfg, start, client)
  }

  /** What an event says is what the call of its client asked. */
  predicate EventServes(cfg: Config, start: Client, e: Event) {
    match e
    case GateDecided(_, who, tool, args, _) => start == GateAsk(who, tool, args)
    case Requested(_, t) =>
      && start.GateAsk? && t.tool == start.tool && t.subject == start.who.subject && t.actor == start.who.actor
      && t.depth == start.who.depth && t.argsHash == cfg.hash(start.args)
    case Authorized(_, id, approver, _) => start.ResolveClock? && start.id == id && start.approver == approver
    case Resolved(_, id, _, approver, approve) =>
      start.ResolveClock? && start.id == id && start.approver == approver && start.approve == approve
    case SawExpired(_, id) => start.RedeemFetch? && start.id == id
    case Claimed(_, id, _) => start.RedeemFetch? && start.id == id
    case Redeemed(_, who, tool, args, id, _, _) =>
      && start.RedeemFetch? && start.who == who && start.args == args && start.id == id
      && (start.asked.Some? && start.asked.value != "" ==> tool == start.asked.value)
  }

  ghost predicate LogServes(cfg: Config, clock: int, moves: seq<Move>, e: Event) {
    exists start :: Passed(cfg, clock, moves, e.client, Began(start)) && EventServes(cfg, start, e)
  }

  // ---- Rows --------------------------------------------------------------------------------

  /** Client `c` was asked for this very resolution, and had read the clock in time. */
  ghost predicate ResolvedBy(cfg: Config, clock: int, moves: seq<Move>, r: Request, c: nat) {
    && r.resolvedBy.Some? && r.resolvedAt.Some? && r.resolutionReason.Some?
    && r.resolvedAt.value <= r.terms.expiresAt
    && var start := ResolveClock(r.terms.id, r.resolvedBy.value, r.status != Rejected, r.resolutionReason.value);
       Passed(cfg, clock, moves, c, Began(start)) && Passed(cfg, clock, moves, c, ReadClock(r.resolvedAt.value))
  }

  ghost predicate RowStands(cfg: Config, clock: int, moves: seq<Move>, r: Request) {
    && (exists c: nat :: Passed(cfg, clock, moves, c, Stamped(r.terms)))
    && (r.consumedAt.Some? <==> r.status == Consumed)
    && (r.status == Pending ==> r == NewRequest(r.terms))
    && (r.status in {Approved, Rejected, Consumed} ==> exists c: nat :: ResolvedBy(cfg, clock, moves, r, c))
  }

  lemma ResolvedByGrows(cfg: Config, clock: int, moves: seq<Move>, m: Move, r: Request, c: nat)
    requires ResolvedBy(cfg, clock, moves, r, c)
    ensures ResolvedBy(cfg, clock, moves + [m], r, c)
  {
    var start := ResolveClock(r.terms.id, r.resolvedBy.value, r.status != Rejected, r.resolutionReason.value);
    PassedGrows(cfg, clock, moves, m, c, Began(start));
    PassedGrows(cfg, clock, moves, m, c, ReadClock(r.resolvedAt.value));
  }

  lemma RowStandsGrows(cfg: Config, clock: int, moves: seq<Move>, m: Move, r: Request)
    requires RowStands(cfg, clock, moves, r)
    ensures RowStands(cfg, clock, moves + [m], r)
  {
    var c: nat :| Passed(cfg, clock, moves, c, Stamped(r.terms));
    PassedGrows(cfg, clock, moves, m, c, Stamped(r.terms));
    if r.status in {Approved, Rejected, Consumed} {
      var d: nat :| ResolvedBy(cfg, clock, moves, r, d);
      ResolvedByGrows(cfg, clock, moves, m, r, d);
    }
  }

  /** A row that expires or is consumed keeps what it goes back to. */
  lemma RowStandsMoved(cfg: Config, clock: int, moves: seq<Move>, r: Request, later: Request)
    requires RowStands(cfg, clock, moves, r) && later.terms == r.terms
    requires
      || (later.status == Expired && later.consumedAt == None)
      || (&& r.status == Approved && later == r.(status := Consumed, consumedAt := later.consumedAt)
          && later.consumedAt.Some?)
    ensures RowStands(cfg, clock, moves, later)
  {
    if later.status == Consumed {
      var d: nat :| ResolvedBy(cfg, clock, moves, r, d);
      assert ResolvedBy(cfg, clock, moves, later, d);
    }
  }

  lemma ClientServesGrows(cfg: Config, clock: int, moves: seq<Move>, m: Move, c: nat, client: Client)
    requires ClientServes(cfg, clock, moves, c, client)
    ensures ClientServes(cfg, clock, moves + [m], c, client)
  {
    var start :| Passed(cfg, clock, moves, c, Began(start)) && Serves(cfg, start, client);
    PassedGrows(cfg, clock, moves, m, c, Began(start));
    match client
    case GateCreate(draft) => PassedGrows(cfg, clock, moves, m, c, Stamped(draft.terms));
    case ResolveFetch(_, _, _, _, now) => PassedGrows(cfg, clock, moves, m, c, ReadClock(now));
    case ResolveAsk(_, _, _, _, now) => PassedGrows(cfg, clock, moves, m, c, ReadClock(now));
    case ResolveReload(_, _, _, _, now) => PassedGrows(cfg, clock, moves, m, c, ReadClock(now));
    case ResolveWrite(_, _, _, _, now) => PassedGrows(cfg, clock, moves, m, c, ReadClock(now));
    case _ =>
  }

  lemma LogServesGrows(cfg: Config, clock: int, moves: seq<Move>, m: Move, e: Event)
    requires LogServes(cfg, clock, moves, e)
    ensures LogServes(cfg, clock, moves + [m], e)
  {
    var start :| Passed(cfg, clock, moves, e.client, Began(start)) && EventServes(cfg, start, e);
    PassedGrows(cfg, clock, moves, m, e.client, Began(start));
  }

  // ---- Every step keeps them ---------------------------------------------------------------

  /** What a resolver holds: a clock read in time for its write, or a copy of a request that was pending. */
  predicate Prepared(rows: Rows, client: Client) {
    match client
    case ResolveWrite(id, _, _, _, now) => id in rows && now <= rows[id].terms.expiresAt
    case ResolveExpire(copy, _) => copy.consumedAt == None
    case _ => true
  }

  ghost predicate ClientsServe(cfg: Config, clock: int, moves: seq<Move>, s: State) {
    forall c :: c in s.clients ==> ClientServes(cfg, clock, moves, c, s.clients[c]) && Prepared(s.rows, s.clients[c])
  }

  ghost predicate RowsStand(cfg: Config, clock: int, moves: seq<Move>, s: State) {
    forall id :: id in s.rows ==> RowStands(cfg, clock, moves, s.rows[id])
  }

  ghost predicate EventsServe(cfg: Config, clock: int, moves: seq<Move>, s: State) {
    forall l :: 0 <= l < |s.log| ==> LogServes(cfg, clock, moves, s.log[l])
  }

  /** One client's step in a state where it serves its call. */
  ghost predicate Moves(cfg: Config, clock: int, moves: seq<Move>, m: Move, s: State) {
    && s == Run(cfg, Init(clock), moves) && Inv(cfg, s) && m.Advance? && m.client in s.clients
    && ClientServes(cfg, clock, moves, m.client, s.clients[m.client]) && Prepared(s.rows, s.clients[m.client])
    && RowsStand(cfg, clock, moves, s)
  }

  /** The call that the client began with, one move later. */
  lemma BeganStill(cfg: Config, clock: int, moves: seq<Move>, m: Move, c: nat, client: Client) returns (start: Client)
    requires ClientServes(cfg, clock, moves, c, client)
    ensures Passed(cfg, clock, moves + [m], c, Began(start)) && Serves(cfg, start, client)
  {
    start :| Passed(cfg, clock, moves, c, Began(start)) && Serves(cfg, start, client);
    PassedGrows(cfg, clock, moves, m, c, Began(start));
  }

  /** Where a gate call goes, it still serves its call, and so does what it notes. */
  lemma GateServes(cfg: Config, s: State, c: nat, answer: Answer, freshId: string, start: Client)
    requires c in s.clients && IsGate(s.clients[c]) && Serves(cfg, start, s.clients[c])
    ensures ServesOn(cfg, s, GateStep(cfg, s, c, answer, freshId), c, start)
  {
  }

  lemma GateClocked(cfg: Config, clock: int, moves: seq<Move>, m: Move, s: State)
    requires s == Run(cfg, Init(clock), moves) && m.Advance? && m.client in s.clients && IsGate(s.clients[m.client])
    ensures var t := GateStep(cfg, s, m.client, m.answer, m.freshId);
            m.client in t.clients && Clocked(cfg, clock, moves + [m], m.client, t.clients[m.client])
  {
    if s.clients[m.client].GateStamp? {
      var next := GateStep(cfg, s, m.client, m.answer, m.freshId).clients[m.client];
      PassesNow(cfg, clock, moves, m, m.client, Stamped(next.draft.terms));
    }
  }

  lemma GateMoves(cfg: Config, clock: int, moves: seq<Move>, m: Move, s: State)
    requires Moves(cfg, clock, moves, m, s) && IsGate(s.clients[m.client])
    ensures var t := GateStep(cfg, s, m.client, m.answer, m.freshId);
            && m.client in t.clients && ClientServes(cfg, clock, moves + [m], m.client, t.clients[m.client])
            && (forall l :: |s.log| <= l < |t.log| ==> LogServes(cfg, clock, moves + [m], t.log[l]))
  {
    var start := BeganStill(cfg, clock, moves, m, m.client, s.clients[m.client]);
    GateServes(cfg, s, m.client, m.answer, m.freshId, start);
    GateClocked(cfg, clock, moves, m, s);
  }

  lemma GateRows(cfg: Config, clock: int, moves: seq<Move>, m: Move, s: State)
    requires Moves(cfg, clock, moves, m, s) && IsGate(s.clients[m.client])
    ensures RowsStand(cfg, clock, moves + [m], GateStep(cfg, s, m.client, m.answer, m.freshId))
  {
    var t, client := GateStep(cfg, s, m.client, m.answer, m.freshId), s.clients[m.client];
    forall id | id in t.rows
      ensures RowStands(cfg, clock, moves + [m], t.rows[id])
    {
      if id in s.rows && t.rows[id] == s.rows[id] {
        RowStandsGrows(cfg, clock, moves, m, s.rows[id]);
      } else {
        PassedGrows(cfg, clock, moves, m, m.client, Stamped(client.draft.terms));
      }
    }
  }

  lemma ResolveMoves(cfg: Config, clock: int, moves: seq<Move>, m: Move, s: State)
    requires Moves(cfg, clock, moves, m, s) && IsResolve(s.clients[m.client])
    ensures var t := ResolveStep(cfg, s, m.client, m.answer);
            && m.client in t.clients && ClientServes(cfg, clock, moves + [m], m.client, t.clients[m.client])
            && (forall l :: |s.log| <= l < |t.log| ==> LogServes(cfg, clock, moves + [m], t.log[l]))
  {
    var c, client := m.client, s.clients[m.client];
    var start := BeganStill(cfg, clock, moves, m, c, client);
    if client.ResolveClock? {
      PassesNow(cfg, clock, moves, m, c, ReadClock(s.clock));
    } else {
      ClientServesGrows(cfg, clock, moves, m, c, client);
    }
    ResolveServes(cfg, s, c, m.answer, start);
    ResolveClocked(cfg, clock, moves + [m], s, c, m.answer);
  }

  lemma ResolveReadServes(cfg: Config, s: State, c: nat, answer: Answer, start: Client)
    requires c in s.clients && (s.clients[c].ResolveClock? || s.clients[c].ResolveFetch? || s.clients[c].ResolveReload?)
    requires Serves(cfg, start, s.clients[c])
    requires s.clients[c].id in s.rows ==> s.rows[s.clients[c].id].terms.id == s.clients[c].id
    ensures ServesOn(cfg, s, ResolveStep(cfg, s, c, answer), c, start)
  {
  }

  lemma ResolveAskServes(cfg: Config, s: State, c: nat, answer: Answer, start: Client)
    requires c in s.clients && s.clients[c].ResolveAsk? && Serves(cfg, start, s.clients[c])
    ensures ServesOn(cfg, s, ResolveStep(cfg, s, c, answer), c, start)
  {
  }

  lemma ResolveWriteServes(cfg: Config, s: State, c: nat, answer: Answer, start: Client)
    requires c in s.clients && (s.clients[c].ResolveExpire? || s.clients[c].ResolveWrite?)
    requires Serves(cfg, start, s.clients[c])
    ensures ServesOn(cfg, s, ResolveStep(cfg, s, c, answer), c, start)
  {
  }

  /** Where a resolve goes, it still serves its call, and so does what it notes. */
  lemma ResolveServes(cfg: Config, s: State, c: nat, answer: Answer, start: Client)
    requires Inv(cfg, s) && c in s.clients && IsResolve(s.clients[c]) && Serves(cfg, start, s.clients[c])
    ensures ServesOn(cfg, s, ResolveStep(cfg, s, c, answer), c, start)
  {
    var client := s.clients[c];
    if client.ResolveAsk? {
      ResolveAskServes(cfg, s, c, answer, start);
    } else if client.ResolveExpire? || client.ResolveWrite? {
      ResolveWriteServes(cfg, s, c, answer, start);
    } else {
      assert client.id in s.rows ==> RowOk(cfg, s, client.id);
      ResolveReadServes(cfg, s, c, answer, start);
    }
  }

  lemma ResolveClocked(cfg: Config, clock: int, moves: seq<Move>, s: State, c: nat, answer: Answer)
    requires c in s.clients && IsResolve(s.clients[c])
    requires if s.clients[c].ResolveClock? then Passed(cfg, clock, moves, c, ReadClock(s.clock))
             else Clocked(cfg, clock, moves, c, s.clients[c])
    ensures var t := ResolveStep(cfg, s, c, answer);
            c in t.clients && Clocked(cfg, clock, moves, c, t.clients[c])
  {
  }

  /** The row that a resolve changes, if any, and what it becomes. */
  lemma ResolveRow(cfg: Config, s: State, c: nat, answer: Answer, id: string)
    requires Inv(cfg, s) && c in s.clients && IsResolve(s.clients[c]) && id in ResolveStep(cfg, s, c, answer).rows
    ensures var t, client := ResolveStep(cfg, s, c, answer), s.clients[c];
            && id in s.rows
            && (|| t.rows[id] == s.rows[id]
                || (client.ResolveExpire? && t.rows[id] == client.copy.(status := Expired)
                    && client.copy.terms == s.rows[id].terms)
                || (&& client.ResolveWrite? && client.id == id && s.rows[id].status == Pending
                    && t.rows[id] == s.rows[id].(status := if client.approve then Approved else Rejected,
                                                 resolvedBy := Some(client.approver), resolvedAt := Some(client.now),
                                                 resolutionReason := Some(client.why))))
  {
    assert ClientOk(cfg, s, c, s.clients[c]);
  }

  lemma ResolveRows(cfg: Config, clock: int, moves: seq<Move>, m: Move, s: State)
    requires Moves(cfg, clock, moves, m, s) && IsResolve(s.clients[m.client])
    ensures RowsStand(cfg, clock, moves + [m], ResolveStep(cfg, s, m.client, m.answer))
  {
    var t, client := ResolveStep(cfg, s, m.client, m.answer), s.clients[m.client];
    forall id | id in t.rows
      ensures RowStands(cfg, clock, moves + [m], t.rows[id])
    {
      ResolveRow(cfg, s, m.client, m.answer, id);
      RowStandsGrows(cfg, clock, moves, m, s.rows[id]);
      if t.rows[id] == s.rows[id] {
      } else if client.ResolveExpire? {
        RowStandsMoved(cfg, clock, moves + [m], s.rows[id], t.rows[id]);
      } else {
        assert s.rows[id].terms.id == id by {
          assert RowOk(cfg, s, id);
        }
        var start := BeganStill(cfg, clock, moves, m, m.client, client);
        PassedGrows(cfg, clock, moves, m, m.client, ReadClock(client.now));
        assert ResolvedBy(cfg, clock, moves + [m], t.rows[id], m.client);
      }
    }
  }

  /** After a step of client `c`: it still serves its call, and so does what it noted. */
  predicate ServesOn(cfg: Config, s: State, t: State, c: nat, start: Client) {
    && c in t.clients && Serves(cfg, start, t.clients[c])
    && forall l :: |s.log| <= l < |t.log| ==> t.log[l].client == c && EventServes(cfg, start, t.log[l])
  }

  lemma CompareServes(
    cfg: Config, s: State, c: nat, who: Caller, args: Args, target: string, r: Request, copy: Request, start: Client)
    requires RedeemsFor(start, who, args, target, copy) && r.terms == copy.terms
    ensures ServesOn(cfg, s, Compare(cfg, s, c, who, args, target, r), c, start)
  {
  }

  lemma RedeemFetchServes(cfg: Config, s: State, c: nat, answer: Answer, start: Client)
    requires c in s.clients && s.clients[c].RedeemFetch? && start == s.clients[c]
    requires start.id in s.rows ==> s.rows[start.id].terms.id == start.id
    ensures ServesOn(cfg, s, RedeemStep(cfg, s, c, answer), c, start)
  {
  }

  lemma RedeemCheckServes(cfg: Config, s: State, c: nat, answer: Answer, start: Client)
    requires c in s.clients && s.clients[c].RedeemCheck? && Serves(cfg, start, s.clients[c])
    ensures ServesOn(cfg, s, RedeemStep(cfg, s, c, answer), c, start)
  {
    var RedeemCheck(who, args, target, copy) := s.clients[c];
    CompareServes(cfg, s, c, who, args, target, copy, copy, start);
  }

  lemma RedeemPastDateServes(cfg: Config, s: State, c: nat, answer: Answer, start: Client)
    requires c in s.clients && (s.clients[c].RedeemExpire? || s.clients[c].RedeemReread?)
    requires Serves(cfg, start, s.clients[c]) && CopyOk(s, s.clients[c].copy)
    ensures ServesOn(cfg, s, RedeemStep(cfg, s, c, answer), c, start)
  {
    var client := s.clients[c];
    var id := client.copy.terms.id;
    if client.RedeemReread? {
      CompareServes(cfg, s, c, client.who, client.args, client.target, s.rows[id], client.copy, start);
    } else {
      var (rows, r) := Transition(s.rows, id, {Pending, Approved}, Expired, NoPatch);
      if r.Some? {
        CompareServes(cfg, s.(rows := rows), c, client.who, client.args, client.target, r.value, client.copy, start);
      }
    }
  }

  lemma RedeemLateServes(cfg: Config, s: State, c: nat, answer: Answer, start: Client)
    requires c in s.clients && Serves(cfg, start, s.clients[c])
    requires s.clients[c].RedeemStamp? || s.clients[c].RedeemClaim? || s.clients[c].RedeemDecide?
    ensures ServesOn(cfg, s, RedeemStep(cfg, s, c, answer), c, start)
  {
  }

  /** Where a redeem goes, it still serves its call, and so does what it notes. */
  lemma RedeemServes(cfg: Config, s: State, c: nat, answer: Answer, start: Client)
    requires Inv(cfg, s) && c in s.clients && IsRedeem(s.clients[c]) && Serves(cfg, start, s.clients[c])
    ensures ServesOn(cfg, s, RedeemStep(cfg, s, c, answer), c, start)
  {
    var client := s.clients[c];
    if client.RedeemFetch? {
      assert client.id in s.rows ==> RowOk(cfg, s, client.id);
      RedeemFetchServes(cfg, s, c, answer, start);
    } else if client.RedeemCheck? {
      RedeemCheckServes(cfg, s, c, answer, start);
    } else if client.RedeemExpire? || client.RedeemReread? {
      assert ClientOk(cfg, s, c, client);
      RedeemPastDateServes(cfg, s, c, answer, start);
    } else {
      RedeemLateServes(cfg, s, c, answer, start);
    }
  }

  lemma RedeemMoves(cfg: Config, clock: int, moves: seq<Move>, m: Move, s: State)
    requires Moves(cfg, clock, moves, m, s) && IsRedeem(s.clients[m.client])
    ensures var t := RedeemStep(cfg, s, m.client, m.answer);
            && m.client in t.clients && ClientServes(cfg, clock, moves + [m], m.client, t.clients[m.client])
            && (forall l :: |s.log| <= l < |t.log| ==> LogServes(cfg, clock, moves + [m], t.log[l]))
  {
    var start := BeganStill(cfg, clock, moves, m, m.client, s.clients[m.client]);
    RedeemServes(cfg, s, m.client, m.answer, start);
    RedeemerNeverStale(cfg, s, m.client, m.answer);
    RedeemStaysRedeem(cfg, s, m.client, m.answer);
  }

  lemma RedeemStaysRedeem(cfg: Config, s: State, c: nat, answer: Answer)
    requires c in s.clients && IsRedeem(s.clients[c])
    ensures var t := RedeemStep(cfg, s, c, answer);
            c in t.clients && (IsRedeem(t.clients[c]) || t.clients[c].Ended?)
  {
  }

  /** The row that a redeem changes, if any, and what it becomes. */
  lemma RedeemRow(cfg: Config, s: State, c: nat, answer: Answer, id: string)
    requires Inv(cfg, s) && c in s.clients && IsRedeem(s.clients[c]) && id in RedeemStep(cfg, s, c, answer).rows
    ensures var t, client := RedeemStep(cfg, s, c, answer), s.clients[c];
            && id in s.rows
            && (|| t.rows[id] == s.rows[id]
                || (s.rows[id].status in {Pending, Approved} && t.rows[id] == s.rows[id].(status := Expired))
                || (&& client.RedeemClaim? && s.rows[id].status == Approved
                    && t.rows[id] == s.rows[id].(status := Consumed, consumedAt := Some(client.at))))
  {
    assert ClientOk(cfg, s, c, s.clients[c]);
  }

  lemma RedeemRows(cfg: Config, clock: int, moves: seq<Move>, m: Move, s: State)
    requires Moves(cfg, clock, moves, m, s) && IsRedeem(s.clients[m.client])
    ensures RowsStand(cfg, clock, moves + [m], RedeemStep(cfg, s, m.client, m.answer))
  {
    var t := RedeemStep(cfg, s, m.client, m.answer);
    forall id | id in t.rows
      ensures RowStands(cfg, clock, moves + [m], t.rows[id])
    {
      RedeemRow(cfg, s, m.client, m.answer, id);
      RowStandsGrows(cfg, clock, moves, m, s.rows[id]);
      if t.rows[id] != s.rows[id] {
        RowStandsMoved(cfg, clock, moves + [m], s.rows[id], t.rows[id]);
      }
    }
  }

  lemma SweepMoves(cfg: Config, clock: int, moves: seq<Move>, m: Move, s: State)
    requires Moves(cfg, clock, moves, m, s)
    requires var k := s.clients[m.client];
             !IsGate(k) && !IsResolve(k) && !IsRedeem(k)
    ensures var t := SweepStep(s, m.client);
            && m.client in t.clients && ClientServes(cfg, clock, moves + [m], m.client, t.clients[m.client])
            && t.log == s.log && RowsStand(cfg, clock, moves + [m], t)
  {
    var t := SweepStep(s, m.client);
    var start := BeganStill(cfg, clock, moves, m, m.client, s.clients[m.client]);
    assert Serves(cfg, start, t.clients[m.client]);
    forall id | id in t.rows
      ensures RowStands(cfg, clock, moves + [m], t.rows[id])
    {
      RowStandsGrows(cfg, clock, moves, m, s.rows[id]);
      if t.rows[id] != s.rows[id] {
        RowStandsMoved(cfg, clock, moves + [m], s.rows[id], t.rows[id]);
      }
    }
  }

  /** What one client's step leaves: its own client, its rows and its new events in order. */
  lemma MoverServes(cfg: Config, clock: int, moves: seq<Move>, m: Move, s: State)
    requires Moves(cfg, clock, moves, m, s)
    ensures var t := ClientStep(cfg, s, m.client, m.answer, m.freshId);
            && m.client in t.clients && ClientServes(cfg, clock, moves + [m], m.client, t.clients[m.client])
            && (forall l :: |s.log| <= l < |t.log| ==> LogServes(cfg, clock, moves + [m], t.log[l]))
            && RowsStand(cfg, clock, moves + [m], t)
  {
    var k := s.clients[m.client];
    if IsGate(k) {
      GateMoves(cfg, clock, moves, m, s);
      GateRows(cfg, clock, moves, m, s);
    } else if IsResolve(k) {
      ResolveMoves(cfg, clock, moves, m, s);
      ResolveRows(cfg, clock, moves, m, s);
    } else if IsRedeem(k) {
      RedeemMoves(cfg, clock, moves, m, s);
      RedeemRows(cfg, clock, moves, m, s);
    } else {
      SweepMoves(cfg, clock, moves, m, s);
    }
  }

  /** A resolver that comes to its write read the clock in time; one that comes to expire holds a pending copy. */
  lemma ReloadPrepared(cfg: Config, s: State, c: nat, answer: Answer)
    requires c in s.clients && s.clients[c].ResolveReload?
    requires s.clients[c].id in s.rows && s.rows[s.clients[c].id].status == Pending ==>
               s.rows[s.clients[c].id].consumedAt == None
    ensures var t := ResolveStep(cfg, s, c, answer);
            c in t.clients && Prepared(t.rows, t.clients[c])
  {
  }

  /** Only a reload leads to a write or to an expiry. */
  lemma OtherResolvePrepared(cfg: Config, s: State, c: nat, answer: Answer)
    requires c in s.clients && IsResolve(s.clients[c]) && !s.clients[c].ResolveReload?
    ensures var t := ResolveStep(cfg, s, c, answer);
            c in t.clients && !t.clients[c].ResolveWrite? && !t.clients[c].ResolveExpire?
  {
  }

  lemma GatePrepared(cfg: Config, s: State, c: nat, answer: Answer, freshId: string)
    requires c in s.clients && IsGate(s.clients[c])
    ensures var t := GateStep(cfg, s, c, answer, freshId);
            c in t.clients && !t.clients[c].ResolveWrite? && !t.clients[c].ResolveExpire?
  {
  }

  lemma MoverPrepared(cfg: Config, clock: int, moves: seq<Move>, s: State, c: nat, answer: Answer, freshId: string)
    requires RowsStand(cfg, clock, moves, s) && c in s.clients
    ensures var t := ClientStep(cfg, s, c, answer, freshId);
            c in t.clients && Prepared(t.rows, t.clients[c])
  {
    if IsGate(s.clients[c]) {
      GatePrepared(cfg, s, c, answer, freshId);
    } else if s.clients[c].ResolveReload? {
      assert s.clients[c].id in s.rows ==> RowStands(cfg, clock, moves, s.rows[s.clients[c].id]);
      ReloadPrepared(cfg, s, c, answer);
    } else if IsResolve(s.clients[c]) {
      OtherResolvePrepared(cfg, s, c, answer);
    } else if IsRedeem(s.clients[c]) {
      RedeemStaysRedeem(cfg, s, c, answer);
    }
  }

  /** A client that did not take the step is new, ended, or where it was. */
  lemma Bystander(cfg: Config, s: State, m: Move, c: nat)
    requires c in Step(cfg, s, m).clients && !(m.Advance? && m.client == c)
    ensures var t := Step(cfg, s, m);
            || (c in s.clients && t.clients[c] == s.clients[c])
            || (c in s.clients && t.clients[c].Ended?)
            || (m == Spawn(c, t.clients[c]) && c !in s.clients && IsStart(t.clients[c]))
  {
    if m.Advance? && m.client in s.clients {
      OthersStay(cfg, s, m.client, m.answer, m.freshId, c);
    }
  }

  lemma OthersStay(cfg: Config, s: State, c: nat, answer: Answer, freshId: string, d: nat)
    requires c in s.clients && d != c && d in ClientStep(cfg, s, c, answer, freshId).clients
    ensures d in s.clients && ClientStep(cfg, s, c, answer, freshId).clients[d] == s.clients[d]
  {
    if IsGate(s.clients[c]) {
      GateInTime(cfg, s, c, answer, freshId);
    } else if IsResolve(s.clients[c]) {
      ResolveInTime(cfg, s, c, answer);
    } else if IsRedeem(s.clients[c]) {
      RedeemerNeverStale(cfg, s, c, answer);
    }
  }

  lemma BystanderServes(cfg: Config, clock: int, moves: seq<Move>, m: Move, s: State, c: nat)
    requires s == Run(cfg, Init(clock), moves) && Inv(cfg, s) && ClientsServe(cfg, clock, moves, s)
    requires c in Step(cfg, s, m).clients && !(m.Advance? && m.client == c)
    ensures var t := Step(cfg, s, m);
            ClientServes(cfg, clock, moves + [m], c, t.clients[c]) && Prepared(t.rows, t.clients[c])
  {
    var t := Step(cfg, s, m);
    Bystander(cfg, s, m, c);
    if c in s.clients && t.clients[c] == s.clients[c] {
      ClientServesGrows(cfg, clock, moves, m, c, s.clients[c]);
      assert Evolves(s, t) by {
        StepKeeps(cfg, s, m);
      }
    } else if c in s.clients {
      var start := BeganStill(cfg, clock, moves, m, c, s.clients[c]);
      assert Serves(cfg, start, t.clients[c]);
    } else {
      PassesNow(cfg, clock, moves, m, c, Began(t.clients[c]));
      assert Serves(cfg, t.clients[c], t.clients[c]);
    }
  }

  lemma ClientsServeOn(cfg: Config, clock: int, moves: seq<Move>, m: Move, s: State)
    requires s == Run(cfg, Init(clock), moves) && Inv(cfg, s)
    requires ClientsServe(cfg, clock, moves, s) && RowsStand(cfg, clock, moves, s)
    ensures ClientsServe(cfg, clock, moves + [m], Step(cfg, s, m))
  {
    var t := Step(cfg, s, m);
    forall c | c in t.clients
      ensures ClientServes(cfg, clock, moves + [m], c, t.clients[c]) && Prepared(t.rows, t.clients[c])
    {
      if m.Advance? && m.client == c && c in s.clients {
        MoverServes(cfg, clock, moves, m, s);
        MoverPrepared(cfg, clock, moves, s, c, m.answer, m.freshId);
      } else if !(m.Advance? && m.client == c) {
        BystanderServes(cfg, clock, moves, m, s, c);
      }
    }
  }

  lemma RowsStandOn(cfg: Config, clock: int, moves: seq<Move>, m: Move, s: State)
    requires s == Run(cfg, Init(clock), moves) && Inv(cfg, s)
    requires ClientsServe(cfg, clock, moves, s) && RowsStand(cfg, clock, moves, s)
    ensures RowsStand(cfg, clock, moves + [m], Step(cfg, s, m))
  {
    var t := Step(cfg, s, m);
    if m.Advance? && m.client in s.clients {
      MoverServes(cfg, clock, moves, m, s);
    } else {
      forall id | id in t.rows
        ensures RowStands(cfg, clock, moves + [m], t.rows[id])
      {
        RowStandsGrows(cfg, clock, moves, m, s.rows[id]);
      }
    }
  }

  lemma EventsServeOn(cfg: Config, clock: int, moves: seq<Move>, m: Move, s: State)
    requires s == Run(cfg, Init(clock), moves) && Inv(cfg, s)
    requires ClientsServe(cfg, clock, moves, s) && RowsStand(cfg, clock, moves, s) && EventsServe(cfg, clock, moves, s)
    ensures EventsServe(cfg, clock, moves + [m], Step(cfg, s, m))
  {
    var t := Step(cfg, s, m);
    assert s.log <= t.log by {
      StepKeeps(cfg, s, m);
    }
    forall l | 0 <= l < |t.log|
      ensures LogServes(cfg, clock, moves + [m], t.log[l])
    {
      if l < |s.log| {
        LogServesGrows(cfg, clock, moves, m, s.log[l]);
      } else if m.Advance? && m.client in s.clients {
        MoverServes(cfg, clock, moves, m, s);
      }
    }
  }

  ghost predicate Served(cfg: Config, clock: int, moves: seq<Move>, s: State) {
    ClientsServe(cfg, clock, moves, s) && RowsStand(cfg, clock, moves, s) && EventsServe(cfg, clock, moves, s)
  }

  /**
   * In every run, every client is still about the call it began with, every event says what that call asked, and every
   * row goes back to a gate call that stamped exactly these terms, at its clock and for the configured time, and to a
   * resolver that was asked for exactly this resolution and had read the clock before the date.
   */
  lemma {:induction false} EverythingServesItsCall(cfg: Config, clock: int, moves: seq<Move>)
    ensures Served(cfg, clock, moves, Run(cfg, Init(clock), moves))
  {
    if moves == [] {
    } else {
      var front, last := moves[..|moves| - 1], moves[|moves| - 1];
      var s := Run(cfg, Init(clock), front);
      EverythingServesItsCall(cfg, clock, front);
      assert Inv(cfg, s) by {
        InitInv(cfg, clock);
        RunKeeps(cfg, Init(clock), front);
      }
      ClientsServeOn(cfg, clock, front, last, s);
      RowsStandOn(cfg, clock, front, last, s);
      EventsServeOn(cfg, clock, front, last, s);
      assert front + [last] == moves;
    }
  }

  // ---- Dates, once more --------------------------------------------------------------------

  /** Every request lives for the configured time from its own stamp, and is EXPIRED only after that. */
  lemma LivesItsTime(cfg: Config, clock: int, moves: seq<Move>, id: string)
    requires id in Run(cfg, Init(clock), moves).rows
    ensures var s := Run(cfg, Init(clock), moves);
            var r := s.rows[id];
            && r.terms.expiresAt == r.terms.createdAt + cfg.ttl
            && (r.status == Expired ==> r.terms.createdAt + cfg.ttl < s.clock)
            && (exists n: nat, c: nat :: PassedAt(cfg, clock, moves, n, c, Stamped(r.terms)))
  {
    EverythingServesItsCall(cfg, clock, moves);
    ExpiredOnlyPastDate(cfg, clock, moves);
    var r := Run(cfg, Init(clock), moves).rows[id];
    assert RowStands(cfg, clock, moves, r);
    var c: nat :| Passed(cfg, clock, moves, c, Stamped(r.terms));
    var n: nat :| PassedAt(cfg, clock, moves, n, c, Stamped(r.terms));
  }

  // ---- Decisions ---------------------------------------------------------------------------

  /** A gate call notes the decision on exactly what it was asked, without an approval, and parks only a demand. */
  lemma GateDecides(cfg: Config, s: State, c: nat, answer: Answer, freshId: string)
    requires c in s.clients && s.clients[c].GateAsk?
    ensures var GateAsk(who, tool, args) := s.clients[c];
            var t := GateStep(cfg, s, c, answer, freshId);
            if !ValidRef(tool, "tool") then t.log == s.log && t.clients == s.clients[c := Ended("invalid tool")]
            else
              var ask := Ask(who.subject, who.actor, who.scope, Act, "can_invoke", args, None);
              var v := DecideWith(cfg.policy, ask, tool, answer);
              && t.log == s.log + [GateDecided(c, who, tool, args, v)] && t.rows == s.rows
              && (v.outcome == RequireApprovalOutcome <==> c in t.clients && t.clients[c].GateStamp?)
              && (v.outcome != RequireApprovalOutcome ==> t.clients[c] == Ended(v.reason))
  {
  }

  /** A request can be redeemed by a call exactly when it is approved and the call is the one it was parked for. */
  lemma MismatchExact(cfg: Config, r: Request, who: Caller, tool: string, args: Args)
    ensures Mismatch(cfg, r, who, tool, args) == None <==>
            && r.status == Approved && r.terms.tool == tool
            && r.terms.subject == who.subject && r.terms.actor == who.actor && r.terms.depth == who.depth
            && r.terms.argsHash == cfg.hash(args)
    ensures r.status == Consumed ==> Mismatch(cfg, r, who, tool, args) == Some("approval_consumed")
    ensures r.status == Expired ==> Mismatch(cfg, r, who, tool, args) == Some("approval_expired")
    ensures r.status in {Pending, Rejected} ==> Mismatch(cfg, r, who, tool, args) == Some("approval_not_approved")
    ensures r.status == Approved && r.terms.tool != tool ==>
              Mismatch(cfg, r, who, tool, args) == Some("approval_tool_mismatch")
    ensures var chain := r.terms.subject == who.subject && r.terms.actor == who.actor && r.terms.depth == who.depth;
            r.status == Approved && r.terms.tool == tool ==>
              && (!chain ==> Mismatch(cfg, r, who, tool, args) == Some("approval_chain_mismatch"))
              && (chain && r.terms.argsHash != cfg.hash(args) ==>
                    Mismatch(cfg, r, who, tool, args) == Some("approval_args_mismatch"))
  {
  }

  /**
   * What a redeem compares: the resource it was called with if it named one, else the request's own tool; an unknown
   * request or an ill-formed resource ends it before anything is compared.
   */
  lemma RedeemReads(cfg: Config, s: State, c: nat, answer: Answer)
    requires c in s.clients && s.clients[c].RedeemFetch?
    ensures var RedeemFetch(who, id, args, asked) := s.clients[c];
            RedeemStep(cfg, s, c, answer)
            == Goto(s, c,
                    if id !in s.rows then Ended("approval_unknown")
                    else
                      var target := if asked == None || asked == Some("") then s.rows[id].terms.tool else asked.value;
                      if ValidPattern(target) then RedeemCheck(who, args, target, s.rows[id])
                      else Ended("invalid resource"))
  {
  }

  /** An approved request, in date, and the call it was parked for. */
  predicate Redeemable(cfg: Config, s: State, c: nat) {
    && c in s.clients && s.clients[c].RedeemFetch?
    && var RedeemFetch(who, id, args, asked) := s.clients[c];
       && id in s.rows && s.rows[id].status == Approved && s.rows[id].terms.id == id
       && s.clock <= s.rows[id].terms.expiresAt
       && var t := s.rows[id].terms;
          && (asked.Some? && asked.value != "" ==> asked.value == t.tool) && ValidPattern(t.tool)
          && t.subject == who.subject && t.actor == who.actor && t.depth == who.depth && t.argsHash == cfg.hash(args)
  }

  lemma RedeemFetches(cfg: Config, s: State, c: nat, answer: Answer)
    requires Redeemable(cfg, s, c)
    ensures var RedeemFetch(who, id, args, asked) := s.clients[c];
            var r := s.rows[id];
            RedeemStep(cfg, s, c, answer) == Goto(s, c, RedeemCheck(who, args, r.terms.tool, r))
  {
  }

  lemma RedeemMatches(cfg: Config, s: State, c: nat, answer: Answer)
    requires c in s.clients && s.clients[c].RedeemCheck?
    requires var RedeemCheck(who, args, tool, r) := s.clients[c];
             Mismatch(cfg, r, who, tool, args) == None && s.clock <= r.terms.expiresAt
    ensures var RedeemCheck(who, args, tool, r) := s.clients[c];
            RedeemStep(cfg, s, c, answer) == Goto(s, c, RedeemStamp(who, args, tool, r, s.clock))
  {
  }

  lemma RedeemStamps(cfg: Config, s: State, c: nat, answer: Answer)
    requires c in s.clients && s.clients[c].RedeemStamp?
    ensures var RedeemStamp(who, args, tool, r, checked) := s.clients[c];
            RedeemStep(cfg, s, c, answer) == Goto(s, c, RedeemClaim(who, args, tool, r, checked, s.clock))
  {
  }

  lemma RedeemReaches(cfg: Config, s: State, c: nat, a1: Answer, a2: Answer, a3: Answer)
    requires Redeemable(cfg, s, c)
    ensures var RedeemFetch(who, id, args, asked) := s.clients[c];
            var r := s.rows[id];
            RedeemStep(cfg, RedeemStep(cfg, RedeemStep(cfg, s, c, a1), c, a2), c, a3)
            == Goto(s, c, RedeemClaim(who, args, r.terms.tool, r, s.clock, s.clock))
  {
    var RedeemFetch(who, id, args, asked) := s.clients[c];
    var r := s.rows[id];
    RedeemFetches(cfg, s, c, a1);
    var s1 := Goto(s, c, RedeemCheck(who, args, r.terms.tool, r));
    RedeemMatches(cfg, s1, c, a2);
    var s2 := Goto(s1, c, RedeemStamp(who, args, r.terms.tool, r, s.clock));
    RedeemStamps(cfg, s2, c, a3);
    var last := RedeemClaim(who, args, r.terms.tool, r, s.clock, s.clock);
    assert Goto(s2, c, last).clients == Goto(s, c, last).clients;
  }

  lemma RedeemClaims(cfg: Config, s: State, c: nat, a4: Answer, a5: Answer)
    requires c in s.clients && s.clients[c].RedeemClaim?
    requires s.clients[c].copy.terms.id in s.rows && s.rows[s.clients[c].copy.terms.id].status == Approved
    ensures var RedeemClaim(who, args, tool, copy, _, at) := s.clients[c];
            var id := copy.terms.id;
            var ask := Ask(who.subject, who.actor, who.scope, Act, "can_invoke", args, Some(id));
            var v := DecideWith(cfg.policy, ask, tool, a5);
            var t := RedeemStep(cfg, RedeemStep(cfg, s, c, a4), c, a5);
            && t.log == s.log + [Claimed(c, id, s.rows[id].terms.tool), Redeemed(c, who, tool, args, id, a5, v)]
            && t.rows == s.rows[id := s.rows[id].(status := Consumed, consumedAt := Some(at))]
            && c in t.clients && t.clients[c] == Ended(v.reason)
  {
    var RedeemClaim(who, args, tool, copy, _, at) := s.clients[c];
    var id := copy.terms.id;
    var s1 := RedeemStep(cfg, s, c, a4);
    assert s1.clients[c] == RedeemDecide(who, args, tool, id);
    assert s1.log == s.log + [Claimed(c, id, s.rows[id].terms.tool)];
  }

  /**
   * The way forward: in every state, a redeem of an approved request, in date and for the call it was parked for,
   * claims it with its fourth step and answers with the fresh decision, the approval in its context, with its fifth.
   */
  lemma RedeemGoesThrough(cfg: Config, s: State, c: nat, a1: Answer, a2: Answer, a3: Answer, a4: Answer, a5: Answer)
    requires Redeemable(cfg, s, c)
    ensures var RedeemFetch(who, id, args, asked) := s.clients[c];
            var tool := s.rows[id].terms.tool;
            var ask := Ask(who.subject, who.actor, who.scope, Act, "can_invoke", args, Some(id));
            var v := DecideWith(cfg.policy, ask, tool, a5);
            var claiming := RedeemStep(cfg, RedeemStep(cfg, RedeemStep(cfg, s, c, a1), c, a2), c, a3);
            && c in claiming.clients && claiming.clients[c].RedeemClaim?
            && var t := RedeemStep(cfg, RedeemStep(cfg, claiming, c, a4), c, a5);
               && t.log == s.log + [Claimed(c, id, tool), Redeemed(c, who, tool, args, id, a5, v)]
               && t.rows == s.rows[id := s.rows[id].(status := Consumed, consumedAt := Some(s.clock))]
               && c in t.clients && t.clients[c] == Ended(v.reason)
  {
    RedeemReaches(cfg, s, c, a1, a2, a3);
    var RedeemFetch(who, id, args, asked) := s.clients[c];
    var claim := RedeemClaim(who, args, s.rows[id].terms.tool, s.rows[id], s.clock, s.clock);
    RedeemClaims(cfg, Goto(s, c, claim), c, a4, a5);
  }

  // ---- The way forward for gate and resolve ------------------------------------------------

  lemma GateParksStamp(cfg: Config, s: State, c: nat, answer: Answer, freshId: string)
    requires c in s.clients && s.clients[c].GateStamp?
    ensures var GateStamp(who, tool, args, why) := s.clients[c];
            var terms := Terms(freshId, who.subject, who.actor, who.depth, tool, cfg.hash(args), s.clock,
                               s.clock + cfg.ttl, why);
            GateStep(cfg, s, c, answer, freshId)
            == Goto(s, c, GateCreate(Request(terms, Pending, None, None, None, None)))
  {
  }

  lemma GateParksRow(cfg: Config, s: State, c: nat, answer: Answer, freshId: string)
    requires c in s.clients && s.clients[c].GateCreate? && s.clients[c].draft.terms.id !in s.rows
    ensures var draft := s.clients[c].draft;
            var t := GateStep(cfg, s, c, answer, freshId);
            && t.rows == s.rows[draft.terms.id := draft] && t.log == s.log + [Requested(c, draft.terms)]
            && t.clients == s.clients[c := Ended("pending")] && t.clock == s.clock
  {
  }

  /**
   * A gate call whose decision asks for approval parks one pending request under the identifier it drew, for exactly
   * this call, and no other row changes.
   */
  lemma GateParks(cfg: Config, s: State, c: nat, a1: Answer, a2: Answer, a3: Answer, freshId: string)
    requires c in s.clients && s.clients[c].GateAsk? && ValidRef(s.clients[c].tool, "tool") && freshId !in s.rows
    requires var GateAsk(who, tool, args) := s.clients[c];
             var ask := Ask(who.subject, who.actor, who.scope, Act, "can_invoke", args, None);
             DecideWith(cfg.policy, ask, tool, a1).outcome == RequireApprovalOutcome
    ensures var GateAsk(who, tool, args) := s.clients[c];
            var ask := Ask(who.subject, who.actor, who.scope, Act, "can_invoke", args, None);
            var v := DecideWith(cfg.policy, ask, tool, a1);
            var terms := Terms(freshId, who.subject, who.actor, who.depth, tool, cfg.hash(args), s.clock,
                               s.clock + cfg.ttl, v.reason);
            var asked := GateStep(cfg, s, c, a1, freshId);
            && c in asked.clients
            && var stamped := GateStep(cfg, asked, c, a2, freshId);
               && c in stamped.clients
               && var t := GateStep(cfg, stamped, c, a3, freshId);
                  && t.rows == s.rows[freshId := Request(terms, Pending, None, None, None, None)]
                  && t.log == s.log + [GateDecided(c, who, tool, args, v), Requested(c, terms)]
  {
    var GateAsk(who, tool, args) := s.clients[c];
    var asked := GateStep(cfg, s, c, a1, freshId);
    assert asked.clients[c].GateStamp? && asked.rows == s.rows && asked.clock == s.clock;
    GateParksStamp(cfg, asked, c, a2, freshId);
    GateParksRow(cfg, GateStep(cfg, asked, c, a2, freshId), c, a3, freshId);
  }

  /** A pending request, in date, and a resolver that is not its own subject (or self-approval is on). */
  predicate Resolvable(cfg: Config, s: State, c: nat) {
    && c in s.clients && s.clients[c].ResolveClock?
    && var ResolveClock(id, approver, approve, why) := s.clients[c];
       && id in s.rows && s.rows[id].status == Pending && s.rows[id].terms.id == id
       && s.clock <= s.rows[id].terms.expiresAt
       && ValidRef(approver, "user") && (approver == s.rows[id].terms.subject ==> cfg.selfApproval)
  }

  lemma ResolveReads(cfg: Config, s: State, c: nat, a1: Answer, a2: Answer)
    requires Resolvable(cfg, s, c)
    ensures var ResolveClock(id, approver, approve, why) := s.clients[c];
            ResolveStep(cfg, ResolveStep(cfg, s, c, a1), c, a2)
            == Goto(s, c, ResolveAsk(s.rows[id], approver, approve, why, s.clock))
  {
    var ResolveClock(id, approver, approve, why) := s.clients[c];
    var s1 := Goto(s, c, ResolveFetch(id, approver, approve, why, s.clock));
    var last := ResolveAsk(s.rows[id], approver, approve, why, s.clock);
    assert Goto(s1, c, last).clients == Goto(s, c, last).clients;
  }

  /** The engine related the approver to the tool, or the approver is the subject. */
  predicate Confirms(r: Request, approver: string, answer: Answer) {
    approver == r.terms.subject || answer == Related(true)
  }

  lemma ResolveIsAuthorized(cfg: Config, s: State, c: nat, answer: Answer)
    requires c in s.clients && s.clients[c].ResolveAsk? && ValidRef(s.clients[c].approver, "user")
    requires s.clients[c].approver == s.clients[c].copy.terms.subject ==> cfg.selfApproval
    ensures var ResolveAsk(r, approver, approve, why, now) := s.clients[c];
            var asked := if approver == r.terms.subject then None
                         else Some(Asked(approver, "approver", r.terms.tool, Related(true)));
            var t := ResolveStep(cfg, s, c, answer);
            if Confirms(r, approver, answer) then
              t == Goto(s.(log := s.log + [Authorized(c, r.terms.id, approver, asked)]), c,
                        ResolveReload(r.terms.id, approver, approve, why, now))
            else t == Goto(s, c, Ended("approver refused"))
  {
  }

  lemma ResolveWrites(cfg: Config, s: State, c: nat, a4: Answer, a5: Answer)
    requires c in s.clients && s.clients[c].ResolveReload? && s.clients[c].id in s.rows
    requires var ResolveReload(id, approver, approve, why, now) := s.clients[c];
             var r := s.rows[id];
             r.status == Pending && now <= r.terms.expiresAt && (approver == r.terms.subject ==> cfg.selfApproval)
    ensures var ResolveReload(id, approver, approve, why, now) := s.clients[c];
            var r := s.rows[id];
            var done := Request(r.terms, if approve then Approved else Rejected, Some(approver), Some(now), Some(why),
                                r.consumedAt);
            var t := ResolveStep(cfg, ResolveStep(cfg, s, c, a4), c, a5);
            && t.rows == s.rows[id := done]
            && t.log == s.log + [Resolved(c, id, r.terms.tool, approver, approve)]
  {
    var ResolveReload(id, approver, approve, why, now) := s.clients[c];
    var s1 := Goto(s, c, ResolveWrite(id, approver, approve, why, now));
    assert ResolveStep(cfg, s, c, a4) == s1;
  }

  /**
   * A resolver of a pending request in date is asked about and, if the engine relates it to the tool (or it is the
   * subject and may), resolves it as it was asked to, under its own name and clock; otherwise nothing is written.
   */
  lemma ResolveGoesThrough(cfg: Config, s: State, c: nat, a1: Answer, a2: Answer, a3: Answer, a4: Answer, a5: Answer)
    requires Resolvable(cfg, s, c)
    ensures var ResolveClock(id, approver, approve, why) := s.clients[c];
            var r := s.rows[id];
            var asking := ResolveStep(cfg, ResolveStep(cfg, s, c, a1), c, a2);
            && c in asking.clients
            && var told := ResolveStep(cfg, asking, c, a3);
               && told.rows == s.rows && c in told.clients
               && if !Confirms(r, approver, a3) then told.clients[c].Ended? && told.log == s.log
                  else
                    && told.clients[c].ResolveReload?
                    && var t := ResolveStep(cfg, ResolveStep(cfg, told, c, a4), c, a5);
                       && t.rows == s.rows[id := Request(r.terms, if approve then Approved else Rejected,
                                                         Some(approver), Some(s.clock), Some(why), r.consumedAt)]
                       && t.log[|s.log|..] == [told.log[|s.log|], Resolved(c, id, r.terms.tool, approver, approve)]
  {
    var ResolveClock(id, approver, approve, why) := s.clients[c];
    var r := s.rows[id];
    ResolveReads(cfg, s, c, a1, a2);
    var asking := Goto(s, c, ResolveAsk(r, approver, approve, why, s.clock));
    ResolveIsAuthorized(cfg, asking, c, a3);
    if Confirms(r, approver, a3) {
      ResolveWrites(cfg, ResolveStep(cfg, asking, c, a3), c, a4, a5);
    }
  }

  // ---- What a date that has passed does ----------------------------------------------------

  /** A sweep marks every pending request whose date is before its clock read, and touches no other row. */
  lemma SweepGoesThrough(cfg: Config, s: State, c: nat)
    requires c in s.clients && s.clients[c].SweepClock?
    ensures var read := SweepStep(s, c);
            && c in read.clients
            && var t := SweepStep(read, c);
               && t.rows.Keys == s.rows.Keys
               && forall id :: id in s.rows ==>
                    t.rows[id] == if s.rows[id].status == Pending && s.rows[id].terms.expiresAt < s.clock
                                  then s.rows[id].(status := Expired) else s.rows[id]
  {
  }

  /** A redeem of a pending or approved request past its date marks it EXPIRED and is refused for that. */
  lemma LateRedeemExpires(cfg: Config, s: State, c: nat, a1: Answer, a2: Answer)
    requires c in s.clients && s.clients[c].RedeemCheck?
    requires var RedeemCheck(_, _, _, r) := s.clients[c];
             && r.terms.id in s.rows && s.rows[r.terms.id].status in {Pending, Approved}
             && r.status in {Pending, Approved} && r.terms.expiresAt < s.clock
    ensures var id := s.clients[c].copy.terms.id;
            var seen := RedeemStep(cfg, s, c, a1);
            && c in seen.clients
            && var t := RedeemStep(cfg, seen, c, a2);
               && t.rows == s.rows[id := s.rows[id].(status := Expired)]
               && c in t.clients && t.clients[c] == Ended("approval_expired")
  {
    var RedeemCheck(who, args, target, copy) := s.clients[c];
    var seen := RedeemStep(cfg, s, c, a1);
    assert seen.clients[c] == RedeemExpire(who, args, target, copy) && seen.rows == s.rows;
  }
}
