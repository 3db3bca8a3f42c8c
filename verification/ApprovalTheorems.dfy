/** The promises of the approval protocol, over every run from an empty store. */
module ApprovalTheorems {
  import opened Wrappers
  import opened Refs
  import opened Scopes
  import opened Policies
  import opened Decider
  import opened Approvals
  import opened ApprovalProtocol
  import opened ApprovalSafety

  // ---- The life of a request ---------------------------------------------------------------

  /**
   * Whatever is done after any run, a request keeps its terms, CONSUMED is terminal although one expiry path writes
   * unconditionally, no status returns to PENDING, APPROVED is entered from PENDING only, and a rejection can only
   * become EXPIRED.
   */
  lemma LifeNeverGoesBack(cfg: Config, clock: int, before: seq<Move>, after: seq<Move>, id: string)
    requires id in Run(cfg, Init(clock), before).rows
    ensures var s := Run(cfg, Init(clock), before);
            var t := Run(cfg, s, after);
            && id in t.rows
            && t.rows[id].terms == s.rows[id].terms
            && (s.rows[id].status == Consumed ==> t.rows[id].status == Consumed)
            && (s.rows[id].status != Pending ==> t.rows[id].status != Pending)
            && (t.rows[id].status == Approved ==> s.rows[id].status in {Pending, Approved})
            && (s.rows[id].status == Rejected ==> t.rows[id].status in {Rejected, Expired})
            && (s.rows[id].status == Expired ==> t.rows[id].status == Expired)
  {
    var s := Run(cfg, Init(clock), before);
    assert Evolves(s, Run(cfg, s, after)) by {
      InitInv(cfg, clock);
      RunKeeps(cfg, Init(clock), before);
      RunKeeps(cfg, s, after);
    }
  }

  /** In every run a request is resolved at most once, consumed at most once, and consumed only if it was approved. */
  lemma ResolvedAndConsumedOnce(cfg: Config, clock: int, moves: seq<Move>, id: string)
    ensures var s := Run(cfg, Init(clock), moves);
            && Tally(s.log, ApprovalsOf(id)) + Tally(s.log, RejectionsOf(id)) <= 1
            && Tally(s.log, ClaimsOf(id)) <= Tally(s.log, ApprovalsOf(id))
            && (Tally(s.log, ClaimsOf(id)) == 1 <==> id in s.rows && s.rows[id].status == Consumed)
  {
    InitInv(cfg, clock);
    RunKeeps(cfg, Init(clock), moves);
    var s := Run(cfg, Init(clock), moves);
    assert LifeOk(s.rows, s.log, id);
  }

  /** A redeem whose expiry check saw the clock past the date never consumes anything. */
  lemma LateRedeemNeverClaims(cfg: Config, clock: int, moves: seq<Move>, c: nat)
    ensures var s := Run(cfg, Init(clock), moves);
            Tally(s.log, ExpiriesSeenBy(c)) == 0 || Tally(s.log, ClaimsBy(c)) == 0
  {
    InitInv(cfg, clock);
    RunKeeps(cfg, Init(clock), moves);
    var s := Run(cfg, Init(clock), moves);
    assert ExpiryOk(s.clients, s.log, c);
  }

  // ---- Dates -------------------------------------------------------------------------------

  /**
   * What a client knows of the clock: a redeem on its way to the claim passed its expiry check in time and reads the
   * clock again later, one on its way to expire the request saw the date pass, and a sweep works with a past time.
   */
  predicate InTime(clock: int, c: Client) {
    match c
    case RedeemExpire(_, _, _, copy) => copy.terms.expiresAt < clock
    case RedeemStamp(_, _, _, copy, checked) => checked <= copy.terms.expiresAt && checked <= clock
    case RedeemClaim(_, _, _, copy, checked, at) => checked <= copy.terms.expiresAt && checked <= at <= clock
    case SweepWrite(now) => now <= clock
    case _ => true
  }

  predicate AllInTime(s: State) {
    forall c :: c in s.clients ==> InTime(s.clock, s.clients[c])
  }

  /** The clock stands and the client is in time where it arrives. */
  predicate ArrivesInTime(s: State, t: State, c: nat) {
    t.clock == s.clock && c in t.clients && InTime(t.clock, t.clients[c])
  }

  lemma RedeemCheckInTime(cfg: Config, s: State, c: nat, answer: Answer)
    requires c in s.clients && s.clients[c].RedeemCheck?
    ensures ArrivesInTime(s, RedeemStep(cfg, s, c, answer), c)
  {
    var RedeemCheck(who, args, target, copy) := s.clients[c];
    assert Mismatch(cfg, copy, who, target, args).None? ==> copy.status == Approved;
  }

  /** Past the expiry, what the store says is never APPROVED, and the redeem ends. */
  lemma RedeemPastDateInTime(cfg: Config, s: State, c: nat, answer: Answer)
    requires c in s.clients && ClientOk(cfg, s, c, s.clients[c])
    requires s.clients[c].RedeemExpire? || s.clients[c].RedeemReread?
    ensures ArrivesInTime(s, RedeemStep(cfg, s, c, answer), c)
  {
  }

  lemma RedeemInTime(cfg: Config, s: State, c: nat, answer: Answer)
    requires Inv(cfg, s) && c in s.clients && IsRedeem(s.clients[c]) && InTime(s.clock, s.clients[c])
    ensures ArrivesInTime(s, RedeemStep(cfg, s, c, answer), c)
  {
    if s.clients[c].RedeemCheck? {
      RedeemCheckInTime(cfg, s, c, answer);
    } else if s.clients[c].RedeemExpire? || s.clients[c].RedeemReread? {
      assert ClientOk(cfg, s, c, s.clients[c]);
      RedeemPastDateInTime(cfg, s, c, answer);
    }
  }

  /** Only the client that moved changed. */
  predicate OnlyMoved(s: State, t: State, c: nat) {
    c in t.clients && forall d :: d in t.clients && d != c ==> d in s.clients && t.clients[d] == s.clients[d]
  }

  /** After the client's own step: the clock stands, nobody else moved, and the client is in time. */
  predicate MovedInTime(s: State, t: State, c: nat) {
    t.clock == s.clock && OnlyMoved(s, t, c) && InTime(t.clock, t.clients[c])
  }

  lemma GateInTime(cfg: Config, s: State, c: nat, answer: Answer, freshId: string)
    requires c in s.clients && IsGate(s.clients[c])
    ensures MovedInTime(s, GateStep(cfg, s, c, answer, freshId), c)
  {
  }

  lemma ResolveInTime(cfg: Config, s: State, c: nat, answer: Answer)
    requires c in s.clients && IsResolve(s.clients[c])
    ensures MovedInTime(s, ResolveStep(cfg, s, c, answer), c)
  {
    ResolverBecomesStale(cfg, s, c, answer);
  }

  lemma SweepInTime(s: State, c: nat)
    requires c in s.clients && !IsGate(s.clients[c]) && !IsResolve(s.clients[c]) && !IsRedeem(s.clients[c])
    ensures MovedInTime(s, SweepStep(s, c), c)
  {
  }

  lemma ClientInTime(cfg: Config, s: State, c: nat, answer: Answer, freshId: string)
    requires Inv(cfg, s) && c in s.clients && InTime(s.clock, s.clients[c])
    ensures MovedInTime(s, ClientStep(cfg, s, c, answer, freshId), c)
  {
    if IsGate(s.clients[c]) {
      GateInTime(cfg, s, c, answer, freshId);
    } else if IsResolve(s.clients[c]) {
      ResolveInTime(cfg, s, c, answer);
    } else if IsRedeem(s.clients[c]) {
      RedeemInTime(cfg, s, c, answer);
      RedeemerNeverStale(cfg, s, c, answer);
    } else {
      SweepInTime(s, c);
    }
  }

  lemma StepInTime(cfg: Config, s: State, m: Move)
    requires Inv(cfg, s) && AllInTime(s)
    ensures AllInTime(Step(cfg, s, m))
  {
    if m.Advance? && m.client in s.clients {
      var t := ClientStep(cfg, s, m.client, m.answer, m.freshId);
      assert MovedInTime(s, t, m.client) by {
        ClientInTime(cfg, s, m.client, m.answer, m.freshId);
      }
      assert AllInTime(t);
    } else {
      assert forall c :: c in s.clients ==> InTime(s.clock, s.clients[c]);
    }
  }

  lemma {:induction false} RunInTime(cfg: Config, clock: int, moves: seq<Move>)
    ensures AllInTime(Run(cfg, Init(clock), moves))
  {
    if moves == [] {
    } else {
      var front := moves[..|moves| - 1];
      RunInTime(cfg, clock, front);
      InitInv(cfg, clock);
      RunKeeps(cfg, Init(clock), front);
      StepInTime(cfg, Run(cfg, Init(clock), front), moves[|moves| - 1]);
    }
  }

  /** No request is expired before its date has passed. */
  predicate ExpiredPastDate(rows: Rows, clock: int) {
    forall id :: id in rows && rows[id].status == Expired ==> rows[id].terms.expiresAt < clock
  }

  lemma GateDates(cfg: Config, s: State, c: nat, answer: Answer, freshId: string)
    requires c in s.clients && IsGate(s.clients[c]) && ClientOk(cfg, s, c, s.clients[c])
    requires ExpiredPastDate(s.rows, s.clock)
    ensures ExpiredPastDate(GateStep(cfg, s, c, answer, freshId).rows, s.clock)
  {
  }

  lemma ResolveDates(cfg: Config, s: State, c: nat, answer: Answer)
    requires c in s.clients && IsResolve(s.clients[c]) && ClientOk(cfg, s, c, s.clients[c])
    requires ExpiredPastDate(s.rows, s.clock)
    ensures ExpiredPastDate(ResolveStep(cfg, s, c, answer).rows, s.clock)
  {
  }

  lemma RedeemDates(cfg: Config, s: State, c: nat, answer: Answer)
    requires c in s.clients && IsRedeem(s.clients[c]) && ClientOk(cfg, s, c, s.clients[c])
    requires ExpiredPastDate(s.rows, s.clock) && InTime(s.clock, s.clients[c])
    ensures ExpiredPastDate(RedeemStep(cfg, s, c, answer).rows, s.clock)
  {
  }

  lemma SweepDates(s: State, c: nat)
    requires c in s.clients && ExpiredPastDate(s.rows, s.clock) && InTime(s.clock, s.clients[c])
    ensures ExpiredPastDate(SweepStep(s, c).rows, s.clock)
  {
  }

  lemma StepDates(cfg: Config, s: State, m: Move)
    requires Inv(cfg, s) && AllInTime(s) && ExpiredPastDate(s.rows, s.clock)
    ensures ExpiredPastDate(Step(cfg, s, m).rows, Step(cfg, s, m).clock)
  {
    if m.Advance? && m.client in s.clients {
      var c := m.client;
      assert ClientOk(cfg, s, c, s.clients[c]) && InTime(s.clock, s.clients[c]);
      ClientInTime(cfg, s, c, m.answer, m.freshId);
      if IsGate(s.clients[c]) {
        GateDates(cfg, s, c, m.answer, m.freshId);
      } else if IsResolve(s.clients[c]) {
        ResolveDates(cfg, s, c, m.answer);
      } else if IsRedeem(s.clients[c]) {
        RedeemDates(cfg, s, c, m.answer);
      } else {
        SweepDates(s, c);
      }
    }
  }

  /** In every run, whichever client writes it, a request is EXPIRED only once the clock is past its date. */
  lemma {:induction false} ExpiredOnlyPastDate(cfg: Config, clock: int, moves: seq<Move>)
    ensures ExpiredPastDate(Run(cfg, Init(clock), moves).rows, Run(cfg, Init(clock), moves).clock)
  {
    if moves == [] {
    } else {
      var front := moves[..|moves| - 1];
      ExpiredOnlyPastDate(cfg, clock, front);
      RunInTime(cfg, clock, front);
      InitInv(cfg, clock);
      RunKeeps(cfg, Init(clock), front);
      StepDates(cfg, Run(cfg, Init(clock), front), moves[|moves| - 1]);
    }
  }

  /**
   * In every run, a claim that wins stamps a consumption time that passes the date by no more than the clock advanced
   * since this redeem's own expiry check, which was in time.
   */
  lemma ConsumedSoonAfterCheck(cfg: Config, clock: int, moves: seq<Move>, c: nat, answer: Answer, freshId: string)
    requires var s := Run(cfg, Init(clock), moves);
             && c in s.clients && s.clients[c].RedeemClaim? && s.clients[c].copy.terms.id in s.rows
             && s.rows[s.clients[c].copy.terms.id].status == Approved
    ensures var s := Run(cfg, Init(clock), moves);
            var t := Step(cfg, s, Advance(c, answer, freshId));
            var RedeemClaim(_, _, _, copy, checked, at) := s.clients[c];
            var id := copy.terms.id;
            && id in t.rows && t.rows[id].status == Consumed && t.rows[id].consumedAt == Some(at)
            && checked <= t.rows[id].terms.expiresAt && checked <= at <= t.clock
  {
    var s := Run(cfg, Init(clock), moves);
    RunInTime(cfg, clock, moves);
    InitInv(cfg, clock);
    RunKeeps(cfg, Init(clock), moves);
    assert ClientOk(cfg, s, c, s.clients[c]) && InTime(s.clock, s.clients[c]);
    assert Step(cfg, s, Advance(c, answer, freshId)) == RedeemStep(cfg, s, c, answer);
  }

  // ---- The history behind an ALLOW ---------------------------------------------------------

  /** The five positions of the log that lead to a redeemed ALLOW at `l`, in order. */
  datatype Trace = Trace(gate: nat, request: nat, authorization: nat, approval: nat, claim: nat, terms: Terms)

  ghost predicate History(cfg: Config, log: seq<Event>, l: nat, h: Trace) {
    && h.gate < h.request < h.authorization < h.approval < h.claim < l < |log|
    && log[l].Redeemed? && log[l].id == h.terms.id
    && SameCall(cfg, h.terms, log[l].who, log[l].tool, log[l].args)
    // a gate call by the same chain, for the same tool and arguments, that was decided REQUIRE_APPROVAL
    && log[h.request] == Requested(log[h.request].client, h.terms)
    && GatedAt(cfg, log, h.gate, log[h.request].client, h.terms)
    // the winning approval, by an approver the engine named for the tool, or by the subject with self-approval on
    && log[h.approval].Resolved? && log[h.approval].approve && log[h.approval].id == h.terms.id
    && AuthorizedAt(cfg, log, h.authorization, log[h.approval].client, h.terms, log[h.approval].approver)
    // the claim of this very redeem
    && log[h.claim] == Claimed(log[l].client, h.terms.id, h.terms.tool)
  }

  /** Every redeem that returns ALLOW has its whole history in the run, and a fresh scope, engine and policy pass. */
  lemma AllowHasHistory(cfg: Config, clock: int, moves: seq<Move>, l: nat) returns (h: Trace)
    requires l < |Run(cfg, Init(clock), moves).log|
    requires Run(cfg, Init(clock), moves).log[l].Redeemed?
    requires Run(cfg, Init(clock), moves).log[l].verdict.outcome == Allow
    ensures var log := Run(cfg, Init(clock), moves).log;
            var e := log[l];
            && History(cfg, log, l, h)
            && InScope(Ask(e.who.subject, e.who.actor, e.who.scope, Act, "can_invoke", e.args, Some(e.id)), e.tool)
            && e.answer == Related(true)
            && var q := Query(e.who.subject, e.who.actor, Act, e.tool, e.args, Some(e.id));
               cfg.policy.Some? ==> !Raises(cfg.policy.value, q) && Passes(cfg.policy.value, q)
  {
    var s := Run(cfg, Init(clock), moves);
    var e := s.log[l];
    assert RedeemOk(cfg, s, l) by {
      InitInv(cfg, clock);
      RunKeeps(cfg, Init(clock), moves);
    }
    h := HistoryOf(cfg, s, l);
    AllowNeedsAll(cfg.policy, AskOf(e.who, e.args, Some(e.id)), e.tool, e.answer);
  }

  lemma HistoryOf(cfg: Config, s: State, l: nat) returns (h: Trace)
    requires l < |s.log| && s.log[l].Redeemed? && RedeemOk(cfg, s, l)
    ensures History(cfg, s.log, l, h)
  {
    var log, e := s.log, s.log[l];
    var k: nat, t: Terms :| k < l && ClaimedAt(cfg, log, k, e.client, t) && t.id == e.id
                            && SameCall(cfg, t, e.who, e.tool, e.args);
    var a: nat :| a < k && ApprovedAt(cfg, log, a, t);
    var z: nat :| z < a && AuthorizedAt(cfg, log, z, log[a].client, t, log[a].approver);
    var q: nat :| q < z && RequestedAt(cfg, log, q, t);
    var g: nat :| g < q && GatedAt(cfg, log, g, log[q].client, t);
    h := Trace(g, q, z, a, k, t);
  }

  // ---- Conservation ------------------------------------------------------------------------

  /** The policy demands approval of this tool whatever the arguments. */
  ghost predicate DemandsTool(cfg: Config, tool: string) {
    cfg.policy.Some? && forall q: Query :: q.kind == Act && q.resource == tool ==> Demands(cfg.policy.value, q)
  }

  /** Redeems that consumed a request for the tool and have not decided yet. */
  function Deciding(clients: map<nat, Client>, tool: string): set<nat> {
    set c | c in clients && clients[c].RedeemDecide? && clients[c].target == tool
  }

  /** Requests for the tool that are approved and not consumed. */
  function Ready(rows: Rows, tool: string): set<string> {
    set id | id in rows && rows[id].status == Approved && rows[id].terms.tool == tool
  }

  predicate Conserved(s: State, tool: string) {
    && Tally(s.log, AllowsOn(tool)) + |Deciding(s.clients, tool)| <= Tally(s.log, ClaimsOn(tool))
    && Tally(s.log, ClaimsOn(tool)) + |Ready(s.rows, tool)| <= Tally(s.log, ApprovalsOn(tool))
  }

  lemma SetChange<T>(before: set<T>, after: set<T>, x: T)
    requires before - {x} == after - {x}
    ensures |after| - |before| == (if x in after then 1 else 0) - if x in before then 1 else 0
  {
    assert x in before ==> before == (before - {x}) + {x};
    assert x in after ==> after == (after - {x}) + {x};
    assert x !in before ==> before == before - {x};
    assert x !in after ==> after == after - {x};
  }

  lemma DecidingChanges(clients: map<nat, Client>, after: map<nat, Client>, c: nat, next: Client, tool: string)
    requires after == clients[c := next]
    ensures |Deciding(after, tool)| - |Deciding(clients, tool)| ==
            (if next.RedeemDecide? && next.target == tool then 1 else 0) - if c in Deciding(clients, tool) then 1 else 0
  {
    SetChange(Deciding(clients, tool), Deciding(after, tool), c);
  }

  lemma ReadyChanges(rows: Rows, after: Rows, id: string, tool: string)
    requires id in after && after == rows[id := after[id]]
    ensures |Ready(after, tool)| - |Ready(rows, tool)| ==
            (if after[id].status == Approved && after[id].terms.tool == tool then 1 else 0)
            - if id in Ready(rows, tool) then 1 else 0
  {
    SetChange(Ready(rows, tool), Ready(after, tool), id);
  }

  lemma SubsetCard<T>(a: set<T>, b: set<T>)
    requires a <= b
    ensures |a| <= |b|
  {
    assert b == a + (b - a);
  }

  /** Without an event, and with rows that only expire, the balance can only improve. */
  lemma QuietConserves(s: State, t: State, c: nat, next: Client, tool: string)
    requires Conserved(s, tool)
    requires t.log == s.log && t.clients == s.clients[c := next] && !next.RedeemDecide?
    requires OnlyExpires(s.rows, t.rows)
    ensures Conserved(t, tool)
  {
    DecidingChanges(s.clients, t.clients, c, next, tool);
    SubsetCard(Ready(t.rows, tool), Ready(s.rows, tool));
  }

  lemma NotedConserves(s: State, t: State, c: nat, e: Event, next: Client, tool: string)
    requires Conserved(s, tool)
    requires t.log == s.log + [e] && t.clients == s.clients[c := next] && t.rows == s.rows && !next.RedeemDecide?
    requires !e.Resolved? && !e.Claimed?
    requires Hit(AllowsOn(tool), e) ==> c in Deciding(s.clients, tool)
    ensures Conserved(t, tool)
  {
    TallySnoc(s.log, e);
    DecidingChanges(s.clients, t.clients, c, next, tool);
  }

  lemma MovedConserves(s: State, t: State, c: nat, e: Event, id0: string, next: Client, tool: string)
    requires Conserved(s, tool) && MoveStep(s, t, c, e, id0, next)
    requires e.Resolved? ==> e.tool == s.rows[id0].terms.tool
    requires e.Claimed? ==> e.tool == s.rows[id0].terms.tool && next.target == e.tool
    ensures Conserved(t, tool)
  {
    TallySnoc(s.log, e);
    DecidingChanges(s.clients, t.clients, c, next, tool);
    ReadyChanges(s.rows, t.rows, id0, tool);
  }

  /** Without an approval in its context, a tool whose approval is demanded is never allowed. */
  lemma GateNeverAllows(cfg: Config, who: Caller, tool: string, args: Args, answer: Answer)
    requires DemandsTool(cfg, tool)
    ensures ToolVerdict(cfg, who, tool, args, None, answer).outcome != Allow
  {
    DemandsNeverAllows(cfg.policy.value, QueryOf(AskOf(who, args, None), tool));
  }

  lemma GateConserves(cfg: Config, s: State, c: nat, answer: Answer, freshId: string, tool: string)
    requires Inv(cfg, s) && Conserved(s, tool) && DemandsTool(cfg, tool)
    requires c in s.clients && IsGate(s.clients[c])
    ensures Conserved(GateStep(cfg, s, c, answer, freshId), tool)
  {
    var t := GateStep(cfg, s, c, answer, freshId);
    assert ClientOk(cfg, s, c, s.clients[c]);
    match s.clients[c]
    case GateAsk(who, asked, args) =>
      if ValidRef(asked, "tool") {
        if asked == tool {
          GateNeverAllows(cfg, who, tool, args, answer);
        }
        NotedConserves(s, t, c, t.log[|s.log|], t.clients[c], tool);
      } else {
        QuietConserves(s, t, c, t.clients[c], tool);
      }
    case GateStamp(_, _, _, _) => QuietConserves(s, t, c, t.clients[c], tool);
    case GateCreate(draft) =>
      if draft.terms.id in s.rows {
        QuietConserves(s, t, c, t.clients[c], tool);
      } else {
        MovedConserves(s, t, c, Requested(c, draft.terms), draft.terms.id, t.clients[c], tool);
      }
  }

  /** The unconditional write, when it comes, only ever expires the row. */
  lemma PlainWriteOnlyExpires(cfg: Config, s: State, c: nat)
    requires Inv(cfg, s) && c in s.clients && s.clients[c].ResolveExpire?
    ensures OnlyExpires(s.rows, Update(s.rows, s.clients[c].copy.(status := Expired)))
  {
    assert ClientOk(cfg, s, c, s.clients[c]);
  }

  lemma ResolveWriteConserves(cfg: Config, s: State, c: nat, answer: Answer, tool: string)
    requires Conserved(s, tool) && c in s.clients && s.clients[c].ResolveWrite?
    ensures Conserved(ResolveStep(cfg, s, c, answer), tool)
  {
    var t, id := ResolveStep(cfg, s, c, answer), s.clients[c].id;
    if id in s.rows && s.rows[id].status == Pending {
      MovedConserves(s, t, c, t.log[|s.log|], id, t.clients[c], tool);
    } else {
      QuietConserves(s, t, c, t.clients[c], tool);
    }
  }

  lemma ResolveAskConserves(cfg: Config, s: State, c: nat, answer: Answer, tool: string)
    requires Conserved(s, tool) && c in s.clients && s.clients[c].ResolveAsk?
    ensures Conserved(ResolveStep(cfg, s, c, answer), tool)
  {
    var t, client := ResolveStep(cfg, s, c, answer), s.clients[c];
    match AuthorizeApprover(cfg, client.copy, client.approver, answer)
    case None =>
      assert t == Goto(s, c, t.clients[c]);
      QuietConserves(s, t, c, t.clients[c], tool);
    case Some(asked) =>
      var e := Authorized(c, client.copy.terms.id, client.approver, asked);
      assert t.log == s.log + [e];
      NotedConserves(s, t, c, e, t.clients[c], tool);
  }

  lemma ResolveReadConserves(cfg: Config, s: State, c: nat, answer: Answer, tool: string)
    requires Conserved(s, tool) && c in s.clients
    requires s.clients[c].ResolveClock? || s.clients[c].ResolveFetch? || s.clients[c].ResolveReload?
    ensures Conserved(ResolveStep(cfg, s, c, answer), tool)
  {
    var t := ResolveStep(cfg, s, c, answer);
    assert t == Goto(s, c, t.clients[c]);
    QuietConserves(s, t, c, t.clients[c], tool);
  }

  lemma ResolveConserves(cfg: Config, s: State, c: nat, answer: Answer, tool: string)
    requires Conserved(s, tool) && c in s.clients && IsResolve(s.clients[c])
    requires s.clients[c].ResolveExpire? ==>
               OnlyExpires(s.rows, Update(s.rows, s.clients[c].copy.(status := Expired)))
    ensures Conserved(ResolveStep(cfg, s, c, answer), tool)
  {
    var t, client := ResolveStep(cfg, s, c, answer), s.clients[c];
    if client.ResolveAsk? {
      ResolveAskConserves(cfg, s, c, answer, tool);
    } else if client.ResolveWrite? {
      ResolveWriteConserves(cfg, s, c, answer, tool);
    } else if client.ResolveExpire? {
      assert t == Goto(s.(rows := Update(s.rows, client.copy.(status := Expired))), c, Ended("not pending"));
      QuietConserves(s, t, c, Ended("not pending"), tool);
    } else {
      ResolveReadConserves(cfg, s, c, answer, tool);
    }
  }

  lemma ClaimMoves(cfg: Config, s: State, c: nat, answer: Answer, tool: string)
    requires Conserved(s, tool) && c in s.clients && s.clients[c].RedeemClaim?
    requires var client := s.clients[c];
             client.copy.terms.id in s.rows ==> client.target == s.rows[client.copy.terms.id].terms.tool
    ensures Conserved(RedeemStep(cfg, s, c, answer), tool)
  {
    var t, client := RedeemStep(cfg, s, c, answer), s.clients[c];
    var id := client.copy.terms.id;
    if id in s.rows && s.rows[id].status == Approved {
      var e, next := Claimed(c, id, s.rows[id].terms.tool), RedeemDecide(client.who, client.args, client.target, id);
      assert MoveStep(s, t, c, e, id, next);
      MovedConserves(s, t, c, e, id, next, tool);
    } else {
      assert t == Goto(s, c, t.clients[c]);
      QuietConserves(s, t, c, t.clients[c], tool);
    }
  }

  lemma ClaimConserves(cfg: Config, s: State, c: nat, answer: Answer, tool: string)
    requires Inv(cfg, s) && Conserved(s, tool)
    requires c in s.clients && s.clients[c].RedeemClaim?
    ensures Conserved(RedeemStep(cfg, s, c, answer), tool)
  {
    assert ClientOk(cfg, s, c, s.clients[c]);
    ClaimMoves(cfg, s, c, answer, tool);
  }

  lemma RedeemExpireConserves(cfg: Config, s: State, c: nat, answer: Answer, tool: string)
    requires Conserved(s, tool) && c in s.clients && s.clients[c].RedeemExpire?
    ensures Conserved(RedeemStep(cfg, s, c, answer), tool)
  {
    var t := RedeemStep(cfg, s, c, answer);
    assert OnlyExpires(s.rows, t.rows);
    assert t == Goto(s.(rows := t.rows), c, t.clients[c]);
    QuietConserves(s, t, c, t.clients[c], tool);
  }

  lemma RedeemRereadConserves(cfg: Config, s: State, c: nat, answer: Answer, tool: string)
    requires Conserved(s, tool) && c in s.clients && s.clients[c].RedeemReread?
    ensures Conserved(RedeemStep(cfg, s, c, answer), tool)
  {
    var t := RedeemStep(cfg, s, c, answer);
    assert t == Goto(s, c, t.clients[c]);
    QuietConserves(s, t, c, t.clients[c], tool);
  }

  lemma RedeemCheckConserves(cfg: Config, s: State, c: nat, answer: Answer, tool: string)
    requires Conserved(s, tool) && c in s.clients && s.clients[c].RedeemCheck?
    ensures Conserved(RedeemStep(cfg, s, c, answer), tool)
  {
    var t, client := RedeemStep(cfg, s, c, answer), s.clients[c];
    if client.copy.status in {Pending, Approved} && s.clock > client.copy.terms.expiresAt {
      NotedConserves(s, t, c, SawExpired(c, client.copy.terms.id), t.clients[c], tool);
    } else {
      assert t == Goto(s, c, t.clients[c]);
      QuietConserves(s, t, c, t.clients[c], tool);
    }
  }

  lemma RedeemDecideConserves(cfg: Config, s: State, c: nat, answer: Answer, tool: string)
    requires Conserved(s, tool) && c in s.clients && s.clients[c].RedeemDecide?
    ensures Conserved(RedeemStep(cfg, s, c, answer), tool)
  {
    var t := RedeemStep(cfg, s, c, answer);
    NotedConserves(s, t, c, t.log[|s.log|], t.clients[c], tool);
  }

  lemma RedeemReadConserves(cfg: Config, s: State, c: nat, answer: Answer, tool: string)
    requires Conserved(s, tool) && c in s.clients && (s.clients[c].RedeemFetch? || s.clients[c].RedeemStamp?)
    ensures Conserved(RedeemStep(cfg, s, c, answer), tool)
  {
    var t := RedeemStep(cfg, s, c, answer);
    assert t == Goto(s, c, t.clients[c]);
    QuietConserves(s, t, c, t.clients[c], tool);
  }

  lemma RedeemConserves(cfg: Config, s: State, c: nat, answer: Answer, tool: string)
    requires Inv(cfg, s) && Conserved(s, tool)
    requires c in s.clients && IsRedeem(s.clients[c])
    ensures Conserved(RedeemStep(cfg, s, c, answer), tool)
  {
    var client := s.clients[c];
    if client.RedeemClaim? {
      ClaimConserves(cfg, s, c, answer, tool);
    } else if client.RedeemExpire? {
      RedeemExpireConserves(cfg, s, c, answer, tool);
    } else if client.RedeemReread? {
      RedeemRereadConserves(cfg, s, c, answer, tool);
    } else if client.RedeemCheck? {
      RedeemCheckConserves(cfg, s, c, answer, tool);
    } else if client.RedeemDecide? {
      RedeemDecideConserves(cfg, s, c, answer, tool);
    } else {
      RedeemReadConserves(cfg, s, c, answer, tool);
    }
  }

  lemma AdvanceConserves(cfg: Config, s: State, c: nat, answer: Answer, freshId: string, tool: string)
    requires Inv(cfg, s) && Conserved(s, tool) && DemandsTool(cfg, tool) && c in s.clients
    ensures Conserved(ClientStep(cfg, s, c, answer, freshId), tool)
  {
    if IsGate(s.clients[c]) {
      GateConserves(cfg, s, c, answer, freshId, tool);
    } else if IsResolve(s.clients[c]) {
      if s.clients[c].ResolveExpire? {
        PlainWriteOnlyExpires(cfg, s, c);
      }
      ResolveConserves(cfg, s, c, answer, tool);
    } else if IsRedeem(s.clients[c]) {
      RedeemConserves(cfg, s, c, answer, tool);
    } else if !s.clients[c].Ended? {
      var t := SweepStep(s, c);
      QuietConserves(s, t, c, t.clients[c], tool);
    }
  }

  lemma StepConserves(cfg: Config, s: State, m: Move, tool: string)
    requires Inv(cfg, s) && Conserved(s, tool) && DemandsTool(cfg, tool)
    ensures Conserved(Step(cfg, s, m), tool)
  {
    var t := Step(cfg, s, m);
    match m
    case Tick(_) =>
    case Spawn(c, start) =>
      if c !in s.clients && IsStart(start) {
        QuietConserves(s, t, c, start, tool);
      }
    case Abort(c) =>
      if c in s.clients {
        QuietConserves(s, t, c, Ended("unavailable"), tool);
      }
    case Advance(c, answer, freshId) =>
      if c in s.clients {
        AdvanceConserves(cfg, s, c, answer, freshId, tool);
      }
  }

  lemma {:induction false} RunConserves(cfg: Config, clock: int, moves: seq<Move>, tool: string)
    requires DemandsTool(cfg, tool)
    ensures Conserved(Run(cfg, Init(clock), moves), tool)
  {
    if moves == [] {
    } else {
      var front := moves[..|moves| - 1];
      RunConserves(cfg, clock, front, tool);
      InitInv(cfg, clock);
      RunKeeps(cfg, Init(clock), front);
      StepConserves(cfg, Run(cfg, Init(clock), front), moves[|moves| - 1], tool);
    }
  }

  /**
   * On a tool whose approval is demanded, alone or inside composites, the ALLOW decisions of gate and redeem together
   * never outnumber the consumed requests, which never outnumber the approvals.
   */
  lemma AllowsNeverExceedApprovals(cfg: Config, clock: int, moves: seq<Move>, tool: string)
    requires DemandsTool(cfg, tool)
    ensures var log := Run(cfg, Init(clock), moves).log;
            Tally(log, AllowsOn(tool)) <= Tally(log, ClaimsOn(tool)) <= Tally(log, ApprovalsOn(tool))
  {
    RunConserves(cfg, clock, moves, tool);
  }

  // ---- When a rejection is overwritten -----------------------------------------------------

  lemma ResolveOnRejected(cfg: Config, s: State, c: nat, answer: Answer, id: string)
    requires c in s.clients && IsResolve(s.clients[c]) && id in s.rows && s.rows[id].status == Rejected
    ensures var t := ResolveStep(cfg, s, c, answer);
            && id in t.rows
            && (t.rows[id].status != Rejected <==> s.clients[c].ResolveExpire? && s.clients[c].copy.terms.id == id)
  {
  }

  lemma RedeemOnRejected(cfg: Config, s: State, c: nat, answer: Answer, id: string)
    requires c in s.clients && IsRedeem(s.clients[c]) && id in s.rows && s.rows[id].status == Rejected
    ensures var t := RedeemStep(cfg, s, c, answer);
            id in t.rows && t.rows[id] == s.rows[id]
  {
  }

  /** A rejected row changes exactly when a resolver that saw it pending past its date performs its plain write. */
  lemma RejectionChangesIff(cfg: Config, s: State, m: Move, id: string)
    requires id in s.rows && s.rows[id].status == Rejected
    ensures var t := Step(cfg, s, m);
            && id in t.rows
            && (t.rows[id].status != Rejected <==>
                && m.Advance? && m.client in s.clients
                && s.clients[m.client].ResolveExpire? && s.clients[m.client].copy.terms.id == id)
  {
    if m.Advance? && m.client in s.clients {
      if IsResolve(s.clients[m.client]) {
        ResolveOnRejected(cfg, s, m.client, m.answer, id);
      } else if IsRedeem(s.clients[m.client]) {
        RedeemOnRejected(cfg, s, m.client, m.answer, id);
      }
    }
  }

  /** No resolver is about to write back a copy of `id` that it read as pending past its date. */
  predicate NoStaleWriter(s: State, id: string) {
    forall c :: c in s.clients && s.clients[c].ResolveExpire? ==> s.clients[c].copy.terms.id != id
  }

  /** A resolver turns into a stale writer of `id` only while it reads the row as pending. */
  lemma NoNewStaleWriter(cfg: Config, s: State, m: Move, id: string)
    requires Inv(cfg, s) && id in s.rows && s.rows[id].status == Rejected && NoStaleWriter(s, id)
    ensures NoStaleWriter(Step(cfg, s, m), id)
  {
    var t := Step(cfg, s, m);
    forall c | c in t.clients && t.clients[c].ResolveExpire?
      ensures t.clients[c].copy.terms.id != id
    {
      if !(c in s.clients && t.clients[c] == s.clients[c]) {
        BecomesStaleWriter(cfg, s, m, c);
      }
    }
  }

  lemma ResolverBecomesStale(cfg: Config, s: State, c: nat, answer: Answer)
    requires c in s.clients && IsResolve(s.clients[c])
    ensures var t := ResolveStep(cfg, s, c, answer);
            && OnlyMoved(s, t, c)
            && (t.clients[c].ResolveExpire? ==>
                  && s.clients[c].ResolveReload? && s.clients[c].id in s.rows
                  && t.clients[c].copy == s.rows[s.clients[c].id] && t.clients[c].copy.status == Pending)
  {
  }

  lemma RedeemerNeverStale(cfg: Config, s: State, c: nat, answer: Answer)
    requires c in s.clients && IsRedeem(s.clients[c])
    ensures var t := RedeemStep(cfg, s, c, answer);
            && OnlyMoved(s, t, c)
            && !t.clients[c].ResolveExpire?
  {
  }

  lemma ResolverReadPending(cfg: Config, s: State, c: nat, answer: Answer)
    requires Inv(cfg, s) && c in s.clients && IsResolve(s.clients[c])
    requires c in ResolveStep(cfg, s, c, answer).clients && ResolveStep(cfg, s, c, answer).clients[c].ResolveExpire?
    ensures var copy := ResolveStep(cfg, s, c, answer).clients[c].copy;
            copy.terms.id in s.rows && s.rows[copy.terms.id].status == Pending
  {
    ResolverBecomesStale(cfg, s, c, answer);
    assert RowOk(cfg, s, s.clients[c].id);
  }

  lemma BecomesStaleWriter(cfg: Config, s: State, m: Move, c: nat)
    requires Inv(cfg, s) && c in Step(cfg, s, m).clients && Step(cfg, s, m).clients[c].ResolveExpire?
    requires !(c in s.clients && Step(cfg, s, m).clients[c] == s.clients[c])
    ensures var copy := Step(cfg, s, m).clients[c].copy;
            copy.terms.id in s.rows && s.rows[copy.terms.id].status == Pending
  {
    OnlyResolversGoStale(cfg, s, m, c);
    ResolverReadPending(cfg, s, c, m.answer);
  }

  lemma OnlyResolversGoStale(cfg: Config, s: State, m: Move, c: nat)
    requires c in Step(cfg, s, m).clients && Step(cfg, s, m).clients[c].ResolveExpire?
    requires !(c in s.clients && Step(cfg, s, m).clients[c] == s.clients[c])
    ensures m.Advance? && m.client == c && c in s.clients && IsResolve(s.clients[c])
    ensures Step(cfg, s, m) == ResolveStep(cfg, s, c, m.answer)
  {
    if m.Advance? && m.client in s.clients && IsResolve(s.clients[m.client]) {
      ResolverBecomesStale(cfg, s, m.client, m.answer);
    } else if m.Advance? && m.client in s.clients && IsRedeem(s.clients[m.client]) {
      RedeemerNeverStale(cfg, s, m.client, m.answer);
    }
  }

  lemma {:induction false} RejectionStays(cfg: Config, s: State, more: seq<Move>, id: string)
    requires Inv(cfg, s) && id in s.rows && s.rows[id].status == Rejected && NoStaleWriter(s, id)
    ensures var t := Run(cfg, s, more);
            id in t.rows && t.rows[id].status == Rejected && NoStaleWriter(t, id)
  {
    if more == [] {
    } else {
      var front, last := more[..|more| - 1], more[|more| - 1];
      RejectionStays(cfg, s, front, id);
      RunKeeps(cfg, s, front);
      RejectionChangesIff(cfg, Run(cfg, s, front), last, id);
      NoNewStaleWriter(cfg, Run(cfg, s, front), last, id);
    }
  }

  ghost predicate StaysRejected(cfg: Config, s: State, id: string) {
    forall more :: var t := Run(cfg, s, more); id in t.rows && t.rows[id].status == Rejected
  }

  /**
   * A rejection is final exactly when no resolver holds a copy that it read as pending past its date: then every
   * continuation keeps it, and otherwise some continuation expires it.
   */
  lemma RejectionIsFinalIff(cfg: Config, clock: int, moves: seq<Move>, id: string)
    requires var s := Run(cfg, Init(clock), moves);
             id in s.rows && s.rows[id].status == Rejected
    ensures StaysRejected(cfg, Run(cfg, Init(clock), moves), id) <==> NoStaleWriter(Run(cfg, Init(clock), moves), id)
  {
    var s := Run(cfg, Init(clock), moves);
    InitInv(cfg, clock);
    RunKeeps(cfg, Init(clock), moves);
    if NoStaleWriter(s, id) {
      forall more
        ensures var t := Run(cfg, s, more); id in t.rows && t.rows[id].status == Rejected
      {
        RejectionStays(cfg, s, more, id);
      }
    } else {
      var c :| c in s.clients && s.clients[c].ResolveExpire? && s.clients[c].copy.terms.id == id;
      var m := Advance(c, Related(true), "");
      RejectionChangesIff(cfg, s, m, id);
      assert [m][..0] == [];
      assert Run(cfg, s, []) == s;
      assert Run(cfg, s, [m]) == Step(cfg, s, m);
    }
  }

  lemma Extend(cfg: Config, clock: int, moves: seq<Move>, s: State, m: Move) returns (longer: seq<Move>, t: State)
    requires Run(cfg, Init(clock), moves) == s
    ensures longer == moves + [m] && t == Step(cfg, s, m) && Run(cfg, Init(clock), longer) == t
  {
    longer, t := moves + [m], Step(cfg, s, m);
    assert longer[..|moves|] == moves;
  }

  /** A gate call parks a request; two approvers named by the engine come to resolve it. */
  ghost predicate Parked(cfg: Config, who: Caller, tool: string, args: Args, no: string, yes: string) {
    && ValidRef(tool, "tool")
    && ToolVerdict(cfg, who, tool, args, None, Related(true)).outcome == RequireApprovalOutcome
    && ValidRef(no, "user") && no != who.subject
    && ValidRef(yes, "user") && yes != who.subject
    && cfg.ttl >= 0
  }

  /** The request the gate call parks at time 0. */
  function ParkedRequest(cfg: Config, who: Caller, tool: string, args: Args): Request {
    NewRequest(TermsFor(cfg, who, tool, args, ToolVerdict(cfg, who, tool, args, None, Related(true)).reason, 0, "r"))
  }

  /** The gate call has been decided, and has drawn up the request. */
  function Drafted(cfg: Config, who: Caller, tool: string, args: Args): State {
    var v := ToolVerdict(cfg, who, tool, args, None, Related(true));
    State(0, map[], map[0 := GateCreate(ParkedRequest(cfg, who, tool, args))], [GateDecided(0, who, tool, args, v)])
  }

  lemma DraftSteps(cfg: Config, who: Caller, tool: string, args: Args)
    requires ValidRef(tool, "tool")
    requires ToolVerdict(cfg, who, tool, args, None, Related(true)).outcome == RequireApprovalOutcome
    ensures var s1 := Step(cfg, Init(0), Spawn(0, GateAsk(who, tool, args)));
            var s2 := Step(cfg, s1, Advance(0, Related(true), "r"));
            Step(cfg, s2, Advance(0, Related(true), "r")) == Drafted(cfg, who, tool, args)
  {
    var v := ToolVerdict(cfg, who, tool, args, None, Related(true));
    var s1 := Step(cfg, Init(0), Spawn(0, GateAsk(who, tool, args)));
    assert s1 == State(0, map[], map[0 := GateAsk(who, tool, args)], []);
    var s2 := GateStep(cfg, s1, 0, Related(true), "r");
    assert s2.clients == map[0 := GateStamp(who, tool, args, v.reason)];
    assert s2.log == [GateDecided(0, who, tool, args, v)];
    assert s2 == Step(cfg, s1, Advance(0, Related(true), "r"));
    assert GateStep(cfg, s2, 0, Related(true), "r").clients
        == map[0 := GateCreate(ParkedRequest(cfg, who, tool, args))];
  }

  lemma ParkRun(cfg: Config, who: Caller, tool: string, args: Args, no: string, yes: string)
    returns (moves: seq<Move>, s: State)
    requires Parked(cfg, who, tool, args, no, yes)
    ensures Run(cfg, Init(0), moves) == s
    ensures s.clock == 0 && s.clients.Keys == {0}
    ensures s.rows == map["r" := ParkedRequest(cfg, who, tool, args)]
  {
    DraftSteps(cfg, who, tool, args);
    moves, s := Extend(cfg, 0, [], Init(0), Spawn(0, GateAsk(who, tool, args)));
    moves, s := Extend(cfg, 0, moves, s, Advance(0, Related(true), "r"));
    moves, s := Extend(cfg, 0, moves, s, Advance(0, Related(true), "r"));
    assert s == Drafted(cfg, who, tool, args);
    moves, s := Extend(cfg, 0, moves, s, Advance(0, Related(true), "r"));
    CreateStep(cfg, who, tool, args);
  }

  lemma CreateStep(cfg: Config, who: Caller, tool: string, args: Args)
    ensures var s := Step(cfg, Drafted(cfg, who, tool, args), Advance(0, Related(true), "r"));
            && s.clock == 0 && s.clients.Keys == {0}
            && s.rows == map["r" := ParkedRequest(cfg, who, tool, args)]
  {
    var s := Drafted(cfg, who, tool, args);
    assert Step(cfg, s, Advance(0, Related(true), "r")) == GateStep(cfg, s, 0, Related(true), "r");
  }

  /** A resolver starts and reads the clock. */
  lemma StartRun(cfg: Config, moves0: seq<Move>, s0: State, c: nat, approver: string, approve: bool)
    returns (moves: seq<Move>, s: State)
    requires Run(cfg, Init(0), moves0) == s0 && c !in s0.clients
    ensures Run(cfg, Init(0), moves) == s
    ensures s == Goto(s0, c, ResolveFetch("r", approver, approve, "", s0.clock))
  {
    moves, s := Extend(cfg, 0, moves0, s0, Spawn(c, ResolveClock("r", approver, approve, "")));
    moves, s := Extend(cfg, 0, moves, s, Advance(c, Related(true), ""));
    assert s.clients == s0.clients[c := ResolveFetch("r", approver, approve, "", s0.clock)];
  }

  /** It fetches the request, the engine names it approver, and it is about to read the request again. */
  lemma AuthorizeRun(cfg: Config, moves0: seq<Move>, s0: State, c: nat, approver: string, approve: bool, now: int)
    returns (moves: seq<Move>, s: State)
    requires Run(cfg, Init(0), moves0) == s0 && c in s0.clients
    requires s0.clients[c] == ResolveFetch("r", approver, approve, "", now)
    requires "r" in s0.rows && s0.rows["r"].terms.id == "r"
    requires ValidRef(approver, "user") && approver != s0.rows["r"].terms.subject
    ensures Run(cfg, Init(0), moves) == s
    ensures s.clock == s0.clock && s.rows == s0.rows
    ensures s.clients == s0.clients[c := ResolveReload("r", approver, approve, "", now)]
  {
    moves, s := Extend(cfg, 0, moves0, s0, Advance(c, Related(true), ""));
    assert s.clients[c] == ResolveAsk(s0.rows["r"], approver, approve, "", now);
    moves, s := Extend(cfg, 0, moves, s, Advance(c, Related(true), ""));
    assert s.clients == s0.clients[c := ResolveReload("r", approver, approve, "", now)];
  }

  /** Client 1 read the clock in time; client 2 read it past the date and saw the request still pending. */
  lemma TwoResolvers(cfg: Config, who: Caller, tool: string, args: Args, no: string, yes: string)
    returns (moves: seq<Move>, s: State)
    requires Parked(cfg, who, tool, args, no, yes)
    ensures Run(cfg, Init(0), moves) == s
    ensures s.rows == map["r" := ParkedRequest(cfg, who, tool, args)]
    ensures 1 in s.clients && s.clients[1] == ResolveFetch("r", no, false, "", 0)
    ensures 2 in s.clients && s.clients[2] == ResolveExpire(s.rows["r"], cfg.ttl + 1)
  {
    moves, s := ParkRun(cfg, who, tool, args, no, yes);
    moves, s := StartRun(cfg, moves, s, 1, no, false);
    moves, s := Extend(cfg, 0, moves, s, Tick(cfg.ttl + 1));
    moves, s := StartRun(cfg, moves, s, 2, yes, true);
    moves, s := AuthorizeRun(cfg, moves, s, 2, yes, true, cfg.ttl + 1);
    LateReload(cfg, s, yes, cfg.ttl + 1);
    moves, s := Extend(cfg, 0, moves, s, Advance(2, Related(true), ""));
  }

  /** The reload of client 2 finds the request pending past its date. */
  lemma LateReload(cfg: Config, s: State, yes: string, now: int)
    requires "r" in s.rows && s.rows["r"].status == Pending && now > s.rows["r"].terms.expiresAt
    requires 2 in s.clients && s.clients[2] == ResolveReload("r", yes, true, "", now)
    ensures Step(cfg, s, Advance(2, Related(true), "")) == Goto(s, 2, ResolveExpire(s.rows["r"], now))
  {
    assert Step(cfg, s, Advance(2, Related(true), "")) == ResolveStep(cfg, s, 2, Related(true));
  }

  /**
   * "A rejection is never overwritten" does not hold of the code: in this run the request is REJECTED, and the stale
   * resolver's plain write then makes it EXPIRED and erases who rejected it.
   */
  lemma RejectionOverwritten(cfg: Config, who: Caller, tool: string, args: Args, no: string, yes: string)
    returns (moves: seq<Move>, last: Move)
    requires Parked(cfg, who, tool, args, no, yes)
    ensures var s := Run(cfg, Init(0), moves);
            var t := Run(cfg, Init(0), moves + [last]);
            && "r" in s.rows && s.rows["r"].status == Rejected && s.rows["r"].resolvedBy == Some(no)
            && "r" in t.rows && t.rows["r"].status == Expired && t.rows["r"].resolvedBy == None
  {
    var s: State;
    moves, s := TwoResolvers(cfg, who, tool, args, no, yes);
    moves, s := AuthorizeRun(cfg, moves, s, 1, no, false, 0);
    RejectSteps(cfg, s, no);
    moves, s := Extend(cfg, 0, moves, s, Advance(1, Related(true), ""));
    moves, s := Extend(cfg, 0, moves, s, Advance(1, Related(true), ""));
    last := Advance(2, Related(true), "");
    var longer, t := Extend(cfg, 0, moves, s, last);
    OverwriteStep(cfg, s);
  }

  /** Client 1 sees the request pending and in time, and rejects it. */
  lemma RejectSteps(cfg: Config, s: State, no: string)
    requires "r" in s.rows && s.rows["r"].terms.id == "r" && s.rows["r"].status == Pending
    requires 0 <= s.rows["r"].terms.expiresAt && no != s.rows["r"].terms.subject
    requires 1 in s.clients && s.clients[1] == ResolveReload("r", no, false, "", 0)
    ensures var t := Step(cfg, Step(cfg, s, Advance(1, Related(true), "")), Advance(1, Related(true), ""));
            && "r" in t.rows && t.rows["r"].status == Rejected && t.rows["r"].resolvedBy == Some(no)
            && forall c :: c != 1 ==>
                 (c in t.clients <==> c in s.clients) && (c in s.clients ==> t.clients[c] == s.clients[c])
  {
    var u := ResolveStep(cfg, s, 1, Related(true));
    assert u == Goto(s, 1, ResolveWrite("r", no, false, "", 0));
    assert Step(cfg, s, Advance(1, Related(true), "")) == u;
    assert Step(cfg, u, Advance(1, Related(true), "")) == ResolveStep(cfg, u, 1, Related(true));
  }

  /** Client 2 writes back the copy that it read while the request was pending. */
  lemma OverwriteStep(cfg: Config, s: State)
    requires 2 in s.clients && s.clients[2].ResolveExpire?
    requires s.clients[2].copy.terms.id == "r" && s.clients[2].copy.resolvedBy == None && "r" in s.rows
    ensures var t := Step(cfg, s, Advance(2, Related(true), ""));
            "r" in t.rows && t.rows["r"].status == Expired && t.rows["r"].resolvedBy == None
  {
    assert Step(cfg, s, Advance(2, Related(true), "")) == ResolveStep(cfg, s, 2, Related(true));
  }
}
