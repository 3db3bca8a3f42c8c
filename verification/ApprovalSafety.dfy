/** What holds in every interleaving of the approval protocol. */
module ApprovalSafety {
  import opened Wrappers
  import opened Refs
  import opened Policies
  import opened Decider
  import opened Approvals
  import opened ApprovalProtocol

  // ---- Counting events ---------------------------------------------------------------------

  datatype Measure =
    | ApprovalsOf(id: string)
    | RejectionsOf(id: string)
    | ClaimsOf(id: string)
    | ExpiriesSeenBy(client: nat)
    | ClaimsBy(client: nat)
    | ApprovalsOn(tool: string)
    | ClaimsOn(tool: string)
    | AllowsOn(tool: string)

  predicate Hit(m: Measure, e: Event) {
    match m
    case ApprovalsOf(id) => e.Resolved? && e.id == id && e.approve
    case RejectionsOf(id) => e.Resolved? && e.id == id && !e.approve
    case ClaimsOf(id) => e.Claimed? && e.id == id
    case ExpiriesSeenBy(c) => e.SawExpired? && e.client == c
    case ClaimsBy(c) => e.Claimed? && e.client == c
    case ApprovalsOn(tool) => e.Resolved? && e.tool == tool && e.approve
    case ClaimsOn(tool) => e.Claimed? && e.tool == tool
    case AllowsOn(tool) => (e.GateDecided? || e.Redeemed?) && e.tool == tool && e.verdict.outcome == Allow
  }

  /** How many events of the log hit the measure. */
  function Tally(log: seq<Event>, m: Measure): nat {
    if log == [] then 0
    else Tally(log[..|log| - 1], m) + if Hit(m, log[|log| - 1]) then 1 else 0
  }

  lemma TallySnoc(log: seq<Event>, e: Event)
    ensures forall m :: Tally(log + [e], m) == Tally(log, m) + if Hit(m, e) then 1 else 0
  {
    assert (log + [e])[..|log|] == log;
  }

  // ---- The life of one request -------------------------------------------------------------

  /** Where a status can lead, in any number of steps. */
  predicate Later(a: Status, b: Status) {
    a == b || a == Pending || (a == Approved && b in {Expired, Consumed}) || (a == Rejected && b == Expired)
  }

  /** What one step keeps of the rest of the state. */
  predicate Evolves(s: State, t: State) {
    && s.clock <= t.clock
    && (forall id :: id in s.rows ==>
          id in t.rows && t.rows[id].terms == s.rows[id].terms && Later(s.rows[id].status, t.rows[id].status))
    && s.log <= t.log
  }

  /** The status of a request is exactly its resolutions and its consumption so far. */
  predicate LifeOk(rows: Rows, log: seq<Event>, id: string) {
    var a, r, c := Tally(log, ApprovalsOf(id)), Tally(log, RejectionsOf(id)), Tally(log, ClaimsOf(id));
    if id !in rows then a == 0 && r == 0 && c == 0
    else
      match rows[id].status
      case Pending => a == 0 && r == 0 && c == 0
      case Approved => a == 1 && r == 0 && c == 0
      case Rejected => a == 0 && r == 1 && c == 0
      case Expired => a + r <= 1 && c == 0
      case Consumed => a == 1 && r == 0 && c == 1
  }

  // ---- The evidence behind each step -------------------------------------------------------

  /** Position `g`: a gate call on these terms was decided REQUIRE_APPROVAL. */
  predicate GatedAt(cfg: Config, log: seq<Event>, g: nat, client: nat, t: Terms) {
    && g < |log| && log[g].GateDecided? && log[g].client == client
    && SameCall(cfg, t, log[g].who, log[g].tool, log[g].args)
    && log[g].verdict.outcome == RequireApprovalOutcome
  }

  ghost predicate RequestedAt(cfg: Config, log: seq<Event>, q: nat, t: Terms) {
    && q < |log| && log[q].Requested? && log[q].terms == t
    && exists g: nat :: g < q && GatedAt(cfg, log, g, log[q].client, t)
  }

  /** Position `z`: the engine named the approver for the tool, or the subject approves with self-approval on. */
  ghost predicate AuthorizedAt(cfg: Config, log: seq<Event>, z: nat, client: nat, t: Terms, approver: string) {
    && z < |log| && log[z].Authorized? && log[z].client == client && log[z].id == t.id && log[z].approver == approver
    && ValidRef(approver, "user")
    && (if approver == t.subject then cfg.selfApproval
        else log[z].asked == Some(Asked(approver, APPROVER_RELATION, t.tool, Related(true))))
    && exists q: nat :: q < z && RequestedAt(cfg, log, q, t)
  }

  ghost predicate ApprovedAt(cfg: Config, log: seq<Event>, a: nat, t: Terms) {
    && a < |log| && log[a].Resolved? && log[a].approve && log[a].id == t.id && log[a].tool == t.tool
    && exists z: nat :: z < a && AuthorizedAt(cfg, log, z, log[a].client, t, log[a].approver)
  }

  ghost predicate ClaimedAt(cfg: Config, log: seq<Event>, k: nat, client: nat, t: Terms) {
    && k < |log| && log[k] == Claimed(client, t.id, t.tool)
    && exists a: nat :: a < k && ApprovedAt(cfg, log, a, t)
  }

  ghost predicate WasGated(cfg: Config, log: seq<Event>, client: nat, t: Terms) {
    exists g: nat :: GatedAt(cfg, log, g, client, t)
  }

  ghost predicate WasRequested(cfg: Config, log: seq<Event>, t: Terms) {
    exists q: nat :: RequestedAt(cfg, log, q, t)
  }

  ghost predicate WasAuthorized(cfg: Config, log: seq<Event>, client: nat, t: Terms, approver: string) {
    exists z: nat :: AuthorizedAt(cfg, log, z, client, t, approver)
  }

  ghost predicate WasApproved(cfg: Config, log: seq<Event>, t: Terms) {
    exists a: nat :: ApprovedAt(cfg, log, a, t)
  }

  ghost predicate WasClaimed(cfg: Config, log: seq<Event>, client: nat, t: Terms) {
    exists k: nat :: ClaimedAt(cfg, log, k, client, t)
  }

  /** Evidence is never lost: it lies in a prefix of the log. */
  lemma RequestedGrows(cfg: Config, log: seq<Event>, more: seq<Event>, q: nat, t: Terms)
    requires log <= more && RequestedAt(cfg, log, q, t)
    ensures RequestedAt(cfg, more, q, t)
  {
    var g: nat :| g < q && GatedAt(cfg, log, g, log[q].client, t);
    assert GatedAt(cfg, more, g, more[q].client, t);
  }

  lemma AuthorizedGrows(cfg: Config, log: seq<Event>, more: seq<Event>, z: nat, client: nat, t: Terms, approver: string)
    requires log <= more && AuthorizedAt(cfg, log, z, client, t, approver)
    ensures AuthorizedAt(cfg, more, z, client, t, approver)
  {
    var q: nat :| q < z && RequestedAt(cfg, log, q, t);
    RequestedGrows(cfg, log, more, q, t);
  }

  lemma ApprovedGrows(cfg: Config, log: seq<Event>, more: seq<Event>, a: nat, t: Terms)
    requires log <= more && ApprovedAt(cfg, log, a, t)
    ensures ApprovedAt(cfg, more, a, t)
  {
    var z: nat :| z < a && AuthorizedAt(cfg, log, z, log[a].client, t, log[a].approver);
    AuthorizedGrows(cfg, log, more, z, log[a].client, t, log[a].approver);
  }

  lemma ClaimedGrows(cfg: Config, log: seq<Event>, more: seq<Event>, k: nat, client: nat, t: Terms)
    requires log <= more && ClaimedAt(cfg, log, k, client, t)
    ensures ClaimedAt(cfg, more, k, client, t)
  {
    var a: nat :| a < k && ApprovedAt(cfg, log, a, t);
    ApprovedGrows(cfg, log, more, a, t);
  }

  lemma EvidenceGrows(cfg: Config, log: seq<Event>, more: seq<Event>, client: nat, t: Terms, approver: string)
    requires log <= more
    ensures WasGated(cfg, log, client, t) ==> WasGated(cfg, more, client, t)
    ensures WasRequested(cfg, log, t) ==> WasRequested(cfg, more, t)
    ensures WasAuthorized(cfg, log, client, t, approver) ==> WasAuthorized(cfg, more, client, t, approver)
    ensures WasApproved(cfg, log, t) ==> WasApproved(cfg, more, t)
    ensures WasClaimed(cfg, log, client, t) ==> WasClaimed(cfg, more, client, t)
  {
    if WasGated(cfg, log, client, t) {
      var g: nat :| GatedAt(cfg, log, g, client, t);
      assert GatedAt(cfg, more, g, client, t);
    }
    if WasRequested(cfg, log, t) {
      var q: nat :| RequestedAt(cfg, log, q, t);
      RequestedGrows(cfg, log, more, q, t);
    }
    if WasAuthorized(cfg, log, client, t, approver) {
      var z: nat :| AuthorizedAt(cfg, log, z, client, t, approver);
      AuthorizedGrows(cfg, log, more, z, client, t, approver);
    }
    if WasApproved(cfg, log, t) {
      var a: nat :| ApprovedAt(cfg, log, a, t);
      ApprovedGrows(cfg, log, more, a, t);
    }
    if WasClaimed(cfg, log, client, t) {
      var k: nat :| ClaimedAt(cfg, log, k, client, t);
      ClaimedGrows(cfg, log, more, k, client, t);
    }
  }

  // ---- Invariant ---------------------------------------------------------------------------

  ghost predicate RowOk(cfg: Config, s: State, id: string)
    requires id in s.rows
  {
    var r := s.rows[id];
    && r.terms.id == id
    && WasRequested(cfg, s.log, r.terms)
    && (r.status == Approved ==> WasApproved(cfg, s.log, r.terms))
  }

  predicate CopyOk(s: State, copy: Request) {
    copy.terms.id in s.rows && s.rows[copy.terms.id].terms == copy.terms
  }

  /** What a client may rely on at each of its stops, whatever the others did since. */
  ghost predicate ClientOk(cfg: Config, s: State, c: nat, client: Client) {
    match client
    case GateStamp(who, tool, args, why) =>
      forall now, id :: WasGated(cfg, s.log, c, TermsFor(cfg, who, tool, args, why, now, id))
    case GateCreate(draft) => draft.status == Pending && WasGated(cfg, s.log, c, draft.terms)
    case ResolveFetch(_, _, _, _, now) => now <= s.clock
    case ResolveAsk(copy, _, _, _, now) => CopyOk(s, copy) && now <= s.clock
    case ResolveReload(id, approver, _, _, now) =>
      id in s.rows && now <= s.clock && WasAuthorized(cfg, s.log, c, s.rows[id].terms, approver)
    case ResolveWrite(id, approver, _, _, _) => id in s.rows && WasAuthorized(cfg, s.log, c, s.rows[id].terms, approver)
    case ResolveExpire(copy, now) => CopyOk(s, copy) && copy.terms.expiresAt < now <= s.clock
    case RedeemCheck(_, _, _, copy) =>
      CopyOk(s, copy) && (copy.status == Approved ==> s.rows[copy.terms.id].status != Pending)
    case RedeemExpire(_, _, _, copy) => CopyOk(s, copy)
    case RedeemReread(_, _, _, copy) => CopyOk(s, copy) && s.rows[copy.terms.id].status !in {Pending, Approved}
    case RedeemStamp(who, args, target, copy, _) =>
      CopyOk(s, copy) && s.rows[copy.terms.id].status != Pending && SameCall(cfg, copy.terms, who, target, args)
    case RedeemClaim(who, args, target, copy, _, _) =>
      CopyOk(s, copy) && s.rows[copy.terms.id].status != Pending && SameCall(cfg, copy.terms, who, target, args)
    case RedeemDecide(who, args, target, id) =>
      && id in s.rows && SameCall(cfg, s.rows[id].terms, who, target, args)
      && WasClaimed(cfg, s.log, c, s.rows[id].terms)
    case _ => true
  }

  /** Past the checks, on the way to the compare-and-set. */
  predicate Claiming(c: Client) {
    c.RedeemStamp? || c.RedeemClaim?
  }

  /** While some resolver is about to write EXPIRED unconditionally, no one has consumed the request or can. */
  predicate NoRace(rows: Rows, clients: map<nat, Client>) {
    && (forall x :: x in clients && clients[x].ResolveExpire? && clients[x].copy.terms.id in rows ==>
          rows[clients[x].copy.terms.id].status != Consumed)
    && (forall x, y :: x in clients && clients[x].ResolveExpire? && y in clients && Claiming(clients[y]) ==>
          clients[x].copy.terms.id != clients[y].copy.terms.id)
  }

  /** A redeem that saw the request expired makes no claim, and the other way round. */
  predicate ExpiryOk(clients: map<nat, Client>, log: seq<Event>, c: nat) {
    var seen, claims := Tally(log, ExpiriesSeenBy(c)), Tally(log, ClaimsBy(c));
    if c !in clients then seen == 0 && claims == 0
    else
      match clients[c]
      case RedeemExpire(_, _, _, _) => claims == 0
      case RedeemReread(_, _, _, _) => claims == 0
      case RedeemDecide(_, _, _, _) => seen == 0
      case Ended(_) => seen == 0 || claims == 0
      case _ => seen == 0 && claims == 0
  }

  /** A redeem that decided has its own claim before it, for the same call. */
  ghost predicate RedeemOk(cfg: Config, s: State, l: nat)
    requires l < |s.log|
  {
    s.log[l].Redeemed? ==>
      && s.log[l].verdict
         == ToolVerdict(cfg, s.log[l].who, s.log[l].tool, s.log[l].args, Some(s.log[l].id), s.log[l].answer)
      && exists k: nat, t: Terms :: k < l && ClaimedAt(cfg, s.log, k, s.log[l].client, t) && t.id == s.log[l].id
                                 && SameCall(cfg, t, s.log[l].who, s.log[l].tool, s.log[l].args)
  }

  ghost predicate Inv(cfg: Config, s: State) {
    && (forall id :: LifeOk(s.rows, s.log, id))
    && (forall id :: id in s.rows ==> RowOk(cfg, s, id))
    && (forall c :: c in s.clients ==> ClientOk(cfg, s, c, s.clients[c]))
    && NoRace(s.rows, s.clients)
    && (forall c :: ExpiryOk(s.clients, s.log, c))
    && (forall l :: 0 <= l < |s.log| ==> RedeemOk(cfg, s, l))
  }

  // ---- Stability ---------------------------------------------------------------------------

  lemma ClientStable(cfg: Config, s: State, t: State, c: nat, client: Client)
    requires Evolves(s, t) && ClientOk(cfg, s, c, client)
    ensures ClientOk(cfg, t, c, client)
  {
    match client
    case GateStamp(who, tool, args, why) =>
      forall now, id
        ensures WasGated(cfg, t.log, c, TermsFor(cfg, who, tool, args, why, now, id))
      {
        EvidenceGrows(cfg, s.log, t.log, c, TermsFor(cfg, who, tool, args, why, now, id), "");
      }
    case GateCreate(draft) => EvidenceGrows(cfg, s.log, t.log, c, draft.terms, "");
    case ResolveReload(id, approver, _, _, _) => EvidenceGrows(cfg, s.log, t.log, c, s.rows[id].terms, approver);
    case ResolveWrite(id, approver, _, _, _) => EvidenceGrows(cfg, s.log, t.log, c, s.rows[id].terms, approver);
    case RedeemDecide(_, _, _, id) => EvidenceGrows(cfg, s.log, t.log, c, s.rows[id].terms, "");
    case _ =>
  }

  lemma RowStable(cfg: Config, s: State, t: State, id: string)
    requires Evolves(s, t) && id in s.rows && RowOk(cfg, s, id)
    requires t.rows[id].status == Approved ==> s.rows[id].status == Approved
    ensures RowOk(cfg, t, id)
  {
    EvidenceGrows(cfg, s.log, t.log, 0, s.rows[id].terms, "");
  }

  lemma RedeemStable(cfg: Config, s: State, t: State, l: nat)
    requires s.log <= t.log && l < |s.log| && RedeemOk(cfg, s, l)
    ensures RedeemOk(cfg, t, l)
  {
    if s.log[l].Redeemed? {
      var k: nat, terms: Terms :| k < l && ClaimedAt(cfg, s.log, k, s.log[l].client, terms) && terms.id == s.log[l].id
                                  && SameCall(cfg, terms, s.log[l].who, s.log[l].tool, s.log[l].args);
      ClaimedGrows(cfg, s.log, t.log, k, s.log[l].client, terms);
    }
  }

  /** The parts of the invariant that one step has to re-establish. */
  lemma Assemble(cfg: Config, s: State, t: State, c: nat, next: Client)
    requires Inv(cfg, s) && Evolves(s, t) && t.clients == s.clients[c := next]
    requires forall id :: LifeOk(t.rows, t.log, id)
    requires forall id :: id in t.rows ==> RowOk(cfg, t, id)
    requires ClientOk(cfg, t, c, next)
    requires NoRace(t.rows, t.clients)
    requires forall d :: ExpiryOk(t.clients, t.log, d)
    requires forall l :: |s.log| <= l < |t.log| ==> RedeemOk(cfg, t, l)
    ensures Inv(cfg, t)
  {
    forall d | d in s.clients && d != c {
      ClientStable(cfg, s, t, d, s.clients[d]);
    }
    forall l | 0 <= l < |t.log|
      ensures RedeemOk(cfg, t, l)
    {
      if l < |s.log| {
        RedeemStable(cfg, s, t, l);
      }
    }
  }

  /** What the client's own counters allow it to become without an event. */
  predicate QuietNext(client: Client, next: Client) {
    match next
    case RedeemExpire(_, _, _, _) => false
    case RedeemReread(_, _, _, _) => client.RedeemExpire? || client.RedeemReread?
    case RedeemDecide(_, _, _, _) => false
    case Ended(_) => true
    case _ => !client.RedeemExpire? && !client.RedeemReread? && !client.RedeemDecide? && !client.Ended?
  }

  lemma ExpiryQuiet(clients: map<nat, Client>, after: map<nat, Client>, log: seq<Event>, c: nat, next: Client)
    requires forall d :: ExpiryOk(clients, log, d)
    requires after == clients[c := next]
    requires if c in clients then QuietNext(clients[c], next) else IsStart(next)
    ensures forall d :: ExpiryOk(after, log, d)
  {
    assert ExpiryOk(clients, log, c);
    forall d
      ensures ExpiryOk(after, log, d)
    {
      assert ExpiryOk(clients, log, d);
    }
  }

  lemma ExpiryNoted(
    clients: map<nat, Client>, after: map<nat, Client>, log: seq<Event>, more: seq<Event>, c: nat, e: Event,
    next: Client)
    requires forall d :: ExpiryOk(clients, log, d)
    requires after == clients[c := next] && more == log + [e]
    requires c in clients
    requires e.SawExpired? ==> e.client == c && clients[c].RedeemCheck? && next.RedeemExpire?
    requires e.Claimed? ==> e.client == c && clients[c].RedeemClaim? && next.RedeemDecide?
    requires !e.SawExpired? && !e.Claimed? ==> QuietNext(clients[c], next)
    ensures forall d :: ExpiryOk(after, more, d)
  {
    TallySnoc(log, e);
    assert ExpiryOk(clients, log, c);
    forall d
      ensures ExpiryOk(after, more, d)
    {
      assert ExpiryOk(clients, log, d);
    }
  }

  lemma LifeNoted(rows: Rows, log: seq<Event>, more: seq<Event>, e: Event)
    requires forall id :: LifeOk(rows, log, id)
    requires more == log + [e]
    requires !e.Resolved? && !e.Claimed?
    ensures forall id :: LifeOk(rows, more, id)
  {
    TallySnoc(log, e);
    forall id
      ensures LifeOk(rows, more, id)
    {
      assert LifeOk(rows, log, id);
    }
  }

  /** The recorded move of one row: created, resolved or consumed. */
  predicate RecordedMove(rows: Rows, after: Rows, e: Event, id0: string)
    requires id0 in after
  {
    match e
    case Requested(_, _) => id0 !in rows && after[id0].status == Pending
    case Resolved(_, id, _, _, approve) =>
      && id == id0 && id0 in rows && after[id0].terms == rows[id0].terms
      && rows[id0].status == Pending && after[id0].status == if approve then Approved else Rejected
    case Claimed(_, id, _) =>
      && id == id0 && id0 in rows && after[id0].terms == rows[id0].terms
      && rows[id0].status == Approved && after[id0].status == Consumed
    case _ => false
  }

  lemma LifeMoved(rows: Rows, after: Rows, log: seq<Event>, more: seq<Event>, e: Event, id0: string)
    requires forall id :: LifeOk(rows, log, id)
    requires id0 in after && after == rows[id0 := after[id0]] && more == log + [e]
    requires RecordedMove(rows, after, e, id0)
    ensures forall id :: LifeOk(after, more, id)
  {
    TallySnoc(log, e);
    forall id
      ensures LifeOk(after, more, id)
    {
      assert LifeOk(rows, log, id);
    }
  }

  /** Some rows become EXPIRED, none of them consumed. */
  predicate OnlyExpires(rows: Rows, after: Rows) {
    && after.Keys == rows.Keys
    && forall id :: id in after ==>
         || after[id] == rows[id]
         || (after[id].terms == rows[id].terms && after[id].status == Expired && rows[id].status != Consumed)
  }

  lemma LifeExpired(rows: Rows, after: Rows, log: seq<Event>)
    requires forall id :: LifeOk(rows, log, id)
    requires OnlyExpires(rows, after)
    ensures forall id :: LifeOk(after, log, id)
  {
    forall id
      ensures LifeOk(after, log, id)
    {
      assert LifeOk(rows, log, id);
    }
  }

  /** A client that stops holding a dangerous copy, while no row becomes consumed, opens no race. */
  lemma RaceShrinks(rows: Rows, after: Rows, clients: map<nat, Client>, c: nat, next: Client)
    requires NoRace(rows, clients)
    requires !next.ResolveExpire? && !Claiming(next)
    requires forall x :: x in clients && clients[x].ResolveExpire? ==> clients[x].copy.terms.id in rows
    requires forall id :: id in rows && id in after && after[id].status == Consumed ==>
               || rows[id].status == Consumed
               || (c in clients && Claiming(clients[c]) && clients[c].copy.terms.id == id)
    ensures NoRace(after, clients[c := next])
  {
  }

  lemma HeldCopiesExist(cfg: Config, s: State)
    requires Inv(cfg, s)
    ensures forall x :: x in s.clients && s.clients[x].ResolveExpire? ==> s.clients[x].copy.terms.id in s.rows
  {
    forall x | x in s.clients && s.clients[x].ResolveExpire?
      ensures s.clients[x].copy.terms.id in s.rows
    {
      assert ClientOk(cfg, s, x, s.clients[x]);
    }
  }

  lemma RowsStable(cfg: Config, s: State, t: State)
    requires Inv(cfg, s) && Evolves(s, t)
    ensures forall id :: id in s.rows && (t.rows[id].status == Approved ==> s.rows[id].status == Approved) ==>
              RowOk(cfg, t, id)
  {
    forall id | id in s.rows && (t.rows[id].status == Approved ==> s.rows[id].status == Approved)
      ensures RowOk(cfg, t, id)
    {
      RowStable(cfg, s, t, id);
    }
  }

  // ---- Steps that only move a client -------------------------------------------------------

  lemma QuietKeeps(cfg: Config, s: State, c: nat, next: Client)
    requires Inv(cfg, s) && ClientOk(cfg, s, c, next)
    requires if c in s.clients then QuietNext(s.clients[c], next) else IsStart(next)
    requires next.ResolveExpire? ==>
               && s.rows[next.copy.terms.id].status != Consumed
               && forall y :: y in s.clients && Claiming(s.clients[y]) ==>
                    s.clients[y].copy.terms.id != next.copy.terms.id
    requires Claiming(next) ==>
               forall x :: x in s.clients && s.clients[x].ResolveExpire? ==>
                 s.clients[x].copy.terms.id != next.copy.terms.id
    ensures Inv(cfg, Goto(s, c, next)) && Evolves(s, Goto(s, c, next))
  {
    var t := Goto(s, c, next);
    ExpiryQuiet(s.clients, t.clients, s.log, c, next);
    RowsStable(cfg, s, t);
    ClientStable(cfg, s, t, c, next);
    Assemble(cfg, s, t, c, next);
  }

  /** A step that moves its own client and records a decision, an authorization or a seen expiry. */
  ghost predicate NoteStep(cfg: Config, s: State, c: nat, e: Event, next: Client) {
    && c in s.clients
    && (e.GateDecided? || e.Authorized? || e.SawExpired? || e.Redeemed?)
    && ClientOk(cfg, Note(s, e), c, next)
    && !next.ResolveExpire? && !Claiming(next)
    && (e.SawExpired? ==> e.client == c && s.clients[c].RedeemCheck? && next.RedeemExpire?)
    && (!e.SawExpired? ==> QuietNext(s.clients[c], next))
    && RedeemOk(cfg, Note(s, e), |s.log|)
  }

  lemma NoteCounts(cfg: Config, s: State, c: nat, e: Event, next: Client)
    requires Inv(cfg, s) && NoteStep(cfg, s, c, e, next)
    ensures var t := Goto(Note(s, e), c, next);
            && (forall id :: LifeOk(t.rows, t.log, id))
            && (forall d :: ExpiryOk(t.clients, t.log, d))
            && NoRace(t.rows, t.clients)
  {
    var t := Goto(Note(s, e), c, next);
    LifeNoted(s.rows, s.log, t.log, e);
    ExpiryNoted(s.clients, t.clients, s.log, t.log, c, e, next);
    HeldCopiesExist(cfg, s);
    RaceShrinks(s.rows, s.rows, s.clients, c, next);
  }

  lemma NoteEvidence(cfg: Config, s: State, c: nat, e: Event, next: Client)
    requires Inv(cfg, s) && NoteStep(cfg, s, c, e, next)
    ensures var t := Goto(Note(s, e), c, next);
            && Evolves(s, t)
            && (forall id :: id in t.rows ==> RowOk(cfg, t, id))
            && ClientOk(cfg, t, c, next)
            && RedeemOk(cfg, t, |s.log|)
  {
    var t := Goto(Note(s, e), c, next);
    RowsStable(cfg, s, t);
    ClientStable(cfg, Note(s, e), t, c, next);
    RedeemStable(cfg, Note(s, e), t, |s.log|);
  }

  lemma NoteKeeps(cfg: Config, s: State, c: nat, e: Event, next: Client)
    requires Inv(cfg, s) && NoteStep(cfg, s, c, e, next)
    ensures var t := Goto(Note(s, e), c, next);
            Inv(cfg, t) && Evolves(s, t)
  {
    NoteCounts(cfg, s, c, e, next);
    NoteEvidence(cfg, s, c, e, next);
    Assemble(cfg, s, Goto(Note(s, e), c, next), c, next);
  }

  // ---- Steps that change a row -------------------------------------------------------------

  lemma ExpireCounts(cfg: Config, s: State, rows: Rows, c: nat, note: string)
    requires Inv(cfg, s) && c in s.clients && OnlyExpires(s.rows, rows)
    ensures var t := Goto(s.(rows := rows), c, Ended(note));
            && (forall id :: LifeOk(t.rows, t.log, id))
            && (forall d :: ExpiryOk(t.clients, t.log, d))
            && NoRace(t.rows, t.clients)
  {
    var t := Goto(s.(rows := rows), c, Ended(note));
    LifeExpired(s.rows, rows, s.log);
    ExpiryQuiet(s.clients, t.clients, s.log, c, Ended(note));
    HeldCopiesExist(cfg, s);
    RaceShrinks(s.rows, rows, s.clients, c, Ended(note));
  }

  lemma ExpireKeeps(cfg: Config, s: State, rows: Rows, c: nat, note: string)
    requires Inv(cfg, s) && c in s.clients && OnlyExpires(s.rows, rows)
    ensures var t := Goto(s.(rows := rows), c, Ended(note));
            Inv(cfg, t) && Evolves(s, t)
  {
    var t := Goto(s.(rows := rows), c, Ended(note));
    assert Evolves(s, t);
    ExpireCounts(cfg, s, rows, c, note);
    RowsStable(cfg, s, t);
    Assemble(cfg, s, t, c, Ended(note));
  }

  /** A step that moves one row and records it. */
  predicate MoveStep(s: State, t: State, c: nat, e: Event, id0: string, next: Client) {
    && c in s.clients
    && t.clock == s.clock && t.log == s.log + [e] && t.clients == s.clients[c := next]
    && id0 in t.rows && t.rows == s.rows[id0 := t.rows[id0]]
    && RecordedMove(s.rows, t.rows, e, id0)
    && (if e.Claimed? then
          e.client == c && s.clients[c].RedeemClaim? && s.clients[c].copy.terms.id == id0 && next.RedeemDecide?
        else next.Ended?)
  }

  lemma MoveEvolves(s: State, t: State, c: nat, e: Event, id0: string, next: Client)
    requires MoveStep(s, t, c, e, id0, next)
    ensures Evolves(s, t)
  {
  }

  lemma MoveRows(cfg: Config, s: State, t: State, c: nat, e: Event, id0: string, next: Client)
    requires Inv(cfg, s) && MoveStep(s, t, c, e, id0, next) && RowOk(cfg, t, id0)
    ensures forall id :: id in t.rows ==> RowOk(cfg, t, id)
  {
    MoveEvolves(s, t, c, e, id0, next);
    forall id | id in t.rows
      ensures RowOk(cfg, t, id)
    {
      if id != id0 {
        OtherRowKept(cfg, s, t, id);
      }
    }
  }

  lemma OtherRowKept(cfg: Config, s: State, t: State, id: string)
    requires Inv(cfg, s) && Evolves(s, t) && id in s.rows && id in t.rows && t.rows[id] == s.rows[id]
    ensures RowOk(cfg, t, id)
  {
    RowStable(cfg, s, t, id);
  }

  lemma MoveRace(cfg: Config, s: State, t: State, c: nat, e: Event, id0: string, next: Client)
    requires Inv(cfg, s) && MoveStep(s, t, c, e, id0, next)
    ensures NoRace(t.rows, t.clients)
  {
    HeldCopiesExist(cfg, s);
    RaceShrinks(s.rows, t.rows, s.clients, c, next);
  }

  lemma MoveCounts(cfg: Config, s: State, t: State, c: nat, e: Event, id0: string, next: Client)
    requires Inv(cfg, s) && MoveStep(s, t, c, e, id0, next)
    ensures forall id :: LifeOk(t.rows, t.log, id)
    ensures forall d :: ExpiryOk(t.clients, t.log, d)
    ensures forall l :: |s.log| <= l < |t.log| ==> RedeemOk(cfg, t, l)
  {
    LifeMoved(s.rows, t.rows, s.log, t.log, e, id0);
    ExpiryNoted(s.clients, t.clients, s.log, t.log, c, e, next);
  }

  lemma MoveKeeps(cfg: Config, s: State, t: State, c: nat, e: Event, id0: string, next: Client)
    requires Inv(cfg, s) && MoveStep(s, t, c, e, id0, next)
    requires RowOk(cfg, t, id0) && ClientOk(cfg, t, c, next)
    ensures Inv(cfg, t) && Evolves(s, t)
  {
    MoveEvolves(s, t, c, e, id0, next);
    MoveRows(cfg, s, t, c, e, id0, next);
    MoveRace(cfg, s, t, c, e, id0, next);
    MoveCounts(cfg, s, t, c, e, id0, next);
    Assemble(cfg, s, t, c, next);
  }

  lemma CreateKeeps(cfg: Config, s: State, c: nat, draft: Request)
    requires Inv(cfg, s) && c in s.clients && s.clients[c] == GateCreate(draft) && draft.terms.id !in s.rows
    ensures var t := GateStep(cfg, s, c, Related(true), "");
            Inv(cfg, t) && Evolves(s, t)
  {
    var t := GateStep(cfg, s, c, Related(true), "");
    assert ClientOk(cfg, s, c, s.clients[c]);
    var g: nat :| GatedAt(cfg, s.log, g, c, draft.terms);
    assert GatedAt(cfg, t.log, g, c, draft.terms);
    assert RequestedAt(cfg, t.log, |s.log|, draft.terms);
    MoveKeeps(cfg, s, t, c, Requested(c, draft.terms), draft.terms.id, Ended("pending"));
  }

  /** A resolution leaves its evidence: the authorization came before it. */
  lemma ResolveEvidence(cfg: Config, s: State, c: nat)
    requires Inv(cfg, s) && c in s.clients && s.clients[c].ResolveWrite?
    requires s.clients[c].id in s.rows && s.rows[s.clients[c].id].status == Pending
    ensures RowOk(cfg, ResolveStep(cfg, s, c, Related(true)), s.clients[c].id)
  {
    var t := ResolveStep(cfg, s, c, Related(true));
    var id0, approver := s.clients[c].id, s.clients[c].approver;
    var terms := s.rows[id0].terms;
    assert ClientOk(cfg, s, c, s.clients[c]) && RowOk(cfg, s, id0);
    EvidenceGrows(cfg, s.log, t.log, c, terms, approver);
    var z: nat :| AuthorizedAt(cfg, s.log, z, c, terms, approver);
    AuthorizedGrows(cfg, s.log, t.log, z, c, terms, approver);
    if s.clients[c].approve {
      assert ApprovedAt(cfg, t.log, |s.log|, terms);
    }
  }

  lemma ResolveKeeps(cfg: Config, s: State, c: nat)
    requires Inv(cfg, s) && c in s.clients && s.clients[c].ResolveWrite?
    requires s.clients[c].id in s.rows && s.rows[s.clients[c].id].status == Pending
    ensures var t := ResolveStep(cfg, s, c, Related(true));
            Inv(cfg, t) && Evolves(s, t)
  {
    var t := ResolveStep(cfg, s, c, Related(true));
    var id0 := s.clients[c].id;
    var e := Resolved(c, id0, s.rows[id0].terms.tool, s.clients[c].approver, s.clients[c].approve);
    ResolveEvidence(cfg, s, c);
    assert MoveStep(s, t, c, e, id0, Ended("resolved"));
    MoveKeeps(cfg, s, t, c, e, id0, Ended("resolved"));
  }

  /** A claim leaves its evidence: the approval came before it. */
  lemma ClaimEvidence(cfg: Config, log: seq<Event>, more: seq<Event>, c: nat, terms: Terms)
    requires WasRequested(cfg, log, terms) && WasApproved(cfg, log, terms)
    requires more == log + [Claimed(c, terms.id, terms.tool)]
    ensures WasRequested(cfg, more, terms) && WasClaimed(cfg, more, c, terms)
  {
    EvidenceGrows(cfg, log, more, c, terms, "");
    var a: nat :| ApprovedAt(cfg, log, a, terms);
    ApprovedGrows(cfg, log, more, a, terms);
    assert ClaimedAt(cfg, more, |log|, c, terms);
  }

  lemma ClaimLands(cfg: Config, s: State, c: nat)
    requires Inv(cfg, s) && c in s.clients && s.clients[c].RedeemClaim?
    requires s.clients[c].copy.terms.id in s.rows && s.rows[s.clients[c].copy.terms.id].status == Approved
    ensures var t, id := RedeemStep(cfg, s, c, Related(true)), s.clients[c].copy.terms.id;
            && c in t.clients && MoveStep(s, t, c, Claimed(c, id, s.rows[id].terms.tool), id, t.clients[c])
            && RowOk(cfg, t, id) && ClientOk(cfg, t, c, t.clients[c])
  {
    var t, id := RedeemStep(cfg, s, c, Related(true)), s.clients[c].copy.terms.id;
    assert ClientOk(cfg, s, c, s.clients[c]) && RowOk(cfg, s, id);
    assert t.log == s.log + [Claimed(c, id, s.rows[id].terms.tool)];
    ClaimEvidence(cfg, s.log, t.log, c, s.rows[id].terms);
  }

  lemma ClaimKeeps(cfg: Config, s: State, c: nat)
    requires Inv(cfg, s) && c in s.clients && s.clients[c].RedeemClaim?
    requires s.clients[c].copy.terms.id in s.rows && s.rows[s.clients[c].copy.terms.id].status == Approved
    ensures var t := RedeemStep(cfg, s, c, Related(true));
            Inv(cfg, t) && Evolves(s, t)
  {
    var t, id := RedeemStep(cfg, s, c, Related(true)), s.clients[c].copy.terms.id;
    ClaimLands(cfg, s, c);
    MoveKeeps(cfg, s, t, c, Claimed(c, id, s.rows[id].terms.tool), id, t.clients[c]);
  }

  // ---- Every step, every run ---------------------------------------------------------------

  lemma GateAskKeeps(cfg: Config, s: State, c: nat, answer: Answer, freshId: string)
    requires Inv(cfg, s) && c in s.clients && s.clients[c].GateAsk? && ValidRef(s.clients[c].tool, "tool")
    ensures var t := GateStep(cfg, s, c, answer, freshId);
            Inv(cfg, t) && Evolves(s, t)
  {
    var GateAsk(who, tool, args) := s.clients[c];
    var v := ToolVerdict(cfg, who, tool, args, None, answer);
    var e := GateDecided(c, who, tool, args, v);
    var next := if v.outcome == RequireApprovalOutcome then GateStamp(who, tool, args, v.reason) else Ended(v.reason);
    if v.outcome == RequireApprovalOutcome {
      forall now, id
        ensures WasGated(cfg, Note(s, e).log, c, TermsFor(cfg, who, tool, args, v.reason, now, id))
      {
        assert GatedAt(cfg, Note(s, e).log, |s.log|, c, TermsFor(cfg, who, tool, args, v.reason, now, id));
      }
    }
    assert GateStep(cfg, s, c, answer, freshId) == Goto(Note(s, e), c, next);
    NoteKeeps(cfg, s, c, e, next);
  }

  lemma GateKeeps(cfg: Config, s: State, c: nat, answer: Answer, freshId: string)
    requires Inv(cfg, s) && c in s.clients && IsGate(s.clients[c])
    ensures var t := GateStep(cfg, s, c, answer, freshId);
            Inv(cfg, t) && Evolves(s, t)
  {
    assert ClientOk(cfg, s, c, s.clients[c]);
    match s.clients[c]
    case GateAsk(who, tool, args) =>
      if !ValidRef(tool, "tool") {
        QuietKeeps(cfg, s, c, Ended("invalid tool"));
      } else {
        GateAskKeeps(cfg, s, c, answer, freshId);
      }
    case GateStamp(who, tool, args, why) =>
      QuietKeeps(cfg, s, c, GateCreate(NewRequest(TermsFor(cfg, who, tool, args, why, s.clock, freshId))));
    case GateCreate(draft) =>
      if draft.terms.id in s.rows {
        QuietKeeps(cfg, s, c, Ended("duplicate request id"));
      } else {
        CreateKeeps(cfg, s, c, draft);
      }
  }

  /** An authorization leaves its evidence: the request came before it. */
  lemma AuthorizeEvidence(cfg: Config, s: State, c: nat, asked: Option<Asked>)
    requires Inv(cfg, s) && c in s.clients && s.clients[c].ResolveAsk?
    requires AuthorizeApprover(cfg, s.clients[c].copy, s.clients[c].approver, Related(true)) == Some(asked)
    ensures var client := s.clients[c];
            var e := Authorized(c, client.copy.terms.id, client.approver, asked);
            && CopyOk(s, client.copy) && client.now <= s.clock
            && WasAuthorized(cfg, Note(s, e).log, c, client.copy.terms, client.approver)
  {
    var copy, approver := s.clients[c].copy, s.clients[c].approver;
    var log := Note(s, Authorized(c, copy.terms.id, approver, asked)).log;
    assert ClientOk(cfg, s, c, s.clients[c]) && RowOk(cfg, s, copy.terms.id);
    var q: nat :| RequestedAt(cfg, s.log, q, copy.terms);
    RequestedGrows(cfg, s.log, log, q, copy.terms);
    assert AuthorizedAt(cfg, log, |s.log|, c, copy.terms, approver);
  }

  lemma AuthorizeKeeps(cfg: Config, s: State, c: nat, answer: Answer)
    requires Inv(cfg, s) && c in s.clients && s.clients[c].ResolveAsk?
    ensures var t := ResolveStep(cfg, s, c, answer);
            Inv(cfg, t) && Evolves(s, t)
  {
    var client := s.clients[c];
    match AuthorizeApprover(cfg, client.copy, client.approver, answer)
    case None =>
      assert ResolveStep(cfg, s, c, answer) == Goto(s, c, Ended("approver refused"));
      QuietKeeps(cfg, s, c, Ended("approver refused"));
    case Some(asked) =>
      var e := Authorized(c, client.copy.terms.id, client.approver, asked);
      AuthorizeEvidence(cfg, s, c, asked);
      var next := ResolveReload(client.copy.terms.id, client.approver, client.approve, client.why, client.now);
      assert ResolveStep(cfg, s, c, answer) == Goto(Note(s, e), c, next);
      NoteKeeps(cfg, s, c, e, next);
  }

  /** The reload that finds a pending request past its date: nobody can be about to consume it. */
  lemma ReloadKeeps(cfg: Config, s: State, c: nat, answer: Answer)
    requires Inv(cfg, s) && c in s.clients && s.clients[c].ResolveReload?
    ensures var t := ResolveStep(cfg, s, c, answer);
            Inv(cfg, t) && Evolves(s, t)
  {
    assert ClientOk(cfg, s, c, s.clients[c]);
    var id := s.clients[c].id;
    assert RowOk(cfg, s, id);
    var next := ResolveStep(cfg, s, c, answer).clients[c];
    if next.ResolveExpire? {
      forall y | y in s.clients && Claiming(s.clients[y])
        ensures s.clients[y].copy.terms.id != id
      {
        assert ClientOk(cfg, s, y, s.clients[y]);
      }
    }
    QuietKeeps(cfg, s, c, next);
  }

  lemma ResolveBeginKeeps(cfg: Config, s: State, c: nat, answer: Answer)
    requires Inv(cfg, s) && c in s.clients && (s.clients[c].ResolveClock? || s.clients[c].ResolveFetch?)
    ensures var t := ResolveStep(cfg, s, c, answer);
            Inv(cfg, t) && Evolves(s, t)
  {
    var t := ResolveStep(cfg, s, c, answer);
    if s.clients[c].ResolveFetch? && s.clients[c].id in s.rows {
      assert RowOk(cfg, s, s.clients[c].id);
    }
    assert t == Goto(s, c, t.clients[c]);
    QuietKeeps(cfg, s, c, t.clients[c]);
  }

  lemma ResolveExpireKeeps(cfg: Config, s: State, c: nat, answer: Answer)
    requires Inv(cfg, s) && c in s.clients && s.clients[c].ResolveExpire?
    ensures var t := ResolveStep(cfg, s, c, answer);
            Inv(cfg, t) && Evolves(s, t)
  {
    var copy := s.clients[c].copy;
    assert ClientOk(cfg, s, c, s.clients[c]);
    assert RowOk(cfg, s, copy.terms.id);
    ExpireKeeps(cfg, s, Update(s.rows, copy.(status := Expired)), c, "not pending");
  }

  lemma ResolveWriteKeeps(cfg: Config, s: State, c: nat, answer: Answer)
    requires Inv(cfg, s) && c in s.clients && s.clients[c].ResolveWrite?
    ensures var t := ResolveStep(cfg, s, c, answer);
            Inv(cfg, t) && Evolves(s, t)
  {
    assert ClientOk(cfg, s, c, s.clients[c]);
    if s.rows[s.clients[c].id].status == Pending {
      ResolveKeeps(cfg, s, c);
    } else {
      QuietKeeps(cfg, s, c, Ended("no longer pending"));
    }
  }

  lemma ResolveStepKeeps(cfg: Config, s: State, c: nat, answer: Answer)
    requires Inv(cfg, s) && c in s.clients && IsResolve(s.clients[c])
    ensures var t := ResolveStep(cfg, s, c, answer);
            Inv(cfg, t) && Evolves(s, t)
  {
    var client := s.clients[c];
    if client.ResolveClock? || client.ResolveFetch? {
      ResolveBeginKeeps(cfg, s, c, answer);
    } else if client.ResolveAsk? {
      AuthorizeKeeps(cfg, s, c, answer);
    } else if client.ResolveReload? {
      ReloadKeeps(cfg, s, c, answer);
    } else if client.ResolveExpire? {
      ResolveExpireKeeps(cfg, s, c, answer);
    } else {
      ResolveWriteKeeps(cfg, s, c, answer);
    }
  }

  /** A redeem past its expiry check: no resolver is about to overwrite this request. */
  lemma CompareKeeps(cfg: Config, s: State, c: nat, who: Caller, args: Args, target: string, r: Request)
    requires Inv(cfg, s) && c in s.clients && s.clients[c] == RedeemCheck(who, args, target, r)
    requires r.status == Approved ==> s.clock <= r.terms.expiresAt
    ensures var t := Compare(cfg, s, c, who, args, target, r);
            Inv(cfg, t) && Evolves(s, t)
  {
    assert ClientOk(cfg, s, c, s.clients[c]);
    var next := Compare(cfg, s, c, who, args, target, r).clients[c];
    if Claiming(next) {
      forall x | x in s.clients && s.clients[x].ResolveExpire?
        ensures s.clients[x].copy.terms.id != r.terms.id
      {
        assert ClientOk(cfg, s, x, s.clients[x]);
      }
    }
    QuietKeeps(cfg, s, c, next);
  }

  lemma RedeemCheckKeeps(cfg: Config, s: State, c: nat, answer: Answer)
    requires Inv(cfg, s) && c in s.clients && s.clients[c].RedeemCheck?
    ensures var t := RedeemStep(cfg, s, c, answer);
            Inv(cfg, t) && Evolves(s, t)
  {
    var RedeemCheck(who, args, target, copy) := s.clients[c];
    assert ClientOk(cfg, s, c, s.clients[c]);
    if copy.status in {Pending, Approved} && s.clock > copy.terms.expiresAt {
      NoteKeeps(cfg, s, c, SawExpired(c, copy.terms.id), RedeemExpire(who, args, target, copy));
    } else {
      CompareKeeps(cfg, s, c, who, args, target, copy);
    }
  }

  lemma RedeemExpireKeeps(cfg: Config, s: State, c: nat, answer: Answer)
    requires Inv(cfg, s) && c in s.clients && s.clients[c].RedeemExpire?
    ensures var t := RedeemStep(cfg, s, c, answer);
            Inv(cfg, t) && Evolves(s, t)
  {
    assert ClientOk(cfg, s, c, s.clients[c]);
    var t := RedeemStep(cfg, s, c, answer);
    if s.rows[s.clients[c].copy.terms.id].status in {Pending, Approved} {
      assert t == Goto(s.(rows := t.rows), c, Ended("approval_expired"));
      ExpireKeeps(cfg, s, t.rows, c, "approval_expired");
    } else {
      assert t == Goto(s, c, t.clients[c]);
      QuietKeeps(cfg, s, c, t.clients[c]);
    }
  }

  lemma RedeemRereadKeeps(cfg: Config, s: State, c: nat, answer: Answer)
    requires Inv(cfg, s) && c in s.clients && s.clients[c].RedeemReread?
    ensures var t := RedeemStep(cfg, s, c, answer);
            Inv(cfg, t) && Evolves(s, t)
  {
    assert ClientOk(cfg, s, c, s.clients[c]);
    var t := RedeemStep(cfg, s, c, answer);
    assert t == Goto(s, c, t.clients[c]) && t.clients[c].Ended?;
    QuietKeeps(cfg, s, c, t.clients[c]);
  }

  lemma RedeemDecideEvidence(cfg: Config, s: State, c: nat, answer: Answer)
    requires Inv(cfg, s) && c in s.clients && s.clients[c].RedeemDecide?
    ensures var RedeemDecide(who, args, target, id) := s.clients[c];
            var v := ToolVerdict(cfg, who, target, args, Some(id), answer);
            RedeemOk(cfg, Note(s, Redeemed(c, who, target, args, id, answer, v)), |s.log|)
  {
    var RedeemDecide(who, args, target, id) := s.clients[c];
    var v := ToolVerdict(cfg, who, target, args, Some(id), answer);
    var e := Redeemed(c, who, target, args, id, answer, v);
    assert ClientOk(cfg, s, c, s.clients[c]) && RowOk(cfg, s, id);
    var k: nat :| ClaimedAt(cfg, s.log, k, c, s.rows[id].terms);
    ClaimedGrows(cfg, s.log, Note(s, e).log, k, c, s.rows[id].terms);
  }

  lemma RedeemDecideKeeps(cfg: Config, s: State, c: nat, answer: Answer)
    requires Inv(cfg, s) && c in s.clients && s.clients[c].RedeemDecide?
    ensures var t := RedeemStep(cfg, s, c, answer);
            Inv(cfg, t) && Evolves(s, t)
  {
    var RedeemDecide(who, args, target, id) := s.clients[c];
    var v := ToolVerdict(cfg, who, target, args, Some(id), answer);
    var e := Redeemed(c, who, target, args, id, answer, v);
    RedeemDecideEvidence(cfg, s, c, answer);
    assert RedeemStep(cfg, s, c, answer) == Goto(Note(s, e), c, Ended(v.reason));
    NoteKeeps(cfg, s, c, e, Ended(v.reason));
  }

  lemma RedeemFetchKeeps(cfg: Config, s: State, c: nat, answer: Answer)
    requires Inv(cfg, s) && c in s.clients && s.clients[c].RedeemFetch?
    ensures var t := RedeemStep(cfg, s, c, answer);
            Inv(cfg, t) && Evolves(s, t)
  {
    var id, t := s.clients[c].id, RedeemStep(cfg, s, c, answer);
    if id in s.rows {
      assert RowOk(cfg, s, id);
    }
    assert t == Goto(s, c, t.clients[c]);
    QuietKeeps(cfg, s, c, t.clients[c]);
  }

  lemma RedeemClaimKeeps(cfg: Config, s: State, c: nat, answer: Answer)
    requires Inv(cfg, s) && c in s.clients && Claiming(s.clients[c])
    ensures var t := RedeemStep(cfg, s, c, answer);
            Inv(cfg, t) && Evolves(s, t)
  {
    var client := s.clients[c];
    assert ClientOk(cfg, s, c, client);
    if client.RedeemClaim? && s.rows[client.copy.terms.id].status == Approved {
      assert RedeemStep(cfg, s, c, answer) == RedeemStep(cfg, s, c, Related(true));
      ClaimKeeps(cfg, s, c);
    } else {
      var t := RedeemStep(cfg, s, c, answer);
      assert t == Goto(s, c, t.clients[c]);
      QuietKeeps(cfg, s, c, t.clients[c]);
    }
  }

  lemma RedeemStepKeeps(cfg: Config, s: State, c: nat, answer: Answer)
    requires Inv(cfg, s) && c in s.clients && IsRedeem(s.clients[c])
    ensures var t := RedeemStep(cfg, s, c, answer);
            Inv(cfg, t) && Evolves(s, t)
  {
    var client := s.clients[c];
    if client.RedeemFetch? {
      RedeemFetchKeeps(cfg, s, c, answer);
    } else if client.RedeemCheck? {
      RedeemCheckKeeps(cfg, s, c, answer);
    } else if client.RedeemExpire? {
      RedeemExpireKeeps(cfg, s, c, answer);
    } else if client.RedeemReread? {
      RedeemRereadKeeps(cfg, s, c, answer);
    } else if Claiming(client) {
      RedeemClaimKeeps(cfg, s, c, answer);
    } else {
      RedeemDecideKeeps(cfg, s, c, answer);
    }
  }

  lemma StepKeeps(cfg: Config, s: State, m: Move)
    requires Inv(cfg, s)
    ensures Inv(cfg, Step(cfg, s, m)) && Evolves(s, Step(cfg, s, m))
  {
    match m
    case Tick(d) => TickKeeps(cfg, s, d);
    case Spawn(c, start) =>
      if c !in s.clients && IsStart(start) {
        QuietKeeps(cfg, s, c, start);
      }
    case Advance(c, answer, freshId) =>
      if c in s.clients {
        ClientStepKeeps(cfg, s, c, answer, freshId);
      }
    case Abort(c) =>
      if c in s.clients {
        QuietKeeps(cfg, s, c, Ended("unavailable"));
      }
  }

  lemma ClientStepKeeps(cfg: Config, s: State, c: nat, answer: Answer, freshId: string)
    requires Inv(cfg, s) && c in s.clients
    ensures var t := ClientStep(cfg, s, c, answer, freshId);
            Inv(cfg, t) && Evolves(s, t)
  {
    var client := s.clients[c];
    if IsGate(client) {
      GateKeeps(cfg, s, c, answer, freshId);
    } else if IsResolve(client) {
      ResolveStepKeeps(cfg, s, c, answer);
    } else if IsRedeem(client) {
      RedeemStepKeeps(cfg, s, c, answer);
    } else if client.SweepClock? {
      QuietKeeps(cfg, s, c, SweepWrite(s.clock));
    } else if client.SweepWrite? {
      ExpireKeeps(cfg, s, ExpirePending(s.rows, client.now), c, "swept");
    }
  }

  lemma TickKeeps(cfg: Config, s: State, d: nat)
    requires Inv(cfg, s)
    ensures var t := s.(clock := s.clock + d);
            Inv(cfg, t) && Evolves(s, t)
  {
    var t := s.(clock := s.clock + d);
    forall id | id in t.rows {
      RowStable(cfg, s, t, id);
    }
    forall c | c in s.clients {
      ClientStable(cfg, s, t, c, s.clients[c]);
    }
    assert forall c :: ExpiryOk(s.clients, s.log, c) ==> ExpiryOk(t.clients, t.log, c);
    forall l | 0 <= l < |t.log| {
      RedeemStable(cfg, s, t, l);
    }
  }

  lemma EvolvesTransitive(s: State, t: State, u: State)
    requires Evolves(s, t) && Evolves(t, u)
    ensures Evolves(s, u)
  {
  }

  lemma {:induction false} RunKeeps(cfg: Config, s: State, moves: seq<Move>)
    requires Inv(cfg, s)
    ensures Inv(cfg, Run(cfg, s, moves)) && Evolves(s, Run(cfg, s, moves))
  {
    if moves == [] {
    } else {
      var before := Run(cfg, s, moves[..|moves| - 1]);
      RunKeeps(cfg, s, moves[..|moves| - 1]);
      StepKeeps(cfg, before, moves[|moves| - 1]);
      EvolvesTransitive(s, before, Run(cfg, s, moves));
    }
  }

  lemma InitInv(cfg: Config, clock: int)
    ensures Inv(cfg, Init(clock))
  {
  }
}
