/**
 * The approval protocol: any number of gate, resolve, redeem and sweep clients over one store and one clock. Every
 * store call and every engine call is one atomic step; between two of them a client holds what it read before.
 */
module ApprovalProtocol {
  import opened Wrappers
  import opened Refs
  import opened Scopes
  import opened Policies
  import opened Decider
  import opened Approvals

  datatype Config = Config(policy: Option<Policy>, selfApproval: bool, ttl: int, hash: Args -> string)

  /** The chain of a call, as far as approvals look at it. */
  datatype Caller = Caller(subject: string, actor: string, depth: nat, scope: Scope)

  datatype Client =
    // gate
    | GateAsk(who: Caller, tool: string, args: Args)
    | GateStamp(who: Caller, tool: string, args: Args, why: string)
    | GateCreate(draft: Request)
    // resolve
    | ResolveClock(id: string, approver: string, approve: bool, why: string)
    | ResolveFetch(id: string, approver: string, approve: bool, why: string, now: int)
    | ResolveAsk(copy: Request, approver: string, approve: bool, why: string, now: int)
    | ResolveReload(id: string, approver: string, approve: bool, why: string, now: int)
    | ResolveExpire(copy: Request, now: int)
    | ResolveWrite(id: string, approver: string, approve: bool, why: string, now: int)
    // redeem
    | RedeemFetch(who: Caller, id: string, args: Args, asked: Option<string>)
    | RedeemCheck(who: Caller, args: Args, target: string, copy: Request)
    | RedeemExpire(who: Caller, args: Args, target: string, copy: Request)
    | RedeemReread(who: Caller, args: Args, target: string, copy: Request)
    | RedeemStamp(who: Caller, args: Args, target: string, copy: Request, checked: int)
    | RedeemClaim(who: Caller, args: Args, target: string, copy: Request, checked: int, at: int)
    | RedeemDecide(who: Caller, args: Args, target: string, id: string)
    // sweep
    | SweepClock
    | SweepWrite(now: int)
    // the call returned, refused or raised
    | Ended(note: string)

  const APPROVER_RELATION := "approver"

  /** A question put to the engine, and what it answered. */
  datatype Asked = Asked(user: string, relation: string, resource: string, answer: Answer)

  /** What happened, in order. The log only records; no step reads it. */
  datatype Event =
    | GateDecided(client: nat, who: Caller, tool: string, args: Args, verdict: Verdict)
    | Requested(client: nat, terms: Terms)
    | Authorized(client: nat, id: string, approver: string, asked: Option<Asked>)
    | Resolved(client: nat, id: string, tool: string, approver: string, approve: bool)
    | SawExpired(client: nat, id: string)
    | Claimed(client: nat, id: string, tool: string)
    | Redeemed(client: nat, who: Caller, tool: string, args: Args, id: string, answer: Answer, verdict: Verdict)

  datatype State = State(clock: int, rows: Rows, clients: map<nat, Client>, log: seq<Event>)

  datatype Move =
    | Tick(seconds: nat)
    | Spawn(client: nat, start: Client)
    | Advance(client: nat, answer: Answer, freshId: string)
    | Abort(client: nat)

  predicate IsStart(c: Client) {
    c.GateAsk? || c.ResolveClock? || c.RedeemFetch? || c.SweepClock?
  }

  function Goto(s: State, c: nat, next: Client): State {
    s.(clients := s.clients[c := next])
  }

  function Note(s: State, e: Event): State {
    s.(log := s.log + [e])
  }

  function AskOf(who: Caller, args: Args, approval: Option<string>): Ask {
    Ask(who.subject, who.actor, who.scope, Act, "can_invoke", args, approval)
  }

  /** The decision of `decide` on a tool call, for the answer the engine gives at that moment. */
  function ToolVerdict(cfg: Config, who: Caller, tool: string, args: Args, approval: Option<string>, answer: Answer)
    : Verdict
  {
    DecideWith(cfg.policy, AskOf(who, args, approval), tool, answer)
  }

  function TermsFor(cfg: Config, who: Caller, tool: string, args: Args, why: string, now: int, id: string): Terms {
    Terms(id, who.subject, who.actor, who.depth, tool, cfg.hash(args), now, now + cfg.ttl, why)
  }

  // ---- gate --------------------------------------------------------------------------------

  function GateStep(cfg: Config, s: State, c: nat, answer: Answer, freshId: string): State
    requires c in s.clients
  {
    match s.clients[c]
    case GateAsk(who, tool, args) =>
      if !ValidRef(tool, "tool") then Goto(s, c, Ended("invalid tool"))
      else
        var v := ToolVerdict(cfg, who, tool, args, None, answer);
        Goto(Note(s, GateDecided(c, who, tool, args, v)), c,
             if v.outcome == RequireApprovalOutcome then GateStamp(who, tool, args, v.reason) else Ended(v.reason))
    case GateStamp(who, tool, args, why) =>
      Goto(s, c, GateCreate(NewRequest(TermsFor(cfg, who, tool, args, why, s.clock, freshId))))
    case GateCreate(draft) =>
      if draft.terms.id in s.rows then Goto(s, c, Ended("duplicate request id"))
      else
        Goto(Note(s.(rows := s.rows[draft.terms.id := draft]), Requested(c, draft.terms)), c, Ended("pending"))
    case _ => s
  }

  // ---- resolve -----------------------------------------------------------------------------

  /** `None` refuses; otherwise what the engine was asked and answered, or nothing for a self-approval. */
  function AuthorizeApprover(cfg: Config, r: Request, approver: string, answer: Answer): Option<Option<Asked>> {
    if !ValidRef(approver, "user") then None
    else if approver == r.terms.subject then (if cfg.selfApproval then Some(None) else None)
    else if answer == Related(true) then Some(Some(Asked(approver, APPROVER_RELATION, r.terms.tool, answer)))
    else None
  }

  function ResolveStep(cfg: Config, s: State, c: nat, answer: Answer): State
    requires c in s.clients
  {
    match s.clients[c]
    case ResolveClock(id, approver, approve, why) => Goto(s, c, ResolveFetch(id, approver, approve, why, s.clock))
    case ResolveFetch(id, approver, approve, why, now) =>
      Goto(s, c, if id in s.rows then ResolveAsk(s.rows[id], approver, approve, why, now) else Ended("unknown"))
    case ResolveAsk(copy, approver, approve, why, now) =>
      (match AuthorizeApprover(cfg, copy, approver, answer)
       case None => Goto(s, c, Ended("approver refused"))
       case Some(asked) =>
         Goto(Note(s, Authorized(c, copy.terms.id, approver, asked)), c,
              ResolveReload(copy.terms.id, approver, approve, why, now)))
    case ResolveReload(id, approver, approve, why, now) =>
      if id !in s.rows then Goto(s, c, Ended("unknown"))
      else
        var r := s.rows[id];
        if r.status == Pending && now > r.terms.expiresAt then Goto(s, c, ResolveExpire(r, now))
        else if r.status != Pending then Goto(s, c, Ended("not pending"))
        else if approver == r.terms.subject && !cfg.selfApproval then Goto(s, c, Ended("self approval"))
        else Goto(s, c, ResolveWrite(id, approver, approve, why, now))
    case ResolveExpire(copy, now) =>
      Goto(s.(rows := Update(s.rows, copy.(status := Expired))), c, Ended("not pending"))
    case ResolveWrite(id, approver, approve, why, now) =>
      var (rows, r) := Transition(s.rows, id, {Pending}, if approve then Approved else Rejected,
                                  Resolution(approver, now, why));
      if r.None? then Goto(s, c, Ended("no longer pending"))
      else Goto(Note(s.(rows := rows), Resolved(c, id, r.value.terms.tool, approver, approve)), c, Ended("resolved"))
    case _ => s
  }

  // ---- redeem ------------------------------------------------------------------------------

  predicate SameCall(cfg: Config, t: Terms, who: Caller, target: string, args: Args) {
    && t.tool == target
    && t.subject == who.subject && t.actor == who.actor && t.depth == who.depth
    && t.argsHash == cfg.hash(args)
  }

  function Mismatch(cfg: Config, r: Request, who: Caller, target: string, args: Args): Option<string> {
    if r.status == Consumed then Some("approval_consumed")
    else if r.status == Expired then Some("approval_expired")
    else if r.status != Approved then Some("approval_not_approved")
    else if r.terms.tool != target then Some("approval_tool_mismatch")
    else if r.terms.subject != who.subject || r.terms.actor != who.actor || r.terms.depth != who.depth then
      Some("approval_chain_mismatch")
    else if r.terms.argsHash != cfg.hash(args) then Some("approval_args_mismatch")
    else None
  }

  /**
   * Deny on a mismatch; otherwise go on to the claim, for which the clock is read once more. The time of the expiry
   * check is kept beside the copy; no step reads it.
   */
  function Compare(cfg: Config, s: State, c: nat, who: Caller, args: Args, target: string, r: Request): State {
    match Mismatch(cfg, r, who, target, args)
    case Some(why) => Goto(s, c, Ended(why))
    case None => Goto(s, c, RedeemStamp(who, args, target, r, s.clock))
  }

  function RedeemStep(cfg: Config, s: State, c: nat, answer: Answer): State
    requires c in s.clients
  {
    match s.clients[c]
    case RedeemFetch(who, id, args, asked) =>
      if id !in s.rows then Goto(s, c, Ended("approval_unknown"))
      else
        var target := if asked.Some? && asked.value != "" then asked.value else s.rows[id].terms.tool;
        if ValidPattern(target) then Goto(s, c, RedeemCheck(who, args, target, s.rows[id]))
        else Goto(s, c, Ended("invalid resource"))
    case RedeemCheck(who, args, target, copy) =>
      if copy.status in {Pending, Approved} && s.clock > copy.terms.expiresAt then
        Goto(Note(s, SawExpired(c, copy.terms.id)), c, RedeemExpire(who, args, target, copy))
      else Compare(cfg, s, c, who, args, target, copy)
    case RedeemExpire(who, args, target, copy) =>
      var (rows, r) := Transition(s.rows, copy.terms.id, {Pending, Approved}, Expired, NoPatch);
      if r.Some? then Compare(cfg, s.(rows := rows), c, who, args, target, r.value)
      else Goto(s, c, RedeemReread(who, args, target, copy))
    case RedeemReread(who, args, target, copy) =>
      Compare(cfg, s, c, who, args, target, if copy.terms.id in s.rows then s.rows[copy.terms.id] else copy)
    case RedeemStamp(who, args, target, copy, checked) =>
      Goto(s, c, RedeemClaim(who, args, target, copy, checked, s.clock))
    case RedeemClaim(who, args, target, copy, checked, at) =>
      var (rows, r) := Transition(s.rows, copy.terms.id, {Approved}, Consumed, Consumption(at));
      if r.None? then Goto(s, c, Ended("approval_consumed"))
      else
        Goto(Note(s.(rows := rows), Claimed(c, copy.terms.id, r.value.terms.tool)), c,
             RedeemDecide(who, args, target, copy.terms.id))
    case RedeemDecide(who, args, target, id) =>
      var v := ToolVerdict(cfg, who, target, args, Some(id), answer);
      Goto(Note(s, Redeemed(c, who, target, args, id, answer, v)), c, Ended(v.reason))
    case _ => s
  }

  // ---- runs --------------------------------------------------------------------------------

  function SweepStep(s: State, c: nat): State
    requires c in s.clients
  {
    match s.clients[c]
    case SweepClock => Goto(s, c, SweepWrite(s.clock))
    case SweepWrite(now) => Goto(s.(rows := ExpirePending(s.rows, now)), c, Ended("swept"))
    case _ => s
  }

  predicate IsGate(c: Client) {
    c.GateAsk? || c.GateStamp? || c.GateCreate?
  }

  predicate IsResolve(c: Client) {
    c.ResolveClock? || c.ResolveFetch? || c.ResolveAsk? || c.ResolveReload? || c.ResolveExpire? || c.ResolveWrite?
  }

  predicate IsRedeem(c: Client) {
    || c.RedeemFetch? || c.RedeemCheck? || c.RedeemExpire? || c.RedeemReread?
    || c.RedeemStamp? || c.RedeemClaim? || c.RedeemDecide?
  }

  /** One atomic step of one client, with the engine's answer and the identifier drawn. */
  function ClientStep(cfg: Config, s: State, c: nat, answer: Answer, freshId: string): State
    requires c in s.clients
  {
    if IsGate(s.clients[c]) then GateStep(cfg, s, c, answer, freshId)
    else if IsResolve(s.clients[c]) then ResolveStep(cfg, s, c, answer)
    else if IsRedeem(s.clients[c]) then RedeemStep(cfg, s, c, answer)
    else SweepStep(s, c)
  }

  /** A move that is not possible changes nothing; a failing backend call is `Abort`. */
  function Step(cfg: Config, s: State, m: Move): State {
    match m
    case Tick(d) => s.(clock := s.clock + d)
    case Spawn(c, start) => if c !in s.clients && IsStart(start) then Goto(s, c, start) else s
    case Advance(c, answer, freshId) => if c in s.clients then ClientStep(cfg, s, c, answer, freshId) else s
    case Abort(c) => if c in s.clients then Goto(s, c, Ended("unavailable")) else s
  }

  function Run(cfg: Config, s: State, moves: seq<Move>): State {
    if moves == [] then s else Step(cfg, Run(cfg, s, moves[..|moves| - 1]), moves[|moves| - 1])
  }

  function Init(clock: int): State {
    State(clock, map[], map[], [])
  }
}
