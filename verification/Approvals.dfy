/** Approval requests and the store that keeps them. */
module Approvals {
  import opened Wrappers

  datatype Status = Pending | Approved | Rejected | Expired | Consumed

  /** What a request is bound to when it is created. */
  datatype Terms = Terms(
    id: string,
    subject: string,
    actor: string,
    depth: nat,
    tool: string,
    argsHash: string,
    createdAt: int,
    expiresAt: int,
    reason: string)

  datatype Request = Request(
    terms: Terms,
    status: Status,
    resolvedBy: Option<string>,
    resolvedAt: Option<int>,
    resolutionReason: Option<string>,
    consumedAt: Option<int>)

  type Rows = map<string, Request>

  /** The columns that a transition may set beside the status. */
  datatype Patch = NoPatch | Resolution(approver: string, at: int, why: string) | Consumption(at: int)

  function NewRequest(terms: Terms): Request {
    Request(terms, Pending, None, None, None, None)
  }

  function Moved(r: Request, to: Status, patch: Patch): Request {
    match patch
    case NoPatch => r.(status := to)
    case Resolution(approver, at, why) =>
      r.(status := to, resolvedBy := Some(approver), resolvedAt := Some(at), resolutionReason := Some(why))
    case Consumption(at) => r.(status := to, consumedAt := Some(at))
  }

  /** The compare-and-set: the new rows, and the moved request or nothing. */
  function Transition(rows: Rows, id: string, from: set<Status>, to: Status, patch: Patch): (Rows, Option<Request>) {
    if id in rows && rows[id].status in from then
      var moved := Moved(rows[id], to, patch);
      (rows[id := moved], Some(moved))
    else (rows, None)
  }

  /** The unconditional write. */
  function Update(rows: Rows, r: Request): Rows {
    if r.terms.id in rows then rows[r.terms.id := r] else rows
  }

  predicate Overdue(r: Request, now: int) {
    r.status == Pending && r.terms.expiresAt < now
  }

  function ExpirePending(rows: Rows, now: int): Rows {
    map id | id in rows :: if Overdue(rows[id], now) then rows[id].(status := Expired) else rows[id]
  }

  class InMemoryApprovalStore {
    var rows: Rows

    constructor ()
      ensures rows == map[]
    {
      rows := map[];
    }

    method Create(r: Request) returns (ok: bool)
      modifies this
      ensures ok == (r.terms.id !in old(rows))
      ensures rows == if ok then old(rows)[r.terms.id := r] else old(rows)
    {
      ok := r.terms.id !in rows;
      if ok {
        rows := rows[r.terms.id := r];
      }
    }

    method Get(id: string) returns (r: Option<Request>)
      ensures r == if id in rows then Some(rows[id]) else None
    {
      r := if id in rows then Some(rows[id]) else None;
    }

    method Put(r: Request) returns (ok: bool)
      modifies this
      ensures ok == (r.terms.id in old(rows))
      ensures rows == Update(old(rows), r)
    {
      ok := r.terms.id in rows;
      if ok {
        rows := rows[r.terms.id := r];
      }
    }

    method CompareAndSet(id: string, from: set<Status>, to: Status, patch: Patch) returns (r: Option<Request>)
      modifies this
      ensures (rows, r) == Transition(old(rows), id, from, to, patch)
      ensures r.Some? <==> id in old(rows) && old(rows)[id].status in from
      ensures r.Some? ==> rows[id] == r.value && r.value.status == to && r.value.terms == old(rows)[id].terms
      ensures forall k :: k in old(rows) && k != id ==> k in rows && rows[k] == old(rows)[k]
    {
      if id !in rows || rows[id].status !in from {
        return None;
      }
      var moved := Moved(rows[id], to, patch);
      rows := rows[id := moved];
      return Some(moved);
    }

    method Consume(id: string, now: int) returns (r: Option<Request>)
      modifies this
      ensures (rows, r) == Transition(old(rows), id, {Approved}, Consumed, Consumption(now))
    {
      r := CompareAndSet(id, {Approved}, Consumed, Consumption(now));
    }

    /** Marks the overdue pending requests one by one and counts them. */
    method Sweep(now: int) returns (count: nat)
      modifies this
      ensures rows == ExpirePending(old(rows), now)
      ensures count == |set id | id in old(rows) && Overdue(old(rows)[id], now)|
    {
      var overdue := set id | id in rows && Overdue(rows[id], now);
      var todo := overdue;
      while todo != {}
        invariant todo <= overdue
        invariant rows.Keys == old(rows).Keys
        invariant forall id :: id in rows ==>
                    rows[id]
                    == if id in overdue && id !in todo then old(rows)[id].(status := Expired) else old(rows)[id]
        decreases |todo|
      {
        var id :| id in todo;
        rows := rows[id := rows[id].(status := Expired)];
        todo := todo - {id};
      }
      SweptRows(old(rows), rows, overdue, now);
      return |overdue|;
    }
  }

  lemma SweptRows(before: Rows, after: Rows, overdue: set<string>, now: int)
    requires after.Keys == before.Keys && overdue == set id | id in before && Overdue(before[id], now)
    requires forall id :: id in after ==>
               after[id] == if id in overdue then before[id].(status := Expired) else before[id]
    ensures after == ExpirePending(before, now)
  {
    var swept := ExpirePending(before, now);
    assert swept.Keys == after.Keys;
    forall id | id in after
      ensures after[id] == swept[id]
    {
      assert id in before && (id in overdue <==> Overdue(before[id], now));
    }
  }
}
