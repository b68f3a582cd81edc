/** The approval inbox (daimon-guard approvals.rs).  The table is a map; each SQL
    statement is one atomic function of it.  Row ids come from the database and
    are assumed fresh. */
module Approvals {
  import opened Wrappers

  type RowId = nat
  type UserId = nat

  datatype Status = Pending | Approved | Denied | Expired

  datatype Row = Row(
    actor: string,
    capability: string,
    target: Option<string>,
    params: string,
    status: Status,
    createdAt: nat,
    decidedAt: Option<nat>,
    decidedBy: Option<UserId>)

  type Table = map<RowId, Row>

  /** INSERT ... RETURNING id */
  function Insert(t: Table, id: RowId, actor: string, capability: string, target: Option<string>, params: string,
                  now: nat)
    : Table
    requires id !in t
  {
    t[id := Row(actor, capability, target, params, Pending, now, None, None)]
  }

  predicate IsPending(t: Table, id: RowId)
  {
    id in t && t[id].status == Pending
  }

  /** UPDATE ... WHERE id = $3 AND status = 'pending'; the caller sees an error
      when no row was updated. */
  function DecideRow(t: Table, id: RowId, decider: UserId, approve: bool, now: nat): Table
  {
    if IsPending(t, id) then
      var status := if approve then Approved else Denied;
      t[id := t[id].(status := status, decidedAt := Some(now), decidedBy := Some(decider))]
    else t
  }

  /** UPDATE ... SET status = 'expired' WHERE id = $1 AND status = 'pending' */
  function ExpireRow(t: Table, id: RowId, now: nat): Table
  {
    if IsPending(t, id) then t[id := t[id].(status := Expired, decidedAt := Some(now))] else t
  }

  /** A decided row names its decider, an expired or pending one does not. */
  predicate RowConsistent(r: Row)
  {
    && (r.status == Pending <==> r.decidedAt.None?)
    && (r.decidedBy.Some? <==> r.status == Approved || r.status == Denied)
  }

  /** What every statement keeps: no row disappears, what was asked for never
      changes, and a row that has left pending never changes at all. */
  ghost predicate Evolves(a: Table, b: Table)
  {
    forall id :: id in a ==>
      && id in b
      && SameRequest(a[id], b[id])
      && (a[id].status != Pending ==> b[id] == a[id])
  }

  predicate SameRequest(a: Row, b: Row)
  {
    a.(status := b.status, decidedAt := b.decidedAt, decidedBy := b.decidedBy) == b
  }

  lemma EvolvesTransitive(a: Table, b: Table, c: Table)
    requires Evolves(a, b) && Evolves(b, c)
    ensures Evolves(a, c)
  {
    forall id | id in a
      ensures id in c && SameRequest(a[id], c[id]) && (a[id].status != Pending ==> c[id] == a[id])
    {
      assert id in b && SameRequest(b[id], c[id]);
    }
  }

  /** The queue as the guard holds it. */
  class ApprovalQueue {
    var rows: Table

    ghost predicate Valid()
      reads this
    {
      forall id :: id in rows ==> RowConsistent(rows[id])
    }

    constructor ()
      ensures Valid() && rows == map[]
    {
      rows := map[];
    }

    method Enqueue(id: RowId, actor: string, capability: string, target: Option<string>, params: string, now: nat)
      requires Valid() && id !in rows
      modifies this
      ensures Valid()
      ensures IsPending(rows, id) && rows[id].actor == actor && rows[id].capability == capability
      ensures rows[id].target == target && rows[id].params == params && rows[id].createdAt == now
      ensures rows == Insert(old(rows), id, actor, capability, target, params, now)
      ensures Evolves(old(rows), rows)
    {
      rows := Insert(rows, id, actor, capability, target, params, now);
    }

    /** An operator's decision: succeeds exactly on a pending row. */
    method Decide(id: RowId, decider: UserId, approve: bool, now: nat) returns (r: Result<Row, string>)
      requires Valid()
      modifies this
      ensures Valid() && Evolves(old(rows), rows)
      ensures r.Ok? <==> old(IsPending(rows, id))
      ensures r.Ok? ==> id in rows && r.value == rows[id] && r.value.decidedBy == Some(decider)
                        && r.value.status == (if approve then Approved else Denied)
      ensures rows == DecideRow(old(rows), id, decider, approve, now)
      ensures r.Ok? ==> r.value.decidedAt == Some(now) && rows == old(rows)[id := r.value]
      ensures r.Err? ==> rows == old(rows)
    {
      if IsPending(rows, id) {
        rows := DecideRow(rows, id, decider, approve, now);
        r := Ok(rows[id]);
      } else {
        r := Err("decide: no pending row");
      }
    }

    method ExpireIfPending(id: RowId, now: nat)
      requires Valid()
      modifies this
      ensures Valid() && Evolves(old(rows), rows)
      ensures rows == ExpireRow(old(rows), id, now)
      ensures !IsPending(rows, id)
      ensures old(IsPending(rows, id)) ==>
                rows == old(rows)[id := old(rows)[id].(status := Expired, decidedAt := Some(now))]
      ensures !old(IsPending(rows, id)) ==> rows == old(rows)
    {
      rows := ExpireRow(rows, id, now);
    }
  }

  datatype WaitError = ApprovalTimeout(id: RowId) | Database

  predicate Decided(t: Table, id: RowId)
  {
    id in t && (t[id].status == Approved || t[id].status == Denied)
  }

  function CeilDiv(a: nat, b: nat): nat
    requires b > 0
  {
    (a + b - 1) / b
  }

  lemma CeilDivBound(k: nat, poll: nat, timeout: nat)
    requires poll > 0 && k * poll < timeout
    ensures k + 1 <= CeilDiv(timeout, poll)
  {
    var q := CeilDiv(timeout, poll);
    assert timeout <= q * poll;
    assert k * poll < q * poll;
  }

  /** The polling wait.  `world(k)` is what the k-th statement of this wait finds
      in the table, or None when the query fails; anybody may have written
      between two of them.  `clock(k)` is the time of the k-th deadline test; one
      sleep lies between two tests, so they are at least `poll` apart. */
  method WaitForDecision(id: RowId, start: nat, timeout: nat, poll: nat, world: nat -> Option<Table>, clock: nat -> nat)
    returns (r: Result<Row, WaitError>, polls: nat, after: Option<Table>)
    requires poll > 0
    requires start <= clock(0) && forall k: nat :: clock(k) + poll <= clock(k + 1)
    // at most one read per poll interval before the deadline, and one after it
    ensures 1 <= polls <= CeilDiv(timeout, poll) + 1
    // every read but the last succeeded, saw no decision, and was in time
    ensures forall k: nat :: k < polls - 1 ==>
              world(k).Some? && !Decided(world(k).value, id) && clock(k) < start + timeout
    // the answer is the decision the last read saw, when it saw one
    ensures r.Ok? <==> world(polls - 1).Some? && Decided(world(polls - 1).value, id)
    ensures r.Ok? ==> r.value == world(polls - 1).value[id] && after.None?
    ensures r == Err(Database) <==> world(polls - 1).None?
    // a timeout: the deadline has passed, and the row is no longer pending
    ensures r == Err(ApprovalTimeout(id)) <==>
              world(polls - 1).Some? && !Decided(world(polls - 1).value, id)
    ensures r == Err(ApprovalTimeout(id)) ==> clock(polls - 1) >= start + timeout
    ensures r == Err(ApprovalTimeout(id)) && world(polls).Some? ==>
              && after.Some? && Evolves(world(polls).value, after.value) && !IsPending(after.value, id)
              && after.value == ExpireRow(world(polls).value, id, clock(polls - 1))
  {
    var deadline := start + timeout;
    polls := 0;
    after := None;
    while true
      invariant start + polls * poll <= clock(polls)
      invariant polls <= CeilDiv(timeout, poll)
      invariant after.None?
      invariant forall k: nat :: k < polls ==>
                  world(k).Some? && !Decided(world(k).value, id) && clock(k) < deadline
      decreases deadline - clock(polls)
    {
      var found := world(polls);
      polls := polls + 1;
      if found.None? {
        return Err(Database), polls, None;
      }
      if Decided(found.value, id) {
        return Ok(found.value[id]), polls, None;
      }
      if clock(polls - 1) >= deadline {
        var latest := world(polls);
        if latest.Some? {
          after := Some(ExpireRow(latest.value, id, clock(polls - 1)));
        }
        return Err(ApprovalTimeout(id)), polls, after;
      }
      CeilDivBound(polls - 1, poll, timeout);
      assert (polls - 1) * poll + poll == polls * poll;
    }
  }
}
