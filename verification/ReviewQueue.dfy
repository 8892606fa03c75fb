/**
 The queue of items that wait for a human decision. Rows are never deleted, so the item with number id
 stands at position id - 1.
 */
module ReviewQueue {
  import opened Wrappers
  import opened Utf16

  datatype Status = AwaitingApproval | Approved | Rejected

  datatype Item<P> = Item(
    id: nat, kind: Text, refId: Text, status: Status, payload: P, requestedBy: Text, decidedBy: Option<Text>,
    decisionNote: Option<Text>, createdAt: int, updatedAt: int)

  datatype Decision = Approve | Reject

  datatype Request<P> =
    | Create(kind: Text, refId: Text, payload: P, requestedBy: Text, now: int)
    | Decide(id: int, decision: Decision, decidedBy: Text, note: Option<Text>, now: int)

  ghost predicate Numbered<P>(rows: seq<Item<P>>) {
    forall i :: 0 <= i < |rows| ==> rows[i].id == i + 1
  }

  function GetItem<P>(rows: seq<Item<P>>, id: int): Option<Item<P>> {
    if 1 <= id <= |rows| then Some(rows[id - 1]) else None
  }

  function Outcome(decision: Decision): Status {
    match decision
    case Approve => Approved
    case Reject => Rejected
  }

  predicate Decidable<P>(rows: seq<Item<P>>, id: int) {
    1 <= id <= |rows| && rows[id - 1].status == AwaitingApproval
  }

  function Decided<P>(item: Item<P>, decision: Decision, decidedBy: Text, note: Option<Text>, now: int): Item<P> {
    item.(status := Outcome(decision), decidedBy := Some(decidedBy), decisionNote := note, updatedAt := now)
  }

  /** The rows after a request; a decision on an unknown or decided item changes nothing. */
  function After<P>(rows: seq<Item<P>>, request: Request<P>): seq<Item<P>> {
    match request
    case Create(kind, refId, payload, requestedBy, now) =>
      rows + [Item(|rows| + 1, kind, refId, AwaitingApproval, payload, requestedBy, None, None, now, now)]
    case Decide(id, decision, decidedBy, note, now) =>
      if Decidable(rows, id) then rows[id - 1 := Decided(rows[id - 1], decision, decidedBy, note, now)] else rows
  }

  function AfterAll<P>(rows: seq<Item<P>>, requests: seq<Request<P>>): seq<Item<P>>
    decreases requests
  {
    if requests == [] then rows else AfterAll(After(rows, requests[0]), requests[1..])
  }

  /** What may happen to an item: nothing once it is decided, and never to what is under review. */
  predicate Follows<P(==)>(item: Item<P>, later: Item<P>) {
    && (item.status != AwaitingApproval ==> later == item)
    && later.id == item.id && later.kind == item.kind && later.refId == item.refId
    && later.payload == item.payload && later.requestedBy == item.requestedBy && later.createdAt == item.createdAt
  }

  /**
   Decisions are final: over any requests whatsoever, a decided item stays as it is, and what an item puts
   up for review never changes.
   */
  lemma {:induction false} DecisionsAreFinal<P>(rows: seq<Item<P>>, requests: seq<Request<P>>, i: nat)
    requires i < |rows|
    ensures |rows| <= |AfterAll(rows, requests)|
    ensures Follows(rows[i], AfterAll(rows, requests)[i])
    decreases requests
  {
    if requests != [] {
      DecisionsAreFinal(After(rows, requests[0]), requests[1..], i);
    }
  }

  /** Of all decisions asked for one item only the first one that finds it open takes effect. */
  lemma FirstDecisionWins<P>(rows: seq<Item<P>>, first: Request<P>, later: seq<Request<P>>)
    requires first.Decide? && Decidable(rows, first.id)
    ensures
      var item, decided := rows[first.id - 1], GetItem(AfterAll(rows, [first] + later), first.id);
      && decided.Some?
      && decided.value.status == (if first.decision == Approve then Approved else Rejected)
      && decided.value.decidedBy == Some(first.decidedBy) && decided.value.decisionNote == first.note
      && decided.value.updatedAt == first.now && decided.value.createdAt == item.createdAt
      && decided.value.id == item.id && decided.value.payload == item.payload
  {
    assert ([first] + later)[1..] == later;
    DecisionsAreFinal(After(rows, first), later, first.id - 1);
  }

  class Queue<P> {
    var rows: seq<Item<P>>

    constructor ()
      ensures rows == []
    {
      rows := [];
    }

    method CreateReviewItem(kind: Text, refId: Text, payload: P, requestedBy: Text, now: int) returns (item: Item<P>)
      requires Numbered(rows)
      modifies this
      ensures rows == After(old(rows), Create(kind, refId, payload, requestedBy, now))
      ensures Numbered(rows) && GetItem(rows, item.id) == Some(item) && item.id == |old(rows)| + 1
      ensures item.status == AwaitingApproval && item.decidedBy == None && item.decisionNote == None
      ensures item.kind == kind && item.refId == refId && item.payload == payload && item.requestedBy == requestedBy
    {
      var id := |rows| + 1;
      item := Item(id, kind, refId, AwaitingApproval, payload, requestedBy, None, None, now, now);
      rows := rows + [item];
    }

    /** Refuses, with None, what does not exist or was decided before. */
    method DecideReviewItem(id: int, decision: Decision, decidedBy: Text, note: Option<Text>, now: int)
      returns (decided: Option<Item<P>>)
      requires Numbered(rows)
      modifies this
      ensures Numbered(rows)
      ensures rows == After(old(rows), Decide(id, decision, decidedBy, note, now))
      ensures decided.Some? <==> Decidable(old(rows), id)
      ensures decided.Some? ==> decided == GetItem(rows, id)
    {
      var existing := GetItem(rows, id);
      if existing.None? || existing.value.status != AwaitingApproval {
        return None;
      }
      var status := if decision.Approve? then Approved else Rejected;
      rows := rows[id - 1 := existing.value.(
        status := status, decidedBy := Some(decidedBy), decisionNote := note, updatedAt := now)];
      decided := GetItem(rows, id);
    }
  }
}
