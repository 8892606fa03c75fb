/**
 What moves a pending action or an offer, exactly, and whose word every action goes back to: the operator's, who
 approves or rejects it or dismisses its offer, or the chain's, which confirms it or does not.
 */
module ActionFates {
  import opened Wrappers
  import opened PendingActions

  /** The event that takes the action from one status to another. */
  predicate Event(s: State, step: Step, id: nat, before: Status, after: Status) {
    match (before, after)
    case (AwaitingApproval, SubmittedPending) => step.Approve? && step.id == id
    case (AwaitingApproval, Rejected) =>
      || (step.Reject? && step.id == id)
      || (step.Dismiss? && 1 <= step.offer <= |s.offers| && step.inFlight == Some(id))
    case (SubmittedPending, Confirmed) => step.ChainAnswers? && step.call == id && step.outcome.Confirms?
    case (SubmittedPending, Failed) => step.ChainAnswers? && step.call == id && step.outcome.Fails?
    case _ => false
  }

  /** When the event happens. */
  function TimeOf(step: Step): Option<int> {
    match step
    case Approve(_, now) => Some(now)
    case ChainAnswers(_, _, now) => Some(now)
    case Reject(_, now) => Some(now)
    case Dismiss(_, _, now) => Some(now)
    case _ => None
  }

  /** What the event leaves in the action: a confirmed one has its transaction, a proposal its contract's address. */
  predicate Leaves(step: Step, before: Action, after: Action) {
    && after.id == before.id && after.kind == before.kind && after.payload == before.payload
    && after.createdAt == before.createdAt && Some(after.updatedAt) == TimeOf(step)
    && (if step.ChainAnswers? && step.outcome.Confirms? then
          && after.txId == Some(step.outcome.txId)
          && after.dealRef == (if before.kind == Propose then step.outcome.contractAddress else before.dealRef)
        else after.txId == before.txId && after.dealRef == before.dealRef)
  }

  predicate MovesBy(s: State, step: Step, before: Action, after: Action) {
    && (after.status == before.status ==> after == before)
    && (after.status != before.status ==>
          Event(s, step, before.id, before.status, after.status) && Leaves(step, before, after))
  }

  ghost predicate Obeys(s: State, step: Step, before: Action, after: Action) {
    forall status :: Event(s, step, before.id, before.status, status) ==> after.status == status
  }

  ghost predicate Fated(s: State, step: Step, i: nat)
    requires Enabled(s, step) && i < |s.actions|
  {
    var t := Apply(s, step);
    i < |t.actions| && MovesBy(s, step, s.actions[i], t.actions[i]) && Obeys(s, step, s.actions[i], t.actions[i])
  }

  lemma ChainFate(s: State, step: Step, i: nat)
    requires Inv(s) && Enabled(s, step) && step.ChainAnswers? && i < |s.actions|
    ensures Fated(s, step, i)
  {
    assert s.actions[step.call - 1].status == SubmittedPending;
  }

  lemma DismissFate(s: State, step: Step, i: nat)
    requires Inv(s) && Enabled(s, step) && step.Dismiss? && i < |s.actions|
    ensures Fated(s, step, i)
  {
  }

  lemma StepFate(s: State, step: Step, i: nat)
    requires Inv(s) && Enabled(s, step) && i < |s.actions|
    ensures Fated(s, step, i)
  {
    match step
    case ChainAnswers(_, _, _) => ChainFate(s, step, i);
    case Dismiss(_, _, _) => DismissFate(s, step, i);
    case _ =>
  }

  /** The action that a request queues, if it queues one. */
  predicate QueuedBy(step: Step, a: Action) {
    && a.status == AwaitingApproval && a.txId == None
    && match step
       case QueueProposal(placeholder, payload, now) =>
         a.kind == Propose && a.dealRef == placeholder && a.payload == payload && a.createdAt == now
       case QueueLock(contract, payload, _, inFlight, now) =>
         inFlight == None && a.kind == LockEscrow && a.dealRef == contract && a.payload == payload && a.createdAt == now
       case _ => false
  }

  lemma NewAction(s: State, step: Step, i: nat)
    requires Enabled(s, step) && |s.actions| <= i < |Apply(s, step).actions|
    ensures i == |s.actions| && QueuedBy(step, Apply(s, step).actions[i])
  {
  }

  /** Every proposal is queued, every lock that finds none of its contract in flight is, and nothing else. */
  lemma QueuesIff(s: State, step: Step)
    requires Enabled(s, step)
    ensures |Apply(s, step).actions| == |s.actions| +
              if step.QueueProposal? || (step.QueueLock? && step.inFlight == None) then 1 else 0
    ensures |Apply(s, step).offers| == |s.offers| + if step.ReceiveOffer? then 1 else 0
  {
  }

  /** An offer is used by the lock queued from it and dismissed by a dismissal that goes through, and that is all. */
  lemma OfferFate(s: State, step: Step, k: nat)
    requires Enabled(s, step) && k < |s.offers|
    ensures |s.offers| <= |Apply(s, step).offers|
    ensures
      var before, after := s.offers[k], Apply(s, step).offers[k];
      var waiting :=
        step.Dismiss? &&
        (step.inFlight.Some? ==>
           Known(s.actions, step.inFlight.value) && s.actions[step.inFlight.value - 1].status == AwaitingApproval);
      && after.id == before.id && after.contractAddress == before.contractAddress
      && after.status ==
         if step.QueueLock? && step.inFlight.None? && step.offerId == Some(k + 1) then Used
         else if step.Dismiss? && step.offer == k + 1 && waiting then Dismissed
         else before.status
  {
  }

  // ---- runs ----

  ghost predicate MovedAt(ss: seq<State>, steps: seq<Step>, h: nat, k: nat, status: Status)
    requires h < |steps| < |ss|
  {
    && k < |ss[h].actions| && k < |ss[h + 1].actions|
    && Event(ss[h], steps[h], k + 1, ss[h].actions[k].status, status)
    && Leaves(steps[h], ss[h].actions[k], ss[h + 1].actions[k])
  }

  lemma RunFate(ss: seq<State>, steps: seq<Step>, i: nat, k: nat)
    requires Run(ss, steps) && i < |steps| && k < |ss[i].actions|
    ensures k < |ss[i + 1].actions| && ss[i].actions[k].id == k + 1
    ensures MovesBy(ss[i], steps[i], ss[i].actions[k], ss[i + 1].actions[k])
    ensures Obeys(ss[i], steps[i], ss[i].actions[k], ss[i + 1].actions[k])
  {
    RunInv(ss, steps, i);
    assert Next(ss[i], steps[i], ss[i + 1]);
    StepFate(ss[i], steps[i], k);
  }

  /** What does not await approval any more was moved where it is, and has not changed since. */
  lemma {:induction false} LastMove(ss: seq<State>, steps: seq<Step>, i: nat, k: nat) returns (h: nat)
    requires Run(ss, steps) && i <= |steps| && k < |ss[i].actions| && ss[i].actions[k].status != AwaitingApproval
    ensures h < i && MovedAt(ss, steps, h, k, ss[i].actions[k].status)
    ensures ss[i].actions[k] == ss[h + 1].actions[k]
    decreases i
  {
    assert i > 0;
    assert Next(ss[i - 1], steps[i - 1], ss[i]);
    if k < |ss[i - 1].actions| {
      RunFate(ss, steps, i - 1, k);
      if ss[i].actions[k] == ss[i - 1].actions[k] {
        h := LastMove(ss, steps, i - 1, k);
      } else {
        h := i - 1;
      }
    } else {
      NewAction(ss[i - 1], steps[i - 1], k);
    }
  }

  ghost predicate EndsAt(ss: seq<State>, steps: seq<Step>, h: nat, k: nat, status: Status)
    requires h < |steps| < |ss|
  {
    k < |ss[h].actions| && Event(ss[h], steps[h], k + 1, ss[h].actions[k].status, status)
  }

  /** An action is confirmed, failed or rejected exactly if the chain, or the operator, has said so. */
  lemma EndsIff(ss: seq<State>, steps: seq<Step>, i: nat, k: nat, status: Status)
    requires Run(ss, steps) && i <= |steps| && k < |ss[i].actions| && status in {Confirmed, Failed, Rejected}
    ensures ss[i].actions[k].status == status <==> exists h :: 0 <= h < i && EndsAt(ss, steps, h, k, status)
  {
    if ss[i].actions[k].status == status {
      var h := LastMove(ss, steps, i, k);
      assert EndsAt(ss, steps, h, k, status);
    }
    if h :| 0 <= h < i && EndsAt(ss, steps, h, k, status) {
      RunFate(ss, steps, h, k);
      DecidedStays(ss, steps, h + 1, i, k);
    }
  }

  /** Whatever went to the chain the operator approved while it was waiting, and nothing else goes. */
  lemma {:induction false} GoesOnApproval(ss: seq<State>, steps: seq<Step>, i: nat, k: nat) returns (h: nat)
    requires Run(ss, steps) && i <= |steps| && k < |ss[i].actions| && Went(ss[i].actions[k].status)
    ensures h < i && steps[h].Approve? && steps[h].id == k + 1
    ensures k < |ss[h].actions| && ss[h].actions[k].status == AwaitingApproval
    decreases i
  {
    h := LastMove(ss, steps, i, k);
    if ss[h].actions[k].status != AwaitingApproval {
      h := GoesOnApproval(ss, steps, h, k);
    }
  }
}
