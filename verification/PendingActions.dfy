/**
 The queue of financial actions that wait for the operator: queueing a lock, approving, rejecting, and
 dismissing the offer a lock came from. Approving awaits the chain, and anything may be requested meanwhile.
 */
module PendingActions {
  import opened Wrappers
  import opened Utf16

  datatype Kind = Propose | LockEscrow

  datatype Status =
    | AwaitingApproval
    | Approved              // declared, written by nobody
    | SubmittedPending
    | Confirmed
    | Rejected
    | Failed

  datatype Action = Action(
    id: nat, dealRef: Text, kind: Kind, status: Status, payload: Text, txId: Option<Text>, createdAt: int,
    updatedAt: int)

  datatype OfferStatus = Pending | Dismissed | Used

  datatype Offer = Offer(id: nat, contractAddress: Text, status: OfferStatus)

  /** A chain call made, with the parameters it was made with. */
  datatype Submission = Submission(id: nat, payload: Text)

  datatype State = State(
    actions: seq<Action>,
    offers: seq<Offer>,
    running: set<nat>,               // approve handlers that await the chain
    submissions: seq<Submission>)    // every chain call ever made

  const INITIAL := State([], [], {}, [])

  predicate InFlight(a: Action) {
    a.status == AwaitingApproval || a.status == Approved || a.status == SubmittedPending
  }

  predicate IsLockOf(a: Action, contract: Text) {
    a.kind == LockEscrow && a.dealRef == contract && InFlight(a)
  }

  /** What `findInFlightAction` may answer about the locks of a contract. */
  ghost predicate Finds(actions: seq<Action>, contract: Text, found: Option<nat>) {
    match found
    case None => forall i :: 0 <= i < |actions| ==> !IsLockOf(actions[i], contract)
    case Some(id) => 1 <= id <= |actions| && IsLockOf(actions[id - 1], contract)
  }

  predicate Known(actions: seq<Action>, id: int) {
    1 <= id <= |actions|
  }

  function SetStatus(actions: seq<Action>, id: nat, status: Status, txId: Option<Text>, dealRef: Option<Text>, now: int)
    : seq<Action>
    requires Known(actions, id)
  {
    var a := actions[id - 1];
    actions[id - 1 := a.(
      status := status, txId := if txId.Some? then txId else a.txId,
      dealRef := if dealRef.Some? then dealRef.value else a.dealRef, updatedAt := now)]
  }

  function SetOffer(offers: seq<Offer>, id: int, status: OfferStatus): seq<Offer> {
    if 1 <= id <= |offers| then offers[id - 1 := offers[id - 1].(status := status)] else offers
  }

  function Queued(actions: seq<Action>, kind: Kind, dealRef: Text, payload: Text, now: int): seq<Action> {
    actions + [Action(|actions| + 1, dealRef, kind, AwaitingApproval, payload, None, now, now)]
  }

  datatype Outcome = Confirms(txId: Text, contractAddress: Text) | Fails

  datatype Step =
    | QueueProposal(placeholder: Text, payload: Text, now: int)
    | QueueLock(contract: Text, payload: Text, offerId: Option<int>, inFlight: Option<nat>, now: int)
    | Approve(id: int, now: int)
    | ChainAnswers(call: nat, outcome: Outcome, now: int)
    | Reject(id: int, now: int)
    | ReceiveOffer(contractAddress: Text)
    | Dismiss(offer: int, inFlight: Option<nat>, now: int)
    | Restart

  ghost predicate Enabled(s: State, step: Step) {
    match step
    case QueueLock(contract, _, _, inFlight, _) => Finds(s.actions, contract, inFlight)
    case ChainAnswers(call, _, _) => call in s.running && Known(s.actions, call)
    case Dismiss(offer, inFlight, _) =>
      1 <= offer <= |s.offers| ==> Finds(s.actions, s.offers[offer - 1].contractAddress, inFlight)
    case _ => true
  }

  function LockQueued(
    s: State, contract: Text, payload: Text, offerId: Option<int>, inFlight: Option<nat>, now: int): State
  {
    if inFlight.Some? then s
    else
      s.(actions := Queued(s.actions, LockEscrow, contract, payload, now),
         offers := if offerId.Some? then SetOffer(s.offers, offerId.value, Used) else s.offers)
  }

  predicate Awaits(s: State, id: int) {
    Known(s.actions, id) && s.actions[id - 1].status == AwaitingApproval
  }

  /** The approve handler up to its chain call. */
  function Submitted(s: State, id: int, now: int): State {
    if !Awaits(s, id) then s
    else
      s.(actions := SetStatus(s.actions, id, SubmittedPending, None, None, now), running := s.running + {id},
         submissions := s.submissions + [Submission(id, s.actions[id - 1].payload)])
  }

  /** A proposal takes on the address of the contract it deployed. */
  function Finished(s: State, call: nat, outcome: Outcome, now: int): State
    requires Known(s.actions, call)
  {
    var actions :=
      match outcome
      case Fails => SetStatus(s.actions, call, Failed, None, None, now)
      case Confirms(txId, contractAddress) =>
        SetStatus(s.actions, call, Confirmed, Some(txId),
                  if s.actions[call - 1].kind.Propose? then Some(contractAddress) else None, now);
    s.(actions := actions, running := s.running - {call})
  }

  function Turned(s: State, id: int, now: int): State {
    if Awaits(s, id) then s.(actions := SetStatus(s.actions, id, Rejected, None, None, now)) else s
  }

  /** None of the answers 404 and 409. */
  predicate Dismissible(s: State, offer: int, inFlight: Option<nat>) {
    1 <= offer <= |s.offers| && (inFlight.Some? ==> Awaits(s, inFlight.value))
  }

  function OfferDismissed(s: State, offer: int, inFlight: Option<nat>, now: int): State {
    if !Dismissible(s, offer, inFlight) then s
    else
      var t := if inFlight.Some? then Turned(s, inFlight.value, now) else s;
      t.(offers := SetOffer(s.offers, offer, Dismissed))
  }

  ghost function Apply(s: State, step: Step): State
    requires Enabled(s, step)
  {
    match step
    case QueueProposal(placeholder, payload, now) =>
      s.(actions := Queued(s.actions, Propose, placeholder, payload, now))
    case QueueLock(contract, payload, offerId, inFlight, now) =>
      LockQueued(s, contract, payload, offerId, inFlight, now)
    case Approve(id, now) => Submitted(s, id, now)
    case ChainAnswers(call, outcome, now) => Finished(s, call, outcome, now)
    case Reject(id, now) => Turned(s, id, now)
    case ReceiveOffer(contractAddress) =>
      s.(offers := s.offers + [Offer(|s.offers| + 1, contractAddress, Pending)])
    case Dismiss(offer, inFlight, now) => OfferDismissed(s, offer, inFlight, now)
    case Restart => s.(running := {})
  }

  // ---- the invariant ----

  ghost predicate OneLockEach(actions: seq<Action>) {
    forall i, j :: 0 <= i < j < |actions| && IsLockOf(actions[i], actions[i].dealRef) ==>
      !IsLockOf(actions[j], actions[i].dealRef)
  }

  ghost predicate IsSubmitted(submissions: seq<Submission>, id: nat) {
    exists k :: 0 <= k < |submissions| && submissions[k].id == id
  }

  predicate Went(status: Status) {
    status == SubmittedPending || status == Confirmed || status == Failed
  }

  /** Actions that went to the chain did so once, with the parameters that were queued. */
  ghost predicate SubmittedOnce(actions: seq<Action>, submissions: seq<Submission>) {
    && (forall k :: 0 <= k < |submissions| ==>
          && Known(actions, submissions[k].id) && Went(actions[submissions[k].id - 1].status)
          && submissions[k].payload == actions[submissions[k].id - 1].payload)
    && (forall j, k :: 0 <= j < k < |submissions| ==> submissions[j].id != submissions[k].id)
    && (forall i :: 0 <= i < |actions| && Went(actions[i].status) ==> IsSubmitted(submissions, i + 1))
  }

  ghost predicate Inv(s: State) {
    && (forall i :: 0 <= i < |s.actions| ==> s.actions[i].id == i + 1 && s.actions[i].status != Approved)
    && OneLockEach(s.actions)
    && SubmittedOnce(s.actions, s.submissions)
    && (forall id :: id in s.running ==> Known(s.actions, id) && s.actions[id - 1].status == SubmittedPending)
  }

  lemma QueuedKeepsLocks(actions: seq<Action>, kind: Kind, dealRef: Text, payload: Text, now: int)
    requires OneLockEach(actions)
    requires kind == LockEscrow ==> forall i :: 0 <= i < |actions| ==> !IsLockOf(actions[i], dealRef)
    ensures OneLockEach(Queued(actions, kind, dealRef, payload, now))
  {
  }

  lemma QueuedKeepsSubmissions(
    actions: seq<Action>, submissions: seq<Submission>, kind: Kind, dealRef: Text, payload: Text, now: int)
    requires SubmittedOnce(actions, submissions)
    ensures SubmittedOnce(Queued(actions, kind, dealRef, payload, now), submissions)
  {
  }

  lemma StatusKeepsLocks(
    actions: seq<Action>, id: nat, status: Status, txId: Option<Text>, dealRef: Option<Text>, now: int)
    requires OneLockEach(actions) && Known(actions, id) && InFlight(actions[id - 1])
    requires dealRef.Some? ==> actions[id - 1].kind.Propose?
    ensures OneLockEach(SetStatus(actions, id, status, txId, dealRef, now))
  {
    var after := SetStatus(actions, id, status, txId, dealRef, now);
    forall i, j | 0 <= i < j < |after| && IsLockOf(after[i], after[i].dealRef)
      ensures !IsLockOf(after[j], after[i].dealRef)
    {
      assert IsLockOf(actions[i], actions[i].dealRef) && after[i].dealRef == actions[i].dealRef;
      assert !IsLockOf(actions[j], actions[i].dealRef);
    }
  }

  lemma StatusKeepsSubmissions(
    actions: seq<Action>, submissions: seq<Submission>, id: nat, status: Status, txId: Option<Text>,
    dealRef: Option<Text>, now: int)
    requires SubmittedOnce(actions, submissions) && Known(actions, id)
    requires Went(status) <==> Went(actions[id - 1].status)
    ensures SubmittedOnce(SetStatus(actions, id, status, txId, dealRef, now), submissions)
  {
    var after := SetStatus(actions, id, status, txId, dealRef, now);
    forall i | 0 <= i < |after| && Went(after[i].status) ensures IsSubmitted(submissions, i + 1) {
      assert Went(actions[i].status);
    }
  }

  /** An action that awaits approval has not gone anywhere. */
  lemma NotYetSubmitted(actions: seq<Action>, submissions: seq<Submission>, id: nat, k: nat)
    requires SubmittedOnce(actions, submissions) && Known(actions, id) && actions[id - 1].status == AwaitingApproval
    requires k < |submissions|
    ensures submissions[k].id != id
  {
  }

  lemma OneMoreSubmitted(actions: seq<Action>, submissions: seq<Submission>, id: nat, later: seq<Submission>)
    requires
      forall i :: 0 <= i < |actions| && Went(actions[i].status) ==> i + 1 == id || IsSubmitted(submissions, i + 1)
    requires |later| == |submissions| + 1 && later[..|submissions|] == submissions && later[|submissions|].id == id
    ensures forall i :: 0 <= i < |actions| && Went(actions[i].status) ==> IsSubmitted(later, i + 1)
  {
    forall i | 0 <= i < |actions| && Went(actions[i].status) ensures IsSubmitted(later, i + 1) {
      if i + 1 == id {
        assert later[|submissions|].id == i + 1;
      } else {
        var k :| 0 <= k < |submissions| && submissions[k].id == i + 1;
        assert later[k] == later[..|submissions|][k];
      }
    }
  }

  lemma SubmitKeepsSubmissions(actions: seq<Action>, submissions: seq<Submission>, id: nat, now: int)
    requires SubmittedOnce(actions, submissions) && Known(actions, id) && actions[id - 1].status == AwaitingApproval
    ensures
      SubmittedOnce(SetStatus(actions, id, SubmittedPending, None, None, now),
                    submissions + [Submission(id, actions[id - 1].payload)])
  {
    var after := SetStatus(actions, id, SubmittedPending, None, None, now);
    var later := submissions + [Submission(id, actions[id - 1].payload)];
    forall k | 0 <= k < |submissions| ensures submissions[k].id != id {
      NotYetSubmitted(actions, submissions, id, k);
    }
    OneMoreSubmitted(after, submissions, id, later);
  }

  lemma SubmittedKeepsInv(s: State, id: int, now: int)
    requires Inv(s)
    ensures Inv(Submitted(s, id, now))
  {
    if Awaits(s, id) {
      StatusKeepsLocks(s.actions, id, SubmittedPending, None, None, now);
      SubmitKeepsSubmissions(s.actions, s.submissions, id, now);
    }
  }

  lemma FinishedKeepsInv(s: State, call: nat, outcome: Outcome, now: int)
    requires Inv(s) && call in s.running && Known(s.actions, call)
    ensures Inv(Finished(s, call, outcome, now))
  {
    match outcome
    case Fails =>
      StatusKeepsLocks(s.actions, call, Failed, None, None, now);
      StatusKeepsSubmissions(s.actions, s.submissions, call, Failed, None, None, now);
    case Confirms(txId, contractAddress) =>
      var dealRef := if s.actions[call - 1].kind.Propose? then Some(contractAddress) else None;
      StatusKeepsLocks(s.actions, call, Confirmed, Some(txId), dealRef, now);
      StatusKeepsSubmissions(s.actions, s.submissions, call, Confirmed, Some(txId), dealRef, now);
  }

  lemma TurnedKeepsInv(s: State, id: int, now: int)
    requires Inv(s)
    ensures Inv(Turned(s, id, now))
  {
    if Awaits(s, id) {
      StatusKeepsLocks(s.actions, id, Rejected, None, None, now);
      StatusKeepsSubmissions(s.actions, s.submissions, id, Rejected, None, None, now);
    }
  }

  lemma LockQueuedKeepsInv(
    s: State, contract: Text, payload: Text, offerId: Option<int>, inFlight: Option<nat>, now: int)
    requires Inv(s) && Finds(s.actions, contract, inFlight)
    ensures Inv(LockQueued(s, contract, payload, offerId, inFlight, now))
  {
    if inFlight.None? {
      QueuedKeepsLocks(s.actions, LockEscrow, contract, payload, now);
      QueuedKeepsSubmissions(s.actions, s.submissions, LockEscrow, contract, payload, now);
    }
  }

  lemma StepKeepsInv(s: State, step: Step)
    requires Inv(s) && Enabled(s, step)
    ensures Inv(Apply(s, step))
  {
    match step
    case QueueProposal(placeholder, payload, now) =>
      QueuedKeepsLocks(s.actions, Propose, placeholder, payload, now);
      QueuedKeepsSubmissions(s.actions, s.submissions, Propose, placeholder, payload, now);
    case QueueLock(contract, payload, offerId, inFlight, now) =>
      LockQueuedKeepsInv(s, contract, payload, offerId, inFlight, now);
    case Approve(id, now) => SubmittedKeepsInv(s, id, now);
    case ChainAnswers(call, outcome, now) => FinishedKeepsInv(s, call, outcome, now);
    case Reject(id, now) => TurnedKeepsInv(s, id, now);
    case Dismiss(offer, inFlight, now) =>
      if Dismissible(s, offer, inFlight) && inFlight.Some? {
        TurnedKeepsInv(s, inFlight.value, now);
      }
    case _ =>
  }

  // ---- how an action moves ----

  predicate Edge(before: Status, after: Status) {
    || (before == AwaitingApproval && (after == SubmittedPending || after == Rejected))
    || (before == SubmittedPending && (after == Confirmed || after == Failed))
  }

  /** An action stays as it is or moves along an edge; its parameters never change. */
  predicate Moves(before: Action, after: Action) {
    || after == before
    || (Edge(before.status, after.status) && after.payload == before.payload && after.kind == before.kind)
  }

  lemma StepMoves(s: State, step: Step, i: nat)
    requires Inv(s) && Enabled(s, step) && i < |s.actions|
    ensures |s.actions| <= |Apply(s, step).actions| && Moves(s.actions[i], Apply(s, step).actions[i])
  {
    match step
    case ChainAnswers(call, outcome, now) => assert s.actions[call - 1].status == SubmittedPending;
    case _ =>
  }

  // ---- runs ----

  ghost predicate Next(s: State, step: Step, t: State) {
    Enabled(s, step) && t == Apply(s, step)
  }

  ghost predicate Run(ss: seq<State>, steps: seq<Step>) {
    && |ss| == |steps| + 1
    && ss[0] == INITIAL
    && forall i {:trigger steps[i]} :: 0 <= i < |steps| ==> Next(ss[i], steps[i], ss[i + 1])
  }

  lemma {:induction false} RunInv(ss: seq<State>, steps: seq<Step>, i: nat)
    requires Run(ss, steps) && i <= |steps|
    ensures Inv(ss[i])
  {
    if i > 0 {
      RunInv(ss, steps, i - 1);
      assert Next(ss[i - 1], steps[i - 1], ss[i]);
      StepKeepsInv(ss[i - 1], steps[i - 1]);
    }
  }

  /** A lock of the contract that waits for the operator or for the chain. */
  predicate UndecidedLock(a: Action, contract: Text) {
    && a.kind.LockEscrow? && a.dealRef == contract
    && a.status != Confirmed && a.status != Rejected && a.status != Failed
  }

  /** At any time a contract has at most one lock in flight. */
  lemma OneLockInFlight(ss: seq<State>, steps: seq<Step>, i: nat, contract: Text, j: nat, k: nat)
    requires Run(ss, steps) && i <= |steps| && j < |ss[i].actions| && k < |ss[i].actions|
    requires UndecidedLock(ss[i].actions[j], contract) && UndecidedLock(ss[i].actions[k], contract)
    ensures j == k
  {
    RunInv(ss, steps, i);
    if j != k {
      OnlyLock(ss[i].actions, contract, j, k);
    }
  }

  /** No action goes to the chain twice. */
  lemma NothingGoesTwice(ss: seq<State>, steps: seq<Step>, i: nat, j: nat, k: nat)
    requires Run(ss, steps) && i <= |steps| && j < |ss[i].submissions| && k < |ss[i].submissions|
    requires ss[i].submissions[j].id == ss[i].submissions[k].id
    ensures j == k
  {
    RunInv(ss, steps, i);
  }

  /** What goes to the chain was approved and is what was queued; what is rejected never goes. */
  lemma OnlyApprovedGoes(ss: seq<State>, steps: seq<Step>, i: nat, k: nat)
    requires Run(ss, steps) && i <= |steps| && k < |ss[i].submissions|
    ensures
      var submission := ss[i].submissions[k];
      && Known(ss[i].actions, submission.id)
      && submission.payload == ss[i].actions[submission.id - 1].payload
      && ss[i].actions[submission.id - 1].status in {SubmittedPending, Confirmed, Failed}
  {
    RunInv(ss, steps, i);
  }

  /** Confirmed, rejected and failed actions never change again. */
  lemma {:induction false} DecidedStays(ss: seq<State>, steps: seq<Step>, i: nat, j: nat, k: nat)
    requires Run(ss, steps) && i <= j <= |steps| && k < |ss[i].actions|
    requires ss[i].actions[k].status in {Confirmed, Rejected, Failed}
    ensures k < |ss[j].actions| && ss[j].actions[k] == ss[i].actions[k]
    decreases j
  {
    if i < j {
      DecidedStays(ss, steps, i, j - 1, k);
      RunInv(ss, steps, j - 1);
      assert Next(ss[j - 1], steps[j - 1], ss[j]);
      StepMoves(ss[j - 1], steps[j - 1], k);
    }
  }

  /** Right after an offer is dismissed its contract has no lock in flight. */
  lemma DismissLeavesNoLock(ss: seq<State>, steps: seq<Step>, i: nat, k: nat)
    requires Run(ss, steps) && i < |steps| && steps[i].Dismiss?
    requires Dismissible(ss[i], steps[i].offer, steps[i].inFlight) && k < |ss[i + 1].actions|
    ensures !UndecidedLock(ss[i + 1].actions[k], ss[i].offers[steps[i].offer - 1].contractAddress)
  {
    RunInv(ss, steps, i);
    var s, step := ss[i], steps[i];
    assert Next(s, step, ss[i + 1]);
    var contract := s.offers[step.offer - 1].contractAddress;
    assert Finds(s.actions, contract, step.inFlight);
    if step.inFlight.Some? && k != step.inFlight.value - 1 {
      OnlyLock(s.actions, contract, step.inFlight.value - 1, k);
    }
  }

  lemma OnlyLock(actions: seq<Action>, contract: Text, j: nat, k: nat)
    requires OneLockEach(actions) && j < |actions| && k < |actions| && j != k && IsLockOf(actions[j], contract)
    ensures !IsLockOf(actions[k], contract)
  {
  }

  // ---- the agent's tables and handlers ----

  class ActionQueue {
    var actions: seq<Action>
    var offers: seq<Offer>
    var running: set<nat>
    ghost var submissions: seq<Submission>

    ghost function View(): State
      reads this
    {
      State(actions, offers, running, submissions)
    }

    constructor ()
      ensures View() == INITIAL
    {
      actions, offers, running, submissions := [], [], {}, [];
    }

    /** The latest created lock of a contract that is still in flight. */
    method FindInFlightLock(contract: Text) returns (found: Option<nat>)
      ensures Finds(actions, contract, found)
      ensures found.Some? <==> exists i :: 0 <= i < |actions| && UndecidedLock(actions[i], contract)
      ensures found.Some? ==> forall i :: 0 <= i < |actions| && IsLockOf(actions[i], contract) ==>
                actions[i].createdAt <= actions[found.value - 1].createdAt
    {
      found := None;
      var i := 0;
      while i < |actions|
        invariant 0 <= i <= |actions|
        invariant found.None? ==> forall k :: 0 <= k < i ==> !IsLockOf(actions[k], contract)
        invariant found.Some? ==> 1 <= found.value <= i && IsLockOf(actions[found.value - 1], contract)
        invariant found.Some? ==> forall k :: 0 <= k < i && IsLockOf(actions[k], contract) ==>
                    actions[k].createdAt <= actions[found.value - 1].createdAt
      {
        if IsLockOf(actions[i], contract)
           && (found.None? || actions[found.value - 1].createdAt <= actions[i].createdAt) {
          found := Some(i + 1);
        }
        i := i + 1;
      }
    }

    method UpdateStatus(id: nat, status: Status, txId: Option<Text>, dealRef: Option<Text>, now: int)
      requires Known(actions, id)
      modifies this`actions
      ensures actions == SetStatus(old(actions), id, status, txId, dealRef, now)
    {
      var a := actions[id - 1];
      var newTxId := if txId.Some? then txId else a.txId;
      var newRef := if dealRef.Some? then dealRef.value else a.dealRef;
      actions := actions[id - 1 := Action(a.id, newRef, a.kind, status, a.payload, newTxId, a.createdAt, now)];
    }

    method PostProposal(placeholder: Text, payload: Text, now: int) returns (id: nat)
      modifies this
      ensures View() == Apply(old(View()), QueueProposal(placeholder, payload, now))
      ensures Known(actions, id) && !Known(old(actions), id)
    {
      id := |actions| + 1;
      actions := actions + [Action(id, placeholder, Propose, AwaitingApproval, payload, None, now, now)];
    }

    /** Queues a lock, or names the one in flight with a 409. */
    method PostLock(contract: Text, payload: Text, offerId: Option<int>, now: int) returns (inFlight: Option<nat>)
      modifies this
      ensures Finds(old(actions), contract, inFlight)
      ensures inFlight.Some? <==> exists i :: 0 <= i < |old(actions)| && UndecidedLock(old(actions)[i], contract)
      ensures View() == Apply(old(View()), QueueLock(contract, payload, offerId, inFlight, now))
    {
      inFlight := FindInFlightLock(contract);
      if inFlight.Some? {
        return;
      }
      actions := actions + [Action(|actions| + 1, contract, LockEscrow, AwaitingApproval, payload, None, now, now)];
      if offerId.Some? {
        offers := SetOffer(offers, offerId.value, Used);
      }
    }

    /** Up to the chain call; the answer is the status code, or 0 to go on with the payload. */
    method PostApprove(id: int, now: int) returns (code: nat, payload: Text)
      modifies this
      ensures View() == Apply(old(View()), Approve(id, now))
      ensures code == if !Known(old(actions), id) then 404 else if !Awaits(old(View()), id) then 409 else 0
      ensures code == 0 ==> payload == old(actions)[id - 1].payload
    {
      payload := [];
      if !Known(actions, id) {
        return 404, payload;
      }
      if actions[id - 1].status != AwaitingApproval {
        return 409, payload;
      }
      payload := actions[id - 1].payload;
      UpdateStatus(id, SubmittedPending, None, None, now);
      running := running + {id};
      submissions := submissions + [Submission(id, payload)];
      code := 0;
    }

    method ChainAnswered(id: nat, outcome: Outcome, now: int)
      requires id in running && Known(actions, id)
      modifies this
      ensures View() == Apply(old(View()), ChainAnswers(id, outcome, now))
    {
      running := running - {id};
      match outcome
      case Fails =>
        UpdateStatus(id, Failed, None, None, now);
      case Confirms(txId, contractAddress) =>
        var dealRef := if actions[id - 1].kind.Propose? then Some(contractAddress) else None;
        UpdateStatus(id, Confirmed, Some(txId), dealRef, now);
    }

    method PostReject(id: int, now: int) returns (code: nat)
      modifies this
      ensures View() == Apply(old(View()), Reject(id, now))
      ensures code == if !Known(old(actions), id) then 404 else if !Awaits(old(View()), id) then 409 else 0
    {
      if !Known(actions, id) {
        return 404;
      }
      if actions[id - 1].status != AwaitingApproval {
        return 409;
      }
      UpdateStatus(id, Rejected, None, None, now);
      code := 0;
    }

    method PostDismiss(id: int, now: int) returns (code: nat, ghost inFlight: Option<nat>)
      modifies this
      ensures Enabled(old(View()), Dismiss(id, inFlight, now))
      ensures View() == Apply(old(View()), Dismiss(id, inFlight, now))
      ensures code == 0 <==> Dismissible(old(View()), id, inFlight)
      ensures code == 404 <==> !(1 <= id <= |old(offers)|)
      ensures code in {0, 404, 409}
    {
      inFlight := None;
      if !(1 <= id <= |offers|) {
        return 404, inFlight;
      }
      var found := FindInFlightLock(offers[id - 1].contractAddress);
      inFlight := found;
      if found.Some? {
        if actions[found.value - 1].status != AwaitingApproval {
          return 409, inFlight;
        }
        UpdateStatus(found.value, Rejected, None, None, now);
      }
      offers := SetOffer(offers, id, Dismissed);
      code := 0;
    }
  }
}
