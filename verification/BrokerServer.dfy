/**
 The broker as the program runs it: its tables, the handlers of its routes and the ticking poller. Each method
 is one stretch of code between two awaits, and is the step of module Broker that carries its name.
 */
module BrokerServer {
  import opened Wrappers
  import opened Utf16
  import opened Credentials
  import opened ReviewQueue
  import opened Broker

  class Server {
    var submissions: seq<Submission>
    const reviewQueue: Queue<Submittable>
    var calls: set<nat>
    var tick: Tick

    ghost function View(): State
      reads this, reviewQueue
    {
      State(submissions, reviewQueue.rows, calls, tick)
    }

    ghost predicate Valid()
      reads this, reviewQueue
    {
      Inv(View())
    }

    constructor ()
      ensures Valid() && fresh(reviewQueue) && View() == INITIAL
    {
      submissions, calls, tick := [], {}, Idle;
      reviewQueue := new Queue();
    }

    function GetSubmission(id: int): Option<Submission>
      reads this
    {
      if Known(submissions, id) then Some(submissions[id - 1]) else None
    }

    /** Merges an update into a row; what it leaves out stays, and an unknown row is left alone. */
    method UpdateSubmission(id: int, update: Update, now: int)
      modifies this
      ensures submissions == Put(old(submissions), id, update, now)
      ensures calls == old(calls) && tick == old(tick)
    {
      var found := GetSubmission(id);
      if found.None? {
        return;
      }
      var current := found.value;
      submissions := submissions[id - 1 := Submission(
        current.id, current.reviewItemId, current.document,
        if update.status.Some? then update.status.value else current.status,
        OrElse(update.ministryRefId, current.ministryRefId),
        OrElse(update.credential, current.credential),
        OrElse(update.presentation, current.presentation),
        OrElse(update.l2Result, current.l2Result),
        OrElse(update.error, current.error),
        current.createdAt, now)];
    }

    method CreateSubmission(document: Submittable, now: int) returns (submission: Submission)
      requires Valid()
      modifies this, reviewQueue
      ensures Valid() && View() == Apply(old(View()), DoCreate(document, now))
      ensures GetSubmission(submission.id) == Some(submission)
      ensures submission.document == document && submission.status == Draft && submission.createdAt == now
      ensures reviewQueue.rows[submission.reviewItemId - 1].payload == document
    {
      CreateKeepsInv(View(), document, now);
      var item := reviewQueue.CreateReviewItem(SUBMISSION_APPROVAL, DocumentId(document), document, OPERATOR, now);
      submission := Submission(
        |submissions| + 1, item.id, document, Draft, None, None, None, None, None, now, now);
      submissions := submissions + [submission];
    }

    /** Decides the submission's review item and records it; answers 404, 409, or 0 to go on. */
    method DecideSubmission(id: int, decision: Decision, note: Option<Text>, status: SubmissionStatus, now: int)
      returns (refusal: nat)
      requires Valid()
      modifies this, reviewQueue
      ensures calls == old(calls) && tick == old(tick)
      ensures refusal == if !Known(old(submissions), id) then 404 else if !Open(old(View()), id) then 409 else 0
      ensures refusal != 0 ==> View() == old(View())
      ensures refusal == 0 ==>
        && reviewQueue.rows == After(old(reviewQueue.rows), Decide(id, decision, OPERATOR, note, now))
        && submissions == Put(old(submissions), id, NOTHING.(status := Some(status)), now)
    {
      var submission := GetSubmission(id);
      if submission.None? {
        return 404;
      }
      var decided := reviewQueue.DecideReviewItem(submission.value.reviewItemId, decision, OPERATOR, note, now);
      if decided.None? {
        return 409;
      }
      UpdateSubmission(id, NOTHING.(status := Some(status)), now);
      refusal := 0;
    }

    /** The approve handler up to its request; the caller then awaits Ministry if there was no refusal. */
    method ApproveSubmission(id: int, now: int) returns (refusal: nat)
      requires Valid()
      modifies this, reviewQueue
      ensures Valid() && View() == Apply(old(View()), DoApprove(id, now))
      ensures refusal == 0 <==> Open(old(View()), id)
    {
      ApproveKeepsInv(View(), id, now);
      refusal := DecideSubmission(id, Approve, None, SentToMinistry, now);
      if refusal == 0 {
        calls := calls + {id};
      }
    }

    method MinistryAnsweredApprove(id: nat, reply: ApproveReply, now: int)
      requires Valid() && id in calls
      modifies this
      ensures Valid() && View() == Apply(old(View()), DoApproveReply(id, reply, now))
    {
      ApproveReplyKeepsInv(View(), id, reply, now);
      calls := calls - {id};
      match reply
      case Accepted(refId) =>
        UpdateSubmission(id, NOTHING.(status := Some(AwaitingMinistryApproval), ministryRefId := Some(refId)), now);
      case Declined(error) =>
        UpdateSubmission(id, NOTHING.(status := Some(Failed), error := Some(error)), now);
      case Unreachable(message) =>
        UpdateSubmission(id, NOTHING.(status := Some(Failed), error := Some(message)), now);
    }

    method RejectSubmission(id: int, note: Option<Text>, now: int) returns (refusal: nat)
      requires Valid()
      modifies this, reviewQueue
      ensures Valid() && View() == Apply(old(View()), DoReject(id, note, now))
      ensures refusal == 0 <==> Open(old(View()), id)
    {
      RejectKeepsInv(View(), id, note, now);
      refusal := DecideSubmission(id, Reject, note, SubmissionStatus.Rejected, now);
    }

    /** The timer fires; a tick in progress makes this one do nothing. */
    method StartTick(listing: seq<Submission>) returns (started: bool)
      requires Valid() && IsListing(submissions, Wanted(First), listing)
      modifies this
      ensures Valid() && started == old(tick).Idle?
      ensures View() == if started then Apply(old(View()), DoTick(listing)) else old(View())
    {
      started := tick.Idle?;
      if started {
        ListingIsCurrent(submissions, reviewQueue.rows, Wanted(First), listing);
        tick := AtLoop(First, listing);
      }
    }

    /** The loop's next entry: skip it, or send its request. */
    method NextEntry(now: int)
      requires tick.AtLoop? && tick.rest != []
      modifies this
      ensures View() == Apply(old(View()), DoTakeNext(now))
      ensures old(Valid()) ==> Valid()
    {
      if Valid() {
        TakeNextKeepsInv(View(), now);
      }
      var phase, entry, rest := tick.phase, tick.rest[0], tick.rest[1..];
      if phase.First? {
        if entry.ministryRefId.None? {
          tick := AtLoop(First, rest);
        } else {
          tick := AwaitMinistry(entry.id, entry.ministryRefId.value, rest);
        }
      } else if entry.credential.None? {
        tick := AtLoop(Second, rest);
      } else {
        RunRestOfPipeline(entry.id, entry.credential.value, Second, rest, now);
      }
    }

    method RunRestOfPipeline(id: nat, vc: Credential, phase: Phase, rest: seq<Submission>, now: int)
      modifies this
      ensures View() == AskAgent(old(View()), id, vc, phase, rest, now)
    {
      UpdateSubmission(id, NOTHING.(status := Some(ProofRequested)), now);
      tick := AwaitAgent(id, vc, phase, rest);
    }

    method MinistryAnsweredPoll(reply: PollReply, now: int)
      requires Valid() && tick.AwaitMinistry?
      modifies this
      ensures Valid() && View() == Apply(old(View()), DoPollReply(reply, now))
    {
      PollReplyKeepsInv(View(), reply, now);
      var id, rest := tick.id, tick.rest;
      tick := AtLoop(First, rest);
      match reply
      case NoAnswer =>
      case Answer(status, credential) =>
        if status == Status.Rejected {
          UpdateSubmission(id, NOTHING.(status := Some(SubmissionStatus.Rejected)), now);
        } else if status == Approved && credential.Some? {
          UpdateSubmission(id, NOTHING.(status := Some(VcReceived), credential := credential), now);
          RunRestOfPipeline(id, credential.value, First, rest, now);
        }
    }

    method AgentAnswered(reply: AgentReply, now: int)
      requires Valid() && tick.AwaitAgent?
      modifies this
      ensures Valid() && View() == Apply(old(View()), DoAgentReply(reply, now))
    {
      AgentReplyKeepsInv(View(), reply, now);
      var id := tick.id;
      tick := AtLoop(tick.phase, tick.rest);
      match reply
      case Lost =>
        UpdateSubmission(id, NOTHING.(status := Some(VcReceived)), now);
      case Refused(error) =>
        UpdateSubmission(id, NOTHING.(status := Some(Failed), error := Some(error)), now);
      case Completed(presentation, l2Result) =>
        var status := if l2Result.status.APPROVED? then Settled else SubmissionStatus.Rejected;
        UpdateSubmission(
          id, NOTHING.(status := Some(status), presentation := Some(presentation), l2Result := Some(l2Result)), now);
    }

    /** One snapshot is worked off: take the second, or end the tick. */
    method EndLoop(listing: seq<Submission>)
      requires Valid() && tick.AtLoop? && tick.rest == []
      requires tick.phase.First? ==> IsListing(submissions, Wanted(Second), listing)
      modifies this
      ensures Valid()
      ensures View() == Apply(old(View()), if old(tick).phase.First? then DoSecondPhase(listing) else DoEndTick)
    {
      if tick.phase.First? {
        ListingIsCurrent(submissions, reviewQueue.rows, Wanted(Second), listing);
        tick := AtLoop(Second, listing);
      } else {
        tick := Idle;
      }
    }
  }
}
