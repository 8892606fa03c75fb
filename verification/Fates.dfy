/**
 What moves a submission, exactly: for each pair of statuses the one event that takes a row from the first to the
 second, and what becomes of the rest of the row. Everything else leaves it as it is.
 */
module Fates {
  import opened Wrappers
  import opened Utf16
  import opened Credentials
  import opened ReviewQueue
  import opened Broker
  import L2

  /** Ministry has answered the poll about the submission. */
  predicate PollAnswered(s: State, step: Step, id: nat, status: Status) {
    && step.DoPollReply? && s.tick.AwaitMinistry? && s.tick.id == id
    && step.poll.Answer? && step.poll.status == status
  }

  /** The agent's request about the submission has come to an end. */
  predicate AgentDone(s: State, step: Step, id: nat) {
    step.DoAgentReply? && s.tick.AwaitAgent? && s.tick.id == id
  }

  /** The event that takes the submission from one status to another. */
  predicate Event(s: State, step: Step, id: nat, before: SubmissionStatus, after: SubmissionStatus) {
    match (before, after)
    case (Draft, SentToMinistry) => step.DoApprove? && step.id == id
    case (Draft, Rejected) => step.DoReject? && step.id == id
    case (SentToMinistry, AwaitingMinistryApproval) =>
      step.DoApproveReply? && step.call == id && step.approval.Accepted?
    case (SentToMinistry, Failed) =>
      step.DoApproveReply? && step.call == id && (step.approval.Declined? || step.approval.Unreachable?)
    case (AwaitingMinistryApproval, Rejected) => PollAnswered(s, step, id, Status.Rejected)
    case (AwaitingMinistryApproval, ProofRequested) =>
      PollAnswered(s, step, id, Status.Approved) && step.poll.credential.Some?
    case (VcReceived, ProofRequested) =>
      step.DoTakeNext? && s.tick.AtLoop? && s.tick.phase.Second? && s.tick.rest != [] && s.tick.rest[0].id == id
    case (ProofRequested, Settled) =>
      AgentDone(s, step, id) && step.agent.Completed? && step.agent.l2Result.status == L2.APPROVED
    case (ProofRequested, Rejected) =>
      AgentDone(s, step, id) && step.agent.Completed? && step.agent.l2Result.status != L2.APPROVED
    case (ProofRequested, Failed) => AgentDone(s, step, id) && step.agent.Refused?
    case (ProofRequested, VcReceived) => AgentDone(s, step, id) && step.agent.Lost?
    case _ => false
  }

  /** The row moves by the event to another status, and without one it stays as it is. */
  predicate MovesBy(s: State, step: Step, before: Submission, after: Submission) {
    && (after.status == before.status ==> after == before)
    && (after.status != before.status ==> Event(s, step, before.id, before.status, after.status))
  }

  /** Wherever an event calls for a move, the row makes it. */
  ghost predicate Obeys(s: State, step: Step, before: Submission, after: Submission) {
    forall status :: Event(s, step, before.id, before.status, status) ==> after.status == status
  }

  ghost predicate Fated(s: State, step: Step, i: nat)
    requires Enabled(s, step) && i < |s.submissions|
  {
    var t := Apply(s, step);
    && i < |t.submissions|
    && MovesBy(s, step, s.submissions[i], t.submissions[i])
    && Obeys(s, step, s.submissions[i], t.submissions[i])
  }

  lemma ApproveFate(s: State, step: Step, i: nat)
    requires Inv(s) && Enabled(s, step) && step.DoApprove? && i < |s.submissions|
    ensures Fated(s, step, i)
  {
    assert RowAgrees(s.submissions[i], s.queue[i].status);
    if Open(s, step.id) {
      OpenIsDraft(s, step.id);
    }
  }

  lemma RejectFate(s: State, step: Step, i: nat)
    requires Inv(s) && Enabled(s, step) && step.DoReject? && i < |s.submissions|
    ensures Fated(s, step, i)
  {
    assert RowAgrees(s.submissions[i], s.queue[i].status);
    if Open(s, step.id) {
      OpenIsDraft(s, step.id);
    }
  }

  lemma ReplyFate(s: State, step: Step, i: nat)
    requires Inv(s) && Enabled(s, step) && step.DoApproveReply? && i < |s.submissions|
    ensures Fated(s, step, i)
  {
    assert s.submissions[step.call - 1].status == SentToMinistry;
  }

  lemma PollFate(s: State, step: Step, i: nat)
    requires Inv(s) && Enabled(s, step) && step.DoPollReply? && i < |s.submissions|
    ensures Fated(s, step, i)
  {
    PollReplyRows(s, step.poll, step.now);
  }

  lemma TakeNextFate(s: State, step: Step, i: nat)
    requires Inv(s) && Enabled(s, step) && step.DoTakeNext? && i < |s.submissions|
    ensures Fated(s, step, i)
  {
    RestIsCurrent(s.submissions, s.tick.rest, Wanted(s.tick.phase));
    var entry := s.tick.rest[0];
    assert RowAgrees(s.submissions[entry.id - 1], s.queue[entry.id - 1].status);
    if s.tick.phase.First? {
      assert TakeNext(s, step.now).submissions == s.submissions;
    }
  }

  lemma AgentFate(s: State, step: Step, i: nat)
    requires Inv(s) && Enabled(s, step) && step.DoAgentReply? && i < |s.submissions|
    ensures Fated(s, step, i)
  {
  }

  /** Every row at every step moves by its event, and obeys every event. */
  lemma StepFate(s: State, step: Step, i: nat)
    requires Inv(s) && Enabled(s, step) && i < |s.submissions|
    ensures Fated(s, step, i)
  {
    match step
    case DoApprove(_, _) => ApproveFate(s, step, i);
    case DoReject(_, _, _) => RejectFate(s, step, i);
    case DoApproveReply(_, _, _) => ReplyFate(s, step, i);
    case DoPollReply(_, _) => PollFate(s, step, i);
    case DoTakeNext(_) => TakeNextFate(s, step, i);
    case DoAgentReply(_, _) => AgentFate(s, step, i);
    case _ =>
  }

  // ---- what a move leaves in the row ----

  function RefAfter(step: Step, before: Option<nat>): Option<nat> {
    if step.DoApproveReply? && step.approval.Accepted? then Some(step.approval.submissionId) else before
  }

  function CredentialAfter(step: Step, before: Option<Credential>): Option<Credential> {
    if step.DoPollReply? && step.poll.Answer? && step.poll.status == Status.Approved then step.poll.credential
    else before
  }

  function ErrorAfter(step: Step, before: Option<Text>): Option<Text> {
    match step
    case DoApproveReply(_, Declined(error), _) => Some(error)
    case DoApproveReply(_, Unreachable(message), _) => Some(message)
    case DoAgentReply(Refused(error), _) => Some(error)
    case _ => before
  }

  /** When the event happens. */
  function TimeOf(step: Step): Option<int> {
    match step
    case DoApprove(_, now) => Some(now)
    case DoReject(_, _, now) => Some(now)
    case DoApproveReply(_, _, now) => Some(now)
    case DoTakeNext(now) => Some(now)
    case DoPollReply(_, now) => Some(now)
    case DoAgentReply(_, now) => Some(now)
    case _ => None
  }

  /** What the answer that moved the row has left in it. */
  predicate Leaves(step: Step, before: Submission, after: Submission) {
    && SameSubmission(before, after) && Some(after.updatedAt) == TimeOf(step)
    && after.ministryRefId == RefAfter(step, before.ministryRefId)
    && after.credential == CredentialAfter(step, before.credential)
    && after.error == ErrorAfter(step, before.error)
    && (if step.DoAgentReply? && step.agent.Completed?
        then after.presentation == Some(step.agent.presentation) && after.l2Result == Some(step.agent.l2Result)
        else after.presentation == before.presentation && after.l2Result == before.l2Result)
  }

  ghost predicate LeftAt(s: State, step: Step, i: nat)
    requires Enabled(s, step) && i < |s.submissions|
  {
    var t := Apply(s, step);
    && i < |t.submissions|
    && (t.submissions[i].status != s.submissions[i].status ==> Leaves(step, s.submissions[i], t.submissions[i]))
  }

  lemma DecisionLeaves(s: State, step: Step, i: nat)
    requires Enabled(s, step) && (step.DoApprove? || step.DoReject?) && i < |s.submissions|
    ensures LeftAt(s, step, i)
  {
  }

  lemma ReplyLeaves(s: State, step: Step, i: nat)
    requires Enabled(s, step) && step.DoApproveReply? && i < |s.submissions|
    ensures LeftAt(s, step, i)
  {
  }

  lemma PollLeaves(s: State, step: Step, i: nat)
    requires Enabled(s, step) && step.DoPollReply? && i < |s.submissions|
    ensures LeftAt(s, step, i)
  {
    PollReplyRows(s, step.poll, step.now);
  }

  lemma TakeNextLeaves(s: State, step: Step, i: nat)
    requires Enabled(s, step) && step.DoTakeNext? && i < |s.submissions|
    ensures LeftAt(s, step, i)
  {
  }

  lemma AgentLeaves(s: State, step: Step, i: nat)
    requires Enabled(s, step) && step.DoAgentReply? && i < |s.submissions|
    ensures LeftAt(s, step, i)
  {
  }

  lemma StepLeaves(s: State, step: Step, i: nat)
    requires Enabled(s, step) && i < |s.submissions|
    ensures LeftAt(s, step, i)
  {
    match step
    case DoApprove(_, _) => DecisionLeaves(s, step, i);
    case DoReject(_, _, _) => DecisionLeaves(s, step, i);
    case DoApproveReply(_, _, _) => ReplyLeaves(s, step, i);
    case DoPollReply(_, _) => PollLeaves(s, step, i);
    case DoTakeNext(_) => TakeNextLeaves(s, step, i);
    case DoAgentReply(_, _) => AgentLeaves(s, step, i);
    case _ =>
  }

  // ---- runs ----

  /** Step h moved row k to the status, by the event that does so. */
  ghost predicate MovedAt(ss: seq<State>, steps: seq<Step>, h: nat, k: nat, status: SubmissionStatus)
    requires h < |steps| < |ss|
  {
    && k < |ss[h].submissions| && k < |ss[h + 1].submissions|
    && Event(ss[h], steps[h], k + 1, ss[h].submissions[k].status, status)
    && Leaves(steps[h], ss[h].submissions[k], ss[h + 1].submissions[k])
    && ss[h + 1].submissions[k].status == status
  }

  lemma RunFate(ss: seq<State>, steps: seq<Step>, i: nat, k: nat)
    requires Run(ss, steps) && i < |steps| && k < |ss[i].submissions|
    ensures k < |ss[i + 1].submissions| && ss[i].submissions[k].id == k + 1
    ensures MovesBy(ss[i], steps[i], ss[i].submissions[k], ss[i + 1].submissions[k])
    ensures Obeys(ss[i], steps[i], ss[i].submissions[k], ss[i + 1].submissions[k])
    ensures ss[i + 1].submissions[k].status != ss[i].submissions[k].status ==>
              Leaves(steps[i], ss[i].submissions[k], ss[i + 1].submissions[k])
  {
    RunInv(ss, steps, i);
    assert Next(ss[i], steps[i], ss[i + 1]);
    StepFate(ss[i], steps[i], k);
    StepLeaves(ss[i], steps[i], k);
  }

  lemma NewIsDraft(ss: seq<State>, steps: seq<Step>, i: nat, k: nat)
    requires Run(ss, steps) && i < |steps| && |ss[i].submissions| <= k < |ss[i + 1].submissions|
    ensures ss[i + 1].submissions[k].status == Draft
  {
    RunInv(ss, steps, i);
    assert Next(ss[i], steps[i], ss[i + 1]);
    NewRows(ss[i], steps[i], k);
  }

  lemma RowAt(ss: seq<State>, steps: seq<Step>, i: nat, k: nat)
    requires Run(ss, steps) && i < |steps| && k < |ss[i + 1].submissions|
    ensures
      if k < |ss[i].submissions| then
        ss[i + 1].submissions[k] == ss[i].submissions[k]
        || MovedAt(ss, steps, i, k, ss[i + 1].submissions[k].status)
      else ss[i + 1].submissions[k].status == Draft
  {
    if k < |ss[i].submissions| {
      RunFate(ss, steps, i, k);
    } else {
      NewIsDraft(ss, steps, i, k);
    }
  }

  /** Whatever is not a draft any more was moved to where it is, and has stayed so since. */
  lemma {:induction false} LastMove(ss: seq<State>, steps: seq<Step>, i: nat, k: nat) returns (h: nat)
    requires Run(ss, steps) && i <= |steps| && k < |ss[i].submissions| && ss[i].submissions[k].status != Draft
    ensures h < i && MovedAt(ss, steps, h, k, ss[i].submissions[k].status)
    ensures ss[i].submissions[k] == ss[h + 1].submissions[k]
    decreases i
  {
    assert i > 0;
    RowAt(ss, steps, i - 1, k);
    if k < |ss[i - 1].submissions| && ss[i].submissions[k] == ss[i - 1].submissions[k] {
      h := LastMove(ss, steps, i - 1, k);
    } else {
      h := i - 1;
    }
  }

  /** Step h brings the event that ends the submission with the status. */
  ghost predicate EndsAt(ss: seq<State>, steps: seq<Step>, h: nat, k: nat, status: SubmissionStatus)
    requires h < |steps| < |ss|
  {
    k < |ss[h].submissions| && Event(ss[h], steps[h], k + 1, ss[h].submissions[k].status, status)
  }

  /**
   A submission ends settled, rejected or failed exactly if the event for it has come: rejected, say, by the operator's
   rejection of the draft, by Ministry's answer that it is rejected, or by a completed request without L2's approval.
   */
  lemma EndsIff(ss: seq<State>, steps: seq<Step>, i: nat, k: nat, status: SubmissionStatus)
    requires Run(ss, steps) && i <= |steps| && k < |ss[i].submissions| && Final(status)
    ensures ss[i].submissions[k].status == status <==> exists h :: 0 <= h < i && EndsAt(ss, steps, h, k, status)
  {
    if ss[i].submissions[k].status == status {
      var h := LastMove(ss, steps, i, k);
      assert EndsAt(ss, steps, h, k, status);
    }
    if h :| 0 <= h < i && EndsAt(ss, steps, h, k, status) {
      RunFate(ss, steps, h, k);
      FinalStays(ss, steps, h + 1, i, k);
    }
  }
}
