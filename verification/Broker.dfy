/**
 The customs broker: the table of submissions, the operator's handlers and the poller that carries approved
 submissions through Ministry, agent and L2. The poller works through snapshots of the table while the
 handlers go on rewriting it; every stretch between two awaits is one step.
 */
module Broker {
  import opened Wrappers
  import opened Utf16
  import opened Credentials
  import opened ReviewQueue
  import L2

  datatype SubmissionStatus =
    | Draft
    | AwaitingApproval    // part of the declared life cycle, written by nobody
    | SentToMinistry
    | AwaitingMinistryApproval
    | VcReceived
    | ProofRequested
    | Settled
    | Rejected
    | Failed

  datatype L2Result = L2Result(status: L2.RecordStatus, record: L2.Record)

  datatype Submission = Submission(
    id: nat, reviewItemId: nat, document: Submittable, status: SubmissionStatus, ministryRefId: Option<nat>,
    credential: Option<Credential>, presentation: Option<L2.Presentation>, l2Result: Option<L2Result>,
    error: Option<Text>, createdAt: int, updatedAt: int)

  datatype Phase = First | Second

  /** Where the poller stands; at most one tick runs at a time. */
  datatype Tick =
    | Idle
    | AtLoop(phase: Phase, rest: seq<Submission>)
    | AwaitMinistry(id: nat, refId: nat, rest: seq<Submission>)
    | AwaitAgent(id: nat, vc: Credential, phase: Phase, rest: seq<Submission>)

  datatype State = State(
    submissions: seq<Submission>,
    queue: seq<Item<Submittable>>,
    calls: set<nat>,      // approve handlers that wait for Ministry, by submission
    tick: Tick)

  const INITIAL: State := State([], [], {}, Idle)
  const SUBMISSION_APPROVAL: Text := Ascii("submission-approval")
  const OPERATOR: Text := Ascii("operator")

  // ---- the table ----

  datatype Update = Update(
    status: Option<SubmissionStatus>, ministryRefId: Option<nat>, credential: Option<Credential>,
    presentation: Option<L2.Presentation>, l2Result: Option<L2Result>, error: Option<Text>)

  const NOTHING: Update := Update(None, None, None, None, None, None)

  function OrElse<T>(update: Option<T>, current: Option<T>): Option<T> {
    if update.Some? then update else current
  }

  /** `updateSubmission`: what the update leaves out stays. */
  function Merged(current: Submission, update: Update, now: int): Submission {
    current.(
      status := if update.status.Some? then update.status.value else current.status,
      ministryRefId := OrElse(update.ministryRefId, current.ministryRefId),
      credential := OrElse(update.credential, current.credential),
      presentation := OrElse(update.presentation, current.presentation),
      l2Result := OrElse(update.l2Result, current.l2Result),
      error := OrElse(update.error, current.error),
      updatedAt := now)
  }

  predicate Known(rows: seq<Submission>, id: int) {
    1 <= id <= |rows|
  }

  function Put(rows: seq<Submission>, id: int, update: Update, now: int): seq<Submission> {
    if Known(rows, id) then rows[id - 1 := Merged(rows[id - 1], update, now)] else rows
  }

  /** What `listSubmissions` may return: the rows of one status, each once, the latest created first. */
  ghost predicate IsListing(rows: seq<Submission>, status: SubmissionStatus, listing: seq<Submission>) {
    && (forall k :: 0 <= k < |listing| ==> listing[k] in rows && listing[k].status == status)
    && (forall j, k :: 0 <= j < k < |listing| ==> listing[j].id != listing[k].id)
    && (forall i :: 0 <= i < |rows| && rows[i].status == status ==> rows[i] in listing)
    && (forall j, k :: 0 <= j < k < |listing| ==> listing[j].createdAt >= listing[k].createdAt)
  }

  // ---- the handlers ----

  function Created(s: State, document: Submittable, now: int): State {
    s.(queue := After(s.queue, Create(SUBMISSION_APPROVAL, DocumentId(document), document, OPERATOR, now)),
       submissions := s.submissions + [Submission(
         |s.submissions| + 1, |s.queue| + 1, document, Draft, None, None, None, None, None, now, now)])
  }

  /** The operator may still decide on the submission; otherwise the handlers answer 404 or 409. */
  predicate Open(s: State, id: int) {
    Known(s.submissions, id) && Decidable(s.queue, s.submissions[id - 1].reviewItemId)
  }

  /** Approving, up to the request to Ministry. */
  function ApproveArrives(s: State, id: int, now: int): State {
    if !Open(s, id) then s
    else
      s.(queue := After(s.queue, Decide(s.submissions[id - 1].reviewItemId, Approve, OPERATOR, None, now)),
         submissions := Put(s.submissions, id, NOTHING.(status := Some(SentToMinistry)), now),
         calls := s.calls + {id})
  }

  datatype ApproveReply = Accepted(submissionId: nat) | Declined(error: Text) | Unreachable(message: Text)

  function ApproveUpdate(reply: ApproveReply): Update {
    match reply
    case Accepted(refId) => NOTHING.(status := Some(AwaitingMinistryApproval), ministryRefId := Some(refId))
    case Declined(error) => NOTHING.(status := Some(Failed), error := Some(error))
    case Unreachable(message) => NOTHING.(status := Some(Failed), error := Some(message))
  }

  function ApproveReplied(s: State, id: nat, reply: ApproveReply, now: int): State
    requires id in s.calls
  {
    s.(submissions := Put(s.submissions, id, ApproveUpdate(reply), now), calls := s.calls - {id})
  }

  function RejectArrives(s: State, id: int, note: Option<Text>, now: int): State {
    if !Open(s, id) then s
    else
      s.(queue := After(s.queue, Decide(s.submissions[id - 1].reviewItemId, Reject, OPERATOR, note, now)),
         submissions := Put(s.submissions, id, NOTHING.(status := Some(SubmissionStatus.Rejected)), now))
  }

  // ---- the poller ----

  function Wanted(phase: Phase): SubmissionStatus {
    match phase
    case First => AwaitingMinistryApproval
    case Second => VcReceived
  }

  /** `runRestOfPipeline`, up to the request to the agent. */
  function AskAgent(s: State, id: nat, vc: Credential, phase: Phase, rest: seq<Submission>, now: int): State {
    s.(submissions := Put(s.submissions, id, NOTHING.(status := Some(ProofRequested)), now),
       tick := AwaitAgent(id, vc, phase, rest))
  }

  /** The loop of the current phase takes its next entry. */
  function TakeNext(s: State, now: int): State
    requires s.tick.AtLoop? && s.tick.rest != []
  {
    var entry, rest := s.tick.rest[0], s.tick.rest[1..];
    match s.tick.phase
    case First =>
      (match entry.ministryRefId
       case None => s.(tick := AtLoop(First, rest))
       case Some(refId) => s.(tick := AwaitMinistry(entry.id, refId, rest)))
    case Second =>
      (match entry.credential
       case None => s.(tick := AtLoop(Second, rest))
       case Some(vc) => AskAgent(s, entry.id, vc, Second, rest, now))
  }

  datatype PollReply = NoAnswer | Answer(status: Status, credential: Option<Credential>)

  /** `checkMinistryDecision`, from Ministry's answer on. */
  function PollReplied(s: State, reply: PollReply, now: int): State
    requires s.tick.AwaitMinistry?
  {
    var AwaitMinistry(id, _, rest) := s.tick;
    if reply.Answer? && reply.status == Status.Rejected then
      s.(submissions := Put(s.submissions, id, NOTHING.(status := Some(SubmissionStatus.Rejected)), now),
         tick := AtLoop(First, rest))
    else if reply.Answer? && reply.status == Approved && reply.credential.Some? then
      var update := NOTHING.(status := Some(VcReceived), credential := reply.credential);
      AskAgent(s.(submissions := Put(s.submissions, id, update, now)), id, reply.credential.value, First, rest, now)
    else
      s.(tick := AtLoop(First, rest))
  }

  datatype AgentReply = Lost | Refused(error: Text) | Completed(presentation: L2.Presentation, l2Result: L2Result)

  function AgentUpdate(reply: AgentReply): Update {
    match reply
    case Lost => NOTHING.(status := Some(VcReceived))
    case Refused(error) => NOTHING.(status := Some(Failed), error := Some(error))
    case Completed(presentation, l2Result) =>
      NOTHING.(status := Some(if l2Result.status == L2.APPROVED then Settled else SubmissionStatus.Rejected),
               presentation := Some(presentation), l2Result := Some(l2Result))
  }

  /** `runRestOfPipeline`, from the agent's answer on. */
  function AgentReplied(s: State, reply: AgentReply, now: int): State
    requires s.tick.AwaitAgent?
  {
    s.(submissions := Put(s.submissions, s.tick.id, AgentUpdate(reply), now),
       tick := AtLoop(s.tick.phase, s.tick.rest))
  }

  // ---- the state machine ----

  datatype Step =
    | DoCreate(document: Submittable, now: int)
    | DoApprove(id: int, now: int)
    | DoApproveReply(call: nat, approval: ApproveReply, now: int)
    | DoReject(id: int, note: Option<Text>, now: int)
    | DoTick(listing: seq<Submission>)
    | DoTakeNext(now: int)
    | DoSecondPhase(listing: seq<Submission>)
    | DoEndTick
    | DoPollReply(poll: PollReply, now: int)
    | DoAgentReply(agent: AgentReply, now: int)
    | DoRestart

  ghost predicate Enabled(s: State, step: Step) {
    match step
    case DoApproveReply(call, _, _) => call in s.calls
    case DoTick(listing) => s.tick.Idle? && IsListing(s.submissions, Wanted(First), listing)
    case DoTakeNext(_) => s.tick.AtLoop? && s.tick.rest != []
    case DoSecondPhase(listing) => s.tick == AtLoop(First, []) && IsListing(s.submissions, Wanted(Second), listing)
    case DoEndTick => s.tick == AtLoop(Second, [])
    case DoPollReply(_, _) => s.tick.AwaitMinistry?
    case DoAgentReply(_, _) => s.tick.AwaitAgent?
    case _ => true
  }

  ghost function Apply(s: State, step: Step): State
    requires Enabled(s, step)
  {
    match step
    case DoCreate(document, now) => Created(s, document, now)
    case DoApprove(id, now) => ApproveArrives(s, id, now)
    case DoApproveReply(call, approval, now) => ApproveReplied(s, call, approval, now)
    case DoReject(id, note, now) => RejectArrives(s, id, note, now)
    case DoTick(listing) => s.(tick := AtLoop(First, listing))
    case DoTakeNext(now) => TakeNext(s, now)
    case DoSecondPhase(listing) => s.(tick := AtLoop(Second, listing))
    case DoEndTick => s.(tick := Idle)
    case DoPollReply(poll, now) => PollReplied(s, poll, now)
    case DoAgentReply(agent, now) => AgentReplied(s, agent, now)
    case DoRestart => s.(calls := {}, tick := Idle)
  }

  // ---- the invariant ----

  /** What a row of a given status holds, and what the operator decided about it. */
  predicate RowAgrees(row: Submission, review: Status) {
    && row.status != SubmissionStatus.AwaitingApproval
    && (row.status == Draft <==> review == Status.AwaitingApproval)
    && (row.status != Draft && row.status != SubmissionStatus.Rejected ==> review == Approved)
    && (row.status == Draft || row.status == SentToMinistry ==> row.ministryRefId.None? && row.credential.None?)
    && (row.status == AwaitingMinistryApproval ==> row.ministryRefId.Some? && row.credential.None?)
    && (row.status in {VcReceived, ProofRequested, Settled} ==> row.ministryRefId.Some? && row.credential.Some?)
  }

  ghost predicate Tables(rows: seq<Submission>, queue: seq<Item<Submittable>>) {
    && |queue| == |rows|
    && Numbered(queue)
    && forall i :: 0 <= i < |rows| ==>
         && rows[i].id == i + 1 && rows[i].reviewItemId == i + 1
         && queue[i].payload == rows[i].document
         && RowAgrees(rows[i], queue[i].status)
  }

  ghost predicate CallsOpen(rows: seq<Submission>, calls: set<nat>) {
    forall id :: id in calls ==> Known(rows, id) && rows[id - 1].status == SentToMinistry
  }

  /** The entries not yet worked on are still the rows they were read from. */
  ghost predicate Current(rows: seq<Submission>, rest: seq<Submission>, status: SubmissionStatus) {
    && (forall k :: 0 <= k < |rest| ==>
          Known(rows, rest[k].id) && rows[rest[k].id - 1] == rest[k] && rest[k].status == status)
    && (forall j, k :: 0 <= j < k < |rest| ==> rest[j].id != rest[k].id)
  }

  ghost predicate TickAgrees(rows: seq<Submission>, tick: Tick) {
    match tick
    case Idle => true
    case AtLoop(phase, rest) => Current(rows, rest, Wanted(phase))
    case AwaitMinistry(id, refId, rest) =>
      && Known(rows, id) && rows[id - 1].status == AwaitingMinistryApproval
      && rows[id - 1].ministryRefId == Some(refId)
      && Current(rows, rest, AwaitingMinistryApproval)
      && (forall k :: 0 <= k < |rest| ==> rest[k].id != id)
    case AwaitAgent(id, vc, phase, rest) =>
      && Known(rows, id) && rows[id - 1].status == ProofRequested
      && rows[id - 1].credential == Some(vc)
      && Current(rows, rest, Wanted(phase))
  }

  ghost predicate Inv(s: State) {
    && Tables(s.submissions, s.queue)
    && CallsOpen(s.submissions, s.calls)
    && TickAgrees(s.submissions, s.tick)
  }

  // ---- one row changes ----

  /** Where a handler may take a row. */
  predicate HandlerEdge(before: SubmissionStatus, after: SubmissionStatus) {
    || (before == Draft && after in {SentToMinistry, SubmissionStatus.Rejected})
    || (before == SentToMinistry && after in {AwaitingMinistryApproval, Failed})
  }

  /** Where the poller may take a row. */
  predicate PollerEdge(before: SubmissionStatus, after: SubmissionStatus) {
    || (before == AwaitingMinistryApproval && after in {SubmissionStatus.Rejected, ProofRequested})
    || (before == VcReceived && after == ProofRequested)
    || (before == ProofRequested && after in {Settled, SubmissionStatus.Rejected, Failed, VcReceived})
  }

  predicate SameSubmission(before: Submission, after: Submission) {
    && after.id == before.id && after.reviewItemId == before.reviewItemId && after.document == before.document
    && after.createdAt == before.createdAt
  }

  lemma UpdateKeepsTables(rows: seq<Submission>, queue: seq<Item<Submittable>>, id: int, update: Update, now: int)
    requires Tables(rows, queue) && Known(rows, id)
    requires RowAgrees(Merged(rows[id - 1], update, now), queue[id - 1].status)
    ensures Tables(Put(rows, id, update, now), queue)
  {
  }

  lemma RowAndItemKeepTables(
    rows: seq<Submission>, queue: seq<Item<Submittable>>, id: int, row: Submission, item: Item<Submittable>)
    requires Tables(rows, queue) && Known(rows, id) && SameSubmission(rows[id - 1], row)
    requires item.id == id && item.payload == row.document && RowAgrees(row, item.status)
    ensures Tables(rows[id - 1 := row], queue[id - 1 := item])
  {
  }

  lemma DecisionKeepsTables(
    rows: seq<Submission>, queue: seq<Item<Submittable>>, id: int, decision: Decision, note: Option<Text>,
    status: SubmissionStatus, now: int)
    requires Tables(rows, queue) && Known(rows, id) && Decidable(queue, id)
    requires status == if decision.Approve? then SentToMinistry else SubmissionStatus.Rejected
    ensures
      Tables(Put(rows, id, NOTHING.(status := Some(status)), now),
             After(queue, Decide(id, decision, OPERATOR, note, now)))
  {
    var row := Merged(rows[id - 1], NOTHING.(status := Some(status)), now);
    var item := Decided(queue[id - 1], decision, OPERATOR, note, now);
    assert RowAgrees(row, item.status) by {
      assert RowAgrees(rows[id - 1], queue[id - 1].status);
    }
    RowAndItemKeepTables(rows, queue, id, row, item);
  }

  lemma UpdateKeepsCalls(rows: seq<Submission>, calls: set<nat>, id: int, update: Update, now: int)
    requires CallsOpen(rows, calls) && id !in calls
    ensures CallsOpen(Put(rows, id, update, now), calls)
  {
  }

  /** A row that no entry shows may change without the snapshot growing stale. */
  lemma UpdateKeepsCurrent(
    rows: seq<Submission>, rest: seq<Submission>, status: SubmissionStatus, id: int, update: Update, now: int)
    requires Current(rows, rest, status)
    requires forall k :: 0 <= k < |rest| ==> rest[k].id != id
    ensures Current(Put(rows, id, update, now), rest, status)
  {
  }

  lemma OtherStatusIsElsewhere(rows: seq<Submission>, rest: seq<Submission>, status: SubmissionStatus, id: int)
    requires Current(rows, rest, status) && Known(rows, id) && rows[id - 1].status != status
    ensures forall k :: 0 <= k < |rest| ==> rest[k].id != id
  {
  }

  /** A handler's update of a row in one of the handlers' own statuses does not disturb the tick. */
  lemma HandlerUpdateKeepsTick(rows: seq<Submission>, tick: Tick, id: int, update: Update, now: int)
    requires TickAgrees(rows, tick) && Known(rows, id) && rows[id - 1].status in {Draft, SentToMinistry}
    ensures TickAgrees(Put(rows, id, update, now), tick)
  {
    match tick
    case Idle =>
    case AtLoop(phase, rest) =>
      OtherStatusIsElsewhere(rows, rest, Wanted(phase), id);
      UpdateKeepsCurrent(rows, rest, Wanted(phase), id, update, now);
    case AwaitMinistry(_, _, rest) =>
      OtherStatusIsElsewhere(rows, rest, AwaitingMinistryApproval, id);
      UpdateKeepsCurrent(rows, rest, AwaitingMinistryApproval, id, update, now);
    case AwaitAgent(_, _, phase, rest) =>
      OtherStatusIsElsewhere(rows, rest, Wanted(phase), id);
      UpdateKeepsCurrent(rows, rest, Wanted(phase), id, update, now);
  }

  lemma ListingIsCurrent(rows: seq<Submission>, queue: seq<Item<Submittable>>, status: SubmissionStatus,
                         listing: seq<Submission>)
    requires Tables(rows, queue) && IsListing(rows, status, listing)
    ensures Current(rows, listing, status)
  {
    forall k | 0 <= k < |listing|
      ensures Known(rows, listing[k].id) && rows[listing[k].id - 1] == listing[k]
    {
      var i :| 0 <= i < |rows| && rows[i] == listing[k];
    }
  }

  // ---- every step keeps the invariant ----

  lemma RowAppended(rows: seq<Submission>, queue: seq<Item<Submittable>>, row: Submission, item: Item<Submittable>)
    requires Tables(rows, queue) && row.id == |rows| + 1 && row.reviewItemId == |rows| + 1 && item.id == |queue| + 1
    requires item.payload == row.document && RowAgrees(row, item.status)
    ensures Tables(rows + [row], queue + [item])
  {
  }

  lemma MoreRowsKeepTick(rows: seq<Submission>, more: seq<Submission>, tick: Tick)
    requires TickAgrees(rows, tick) && rows <= more
    ensures TickAgrees(more, tick)
  {
  }

  lemma CreateKeepsInv(s: State, document: Submittable, now: int)
    requires Inv(s)
    ensures Inv(Created(s, document, now))
  {
    var t := Created(s, document, now);
    RowAppended(s.submissions, s.queue, t.submissions[|s.submissions|], t.queue[|s.queue|]);
    MoreRowsKeepTick(s.submissions, t.submissions, s.tick);
  }

  lemma ApproveKeepsInv(s: State, id: int, now: int)
    requires Inv(s)
    ensures Inv(ApproveArrives(s, id, now))
  {
    if Open(s, id) {
      DecisionKeepsTables(s.submissions, s.queue, id, Approve, None, SentToMinistry, now);
      HandlerUpdateKeepsTick(s.submissions, s.tick, id, NOTHING.(status := Some(SentToMinistry)), now);
    }
  }

  lemma ApproveReplyKeepsInv(s: State, id: nat, reply: ApproveReply, now: int)
    requires Inv(s) && id in s.calls
    ensures Inv(ApproveReplied(s, id, reply, now))
  {
    var update := ApproveUpdate(reply);
    UpdateKeepsTables(s.submissions, s.queue, id, update, now);
    UpdateKeepsCalls(s.submissions, s.calls - {id}, id, update, now);
    HandlerUpdateKeepsTick(s.submissions, s.tick, id, update, now);
  }

  lemma RejectKeepsInv(s: State, id: int, note: Option<Text>, now: int)
    requires Inv(s)
    ensures Inv(RejectArrives(s, id, note, now))
  {
    if Open(s, id) {
      DecisionKeepsTables(s.submissions, s.queue, id, Reject, note, SubmissionStatus.Rejected, now);
      UpdateKeepsCalls(s.submissions, s.calls, id, NOTHING.(status := Some(SubmissionStatus.Rejected)), now);
      HandlerUpdateKeepsTick(s.submissions, s.tick, id, NOTHING.(status := Some(SubmissionStatus.Rejected)), now);
    }
  }

  lemma AskAgentKeepsInv(s: State, id: nat, vc: Credential, phase: Phase, rest: seq<Submission>, now: int)
    requires Tables(s.submissions, s.queue) && CallsOpen(s.submissions, s.calls) && Known(s.submissions, id)
    requires s.submissions[id - 1].status == VcReceived && s.submissions[id - 1].credential == Some(vc)
    requires Current(s.submissions, rest, Wanted(phase)) && forall k :: 0 <= k < |rest| ==> rest[k].id != id
    ensures Inv(AskAgent(s, id, vc, phase, rest, now))
  {
    var update := NOTHING.(status := Some(ProofRequested));
    UpdateKeepsTables(s.submissions, s.queue, id, update, now);
    UpdateKeepsCalls(s.submissions, s.calls, id, update, now);
    UpdateKeepsCurrent(s.submissions, rest, Wanted(phase), id, update, now);
  }

  lemma RestIsCurrent(rows: seq<Submission>, listing: seq<Submission>, status: SubmissionStatus)
    requires Current(rows, listing, status) && listing != []
    ensures Current(rows, listing[1..], status) && Known(rows, listing[0].id)
    ensures forall k :: 0 <= k < |listing[1..]| ==> listing[1..][k].id != listing[0].id
  {
  }

  lemma FirstEntryKeepsInv(s: State, now: int)
    requires Inv(s) && s.tick.AtLoop? && s.tick.phase.First? && s.tick.rest != []
    ensures Inv(TakeNext(s, now))
  {
    RestIsCurrent(s.submissions, s.tick.rest, AwaitingMinistryApproval);
  }

  lemma TakeNextKeepsInv(s: State, now: int)
    requires Inv(s) && s.tick.AtLoop? && s.tick.rest != []
    ensures Inv(TakeNext(s, now))
  {
    var entry, rest := s.tick.rest[0], s.tick.rest[1..];
    RestIsCurrent(s.submissions, s.tick.rest, Wanted(s.tick.phase));
    if s.tick.phase.Second? {
      assert RowAgrees(s.submissions[entry.id - 1], s.queue[entry.id - 1].status);
      AskAgentKeepsInv(s, entry.id, entry.credential.value, Second, rest, now);
    } else {
      FirstEntryKeepsInv(s, now);
    }
  }

  lemma PollReplyKeepsInv(s: State, reply: PollReply, now: int)
    requires Inv(s) && s.tick.AwaitMinistry?
    ensures Inv(PollReplied(s, reply, now))
  {
    var AwaitMinistry(id, _, rest) := s.tick;
    var update :=
      if reply.Answer? && reply.status == Status.Rejected then NOTHING.(status := Some(SubmissionStatus.Rejected))
      else NOTHING.(status := Some(VcReceived), credential := if reply.Answer? then reply.credential else None);
    UpdateKeepsCurrent(s.submissions, rest, AwaitingMinistryApproval, id, update, now);
    UpdateKeepsCalls(s.submissions, s.calls, id, update, now);
    if reply.Answer? && reply.status == Status.Rejected {
      UpdateKeepsTables(s.submissions, s.queue, id, update, now);
    } else if reply.Answer? && reply.status == Approved && reply.credential.Some? {
      UpdateKeepsTables(s.submissions, s.queue, id, update, now);
      var t := s.(submissions := Put(s.submissions, id, update, now));
      AskAgentKeepsInv(t, id, reply.credential.value, First, rest, now);
    }
  }

  lemma AgentReplyKeepsInv(s: State, reply: AgentReply, now: int)
    requires Inv(s) && s.tick.AwaitAgent?
    ensures Inv(AgentReplied(s, reply, now))
  {
    var AwaitAgent(id, vc, phase, rest) := s.tick;
    var update := AgentUpdate(reply);
    UpdateKeepsTables(s.submissions, s.queue, id, update, now);
    UpdateKeepsCalls(s.submissions, s.calls, id, update, now);
    OtherStatusIsElsewhere(s.submissions, rest, Wanted(phase), id);
    UpdateKeepsCurrent(s.submissions, rest, Wanted(phase), id, update, now);
  }

  lemma StepKeepsInv(s: State, step: Step)
    requires Inv(s) && Enabled(s, step)
    ensures Inv(Apply(s, step))
  {
    match step
    case DoCreate(document, now) => CreateKeepsInv(s, document, now);
    case DoApprove(id, now) => ApproveKeepsInv(s, id, now);
    case DoApproveReply(call, approval, now) => ApproveReplyKeepsInv(s, call, approval, now);
    case DoReject(id, note, now) => RejectKeepsInv(s, id, note, now);
    case DoTick(listing) => ListingIsCurrent(s.submissions, s.queue, Wanted(First), listing);
    case DoTakeNext(now) => TakeNextKeepsInv(s, now);
    case DoSecondPhase(listing) => ListingIsCurrent(s.submissions, s.queue, Wanted(Second), listing);
    case DoEndTick =>
    case DoPollReply(poll, now) => PollReplyKeepsInv(s, poll, now);
    case DoAgentReply(agent, now) => AgentReplyKeepsInv(s, agent, now);
    case DoRestart =>
  }

  // ---- what the steps do to the rows ----

  predicate IsPollerStep(step: Step) {
    || step.DoTick? || step.DoTakeNext? || step.DoSecondPhase? || step.DoEndTick?
    || step.DoPollReply? || step.DoAgentReply?
  }

  /** A row stays, or moves along an edge that belongs to whoever took the step. */
  predicate Moves(step: Step, before: Submission, after: Submission) {
    || after == before
    || (SameSubmission(before, after) &&
        if IsPollerStep(step) then PollerEdge(before.status, after.status)
        else HandlerEdge(before.status, after.status))
  }

  lemma OpenIsDraft(s: State, id: int)
    requires Inv(s) && Open(s, id)
    ensures s.submissions[id - 1].status == Draft
  {
    assert RowAgrees(s.submissions[id - 1], s.queue[id - 1].status);
  }

  lemma ReplyMoves(s: State, call: nat, reply: ApproveReply, now: int, i: nat)
    requires Inv(s) && call in s.calls && i < |s.submissions|
    ensures |ApproveReplied(s, call, reply, now).submissions| == |s.submissions|
    ensures
      Moves(DoApproveReply(call, reply, now), s.submissions[i], ApproveReplied(s, call, reply, now).submissions[i])
  {
  }

  lemma HandlerMoves(s: State, step: Step, i: nat)
    requires Inv(s) && Enabled(s, step) && !IsPollerStep(step) && i < |s.submissions|
    ensures |s.submissions| <= |Apply(s, step).submissions|
    ensures Moves(step, s.submissions[i], Apply(s, step).submissions[i])
  {
    match step
    case DoApprove(id, now) =>
      if Open(s, id) {
        OpenIsDraft(s, id);
      }
    case DoReject(id, note, now) =>
      if Open(s, id) {
        OpenIsDraft(s, id);
      }
    case DoApproveReply(call, approval, now) => ReplyMoves(s, call, approval, now, i);
    case _ =>
  }

  lemma PollReplyMoves(s: State, reply: PollReply, now: int, i: nat)
    requires Inv(s) && s.tick.AwaitMinistry? && i < |s.submissions|
    ensures |PollReplied(s, reply, now).submissions| == |s.submissions|
    ensures Moves(DoPollReply(reply, now), s.submissions[i], PollReplied(s, reply, now).submissions[i])
  {
  }

  lemma TakeNextMoves(s: State, now: int, i: nat)
    requires Inv(s) && s.tick.AtLoop? && s.tick.rest != [] && i < |s.submissions|
    ensures |TakeNext(s, now).submissions| == |s.submissions|
    ensures Moves(DoTakeNext(now), s.submissions[i], TakeNext(s, now).submissions[i])
  {
    if s.tick.phase.First? {
      assert TakeNext(s, now).submissions == s.submissions;
    } else {
      assert Known(s.submissions, s.tick.rest[0].id);
    }
  }

  lemma AgentReplyMoves(s: State, reply: AgentReply, now: int, i: nat)
    requires Inv(s) && s.tick.AwaitAgent? && i < |s.submissions|
    ensures |AgentReplied(s, reply, now).submissions| == |s.submissions|
    ensures Moves(DoAgentReply(reply, now), s.submissions[i], AgentReplied(s, reply, now).submissions[i])
  {
  }

  lemma StepMoves(s: State, step: Step, i: nat)
    requires Inv(s) && Enabled(s, step) && i < |s.submissions|
    ensures |s.submissions| <= |Apply(s, step).submissions|
    ensures Moves(step, s.submissions[i], Apply(s, step).submissions[i])
  {
    match step
    case DoPollReply(poll, now) => PollReplyMoves(s, poll, now, i);
    case DoTakeNext(now) => TakeNextMoves(s, now, i);
    case DoAgentReply(agent, now) => AgentReplyMoves(s, agent, now, i);
    case _ =>
      if !IsPollerStep(step) {
        HandlerMoves(s, step, i);
      }
  }

  // ---- where the data of a row comes from ----

  /** The reference to Ministry is what Ministry answered to the approval. */
  predicate RefFrom(s: State, step: Step, before: Submission, after: Submission) {
    || after.ministryRefId == before.ministryRefId
    || (step.DoApproveReply? && step.approval.Accepted? && step.call == before.id
        && before.credential.None? && after.ministryRefId == Some(step.approval.submissionId))
  }

  /** The credential is what Ministry answered when asked about that reference. */
  predicate CredentialFrom(s: State, step: Step, before: Submission, after: Submission) {
    || after.credential == before.credential
    || (step.DoPollReply? && step.poll.Answer? && step.poll.status == Approved
        && s.tick.AwaitMinistry? && s.tick.id == before.id
        && after.credential.Some? && after.credential == step.poll.credential)
  }

  /** A submission gets settled by a completed answer to the agent's current request about it. */
  predicate SettledFrom(s: State, step: Step, before: Submission, after: Submission) {
    after.status == Settled && before.status != Settled ==>
      && step.DoAgentReply? && s.tick.AwaitAgent? && s.tick.id == before.id
      && step.agent.Completed? && step.agent.l2Result.status == L2.APPROVED
  }

  predicate DataFrom(s: State, step: Step, before: Submission, after: Submission) {
    && after.document == before.document
    && RefFrom(s, step, before, after)
    && CredentialFrom(s, step, before, after)
    && SettledFrom(s, step, before, after)
  }

  lemma ReplyData(s: State, call: nat, reply: ApproveReply, now: int, i: nat)
    requires Inv(s) && call in s.calls && i < |s.submissions|
    ensures |ApproveReplied(s, call, reply, now).submissions| == |s.submissions|
    ensures
      DataFrom(s, DoApproveReply(call, reply, now), s.submissions[i],
               ApproveReplied(s, call, reply, now).submissions[i])
  {
    assert RowAgrees(s.submissions[call - 1], s.queue[call - 1].status);
  }

  lemma HandlerData(s: State, step: Step, i: nat)
    requires Inv(s) && Enabled(s, step) && !IsPollerStep(step) && i < |s.submissions|
    ensures |s.submissions| <= |Apply(s, step).submissions|
    ensures DataFrom(s, step, s.submissions[i], Apply(s, step).submissions[i])
  {
    match step
    case DoApproveReply(call, approval, now) => ReplyData(s, call, approval, now, i);
    case _ =>
  }

  lemma PollReplyData(s: State, reply: PollReply, now: int, i: nat)
    requires Inv(s) && s.tick.AwaitMinistry? && i < |s.submissions|
    ensures |PollReplied(s, reply, now).submissions| == |s.submissions|
    ensures DataFrom(s, DoPollReply(reply, now), s.submissions[i], PollReplied(s, reply, now).submissions[i])
  {
  }

  lemma TakeNextData(s: State, now: int, i: nat)
    requires Inv(s) && s.tick.AtLoop? && s.tick.rest != [] && i < |s.submissions|
    ensures |TakeNext(s, now).submissions| == |s.submissions|
    ensures DataFrom(s, DoTakeNext(now), s.submissions[i], TakeNext(s, now).submissions[i])
  {
    if s.tick.phase.First? {
      assert TakeNext(s, now).submissions == s.submissions;
    } else {
      assert Known(s.submissions, s.tick.rest[0].id);
    }
  }

  lemma AgentReplyData(s: State, reply: AgentReply, now: int, i: nat)
    requires Inv(s) && s.tick.AwaitAgent? && i < |s.submissions|
    ensures |AgentReplied(s, reply, now).submissions| == |s.submissions|
    ensures DataFrom(s, DoAgentReply(reply, now), s.submissions[i], AgentReplied(s, reply, now).submissions[i])
  {
  }

  lemma StepData(s: State, step: Step, i: nat)
    requires Inv(s) && Enabled(s, step) && i < |s.submissions|
    ensures |s.submissions| <= |Apply(s, step).submissions|
    ensures DataFrom(s, step, s.submissions[i], Apply(s, step).submissions[i])
  {
    match step
    case DoPollReply(poll, now) => PollReplyData(s, poll, now, i);
    case DoTakeNext(now) => TakeNextData(s, now, i);
    case DoAgentReply(agent, now) => AgentReplyData(s, agent, now, i);
    case _ =>
      if !IsPollerStep(step) {
        HandlerData(s, step, i);
      }
  }

  /** A new row starts with nothing. */
  lemma NewRows(s: State, step: Step, i: nat)
    requires Inv(s) && Enabled(s, step) && |s.submissions| <= i < |Apply(s, step).submissions|
    ensures step.DoCreate?
    ensures
      var row := Apply(s, step).submissions[i];
      row.status == Draft && row.ministryRefId.None? && row.credential.None?
  {
    match step
    case DoCreate(document, now) =>
    case DoPollReply(poll, now) => PollReplyRows(s, poll, now);
    case _ =>
  }

  lemma PollReplyRows(s: State, reply: PollReply, now: int)
    requires s.tick.AwaitMinistry?
    ensures |PollReplied(s, reply, now).submissions| == |s.submissions|
  {
  }

  /** While the agent works on a request, only its answer or a restart moves the poller on. */
  lemma TickWaitsForAgent(s: State, step: Step)
    requires Enabled(s, step) && s.tick.AwaitAgent?
    ensures
      var t := Apply(s, step);
      t.tick == s.tick || (!t.tick.AwaitAgent? && (step.DoAgentReply? || step.DoRestart?))
  {
  }

  // ---- runs ----

  ghost predicate Next(s: State, step: Step, t: State) {
    Enabled(s, step) && t == Apply(s, step)
  }

  ghost predicate Run(ss: seq<State>, steps: seq<Step>) {
    && |ss| == |steps| + 1
    && ss[0] == INITIAL
    && forall i {:trigger steps[i]} :: 0 <= i < |steps| ==> Next(ss[i], steps[i], ss[i + 1])
  }

  lemma {:induction false} RunInv(ss: seq<State>, steps: seq<Step>, i: nat)
    requires Run(ss, steps) && i <= |steps|
    ensures Inv(ss[i])
  {
    if i > 0 {
      RunInv(ss, steps, i - 1);
      assert Next(ss[i - 1], steps[i - 1], ss[i]);
      StepKeepsInv(ss[i - 1], steps[i - 1]);
    }
  }

  lemma RunMoves(ss: seq<State>, steps: seq<Step>, i: nat, k: nat) returns (step: Step)
    requires Run(ss, steps) && i < |steps| && k < |ss[i].submissions|
    ensures step == steps[i] && k < |ss[i + 1].submissions|
    ensures Moves(step, ss[i].submissions[k], ss[i + 1].submissions[k])
  {
    step := steps[i];
    RunInv(ss, steps, i);
    assert Next(ss[i], step, ss[i + 1]);
    StepMoves(ss[i], step, k);
  }

  /** The entries of its snapshots a tick has yet to work on. */
  function Pending(tick: Tick): seq<Submission> {
    if tick.Idle? then [] else tick.rest
  }

  /**
   While a tick is suspended and handlers run as they please, every entry it has not worked on is still,
   field by field, the row it was read from.
   */
  lemma SnapshotIsCurrent(ss: seq<State>, steps: seq<Step>, i: nat, k: nat)
    requires Run(ss, steps) && i <= |steps| && k < |Pending(ss[i].tick)|
    ensures
      var entry := Pending(ss[i].tick)[k];
      && Known(ss[i].submissions, entry.id)
      && ss[i].submissions[entry.id - 1] == entry
      && (entry.status == AwaitingMinistryApproval || entry.status == VcReceived)
  {
    RunInv(ss, steps, i);
  }

  predicate Final(status: SubmissionStatus) {
    status in {Settled, SubmissionStatus.Rejected, Failed}
  }

  /** How far a submission has come. */
  function Rank(status: SubmissionStatus): nat {
    match status
    case Draft => 0
    case AwaitingApproval => 1
    case SentToMinistry => 2
    case AwaitingMinistryApproval => 3
    case VcReceived => 4
    case ProofRequested => 5
    case _ => 6
  }

  lemma AgentSetsBack(s: State, agent: AgentReply, now: int, k: nat)
    requires Inv(s) && s.tick.AwaitAgent? && k < |s.submissions|
    requires s.submissions[k].status == ProofRequested
    requires AgentReplied(s, agent, now).submissions[k].status == VcReceived
    ensures s.tick.id == k + 1 && agent == Lost
  {
  }

  lemma SettingBack(s: State, step: Step, t: State, k: nat)
    requires Inv(s) && Next(s, step, t) && k < |s.submissions| <= |t.submissions|
    requires s.submissions[k].status == ProofRequested && t.submissions[k].status == VcReceived
    requires IsPollerStep(step)
    ensures s.tick.AwaitAgent? && s.tick.id == k + 1 && step.DoAgentReply? && step.agent == Lost
  {
    match step
    case DoTakeNext(now) => TakeNextMoves(s, now, k);
    case DoPollReply(poll, now) => PollReplyMoves(s, poll, now, k);
    case DoAgentReply(agent, now) => AgentSetsBack(s, agent, now, k);
    case _ =>
  }

  lemma RankFalls(step: Step, before: Submission, after: Submission)
    requires Moves(step, before, after) && Rank(after.status) < Rank(before.status)
    ensures before.status == ProofRequested && after.status == VcReceived && IsPollerStep(step)
  {
  }

  /** A step that lowers the rank of a submission. */
  lemma LoweringStep(s: State, step: Step, t: State, k: nat)
    requires Inv(s) && Next(s, step, t) && k < |s.submissions| <= |t.submissions|
    requires Moves(step, s.submissions[k], t.submissions[k])
    requires Rank(t.submissions[k].status) < Rank(s.submissions[k].status)
    ensures s.submissions[k].status == ProofRequested && t.submissions[k].status == VcReceived
    ensures s.tick.AwaitAgent? && s.tick.id == k + 1 && step.DoAgentReply? && step.agent == Lost
  {
    RankFalls(step, s.submissions[k], t.submissions[k]);
    SettingBack(s, step, t, k);
  }

  /** Only a lost answer of the agent sets a submission back, and only by one place. */
  lemma OnlyALostAnswerSetsBack(ss: seq<State>, steps: seq<Step>, i: nat, k: nat) returns (step: Step)
    requires Run(ss, steps) && i < |steps| && k < |ss[i].submissions|
    ensures step == steps[i] && k < |ss[i + 1].submissions|
    ensures
      var before, after := ss[i].submissions[k], ss[i + 1].submissions[k];
      Rank(after.status) < Rank(before.status) ==>
        && before.status == ProofRequested && after.status == VcReceived
        && ss[i].tick.AwaitAgent? && ss[i].tick.id == k + 1
        && step.DoAgentReply? && step.agent == Lost
  {
    step := RunMoves(ss, steps, i, k);
    if Rank(ss[i + 1].submissions[k].status) < Rank(ss[i].submissions[k].status) {
      RunInv(ss, steps, i);
      LoweringStep(ss[i], step, ss[i + 1], k);
    }
  }

  /** Settled, rejected and failed submissions never change again. */
  lemma {:induction false} FinalStays(ss: seq<State>, steps: seq<Step>, i: nat, j: nat, k: nat)
    requires Run(ss, steps) && i <= j <= |steps| && k < |ss[i].submissions| && Final(ss[i].submissions[k].status)
    ensures k < |ss[j].submissions| && ss[j].submissions[k] == ss[i].submissions[k]
    decreases j
  {
    if i < j {
      FinalStays(ss, steps, i, j - 1, k);
      var step := RunMoves(ss, steps, j - 1, k);
    }
  }

  /** Between them handlers and poller share the life cycle: neither ever moves a row of the other. */
  lemma EachMovesItsOwn(ss: seq<State>, steps: seq<Step>, i: nat, k: nat)
    requires Run(ss, steps) && i < |steps| && k < |ss[i].submissions|
    ensures k < |ss[i + 1].submissions|
    ensures
      var before, after := ss[i].submissions[k], ss[i + 1].submissions[k];
      after != before ==>
        if IsPollerStep(steps[i]) then before.status in {AwaitingMinistryApproval, VcReceived, ProofRequested}
        else before.status in {Draft, SentToMinistry}
  {
    var step := RunMoves(ss, steps, i, k);
  }

  /** The operator's decision and the row agree at all times, and the declared awaiting_approval never occurs. */
  lemma RowsFollowDecisions(ss: seq<State>, steps: seq<Step>, i: nat, k: nat)
    requires Run(ss, steps) && i <= |steps| && k < |ss[i].submissions|
    ensures k < |ss[i].queue| && ss[i].queue[k].id == ss[i].submissions[k].reviewItemId
    ensures ss[i].queue[k].payload == ss[i].submissions[k].document
    ensures RowAgrees(ss[i].submissions[k], ss[i].queue[k].status)
  {
    RunInv(ss, steps, i);
  }
}
