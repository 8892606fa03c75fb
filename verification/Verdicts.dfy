/**
 Whose decision a submission's end goes back to, through the whole pipeline: the operator's, an officer's at Ministry,
 or the verifier's record, each named by the step that made it.
 */
module Verdicts {
  import opened Wrappers
  import opened DocumentCrypto
  import opened Credentials
  import opened Pipeline
  import opened Clearance
  import ReviewQueue
  import Broker
  import Fates
  import Ministry
  import Officers
  import L2

  // ---- Ministry's decisions ----

  /** The Ministry step inside a step of the pipeline. */
  function MinistryPart(config: Config, w: World, step: Step): Option<Ministry.Step>
    requires step.RegisterDocument? ==> Passing(config, w, step.call)
  {
    match step
    case MinistryAlone(m) => Some(m)
    case RegisterDocument(call, now) => Some(Ministry.Submit(Arriving(config, w, call), now))
    case _ => None
  }

  lemma MinistryMovesBy(config: Config, w: World, step: Step, v: World)
    requires Next(config, w, step, v)
    ensures
      var part := MinistryPart(config, w, step);
      v.ministry == if part.Some? then Ministry.Apply(config.ministry, w.ministry, part.value) else w.ministry
  {
    NextParts(config, w, step, v);
  }

  /** Step h is an officer's decision on the open item. */
  ghost predicate JudgedAt(ws: seq<World>, steps: seq<Step>, h: nat, id: nat)
    requires h < |steps| < |ws|
  {
    && steps[h].MinistryAlone?
    && (Officers.Approves(ws[h].ministry, steps[h].ministry, id)
        || Officers.Rejects(ws[h].ministry, steps[h].ministry, id))
  }

  /** The decision has left the item and its record as they are. */
  ghost predicate StandsAs(config: Config, step: Ministry.Step, m: Ministry.State, id: nat)
    requires 1 <= id <= |m.queue| && id in m.documents
  {
    || Officers.Approval(config.ministry, step, m.queue[id - 1], m.documents[id])
    || Officers.Rejection(step, m.queue[id - 1], m.documents[id])
  }

  lemma JudgedStands(config: Config, m: Ministry.State, step: Ministry.Step, id: nat)
    requires Officers.Approves(m, step, id) || Officers.Rejects(m, step, id)
    ensures
      var t := Ministry.Apply(config.ministry, m, step);
      1 <= id <= |t.queue| && id in t.documents && StandsAs(config, step, t, id)
  {
    if Officers.Approves(m, step, id) {
      Officers.ApprovalFollows(config.ministry, m, step, id);
    } else {
      Officers.RejectionFollows(config.ministry, m, step, id);
    }
  }

  predicate DecidedItem(m: Ministry.State, id: nat) {
    1 <= id <= |m.queue| && m.queue[id - 1].status != ReviewQueue.AwaitingApproval
  }

  lemma MinistryOf(config: Config, ws: seq<World>, steps: seq<Step>, i: nat)
    requires Run(config, ws, steps) && i <= |steps|
    ensures Ministry.Inv(config.ministry, ws[i].ministry)
  {
    RunInv(config, ws, steps, i);
  }

  lemma MinistryNext(config: Config, ws: seq<World>, steps: seq<Step>, i: nat)
    requires Run(config, ws, steps) && i < |steps|
    ensures steps[i].RegisterDocument? ==> Passing(config, ws[i], steps[i].call)
    ensures
      var part := MinistryPart(config, ws[i], steps[i]);
      ws[i + 1].ministry ==
      if part.Some? then Ministry.Apply(config.ministry, ws[i].ministry, part.value) else ws[i].ministry
    ensures Ministry.Settles(ws[i].ministry, ws[i + 1].ministry)
  {
    assert StepAt(config, ws, steps, i);
    MinistryMovesBy(config, ws[i], steps[i], ws[i + 1]);
    MinistryOf(config, ws, steps, i);
    var part := MinistryPart(config, ws[i], steps[i]);
    if part.Some? {
      Ministry.StepKeepsInv(config.ministry, ws[i].ministry, part.value);
    }
  }

  lemma DecidedEarlier(config: Config, m: Ministry.State, step: Ministry.Step, id: nat)
    requires Ministry.Inv(config.ministry, m) && DecidedItem(Ministry.Apply(config.ministry, m, step), id)
    requires !Officers.Approves(m, step, id) && !Officers.Rejects(m, step, id)
    ensures
      var t := Ministry.Apply(config.ministry, m, step);
      DecidedItem(m, id) && t.queue[id - 1] == m.queue[id - 1] && id in m.documents && id in t.documents
      && t.documents[id] == m.documents[id]
  {
    Officers.OnlyOfficersDecide(config.ministry, m, step, id);
    Ministry.StepKeepsInv(config.ministry, m, step);
  }

  predicate SameItem(m: Ministry.State, later: Ministry.State, id: nat) {
    && 1 <= id <= |m.queue| && id <= |later.queue| && later.queue[id - 1] == m.queue[id - 1]
    && id in m.documents && id in later.documents && later.documents[id] == m.documents[id]
  }

  /** A step either decides the item, or finds it decided and leaves it so. */
  lemma DecidedStep(config: Config, ws: seq<World>, steps: seq<Step>, i: nat, id: nat)
    requires Run(config, ws, steps) && i < |steps| && DecidedItem(ws[i + 1].ministry, id)
    ensures
      if JudgedAt(ws, steps, i, id) then
        id in ws[i + 1].ministry.documents && StandsAs(config, steps[i].ministry, ws[i + 1].ministry, id)
      else DecidedItem(ws[i].ministry, id) && SameItem(ws[i].ministry, ws[i + 1].ministry, id)
  {
    MinistryOf(config, ws, steps, i);
    MinistryNext(config, ws, steps, i);
    var m, part := ws[i].ministry, MinistryPart(config, ws[i], steps[i]);
    if JudgedAt(ws, steps, i, id) {
      JudgedStands(config, m, part.value, id);
    } else if part.Some? {
      DecidedEarlier(config, m, part.value, id);
    }
  }

  lemma SameStands(config: Config, step: Ministry.Step, m: Ministry.State, later: Ministry.State, id: nat)
    requires SameItem(m, later, id) && StandsAs(config, step, m, id)
    ensures StandsAs(config, step, later, id)
  {
  }

  /** Whatever is decided at Ministry was decided by an officer's request, and stands as that request left it. */
  lemma {:induction false} DecidedByOfficer(config: Config, ws: seq<World>, steps: seq<Step>, i: nat, id: nat)
    returns (h: nat)
    requires Run(config, ws, steps) && i <= |steps| && DecidedItem(ws[i].ministry, id)
    ensures h < i && JudgedAt(ws, steps, h, id)
    ensures id in ws[i].ministry.documents && StandsAs(config, steps[h].ministry, ws[i].ministry, id)
    decreases i
  {
    assert i > 0;
    DecidedStep(config, ws, steps, i - 1, id);
    if JudgedAt(ws, steps, i - 1, id) {
      h := i - 1;
    } else {
      h := DecidedByOfficer(config, ws, steps, i - 1, id);
      SameStands(config, steps[h].ministry, ws[i - 1].ministry, ws[i].ministry, id);
    }
  }

  lemma ApprovedByOfficer(config: Config, ws: seq<World>, steps: seq<Step>, i: nat, id: nat) returns (h: nat)
    requires Run(config, ws, steps) && i <= |steps| && 1 <= id <= |ws[i].ministry.queue|
    requires ws[i].ministry.queue[id - 1].status == ReviewQueue.Approved
    ensures h < i && steps[h].MinistryAlone? && Officers.Approves(ws[h].ministry, steps[h].ministry, id)
    ensures id in ws[i].ministry.documents
    ensures
      var m := ws[i].ministry;
      Officers.Approval(config.ministry, steps[h].ministry, m.queue[id - 1], m.documents[id])
  {
    h := DecidedByOfficer(config, ws, steps, i, id);
  }

  lemma RejectedByOfficer(config: Config, ws: seq<World>, steps: seq<Step>, i: nat, id: nat) returns (h: nat)
    requires Run(config, ws, steps) && i <= |steps| && 1 <= id <= |ws[i].ministry.queue|
    requires ws[i].ministry.queue[id - 1].status == ReviewQueue.Rejected
    ensures h < i && steps[h].MinistryAlone? && Officers.Rejects(ws[h].ministry, steps[h].ministry, id)
    ensures id in ws[i].ministry.documents
    ensures
      var m := ws[i].ministry;
      Officers.Rejection(steps[h].ministry, m.queue[id - 1], m.documents[id])
  {
    h := DecidedByOfficer(config, ws, steps, i, id);
  }

  lemma TracedItem(config: Config, ws: seq<World>, steps: seq<Step>, i: nat, k: nat) returns (item: nat)
    requires GuardedRun(config, ws, steps) && i <= |steps| && k < |ws[i].l2.db| && DigestLength(config.ministry.crypto)
    ensures 1 <= item <= |ws[i].ministry.queue| && ws[i].ministry.queue[item - 1].status == ReviewQueue.Approved
    ensures TracesTo(config, ws[i].l2.db[k], ws[i].ministry.queue[item - 1].payload)
  {
    var position := RecordTraces(config, ws, steps, i, k);
    item := position + 1;
  }

  /**
   Every record of the verifier, on the development path, goes back to an officer's approval of its document, a step of
   the run, and to the credential that approval issued.
   */
  lemma RecordTracesToOfficer(config: Config, ws: seq<World>, steps: seq<Step>, i: nat, k: nat)
    returns (item: nat, h: nat)
    requires GuardedRun(config, ws, steps) && i <= |steps| && k < |ws[i].l2.db| && DigestLength(config.ministry.crypto)
    ensures 1 <= item <= |ws[i].ministry.queue| && item in ws[i].ministry.documents
    ensures TracesTo(config, ws[i].l2.db[k], ws[i].ministry.queue[item - 1].payload)
    ensures h < i && steps[h].MinistryAlone? && Officers.Approves(ws[h].ministry, steps[h].ministry, item)
    ensures
      var m := ws[i].ministry;
      Officers.Approval(config.ministry, steps[h].ministry, m.queue[item - 1], m.documents[item])
  {
    item := TracedItem(config, ws, steps, i, k);
    h := ApprovedByOfficer(config, ws, steps, i, item);
  }

  // ---- what is on its way is true ----

  predicate RejectedItem(m: Ministry.State, id: nat) {
    1 <= id <= |m.queue| && m.queue[id - 1].status == ReviewQueue.Rejected
  }

  /** An answer that a document is rejected says so of a rejected item. */
  predicate PollTrue(tick: Broker.Tick, poll: Option<Broker.PollReply>, m: Ministry.State) {
    tick.AwaitMinistry? && poll.Some? && poll.value.Answer? && poll.value.status == ReviewQueue.Rejected ==>
      RejectedItem(m, tick.refId)
  }

  /** The record in a completed answer is the one the verifier has for the job, and was approved when it was given. */
  predicate ResultTrue(reply: Broker.AgentReply, job: Option<nat>, l2: L2.State) {
    reply.Completed? ==>
      && reply.l2Result.status == L2.APPROVED && reply.l2Result.record.status == L2.APPROVED
      && job.Some? && Recorded(l2, job.value) && reply.presentation == l2.asked[job.value]
      && SameRecordAs(reply.l2Result.record, l2.db[l2.replies[job.value].index])
  }

  /** The same record, whatever its status. */
  predicate SameRecordAs(a: L2.Record, b: L2.Record) {
    && a.documentHash == b.documentHash && a.documentIdHash == b.documentIdHash
    && a.ministryPublicKeyHash == b.ministryPublicKeyHash && a.holderDid == b.holderDid
    && a.settledAt == b.settledAt && a.proofSystem == b.proofSystem
  }

  ghost predicate ResultsTrue(calls: seq<AgentCall>, l2: L2.State) {
    forall k :: 0 <= k < |calls| && calls[k].stage.Answered? ==>
      ResultTrue(calls[k].stage.reply, calls[k].stage.answeredJob, l2)
  }

  ghost predicate Truth(w: World) {
    PollTrue(w.broker.tick, w.poll, w.ministry) && ResultsTrue(w.calls, w.l2)
  }

  // ---- every step keeps it true ----

  lemma PollStaysTrue(tick: Broker.Tick, poll: Option<Broker.PollReply>, m: Ministry.State, later: Ministry.State)
    requires PollTrue(tick, poll, m) && Ministry.Settles(m, later)
    ensures PollTrue(tick, poll, later)
  {
    if tick.AwaitMinistry? && RejectedItem(m, tick.refId) {
      assert ReviewQueue.Follows(m.queue[tick.refId - 1], later.queue[tick.refId - 1]);
    }
  }

  lemma StatusIsTrue(config: Config, m: Ministry.State, tick: Broker.Tick)
    requires Ministry.Inv(config.ministry, m) && tick.AwaitMinistry?
    ensures PollTrue(tick, Some(StatusReply(m, tick.refId)), m)
  {
    if tick.refId in m.documents {
      assert Ministry.Agrees(config.ministry, m.queue[tick.refId - 1], m.documents[tick.refId]);
    }
  }

  /** The verifier's later states keep what was asked, answered and recorded. */
  ghost predicate Keeps(l2: L2.State, later: L2.State) {
    && (forall job :: job in l2.asked ==> job in later.asked && later.asked[job] == l2.asked[job])
    && (forall job :: job in l2.replies ==> job in later.replies && later.replies[job] == l2.replies[job])
    && L2.Grows(l2.db, later.db)
  }

  lemma L2Keeps(env: L2.Env, s: L2.State, step: L2.Step)
    requires L2.Inv(env, s) && L2.Enabled(s, step)
    ensures Keeps(s, L2.Apply(env, s, step))
  {
    L2.AskedGrows(env, s, step);
    L2.AnswersStay(env, s, step);
    L2.StepGrows(env, s, step);
  }

  lemma ResultStaysTrue(reply: Broker.AgentReply, job: Option<nat>, l2: L2.State, later: L2.State)
    requires ResultTrue(reply, job, l2) && Keeps(l2, later)
    ensures ResultTrue(reply, job, later)
  {
  }

  lemma ResultsStayTrue(calls: seq<AgentCall>, l2: L2.State, later: L2.State)
    requires ResultsTrue(calls, l2) && Keeps(l2, later)
    ensures ResultsTrue(calls, later)
  {
    forall k | 0 <= k < |calls| && calls[k].stage.Answered?
      ensures ResultTrue(calls[k].stage.reply, calls[k].stage.answeredJob, later)
    {
      ResultStaysTrue(calls[k].stage.reply, calls[k].stage.answeredJob, l2, later);
    }
  }

  lemma RestagedTrue(calls: seq<AgentCall>, call: nat, stage: Stage, l2: L2.State)
    requires ResultsTrue(calls, l2) && call < |calls|
    requires stage.Answered? ==> ResultTrue(stage.reply, stage.answeredJob, l2)
    ensures ResultsTrue(calls[call := calls[call].(stage := stage)], l2)
  {
  }

  lemma CompletionIsTrue(w: World, job: nat)
    requires Recorded(w.l2, job)
    ensures ResultTrue(Completion(w, job), Some(job), w.l2)
  {
  }

  lemma PresentKeepsTruth(config: Config, w: World, call: nat, proof: ZkProof)
    requires Stores(config, w) && Truth(w) && Enabled(config, w, PresentToL2(call, proof))
    ensures Truth(Apply(config, w, PresentToL2(call, proof)))
  {
    var step := L2.DoSettle(Presented(config, w, call, proof));
    var later := L2.Apply(Env(config), w.l2, step);
    L2Keeps(Env(config), w.l2, step);
    ResultsStayTrue(w.calls, w.l2, later);
    RestagedTrue(w.calls, call, AtL2(w.l2.next), later);
  }

  lemma AnswerKeepsTruth(config: Config, w: World, step: Step)
    requires Truth(w) && Enabled(config, w, step) && (step.RefuseCall? || step.CompleteCall?)
    ensures Truth(Apply(config, w, step))
  {
    match step
    case RefuseCall(call, error) =>
      RestagedTrue(w.calls, call, Answered(Broker.Refused(error), JobOf(w.calls[call].stage)), w.l2);
    case CompleteCall(call) =>
      var job := w.calls[call].stage.job;
      CompletionIsTrue(w, job);
      RestagedTrue(w.calls, call, Answered(Completion(w, job), Some(job)), w.l2);
  }

  lemma OneMoreTrue(calls: seq<AgentCall>, submission: nat, vc: Credential, l2: L2.State)
    requires ResultsTrue(calls, l2)
    ensures ResultsTrue(calls + [AgentCall(submission, vc, Requested)], l2)
  {
  }

  lemma BrokerKeepsTruth(w: World, step: Broker.Step)
    requires Truth(w) && Broker.Enabled(w.broker, step)
    ensures Truth(BrokerMoves(w, step))
  {
    var b := Broker.Apply(w.broker, step);
    if b.tick.AwaitAgent? && !w.broker.tick.AwaitAgent? {
      OneMoreTrue(w.calls, b.tick.id, b.tick.vc, w.l2);
    }
  }

  lemma L2KeepsTruth(config: Config, w: World, step: L2.Step)
    requires Stores(config, w) && Truth(w) && L2.Enabled(w.l2, step)
    ensures Truth(L2Moves(config, w, step))
  {
    L2Keeps(Env(config), w.l2, step);
    ResultsStayTrue(w.calls, w.l2, L2.Apply(Env(config), w.l2, step));
  }

  lemma MinistryKeepsTruth(config: Config, w: World, step: Ministry.Step)
    requires Stores(config, w) && Truth(w)
    ensures Truth(MinistryMoves(config, w, step))
  {
    Ministry.StepKeepsInv(config.ministry, w.ministry, step);
    PollStaysTrue(w.broker.tick, w.poll, w.ministry, Ministry.Apply(config.ministry, w.ministry, step));
  }

  lemma StepKeepsTruth(config: Config, w: World, step: Step)
    requires Stores(config, w) && Truth(w) && Enabled(config, w, step)
    requires MovesBroker(step) ==> Broker.Enabled(w.broker, Delivery(w, step))
    ensures Truth(Apply(config, w, step))
  {
    match step
    case MinistryAlone(m) => MinistryKeepsTruth(config, w, m);
    case L2Alone(l) => L2KeepsTruth(config, w, l);
    case RegisterDocument(call, now) =>
      MinistryKeepsTruth(config, w, Ministry.Submit(Arriving(config, w, call), now));
    case AnswerPoll => StatusIsTrue(config, w.ministry, w.broker.tick);
    case PresentToL2(call, proof) => PresentKeepsTruth(config, w, call, proof);
    case RefuseCall(_, _) => AnswerKeepsTruth(config, w, step);
    case CompleteCall(_) => AnswerKeepsTruth(config, w, step);
    case _ => BrokerKeepsTruth(w, Delivery(w, step));
  }

  lemma {:induction false} RunTruth(config: Config, ws: seq<World>, steps: seq<Step>, i: nat)
    requires Run(config, ws, steps) && i <= |steps|
    ensures Truth(ws[i])
  {
    if i > 0 {
      RunTruth(config, ws, steps, i - 1);
      RunInv(config, ws, steps, i - 1);
      StepAtKeepsTruth(config, ws, steps, i - 1);
    }
  }

  lemma StepAtKeepsTruth(config: Config, ws: seq<World>, steps: seq<Step>, i: nat)
    requires Run(config, ws, steps) && i < |steps| && Inv(config, ws[i]) && Truth(ws[i])
    ensures Truth(ws[i + 1])
  {
    assert StepAt(config, ws, steps, i);
    if MovesBroker(steps[i]) {
      DeliveriesAreTruthful(config, ws[i], steps[i]);
    }
    StepKeepsTruth(config, ws[i], steps[i]);
  }

  // ---- how a submission ends ----

  /** Step h moves row k of the broker to the status, by the event that does so, and leaves its data in the row. */
  ghost predicate MovedAt(
    config: Config, ws: seq<World>, steps: seq<Step>, h: nat, k: nat, status: Broker.SubmissionStatus)
    requires h < |steps| < |ws|
  {
    && Enabled(config, ws[h], steps[h]) && MovesBroker(steps[h])
    && k < |ws[h].broker.submissions| && k < |ws[h + 1].broker.submissions|
    && var b, before := Delivery(ws[h], steps[h]), ws[h].broker.submissions[k];
       && Fates.Event(ws[h].broker, b, k + 1, before.status, status)
       && Fates.Leaves(b, before, ws[h + 1].broker.submissions[k])
  }

  lemma BrokerRow(s: Broker.State, step: Broker.Step, k: nat)
    requires Broker.Inv(s) && Broker.Enabled(s, step)
    requires k < |Broker.Apply(s, step).submissions|
    ensures
      var t := Broker.Apply(s, step);
      if k < |s.submissions| then
        t.submissions[k] == s.submissions[k] ||
        (Fates.Event(s, step, k + 1, s.submissions[k].status, t.submissions[k].status) &&
         Fates.Leaves(step, s.submissions[k], t.submissions[k]))
      else t.submissions[k].status == Broker.Draft
  {
    if k < |s.submissions| {
      Fates.StepFate(s, step, k);
      Fates.StepLeaves(s, step, k);
    } else {
      Broker.NewRows(s, step, k);
    }
  }

  lemma NextRow(config: Config, w: World, step: Step, v: World, k: nat)
    requires Inv(config, w) && Next(config, w, step, v) && k < |v.broker.submissions|
    requires MovesBroker(step)
    ensures
      var b := Delivery(w, step);
      if k < |w.broker.submissions| then
        v.broker.submissions[k] == w.broker.submissions[k] ||
        (Fates.Event(w.broker, b, k + 1, w.broker.submissions[k].status, v.broker.submissions[k].status) &&
         Fates.Leaves(b, w.broker.submissions[k], v.broker.submissions[k]))
      else v.broker.submissions[k].status == Broker.Draft
  {
    DeliveriesAreTruthful(config, w, step);
    BrokerMovesBy(config, w, step, v, Delivery(w, step));
    BrokerRow(w.broker, Delivery(w, step), k);
  }

  lemma RowAt(config: Config, ws: seq<World>, steps: seq<Step>, i: nat, k: nat)
    requires Run(config, ws, steps) && i < |steps| && k < |ws[i + 1].broker.submissions|
    ensures
      if k < |ws[i].broker.submissions| then
        ws[i + 1].broker.submissions[k] == ws[i].broker.submissions[k]
        || MovedAt(config, ws, steps, i, k, ws[i + 1].broker.submissions[k].status)
      else ws[i + 1].broker.submissions[k].status == Broker.Draft
  {
    RunInv(config, ws, steps, i);
    assert StepAt(config, ws, steps, i);
    if MovesBroker(steps[i]) {
      NextRow(config, ws[i], steps[i], ws[i + 1], k);
    } else {
      OthersKeepBroker(config, ws[i], steps[i], ws[i + 1]);
    }
  }

  /** A submission that is not a draft any more got where it is by an event at some step, and has not changed since. */
  lemma {:induction false} LastMove(config: Config, ws: seq<World>, steps: seq<Step>, i: nat, k: nat) returns (h: nat)
    requires Run(config, ws, steps) && i <= |steps| && k < |ws[i].broker.submissions|
    requires ws[i].broker.submissions[k].status != Broker.Draft
    ensures h < i && MovedAt(config, ws, steps, h, k, ws[i].broker.submissions[k].status)
    ensures k < |ws[h + 1].broker.submissions| && ws[h + 1].broker.submissions[k] == ws[i].broker.submissions[k]
    decreases i
  {
    assert i > 0;
    RowAt(config, ws, steps, i - 1, k);
    if k < |ws[i - 1].broker.submissions| && ws[i].broker.submissions[k] == ws[i - 1].broker.submissions[k] {
      h := LastMove(config, ws, steps, i - 1, k);
    } else {
      h := i - 1;
    }
  }

  /** The operator turned the draft down at step h. */
  ghost predicate TurnedDownAt(ws: seq<World>, steps: seq<Step>, h: nat, k: nat)
    requires h < |steps| < |ws|
  {
    && steps[h].BrokerAlone? && steps[h].broker.DoReject? && steps[h].broker.id == k + 1
    && k < |ws[h].broker.submissions| && ws[h].broker.submissions[k].status == Broker.Draft
  }

  /** Ministry's answer, which is true, or the agent's, which is never a completed one without approval. */
  lemma RejectingMove(config: Config, w: World, step: Step, before: Broker.Submission)
    requires Enabled(config, w, step) && MovesBroker(step) && Truth(w)
    requires Fates.Event(w.broker, Delivery(w, step), before.id, before.status, Broker.SubmissionStatus.Rejected)
    ensures before.status == Broker.Draft ==>
              step.BrokerAlone? && step.broker.DoReject? && step.broker.id == before.id
    ensures before.status != Broker.Draft ==>
              && before.status == Broker.AwaitingMinistryApproval
              && w.broker.tick.AwaitMinistry? && w.broker.tick.id == before.id
              && RejectedItem(w.ministry, w.broker.tick.refId)
  {
  }

  lemma {:induction false} RejectedStays(
    config: Config, ws: seq<World>, steps: seq<Step>, i: nat, j: nat, id: nat)
    requires Run(config, ws, steps) && i <= j <= |steps| && RejectedItem(ws[i].ministry, id)
    ensures RejectedItem(ws[j].ministry, id)
    decreases j
  {
    if i < j {
      RejectedStays(config, ws, steps, i, j - 1, id);
      MinistryNext(config, ws, steps, j - 1);
      assert ReviewQueue.Follows(ws[j - 1].ministry.queue[id - 1], ws[j].ministry.queue[id - 1]);
    }
  }

  lemma PolledRow(b: Broker.State, id: nat)
    requires Broker.Inv(b) && b.tick.AwaitMinistry? && b.tick.id == id && 1 <= id <= |b.submissions|
    ensures b.submissions[id - 1].ministryRefId == Some(b.tick.refId)
  {
  }

  lemma BrokerOf(config: Config, ws: seq<World>, steps: seq<Step>, i: nat)
    requires Run(config, ws, steps) && i <= |steps|
    ensures Broker.Inv(ws[i].broker)
  {
    RunInv(config, ws, steps, i);
  }

  lemma RejectedAt(config: Config, ws: seq<World>, steps: seq<Step>, h: nat, k: nat)
    requires Run(config, ws, steps) && h < |steps|
    requires MovedAt(config, ws, steps, h, k, Broker.SubmissionStatus.Rejected)
    ensures
      || TurnedDownAt(ws, steps, h, k)
      || (ws[h + 1].broker.submissions[k].ministryRefId.Some?
          && RejectedItem(ws[h].ministry, ws[h + 1].broker.submissions[k].ministryRefId.value))
  {
    RunTruth(config, ws, steps, h);
    BrokerOf(config, ws, steps, h);
    RejectingMove(config, ws[h], steps[h], ws[h].broker.submissions[k]);
    if ws[h].broker.submissions[k].status != Broker.Draft {
      PolledRow(ws[h].broker, k + 1);
    }
  }

  /**
   A rejected submission was turned down by the operator while it was a draft, or by an officer: it refers to an item
   that an officer rejected, with no credential. It is never rejected for being undecided, nor by agent or verifier.
   */
  lemma RejectedByWhom(config: Config, ws: seq<World>, steps: seq<Step>, i: nat, k: nat) returns (h: nat)
    requires Run(config, ws, steps) && i <= |steps| && k < |ws[i].broker.submissions|
    requires ws[i].broker.submissions[k].status == Broker.SubmissionStatus.Rejected
    ensures h < i
    ensures
      var ref := ws[i].broker.submissions[k].ministryRefId;
      || TurnedDownAt(ws, steps, h, k)
      || (ref.Some? && RejectedItem(ws[i].ministry, ref.value)
          && steps[h].MinistryAlone? && Officers.Rejects(ws[h].ministry, steps[h].ministry, ref.value))
  {
    h := LastMove(config, ws, steps, i, k);
    RejectedAt(config, ws, steps, h, k);
    if !TurnedDownAt(ws, steps, h, k) {
      var id := ws[i].broker.submissions[k].ministryRefId.value;
      RejectedStays(config, ws, steps, h, i, id);
      h := RejectedByOfficer(config, ws, steps, i, id);
    }
  }

  // ---- how a submission gets settled ----

  /** The operator approved the draft at step a. */
  ghost predicate PassedOnAt(ws: seq<World>, steps: seq<Step>, a: nat, k: nat)
    requires a < |steps| < |ws|
  {
    && steps[a].BrokerAlone? && steps[a].broker.DoApprove? && steps[a].broker.id == k + 1
    && k < |ws[a].broker.submissions| && ws[a].broker.submissions[k].status == Broker.Draft
  }

  /** Whatever is neither a draft nor rejected the operator has approved. */
  lemma {:induction false} PassedOn(config: Config, ws: seq<World>, steps: seq<Step>, i: nat, k: nat) returns (a: nat)
    requires Run(config, ws, steps) && i <= |steps| && k < |ws[i].broker.submissions|
    requires ws[i].broker.submissions[k].status !in {Broker.Draft, Broker.SubmissionStatus.Rejected}
    ensures a < i && PassedOnAt(ws, steps, a, k)
    decreases i
  {
    var h := LastMove(config, ws, steps, i, k);
    if ws[h].broker.submissions[k].status == Broker.Draft {
      a := h;
    } else {
      a := PassedOn(config, ws, steps, h, k);
    }
  }

  lemma L2Next(config: Config, ws: seq<World>, steps: seq<Step>, i: nat)
    requires Run(config, ws, steps) && i < |steps|
    ensures Keeps(ws[i].l2, ws[i + 1].l2)
  {
    RunStores(config, ws, steps, i);
    assert StepAt(config, ws, steps, i);
    NextParts(config, ws[i], steps[i], ws[i + 1]);
    var part := L2Part(config, ws[i], steps[i]);
    if part.Some? {
      L2Keeps(Env(config), ws[i].l2, part.value);
    }
  }

  lemma KeepsOn(a: L2.State, b: L2.State, c: L2.State)
    requires Keeps(a, b) && Keeps(b, c)
    ensures Keeps(a, c)
  {
    L2.GrowsTransitive(a.db, b.db, c.db);
  }

  lemma {:induction false} L2KeepsOn(config: Config, ws: seq<World>, steps: seq<Step>, i: nat, j: nat)
    requires Run(config, ws, steps) && i <= j <= |steps|
    ensures Keeps(ws[i].l2, ws[j].l2)
    decreases j
  {
    if i < j {
      L2KeepsOn(config, ws, steps, i, j - 1);
      L2Next(config, ws, steps, j - 1);
      KeepsOn(ws[i].l2, ws[j - 1].l2, ws[j].l2);
    }
  }

  /** The row shows the presentation and the record of a job the verifier has settled. */
  predicate ShowsRecord(row: Broker.Submission, l2: L2.State, job: nat) {
    && row.presentation.Some? && row.l2Result.Some? && row.l2Result.value.status == L2.APPROVED
    && Recorded(l2, job) && row.presentation.value == l2.asked[job]
    && SameRecordAs(row.l2Result.value.record, l2.db[l2.replies[job].index])
  }

  lemma SettlingMove(config: Config, w: World, step: Step, before: Broker.Submission, after: Broker.Submission)
    returns (job: nat)
    requires Enabled(config, w, step) && MovesBroker(step) && Truth(w)
    requires Fates.Event(w.broker, Delivery(w, step), before.id, before.status, Broker.Settled)
    requires Fates.Leaves(Delivery(w, step), before, after)
    ensures ShowsRecord(after, w.l2, job)
  {
    var call := Last(w.calls);
    assert ResultTrue(call.stage.reply, call.stage.answeredJob, w.l2);
    job := call.stage.answeredJob.value;
  }

  lemma StillShown(row: Broker.Submission, l2: L2.State, later: L2.State, job: nat)
    requires ShowsRecord(row, l2, job) && Keeps(l2, later)
    ensures ShowsRecord(row, later, job)
  {
  }

  lemma SettledShowsRecord(config: Config, ws: seq<World>, steps: seq<Step>, i: nat, k: nat) returns (job: nat)
    requires Run(config, ws, steps) && i <= |steps| && IsSettled(ws[i], k + 1)
    ensures ShowsRecord(ws[i].broker.submissions[k], ws[i].l2, job)
  {
    var h := LastMove(config, ws, steps, i, k);
    RunTruth(config, ws, steps, h);
    BrokerOf(config, ws, steps, h);
    job := SettlingMove(
      config, ws[h], steps[h], ws[h].broker.submissions[k], ws[h + 1].broker.submissions[k]);
    L2KeepsOn(config, ws, steps, h, i);
    StillShown(ws[i].broker.submissions[k], ws[h].l2, ws[i].l2, job);
  }

  lemma SettledRefersTo(config: Config, ws: seq<World>, steps: seq<Step>, i: nat, k: nat)
    requires Run(config, ws, steps) && i <= |steps| && IsSettled(ws[i], k + 1)
    ensures
      var ref := ws[i].broker.submissions[k].ministryRefId;
      ref.Some? && 1 <= ref.value <= |ws[i].ministry.queue|
      && ws[i].ministry.queue[ref.value - 1].status == ReviewQueue.Approved
  {
    RunInv(config, ws, steps, i);
    var row := ws[i].broker.submissions[k];
    assert Broker.RowAgrees(row, ws[i].broker.queue[k].status);
    assert Sourced(config, row, ws[i].ministry);
    IssuedItem(config, ws[i].ministry, row.ministryRefId.value, row.credential.value);
  }

  /**
   A settled submission was approved by the operator as a draft and by an officer as the item it refers to, both steps
   of the run; and it shows the presentation and the record, with all its hashes and its time, of a job L2 has settled.
   */
  lemma SettledByWhom(config: Config, ws: seq<World>, steps: seq<Step>, i: nat, k: nat)
    returns (a: nat, h: nat, job: nat)
    requires Run(config, ws, steps) && i <= |steps| && IsSettled(ws[i], k + 1)
    ensures a < i && PassedOnAt(ws, steps, a, k)
    ensures ws[i].broker.submissions[k].ministryRefId.Some?
    ensures
      var ref := ws[i].broker.submissions[k].ministryRefId.value;
      h < i && steps[h].MinistryAlone? && Officers.Approves(ws[h].ministry, steps[h].ministry, ref)
    ensures ShowsRecord(ws[i].broker.submissions[k], ws[i].l2, job)
  {
    a := PassedOn(config, ws, steps, i, k);
    job := SettledShowsRecord(config, ws, steps, i, k);
    SettledRefersTo(config, ws, steps, i, k);
    h := ApprovedByOfficer(config, ws, steps, i, ws[i].broker.submissions[k].ministryRefId.value);
  }
}
