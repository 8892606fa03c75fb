/**
 Broker, Ministry, agent and L2 together. Requests and replies between them travel one by one and may be lost
 at any point; a caller that saw nothing tries again or gives up while the callee may still be at work.
 Strangers may send Ministry documents and L2 presentations of their own.
 */
module Pipeline {
  import opened Wrappers
  import opened Utf16
  import opened DocumentCrypto
  import opened Credentials
  import Json
  import ReviewQueue
  import Broker
  import Ministry
  import L2

  /** What the services run with; `coerce` is how Ministry's framework turns a holder into a string. */
  datatype Config = Config(ministry: Ministry.Config, mode: L2.ProofMode, coerce: Json.Value -> Option<Text>)

  function Env(config: Config): L2.Env {
    L2.Env(config.ministry.crypto, config.mode)
  }

  /** How far the agent is with a request; a job is its number at L2. */
  datatype Stage = Requested | AtL2(job: nat) | Answered(reply: Broker.AgentReply, answeredJob: Option<nat>)

  datatype AgentCall = AgentCall(submission: nat, vc: Credential, stage: Stage)

  datatype World = World(
    broker: Broker.State,
    ministry: Ministry.State,
    l2: L2.State,
    registered: map<nat, nat>,          // approve requests Ministry has handled: submission, review item
    poll: Option<Broker.PollReply>,     // Ministry's answer to the current poll, on its way
    calls: seq<AgentCall>,              // every request the broker ever sent the agent, the current one last
    settledBy: map<nat, nat>)           // the call whose answer settled a submission

  const INITIAL: World := World(Broker.INITIAL, Ministry.INITIAL, L2.INITIAL, map[], None, [], map[])

  function JobOf(stage: Stage): Option<nat> {
    match stage
    case Requested => None
    case AtL2(job) => Some(job)
    case Answered(_, job) => job
  }

  // ---- steps ----

  datatype Step =
    | BrokerAlone(broker: Broker.Step)                     // handlers, loop steps, lost replies, restarts
    | MinistryAlone(ministry: Ministry.Step)               // officers, and documents from anyone
    | L2Alone(l2: L2.Step)                                 // the verifier's own steps, and requests from anyone
    | RegisterDocument(call: nat, now: int)                // an approve request reaches Ministry
    | DeliverApproval(call: nat, now: int)                 // its reply reaches the broker
    | AnswerPoll                                           // a status request reaches Ministry
    | DeliverPoll(now: int)                                // its reply reaches the broker
    | PresentToL2(call: nat, proof: ZkProof)               // the agent's presentation reaches L2
    | RefuseCall(call: nat, error: Text)                   // the agent answers with an error
    | CompleteCall(call: nat)                              // L2's approval reaches the agent
    | DeliverAgentReply(now: int)                          // the agent's answer reaches the broker

  /** Broker steps that hear nothing but failure from outside. */
  predicate Local(step: Broker.Step) {
    match step
    case DoApproveReply(_, approval, _) => !approval.Accepted?
    case DoPollReply(poll, _) => poll.NoAnswer?
    case DoAgentReply(agent, _) => !agent.Completed?
    case _ => true
  }

  function Last(calls: seq<AgentCall>): AgentCall
    requires calls != []
  {
    calls[|calls| - 1]
  }

  function StatusReply(m: Ministry.State, refId: nat): Broker.PollReply {
    if refId in m.documents then Broker.Answer(m.documents[refId].status, m.documents[refId].credential)
    else Broker.NoAnswer
  }

  /** Ministry's framework does not refuse the submission's document. */
  predicate Passing(config: Config, w: World, call: nat) {
    Broker.Known(w.broker.submissions, call) && Accepted(config.coerce, w.broker.submissions[call - 1].document).Some?
  }

  /** L2 has made a record for the job. */
  predicate Recorded(l2: L2.State, job: nat) {
    job in l2.asked && job in l2.replies && l2.replies[job].Settled? && l2.replies[job].index < |l2.db|
  }

  ghost predicate Enabled(config: Config, w: World, step: Step) {
    match step
    case BrokerAlone(b) => Broker.Enabled(w.broker, b) && Local(b)
    case MinistryAlone(_) => true
    case L2Alone(l) => L2.Enabled(w.l2, l) && (l.DoSync? ==> l.key == config.ministry.keys.publicKey)
    case RegisterDocument(call, _) =>
      call in w.broker.calls && call !in w.registered && Passing(config, w, call)
    case DeliverApproval(call, _) => call in w.broker.calls && call in w.registered
    case AnswerPoll => w.broker.tick.AwaitMinistry? && w.poll.None?
    case DeliverPoll(_) => w.broker.tick.AwaitMinistry? && w.poll.Some?
    case PresentToL2(call, _) =>
      call < |w.calls| && w.calls[call].stage.Requested? && CredentialVerifies(config.ministry.crypto, w.calls[call].vc)
    case RefuseCall(call, _) => call < |w.calls| && !w.calls[call].stage.Answered?
    case CompleteCall(call) =>
      call < |w.calls| && w.calls[call].stage.AtL2? && Recorded(w.l2, w.calls[call].stage.job)
    case DeliverAgentReply(_) => w.broker.tick.AwaitAgent? && w.calls != [] && Last(w.calls).stage.Answered?
  }

  /** The broker moves; a reply to an abandoned poll is lost, and a new request to the agent is sent. */
  ghost function BrokerMoves(w: World, step: Broker.Step): World
    requires Broker.Enabled(w.broker, step)
  {
    var b := Broker.Apply(w.broker, step);
    w.(broker := b,
       poll := if b.tick == w.broker.tick then w.poll else None,
       calls := if b.tick.AwaitAgent? && !w.broker.tick.AwaitAgent?
                then w.calls + [AgentCall(b.tick.id, b.tick.vc, Requested)] else w.calls,
       settledBy := if step.DoAgentReply? && step.agent.Completed? && step.agent.l2Result.status == L2.APPROVED &&
                       w.calls != []
                    then w.settledBy[w.broker.tick.id := |w.calls| - 1] else w.settledBy)
  }

  function Restage(w: World, call: nat, stage: Stage): World
    requires call < |w.calls|
  {
    w.(calls := w.calls[call := w.calls[call].(stage := stage)])
  }

  ghost function MinistryMoves(config: Config, w: World, step: Ministry.Step): World {
    w.(ministry := Ministry.Apply(config.ministry, w.ministry, step))
  }

  ghost function L2Moves(config: Config, w: World, step: L2.Step): World
    requires L2.Enabled(w.l2, step)
  {
    w.(l2 := L2.Apply(Env(config), w.l2, step))
  }

  /** The broker step inside a delivery. */
  function Delivery(w: World, step: Step): Broker.Step
    requires step.DeliverApproval? ==> step.call in w.registered
    requires step.DeliverPoll? ==> w.poll.Some?
    requires step.DeliverAgentReply? ==> w.calls != [] && Last(w.calls).stage.Answered?
  {
    match step
    case BrokerAlone(b) => b
    case DeliverApproval(call, now) => Broker.DoApproveReply(call, Broker.Accepted(w.registered[call]), now)
    case DeliverPoll(now) => Broker.DoPollReply(w.poll.value, now)
    case DeliverAgentReply(now) => Broker.DoAgentReply(Last(w.calls).stage.reply, now)
    case _ => Broker.DoRestart
  }

  predicate MovesBroker(step: Step) {
    step.BrokerAlone? || step.DeliverApproval? || step.DeliverPoll? || step.DeliverAgentReply?
  }

  function Presented(config: Config, w: World, call: nat, proof: ZkProof): L2.Presentation
    requires call < |w.calls|
  {
    Present(config.ministry.crypto, w.calls[call].vc, proof)
  }

  /** Ministry takes in the document of a submission, as its framework hands it over. */
  ghost function Registers(config: Config, w: World, call: nat, document: Document, now: int): World {
    var v := MinistryMoves(config, w, Ministry.Submit(document, now));
    v.(registered := w.registered[call := |w.ministry.queue| + 1])
  }

  function Arriving(config: Config, w: World, call: nat): Document
    requires Passing(config, w, call)
  {
    Accepted(config.coerce, w.broker.submissions[call - 1].document).value
  }

  function Completion(w: World, job: nat): Broker.AgentReply
    requires Recorded(w.l2, job)
  {
    var record := w.l2.db[w.l2.replies[job].index].(status := L2.APPROVED);
    Broker.Completed(w.l2.asked[job], Broker.L2Result(L2.APPROVED, record))
  }

  ghost function Apply(config: Config, w: World, step: Step): World
    requires Enabled(config, w, step)
  {
    match step
    case MinistryAlone(m) => MinistryMoves(config, w, m)
    case L2Alone(l) => L2Moves(config, w, l)
    case RegisterDocument(call, now) => Registers(config, w, call, Arriving(config, w, call), now)
    case AnswerPoll => w.(poll := Some(StatusReply(w.ministry, w.broker.tick.refId)))
    case PresentToL2(call, proof) =>
      Restage(L2Moves(config, w, L2.DoSettle(Presented(config, w, call, proof))), call, AtL2(w.l2.next))
    case RefuseCall(call, error) => Restage(w, call, Answered(Broker.Refused(error), JobOf(w.calls[call].stage)))
    case CompleteCall(call) =>
      var job := w.calls[call].stage.job;
      Restage(w, call, Answered(Completion(w, job), Some(job)))
    case _ => BrokerMoves(w, Delivery(w, step))
  }

  // ---- the invariant ----

  /** The document is what Ministry makes of the submission's. */
  predicate Passes(config: Config, v: Submittable, document: Document) {
    Accepted(config.coerce, v) == Some(document)
  }

  /** A row's reference names its own document at Ministry, and its credential is the one issued there. */
  ghost predicate Sourced(config: Config, row: Broker.Submission, m: Ministry.State) {
    && (row.ministryRefId.Some? ==>
          && 1 <= row.ministryRefId.value <= |m.queue|
          && Passes(config, row.document, m.queue[row.ministryRefId.value - 1].payload))
    && (row.credential.Some? ==> row.ministryRefId.Some? && Issued(m, row.ministryRefId.value, row.credential.value))
  }

  predicate Issued(m: Ministry.State, refId: nat, vc: Credential) {
    refId in m.documents && m.documents[refId].credential == Some(vc)
  }

  ghost predicate AllSourced(config: Config, rows: seq<Broker.Submission>, m: Ministry.State) {
    forall i :: 0 <= i < |rows| ==> Sourced(config, rows[i], m)
  }

  /** The review item holds the document of the submission. */
  predicate HeldAs(config: Config, rows: seq<Broker.Submission>, m: Ministry.State, id: nat, item: nat) {
    && Broker.Known(rows, id) && 1 <= item <= |m.queue|
    && Passes(config, rows[id - 1].document, m.queue[item - 1].payload)
  }

  ghost predicate RegisteredAgree(
    config: Config, rows: seq<Broker.Submission>, m: Ministry.State, registered: map<nat, nat>)
  {
    forall call :: call in registered ==> HeldAs(config, rows, m, call, registered[call])
  }

  ghost predicate PollAgrees(tick: Broker.Tick, poll: Option<Broker.PollReply>, m: Ministry.State) {
    tick.AwaitMinistry? && poll.Some? && poll.value.Answer? && poll.value.credential.Some? ==>
      Issued(m, tick.refId, poll.value.credential.value)
  }

  /** A presentation carries the hashes of the credential's document and of its identifier, its key and its holder. */
  predicate Shows(config: Config, p: L2.Presentation, vc: Credential) {
    && p.holder == vc.holder && !p.hasRawDocument
    && p.documentHash == Sha256HashDocument(config.ministry.crypto, vc.rawDocument)
    && p.documentIdHash == Sha256Hash(config.ministry.crypto, vc.documentId)
    && p.ministryPublicKey == vc.ministryPublicKey
  }

  /** A call is about its submission, and so is the job it became at L2. */
  ghost predicate CallAgrees(config: Config, c: AgentCall, rows: seq<Broker.Submission>, l2: L2.State) {
    && Broker.Known(rows, c.submission)
    && Passes(config, rows[c.submission - 1].document, c.vc.rawDocument)
    && c.vc.documentId == DocumentId(c.vc.rawDocument) && c.vc.holder == HolderDid(c.vc.rawDocument)
    && c.vc.ministryPublicKey == config.ministry.keys.publicKey
    && (JobOf(c.stage).Some? ==>
          && JobOf(c.stage).value in l2.asked && Shows(config, l2.asked[JobOf(c.stage).value], c.vc)
          && CredentialVerifies(config.ministry.crypto, c.vc))
    && (c.stage.Answered? && c.stage.reply.Completed? ==> Granted(l2, JobOf(c.stage)))
  }

  predicate Granted(l2: L2.State, job: Option<nat>) {
    job.Some? && job.value in l2.replies && l2.replies[job.value].Settled?
  }

  ghost predicate AllCallsAgree(config: Config, calls: seq<AgentCall>, rows: seq<Broker.Submission>, l2: L2.State) {
    forall k :: 0 <= k < |calls| ==> CallAgrees(config, calls[k], rows, l2)
  }

  ghost predicate JobsDiffer(calls: seq<AgentCall>) {
    forall j, k :: 0 <= j < k < |calls| && JobOf(calls[j].stage).Some? ==>
      JobOf(calls[j].stage) != JobOf(calls[k].stage)
  }

  ghost predicate CurrentCall(tick: Broker.Tick, calls: seq<AgentCall>) {
    tick.AwaitAgent? ==> calls != [] && Last(calls).submission == tick.id
  }

  /** Whatever is settled was settled by the completed answer to a call of its own. */
  ghost predicate SettledAgree(rows: seq<Broker.Submission>, calls: seq<AgentCall>, settledBy: map<nat, nat>) {
    && (forall i :: 0 <= i < |rows| && rows[i].status == Broker.Settled ==> i + 1 in settledBy)
    && (forall id :: id in settledBy ==>
          && settledBy[id] < |calls| && calls[settledBy[id]].submission == id
          && calls[settledBy[id]].stage.Answered? && calls[settledBy[id]].stage.reply.Completed?)
  }

  ghost predicate Stores(config: Config, w: World) {
    Broker.Inv(w.broker) && Ministry.Inv(config.ministry, w.ministry) && L2.Inv(Env(config), w.l2)
  }

  /** What holds between the stores and the messages under way. */
  ghost predicate Links(config: Config, w: World) {
    && AllSourced(config, w.broker.submissions, w.ministry)
    && RegisteredAgree(config, w.broker.submissions, w.ministry, w.registered)
    && PollAgrees(w.broker.tick, w.poll, w.ministry)
    && AllCallsAgree(config, w.calls, w.broker.submissions, w.l2)
    && JobsDiffer(w.calls)
    && CurrentCall(w.broker.tick, w.calls)
    && SettledAgree(w.broker.submissions, w.calls, w.settledBy)
  }

  ghost predicate Inv(config: Config, w: World) {
    Stores(config, w) && Links(config, w)
  }

  // ---- Ministry moves ----

  lemma IssuedStays(config: Config, m: Ministry.State, later: Ministry.State, refId: nat, vc: Credential)
    requires Ministry.Inv(config.ministry, m) && Ministry.Settles(m, later) && Issued(m, refId, vc)
    ensures Issued(later, refId, vc)
  {
    assert Ministry.Agrees(config.ministry, m.queue[refId - 1], m.documents[refId]);
  }

  lemma SourcedStays(config: Config, m: Ministry.State, later: Ministry.State, row: Broker.Submission)
    requires Ministry.Inv(config.ministry, m) && Ministry.Settles(m, later) && Sourced(config, row, m)
    ensures Sourced(config, row, later)
  {
    if row.credential.Some? {
      IssuedStays(config, m, later, row.ministryRefId.value, row.credential.value);
    }
    if row.ministryRefId.Some? {
      assert ReviewQueue.Follows(m.queue[row.ministryRefId.value - 1], later.queue[row.ministryRefId.value - 1]);
    }
  }

  lemma MinistryKeepsInv(config: Config, w: World, step: Ministry.Step)
    requires Inv(config, w)
    ensures Inv(config, MinistryMoves(config, w, step))
  {
    var m, later := w.ministry, Ministry.Apply(config.ministry, w.ministry, step);
    Ministry.StepKeepsInv(config.ministry, m, step);
    forall i | 0 <= i < |w.broker.submissions| ensures Sourced(config, w.broker.submissions[i], later) {
      SourcedStays(config, m, later, w.broker.submissions[i]);
    }
    RegisteredStays(config, w.broker.submissions, m, later, w.registered);
    if !PollAgrees(w.broker.tick, w.poll, later) {
      IssuedStays(config, m, later, w.broker.tick.refId, w.poll.value.credential.value);
    }
  }

  lemma RegisteredStays(
    config: Config, rows: seq<Broker.Submission>, m: Ministry.State, later: Ministry.State, registered: map<nat, nat>)
    requires RegisteredAgree(config, rows, m, registered) && Ministry.Settles(m, later)
    ensures RegisteredAgree(config, rows, later, registered)
  {
    forall call | call in registered ensures HeldAs(config, rows, later, call, registered[call]) {
      assert ReviewQueue.Follows(m.queue[registered[call] - 1], later.queue[registered[call] - 1]);
    }
  }

  lemma RegisterKeepsLinks(config: Config, w: World, call: nat, document: Document, now: int)
    requires Links(config, w) && Broker.Known(w.broker.submissions, call)
    requires Passes(config, w.broker.submissions[call - 1].document, document)
    requires Links(config, MinistryMoves(config, w, Ministry.Submit(document, now)))
    ensures Links(config, Registers(config, w, call, document, now))
  {
    var v := MinistryMoves(config, w, Ministry.Submit(document, now));
    SubmittedItem(config, w.ministry, document, now);
    OneMoreRegistered(config, w.broker.submissions, v.ministry, w.registered, call, |w.ministry.queue| + 1);
  }

  lemma RegisterKeepsInv(config: Config, w: World, call: nat, document: Document, now: int)
    requires Inv(config, w) && Broker.Known(w.broker.submissions, call)
    requires Passes(config, w.broker.submissions[call - 1].document, document)
    ensures Inv(config, Registers(config, w, call, document, now))
  {
    MinistryKeepsInv(config, w, Ministry.Submit(document, now));
    RegisterKeepsLinks(config, w, call, document, now);
  }

  lemma SubmittedItem(config: Config, m: Ministry.State, document: Document, now: int)
    ensures
      var later := Ministry.Apply(config.ministry, m, Ministry.Submit(document, now));
      |later.queue| == |m.queue| + 1 && later.queue[|m.queue|].payload == document
  {
  }

  lemma OneMoreRegistered(
    config: Config, rows: seq<Broker.Submission>, m: Ministry.State, registered: map<nat, nat>, call: nat, item: nat)
    requires RegisteredAgree(config, rows, m, registered) && HeldAs(config, rows, m, call, item)
    ensures RegisteredAgree(config, rows, m, registered[call := item])
  {
  }

  // ---- L2 moves ----

  lemma CallStays(config: Config, c: AgentCall, rows: seq<Broker.Submission>, l2: L2.State, later: L2.State)
    requires CallAgrees(config, c, rows, l2)
    requires forall job :: job in l2.asked ==> job in later.asked && later.asked[job] == l2.asked[job]
    requires forall job :: job in l2.replies ==> job in later.replies && later.replies[job] == l2.replies[job]
    ensures CallAgrees(config, c, rows, later)
  {
  }

  lemma L2KeepsInv(config: Config, w: World, step: L2.Step)
    requires Inv(config, w) && L2.Enabled(w.l2, step)
    ensures Inv(config, L2Moves(config, w, step))
  {
    var later := L2.Apply(Env(config), w.l2, step);
    L2.StepKeepsInv(Env(config), w.l2, step);
    L2.AskedGrows(Env(config), w.l2, step);
    L2.AnswersStay(Env(config), w.l2, step);
    forall k | 0 <= k < |w.calls| ensures CallAgrees(config, w.calls[k], w.broker.submissions, later) {
      CallStays(config, w.calls[k], w.broker.submissions, w.l2, later);
    }
  }

  // ---- calls change stage ----

  lemma RestageKeepsSettled(rows: seq<Broker.Submission>, calls: seq<AgentCall>, settledBy: map<nat, nat>, call: nat,
                            stage: Stage)
    requires SettledAgree(rows, calls, settledBy) && call < |calls| && !calls[call].stage.Answered?
    ensures SettledAgree(rows, calls[call := calls[call].(stage := stage)], settledBy)
  {
  }

  lemma RestageKeepsCalls(
    config: Config, calls: seq<AgentCall>, rows: seq<Broker.Submission>, l2: L2.State, call: nat, stage: Stage)
    requires AllCallsAgree(config, calls, rows, l2) && call < |calls|
    requires CallAgrees(config, calls[call].(stage := stage), rows, l2)
    ensures AllCallsAgree(config, calls[call := calls[call].(stage := stage)], rows, l2)
  {
  }

  lemma SameJobsDiffer(calls: seq<AgentCall>, call: nat, stage: Stage)
    requires JobsDiffer(calls) && call < |calls| && JobOf(stage) == JobOf(calls[call].stage)
    ensures JobsDiffer(calls[call := calls[call].(stage := stage)])
  {
    var after := calls[call := calls[call].(stage := stage)];
    assert forall k :: 0 <= k < |after| ==> JobOf(after[k].stage) == JobOf(calls[k].stage);
  }

  lemma RestageKeepsCurrent(tick: Broker.Tick, calls: seq<AgentCall>, call: nat, stage: Stage)
    requires CurrentCall(tick, calls) && call < |calls|
    ensures CurrentCall(tick, calls[call := calls[call].(stage := stage)])
  {
  }

  lemma RestageKeepsLinks(config: Config, w: World, call: nat, stage: Stage)
    requires Links(config, w) && call < |w.calls| && !w.calls[call].stage.Answered?
    requires CallAgrees(config, w.calls[call].(stage := stage), w.broker.submissions, w.l2)
    requires JobsDiffer(Restage(w, call, stage).calls)
    ensures Links(config, Restage(w, call, stage))
  {
    RestageKeepsSettled(w.broker.submissions, w.calls, w.settledBy, call, stage);
    RestageKeepsCurrent(w.broker.tick, w.calls, call, stage);
    RestageKeepsCalls(config, w.calls, w.broker.submissions, w.l2, call, stage);
  }

  lemma NewJobDiffers(calls: seq<AgentCall>, call: nat, job: nat)
    requires JobsDiffer(calls) && call < |calls|
    requires forall k :: 0 <= k < |calls| ==> JobOf(calls[k].stage) != Some(job)
    ensures JobsDiffer(calls[call := calls[call].(stage := AtL2(job))])
  {
  }

  /** A call whose presentation has been asked agrees as one that waits for L2. */
  lemma AskedCallAgrees(
    config: Config, c: AgentCall, rows: seq<Broker.Submission>, l2: L2.State, job: nat, proof: ZkProof)
    requires CallAgrees(config, c, rows, l2) && c.stage.Requested? && CredentialVerifies(config.ministry.crypto, c.vc)
    requires job in l2.asked && l2.asked[job] == Present(config.ministry.crypto, c.vc, proof)
    ensures CallAgrees(config, c.(stage := AtL2(job)), rows, l2)
  {
  }

  lemma CallAt(config: Config, calls: seq<AgentCall>, rows: seq<Broker.Submission>, l2: L2.State, call: nat)
    requires AllCallsAgree(config, calls, rows, l2) && call < |calls|
    ensures CallAgrees(config, calls[call], rows, l2)
  {
  }

  /** L2 has taken the agent's presentation under a fresh number. */
  lemma PresentKeepsLinks(config: Config, v: World, call: nat, proof: ZkProof, job: nat)
    requires Links(config, v) && call < |v.calls| && v.calls[call].stage.Requested?
    requires CredentialVerifies(config.ministry.crypto, v.calls[call].vc)
    requires job in v.l2.asked && v.l2.asked[job] == Presented(config, v, call, proof)
    requires forall k :: 0 <= k < |v.calls| ==> JobOf(v.calls[k].stage) != Some(job)
    ensures Links(config, Restage(v, call, AtL2(job)))
  {
    CallAt(config, v.calls, v.broker.submissions, v.l2, call);
    AskedCallAgrees(config, v.calls[call], v.broker.submissions, v.l2, job, proof);
    NewJobDiffers(v.calls, call, job);
    RestageKeepsLinks(config, v, call, AtL2(job));
  }

  lemma PresentKeepsInv(config: Config, w: World, call: nat, proof: ZkProof)
    requires Inv(config, w) && call < |w.calls| && w.calls[call].stage.Requested?
    requires CredentialVerifies(config.ministry.crypto, w.calls[call].vc)
    ensures
      var v := L2Moves(config, w, L2.DoSettle(Presented(config, w, call, proof)));
      Inv(config, Restage(v, call, AtL2(w.l2.next)))
  {
    var p := Presented(config, w, call, proof);
    L2KeepsInv(config, w, L2.DoSettle(p));
    L2.ArrivalIsAsked(Env(config), w.l2, p);
    FreshJob(config, w, w.l2.next);
    PresentKeepsLinks(config, L2Moves(config, w, L2.DoSettle(p)), call, proof, w.l2.next);
  }

  lemma FreshJob(config: Config, w: World, job: nat)
    requires AllCallsAgree(config, w.calls, w.broker.submissions, w.l2) && job !in w.l2.asked
    ensures forall k :: 0 <= k < |w.calls| ==> JobOf(w.calls[k].stage) != Some(job)
  {
    forall k | 0 <= k < |w.calls| ensures JobOf(w.calls[k].stage) != Some(job) {
      assert CallAgrees(config, w.calls[k], w.broker.submissions, w.l2);
    }
  }

  lemma AnsweredCallAgrees(
    config: Config, c: AgentCall, rows: seq<Broker.Submission>, l2: L2.State, reply: Broker.AgentReply)
    requires CallAgrees(config, c, rows, l2) && (reply.Completed? ==> Granted(l2, JobOf(c.stage)))
    ensures CallAgrees(config, c.(stage := Answered(reply, JobOf(c.stage))), rows, l2)
  {
  }

  lemma AnswerKeepsLinks(config: Config, w: World, call: nat, reply: Broker.AgentReply)
    requires Links(config, w) && call < |w.calls| && !w.calls[call].stage.Answered?
    requires reply.Completed? ==> Granted(w.l2, JobOf(w.calls[call].stage))
    ensures Links(config, Restage(w, call, Answered(reply, JobOf(w.calls[call].stage))))
  {
    CallAt(config, w.calls, w.broker.submissions, w.l2, call);
    AnsweredCallAgrees(config, w.calls[call], w.broker.submissions, w.l2, reply);
    SameJobsDiffer(w.calls, call, Answered(reply, JobOf(w.calls[call].stage)));
    RestageKeepsLinks(config, w, call, Answered(reply, JobOf(w.calls[call].stage)));
  }

  // ---- the broker moves ----

  /** What the broker hears in a delivery is what was sent. */
  ghost predicate Truthful(w: World, step: Broker.Step) {
    && (step.DoApproveReply? && step.approval.Accepted? ==>
          step.call in w.registered && step.approval.submissionId == w.registered[step.call])
    && (step.DoPollReply? && step.poll.Answer? && step.poll.credential.Some? && w.broker.tick.AwaitMinistry? ==>
          Issued(w.ministry, w.broker.tick.refId, step.poll.credential.value))
    && (step.DoAgentReply? && step.agent.Completed? ==>
          w.calls != [] && Last(w.calls).stage.Answered? && Last(w.calls).stage.reply == step.agent)
  }

  lemma RowStaysSourced(
    config: Config, w: World, step: Broker.Step, before: Broker.Submission, after: Broker.Submission)
    requires Sourced(config, before, w.ministry) && Truthful(w, step)
    requires RegisteredAgree(config, w.broker.submissions, w.ministry, w.registered)
    requires Broker.DataFrom(w.broker, step, before, after)
    requires Broker.Known(w.broker.submissions, before.id) && w.broker.submissions[before.id - 1] == before
    requires Broker.TickAgrees(w.broker.submissions, w.broker.tick)
    ensures Sourced(config, after, w.ministry)
  {
  }

  lemma BrokerKeepsSourced(config: Config, w: World, step: Broker.Step)
    requires Broker.Inv(w.broker) && Broker.Enabled(w.broker, step) && Truthful(w, step)
    requires AllSourced(config, w.broker.submissions, w.ministry)
    requires RegisteredAgree(config, w.broker.submissions, w.ministry, w.registered)
    ensures AllSourced(config, Broker.Apply(w.broker, step).submissions, w.ministry)
  {
    var rows, after := w.broker.submissions, Broker.Apply(w.broker, step).submissions;
    forall i | 0 <= i < |after| ensures Sourced(config, after[i], w.ministry) {
      if i < |rows| {
        Broker.StepData(w.broker, step, i);
        RowStaysSourced(config, w, step, rows[i], after[i]);
      } else {
        Broker.NewRows(w.broker, step, i);
      }
    }
  }

  /** Documents stay with their submissions. */
  ghost predicate Extends(rows: seq<Broker.Submission>, after: seq<Broker.Submission>) {
    |rows| <= |after| && forall i :: 0 <= i < |rows| ==> after[i].document == rows[i].document
  }

  lemma BrokerExtends(s: Broker.State, step: Broker.Step)
    requires Broker.Inv(s) && Broker.Enabled(s, step)
    ensures Extends(s.submissions, Broker.Apply(s, step).submissions)
  {
    var rows, after := s.submissions, Broker.Apply(s, step).submissions;
    if |rows| > 0 {
      Broker.StepData(s, step, 0);
    }
    forall i | 0 <= i < |rows| ensures i < |after| && after[i].document == rows[i].document {
      Broker.StepData(s, step, i);
    }
  }

  lemma ExtendedStay(config: Config, w: World, after: seq<Broker.Submission>)
    requires Extends(w.broker.submissions, after)
    requires RegisteredAgree(config, w.broker.submissions, w.ministry, w.registered)
    requires AllCallsAgree(config, w.calls, w.broker.submissions, w.l2)
    ensures RegisteredAgree(config, after, w.ministry, w.registered)
    ensures AllCallsAgree(config, w.calls, after, w.l2)
  {
    forall k | 0 <= k < |w.calls| ensures CallAgrees(config, w.calls[k], after, w.l2) {
      assert CallAgrees(config, w.calls[k], w.broker.submissions, w.l2);
    }
  }

  lemma AgreedCredential(config: Config, item: ReviewQueue.Item<Document>, record: Ministry.DocumentRecord)
    requires Ministry.Agrees(config.ministry, item, record) && record.credential.Some?
    ensures
      var vc := record.credential.value;
      && vc.rawDocument == item.payload && vc.documentId == DocumentId(vc.rawDocument)
      && vc.holder == HolderDid(vc.rawDocument) && vc.ministryPublicKey == config.ministry.keys.publicKey
  {
  }

  /** What stands in the documents table is about the item it stands for. */
  lemma IssuedAbout(config: Config, m: Ministry.State, refId: nat, vc: Credential)
    requires Ministry.Inv(config.ministry, m) && Issued(m, refId, vc)
    ensures 1 <= refId <= |m.queue| && vc.rawDocument == m.queue[refId - 1].payload
    ensures vc.documentId == DocumentId(vc.rawDocument) && vc.ministryPublicKey == config.ministry.keys.publicKey
    ensures vc.holder == HolderDid(vc.rawDocument)
  {
    assert Ministry.Agrees(config.ministry, m.queue[refId - 1], m.documents[refId]);
    AgreedCredential(config, m.queue[refId - 1], m.documents[refId]);
  }

  /** A row's credential is the one issued for the row's document. */
  lemma CredentialOfRow(config: Config, row: Broker.Submission, m: Ministry.State, refId: nat, vc: Credential)
    requires Sourced(config, row, m) && row.ministryRefId == Some(refId) && row.credential == Some(vc)
    requires 1 <= refId <= |m.queue| && vc.rawDocument == m.queue[refId - 1].payload
    ensures Passes(config, row.document, vc.rawDocument)
  {
  }

  lemma RequestAgrees(config: Config, rows: seq<Broker.Submission>, id: nat, vc: Credential, l2: L2.State)
    requires Broker.Known(rows, id) && Passes(config, rows[id - 1].document, vc.rawDocument)
    requires vc.documentId == DocumentId(vc.rawDocument) && vc.ministryPublicKey == config.ministry.keys.publicKey
    requires vc.holder == HolderDid(vc.rawDocument)
    ensures CallAgrees(config, AgentCall(id, vc, Requested), rows, l2)
  {
  }

  /** A new request carries the credential of its row, which was issued for the row's document. */
  lemma NewCallAgrees(config: Config, b: Broker.State, m: Ministry.State, l2: L2.State)
    requires Broker.TickAgrees(b.submissions, b.tick) && AllSourced(config, b.submissions, m) && b.tick.AwaitAgent?
    requires Ministry.Inv(config.ministry, m)
    ensures CallAgrees(config, AgentCall(b.tick.id, b.tick.vc, Requested), b.submissions, l2)
  {
    var id, vc := b.tick.id, b.tick.vc;
    var row := b.submissions[id - 1];
    assert Sourced(config, row, m);
    IssuedAbout(config, m, row.ministryRefId.value, vc);
    CredentialOfRow(config, row, m, row.ministryRefId.value, vc);
    RequestAgrees(config, b.submissions, id, vc, l2);
  }

  lemma BrokerKeepsSettled(w: World, step: Broker.Step, i: nat)
    requires Broker.Inv(w.broker) && Broker.Enabled(w.broker, step) && Truthful(w, step)
    requires SettledAgree(w.broker.submissions, w.calls, w.settledBy)
    requires i < |Broker.Apply(w.broker, step).submissions|
    requires Broker.Apply(w.broker, step).submissions[i].status == Broker.Settled
    ensures i + 1 in BrokerMoves(w, step).settledBy
  {
    if i < |w.broker.submissions| {
      Broker.StepData(w.broker, step, i);
    } else {
      Broker.NewRows(w.broker, step, i);
    }
  }

  lemma SettledKeepsCalls(w: World, step: Broker.Step)
    requires Broker.Enabled(w.broker, step) && Truthful(w, step) && CurrentCall(w.broker.tick, w.calls)
    requires SettledAgree(w.broker.submissions, w.calls, w.settledBy)
    ensures
      var t := BrokerMoves(w, step);
      forall id :: id in t.settledBy ==>
        && t.settledBy[id] < |t.calls| && t.calls[t.settledBy[id]].submission == id
        && t.calls[t.settledBy[id]].stage.Answered? && t.calls[t.settledBy[id]].stage.reply.Completed?
  {
  }

  /** The call list changes only by a new request, when the poller starts to wait for the agent. */
  lemma BrokerKeepsCalls(config: Config, w: World, step: Broker.Step)
    requires Inv(config, w) && Broker.Enabled(w.broker, step)
    requires Broker.Inv(Broker.Apply(w.broker, step))
    requires AllSourced(config, Broker.Apply(w.broker, step).submissions, w.ministry)
    requires Extends(w.broker.submissions, Broker.Apply(w.broker, step).submissions)
    ensures
      var b, t := Broker.Apply(w.broker, step), BrokerMoves(w, step);
      AllCallsAgree(config, t.calls, b.submissions, w.l2) && JobsDiffer(t.calls) && CurrentCall(b.tick, t.calls)
  {
    var b := Broker.Apply(w.broker, step);
    ExtendedStay(config, w, b.submissions);
    if w.broker.tick.AwaitAgent? {
      Broker.TickWaitsForAgent(w.broker, step);
    } else if b.tick.AwaitAgent? {
      NewCallAgrees(config, b, w.ministry, w.l2);
      OneMoreCall(config, w.calls, b, w.l2);
    }
  }

  lemma OneMoreCall(config: Config, calls: seq<AgentCall>, b: Broker.State, l2: L2.State)
    requires AllCallsAgree(config, calls, b.submissions, l2) && JobsDiffer(calls) && b.tick.AwaitAgent?
    requires CallAgrees(config, AgentCall(b.tick.id, b.tick.vc, Requested), b.submissions, l2)
    ensures
      var after := calls + [AgentCall(b.tick.id, b.tick.vc, Requested)];
      AllCallsAgree(config, after, b.submissions, l2) && JobsDiffer(after) && CurrentCall(b.tick, after)
  {
  }

  lemma BrokerKeepsPoll(w: World, step: Broker.Step)
    requires Broker.Enabled(w.broker, step) && PollAgrees(w.broker.tick, w.poll, w.ministry)
    ensures var t := BrokerMoves(w, step); PollAgrees(t.broker.tick, t.poll, w.ministry)
  {
  }

  lemma BrokerKeepsAllSettled(w: World, step: Broker.Step)
    requires Broker.Inv(w.broker) && Broker.Enabled(w.broker, step) && Truthful(w, step)
    requires CurrentCall(w.broker.tick, w.calls) && SettledAgree(w.broker.submissions, w.calls, w.settledBy)
    ensures var t := BrokerMoves(w, step); SettledAgree(t.broker.submissions, t.calls, t.settledBy)
  {
    var t := BrokerMoves(w, step);
    SettledKeepsCalls(w, step);
    forall i | 0 <= i < |t.broker.submissions| && t.broker.submissions[i].status == Broker.Settled
      ensures i + 1 in t.settledBy
    {
      BrokerKeepsSettled(w, step, i);
    }
  }

  lemma BrokerKeepsLinks(config: Config, w: World, step: Broker.Step)
    requires Inv(config, w) && Broker.Enabled(w.broker, step) && Truthful(w, step)
    requires Broker.Inv(Broker.Apply(w.broker, step))
    ensures Links(config, BrokerMoves(w, step))
  {
    BrokerKeepsSourced(config, w, step);
    BrokerExtends(w.broker, step);
    ExtendedStay(config, w, Broker.Apply(w.broker, step).submissions);
    BrokerKeepsCalls(config, w, step);
    BrokerKeepsPoll(w, step);
    BrokerKeepsAllSettled(w, step);
  }

  lemma BrokerKeepsInv(config: Config, w: World, step: Broker.Step)
    requires Inv(config, w) && Broker.Enabled(w.broker, step) && Truthful(w, step)
    ensures Inv(config, BrokerMoves(w, step))
  {
    Broker.StepKeepsInv(w.broker, step);
    BrokerKeepsLinks(config, w, step);
  }

  // ---- every step keeps the invariant ----

  lemma DeliveriesAreTruthful(config: Config, w: World, step: Step)
    requires Inv(config, w) && Enabled(config, w, step) && MovesBroker(step)
    ensures Broker.Enabled(w.broker, Delivery(w, step)) && Truthful(w, Delivery(w, step))
  {
  }

  lemma AnswerPollKeepsLinks(config: Config, w: World)
    requires Links(config, w) && w.broker.tick.AwaitMinistry?
    ensures Links(config, w.(poll := Some(StatusReply(w.ministry, w.broker.tick.refId))))
  {
  }

  lemma AgentKeepsInv(config: Config, w: World, step: Step)
    requires Inv(config, w) && Enabled(config, w, step)
    requires step.PresentToL2? || step.RefuseCall? || step.CompleteCall?
    ensures Inv(config, Apply(config, w, step))
  {
    match step
    case PresentToL2(call, proof) =>
      PresentKeepsInv(config, w, call, proof);
    case RefuseCall(call, error) => AnswerKeepsLinks(config, w, call, Broker.Refused(error));
    case CompleteCall(call) => AnswerKeepsLinks(config, w, call, Completion(w, w.calls[call].stage.job));
  }

  lemma DeliveryKeepsInv(config: Config, w: World, step: Step)
    requires Inv(config, w) && Enabled(config, w, step) && MovesBroker(step)
    ensures Inv(config, Apply(config, w, step))
  {
    DeliveriesAreTruthful(config, w, step);
    BrokerKeepsInv(config, w, Delivery(w, step));
  }

  lemma OutsideKeepsInv(config: Config, w: World, step: Step)
    requires Inv(config, w) && Enabled(config, w, step)
    requires step.MinistryAlone? || step.L2Alone? || step.RegisterDocument? || step.AnswerPoll?
    ensures Inv(config, Apply(config, w, step))
  {
    match step
    case MinistryAlone(m) => MinistryKeepsInv(config, w, m);
    case L2Alone(l) => L2KeepsInv(config, w, l);
    case RegisterDocument(call, now) => RegisterKeepsInv(config, w, call, Arriving(config, w, call), now);
    case AnswerPoll => AnswerPollKeepsLinks(config, w);
  }

  lemma StepKeepsInv(config: Config, w: World, step: Step)
    requires Inv(config, w) && Enabled(config, w, step)
    ensures Inv(config, Apply(config, w, step))
  {
    if MovesBroker(step) {
      DeliveryKeepsInv(config, w, step);
    } else if step.PresentToL2? || step.RefuseCall? || step.CompleteCall? {
      AgentKeepsInv(config, w, step);
    } else {
      OutsideKeepsInv(config, w, step);
    }
  }
}
