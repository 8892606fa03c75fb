/**
 What the clearance pipeline promises over whole runs, however requests and replies get lost, whoever else
 talks to the services, and however often the poller retries.
 */
module Clearance {
  import opened Wrappers
  import opened Utf16
  import opened DocumentCrypto
  import opened Credentials
  import opened Pipeline
  import ReviewQueue
  import Broker
  import Ministry
  import Evidence
  import L2
  import Hex

  ghost predicate Next(config: Config, w: World, step: Step, v: World) {
    Enabled(config, w, step) && v == Apply(config, w, step)
  }

  ghost predicate StepAt(config: Config, ws: seq<World>, steps: seq<Step>, i: nat)
    requires i < |steps| < |ws|
  {
    Next(config, ws[i], steps[i], ws[i + 1])
  }

  ghost predicate Run(config: Config, ws: seq<World>, steps: seq<Step>) {
    && |ws| == |steps| + 1
    && ws[0] == INITIAL
    && forall i :: 0 <= i < |steps| ==> StepAt(config, ws, steps, i)
  }

  lemma InitialInv(config: Config)
    ensures Inv(config, INITIAL)
  {
  }

  lemma NextKeepsInv(config: Config, w: World, step: Step, v: World)
    requires Inv(config, w) && Next(config, w, step, v)
    ensures Inv(config, v)
  {
    StepKeepsInv(config, w, step);
  }

  ghost predicate InvAt(config: Config, ws: seq<World>, i: nat)
    requires i < |ws|
  {
    Inv(config, ws[i])
  }

  lemma FirstInvAt(config: Config, ws: seq<World>)
    requires |ws| > 0 && ws[0] == INITIAL
    ensures InvAt(config, ws, 0)
  {
    InitialInv(config);
  }

  lemma StepAtKeepsInv(config: Config, ws: seq<World>, steps: seq<Step>, i: nat)
    requires 0 < i <= |steps| < |ws| && StepAt(config, ws, steps, i - 1) && InvAt(config, ws, i - 1)
    ensures InvAt(config, ws, i)
  {
    NextKeepsInv(config, ws[i - 1], steps[i - 1], ws[i]);
  }

  lemma {:induction false} RunInvAt(config: Config, ws: seq<World>, steps: seq<Step>, i: nat)
    requires Run(config, ws, steps) && i <= |steps|
    ensures InvAt(config, ws, i)
  {
    if i == 0 {
      FirstInvAt(config, ws);
    } else {
      RunInvAt(config, ws, steps, i - 1);
      StepAtKeepsInv(config, ws, steps, i);
    }
  }

  lemma RunInv(config: Config, ws: seq<World>, steps: seq<Step>, i: nat)
    requires Run(config, ws, steps) && i <= |steps|
    ensures Inv(config, ws[i])
  {
    RunInvAt(config, ws, steps, i);
  }

  // ---- settled submissions stay ----

  ghost predicate SettledStay(rows: seq<Broker.Submission>, after: seq<Broker.Submission>) {
    && |rows| <= |after|
    && forall k :: 0 <= k < |rows| && rows[k].status == Broker.Settled ==> after[k] == rows[k]
  }

  lemma BrokerKeepsRows(s: Broker.State, step: Broker.Step)
    requires Broker.Inv(s) && Broker.Enabled(s, step)
    ensures SettledStay(s.submissions, Broker.Apply(s, step).submissions)
  {
    var rows, after := s.submissions, Broker.Apply(s, step).submissions;
    if |rows| > 0 {
      Broker.StepMoves(s, step, 0);
    }
    forall k | 0 <= k < |rows| && rows[k].status == Broker.Settled ensures k < |after| && after[k] == rows[k] {
      Broker.StepMoves(s, step, k);
    }
  }

  lemma OthersKeepBroker(config: Config, w: World, step: Step, v: World)
    requires Next(config, w, step, v) && !MovesBroker(step)
    ensures v.broker == w.broker
  {
  }

  lemma BrokerMovesBy(config: Config, w: World, step: Step, v: World, b: Broker.Step)
    requires Next(config, w, step, v) && MovesBroker(step) && b == Delivery(w, step) && Broker.Enabled(w.broker, b)
    ensures v.broker == Broker.Apply(w.broker, b)
  {
  }

  lemma NextKeepsRows(config: Config, w: World, step: Step, v: World)
    requires Inv(config, w) && Next(config, w, step, v)
    ensures SettledStay(w.broker.submissions, v.broker.submissions)
  {
    if MovesBroker(step) {
      DeliveriesAreTruthful(config, w, step);
      BrokerMovesBy(config, w, step, v, Delivery(w, step));
      BrokerKeepsRows(w.broker, Delivery(w, step));
    } else {
      OthersKeepBroker(config, w, step, v);
    }
  }

  lemma StepAtKeepsRows(config: Config, ws: seq<World>, steps: seq<Step>, i: nat)
    requires Run(config, ws, steps) && 0 < i <= |steps|
    ensures SettledStay(ws[i - 1].broker.submissions, ws[i].broker.submissions)
  {
    RunInv(config, ws, steps, i - 1);
    assert StepAt(config, ws, steps, i - 1);
    NextKeepsRows(config, ws[i - 1], steps[i - 1], ws[i]);
  }

  lemma SettledStayOn(a: seq<Broker.Submission>, b: seq<Broker.Submission>, c: seq<Broker.Submission>)
    requires SettledStay(a, b) && SettledStay(b, c)
    ensures SettledStay(a, c)
  {
  }

  lemma {:induction false} SettledStaysSettled(config: Config, ws: seq<World>, steps: seq<Step>, i: nat, j: nat)
    requires Run(config, ws, steps) && i <= j <= |steps|
    ensures SettledStay(ws[i].broker.submissions, ws[j].broker.submissions)
    decreases j
  {
    if i < j {
      SettledStaysSettled(config, ws, steps, i, j - 1);
      StepAtKeepsRows(config, ws, steps, j);
      SettledStayOn(
        ws[i].broker.submissions, ws[j - 1].broker.submissions, ws[j].broker.submissions);
    }
  }

  // ---- one submission, one record ----

  predicate IsSettled(w: World, id: nat) {
    1 <= id <= |w.broker.submissions| && w.broker.submissions[id - 1].status == Broker.Settled
  }

  /** The part of the invariant that links settled submissions to records. */
  ghost predicate Accounts(config: Config, w: World) {
    && AllCallsAgree(config, w.calls, w.broker.submissions, w.l2)
    && SettledAgree(w.broker.submissions, w.calls, w.settledBy)
    && L2.Owned(w.l2.owners, w.l2.replies)
    && L2.Written(Env(config), w.l2.db, w.l2.owners, w.l2.asked)
  }

  /** The record that settled a submission: made for the call that settled it. */
  lemma RecordOf(config: Config, w: World, id: nat) returns (call: nat, k: nat)
    requires Accounts(config, w) && IsSettled(w, id)
    ensures call < |w.calls| && w.calls[call].submission == id && JobOf(w.calls[call].stage).Some?
    ensures CallAgrees(config, w.calls[call], w.broker.submissions, w.l2)
    ensures k < |w.l2.owners| && w.l2.owners[k] == JobOf(w.calls[call].stage).value
  {
    var row := w.broker.submissions[id - 1];
    assert row.status == Broker.Settled;
    call := w.settledBy[id];
    assert CallAgrees(config, w.calls[call], w.broker.submissions, w.l2);
    k := w.l2.replies[JobOf(w.calls[call].stage).value].index;
  }

  /** The record states a document, under Ministry's key. */
  predicate States(config: Config, record: L2.Record, document: Document) {
    && record.documentHash == Sha256HashDocument(config.ministry.crypto, document)
    && record.documentIdHash == Sha256Hash(config.ministry.crypto, DocumentId(document))
    && record.ministryPublicKeyHash == Sha256Hash(config.ministry.crypto, config.ministry.keys.publicKey)
  }

  /** It states the submitted document as Ministry took it in, and its holder. */
  predicate StatesSubmitted(config: Config, record: L2.Record, v: Submittable) {
    && Accepted(config.coerce, v).Some? && States(config, record, Accepted(config.coerce, v).value)
    && record.holderDid == HolderDid(Accepted(config.coerce, v).value)
  }

  lemma ShownIsStated(config: Config, p: L2.Presentation, vc: Credential, record: L2.Record)
    requires Shows(config, p, vc) && L2.Records(Env(config), p, record)
    requires vc.documentId == DocumentId(vc.rawDocument) && vc.ministryPublicKey == config.ministry.keys.publicKey
    ensures States(config, record, vc.rawDocument) && record.holderDid == vc.holder
  {
  }

  lemma OwnedRecord(config: Config, l2: L2.State, k: nat)
    requires L2.Written(Env(config), l2.db, l2.owners, l2.asked) && k < |l2.owners|
    ensures k < |l2.db| && l2.owners[k] in l2.asked && L2.Records(Env(config), l2.asked[l2.owners[k]], l2.db[k])
  {
  }

  /** Every record of the presentation states the submitted document. */
  ghost predicate Tells(config: Config, p: L2.Presentation, v: Submittable) {
    forall record :: L2.Records(Env(config), p, record) ==> StatesSubmitted(config, record, v)
  }

  lemma CallTells(config: Config, c: AgentCall, rows: seq<Broker.Submission>, l2: L2.State, job: nat, id: nat)
    requires CallAgrees(config, c, rows, l2) && JobOf(c.stage) == Some(job) && c.submission == id
    ensures job in l2.asked && 1 <= id <= |rows| && Tells(config, l2.asked[job], rows[id - 1].document)
  {
    var v, p := rows[id - 1].document, l2.asked[job];
    assert Passes(config, v, c.vc.rawDocument) && Shows(config, p, c.vc);
    forall record | L2.Records(Env(config), p, record) ensures StatesSubmitted(config, record, v) {
      ShownIsStated(config, p, c.vc, record);
    }
  }

  lemma RunRecordOf(config: Config, ws: seq<World>, steps: seq<Step>, i: nat, id: nat)
    returns (call: nat, k: nat, job: nat)
    requires Run(config, ws, steps) && i <= |steps| && IsSettled(ws[i], id)
    ensures call < |ws[i].calls| && ws[i].calls[call].submission == id && JobOf(ws[i].calls[call].stage) == Some(job)
    ensures CallAgrees(config, ws[i].calls[call], ws[i].broker.submissions, ws[i].l2)
    ensures k < |ws[i].l2.owners| && ws[i].l2.owners[k] == job
  {
    RunInv(config, ws, steps, i);
    call, k := RecordOf(config, ws[i], id);
    job := ws[i].l2.owners[k];
  }

  lemma RunTells(config: Config, ws: seq<World>, steps: seq<Step>, i: nat, id: nat)
    returns (call: nat, k: nat, job: nat, p: L2.Presentation)
    requires Run(config, ws, steps) && i <= |steps| && IsSettled(ws[i], id)
    ensures call < |ws[i].calls| && ws[i].calls[call].submission == id && JobOf(ws[i].calls[call].stage) == Some(job)
    ensures k < |ws[i].l2.owners| && ws[i].l2.owners[k] == job && job in ws[i].l2.asked && ws[i].l2.asked[job] == p
    ensures Tells(config, p, ws[i].broker.submissions[id - 1].document)
  {
    call, k, job := RunRecordOf(config, ws, steps, i, id);
    CallTells(config, ws[i].calls[call], ws[i].broker.submissions, ws[i].l2, job, id);
    p := ws[i].l2.asked[job];
  }

  lemma RunOwnedRecord(config: Config, ws: seq<World>, steps: seq<Step>, i: nat, k: nat)
    requires Run(config, ws, steps) && i <= |steps| && k < |ws[i].l2.owners|
    ensures
      var l2 := ws[i].l2;
      k < |l2.db| && l2.owners[k] in l2.asked && L2.Records(Env(config), l2.asked[l2.owners[k]], l2.db[k])
  {
    RunInv(config, ws, steps, i);
    OwnedRecord(config, ws[i].l2, k);
  }

  lemma RecordStates(config: Config, ws: seq<World>, steps: seq<Step>, i: nat, id: nat) returns (call: nat, k: nat)
    requires Run(config, ws, steps) && i <= |steps| && IsSettled(ws[i], id)
    ensures call < |ws[i].calls| && ws[i].calls[call].submission == id
    ensures k < |ws[i].l2.owners| && JobOf(ws[i].calls[call].stage) == Some(ws[i].l2.owners[k])
    ensures k < |ws[i].l2.db| && StatesSubmitted(config, ws[i].l2.db[k], ws[i].broker.submissions[id - 1].document)
  {
    var job, p;
    call, k, job, p := RunTells(config, ws, steps, i, id);
    RunOwnedRecord(config, ws, steps, i, k);
    assert L2.Records(Env(config), p, ws[i].l2.db[k]);
  }

  lemma RunDiffer(config: Config, ws: seq<World>, steps: seq<Step>, i: nat)
    requires Run(config, ws, steps) && i <= |steps|
    ensures L2.NoDuplicates(ws[i].l2.db) && JobsDiffer(ws[i].calls)
  {
    RunInv(config, ws, steps, i);
  }

  /** Two settled submissions about one document identifier are one submission. */
  lemma SettledTogether(config: Config, ws: seq<World>, steps: seq<Step>, i: nat, a: nat, b: nat)
    requires Run(config, ws, steps) && i <= |steps| && IsSettled(ws[i], a) && IsSettled(ws[i], b)
    requires
      DocumentId(ws[i].broker.submissions[a - 1].document) == DocumentId(ws[i].broker.submissions[b - 1].document)
    ensures a == b
  {
    var callA, ka := RecordStates(config, ws, steps, i, a);
    var callB, kb := RecordStates(config, ws, steps, i, b);
    RunDiffer(config, ws, steps, i);
    SameRecord(ws[i].l2.db, ka, kb);
    SameCall(ws[i].calls, callA, callB);
  }

  lemma SameRecord(db: seq<L2.Record>, a: nat, b: nat)
    requires L2.NoDuplicates(db) && a < |db| && b < |db| && db[a].documentIdHash == db[b].documentIdHash
    ensures a == b
  {
  }

  lemma SameCall(calls: seq<AgentCall>, a: nat, b: nat)
    requires JobsDiffer(calls) && a < |calls| && b < |calls|
    requires JobOf(calls[a].stage).Some? && JobOf(calls[a].stage) == JobOf(calls[b].stage)
    ensures a == b
  {
  }

  /**
   At most one submission per document identifier ever becomes settled, whatever replies were lost and
   however often the agent was asked again.
   */
  lemma SettledAtMostOnce(config: Config, ws: seq<World>, steps: seq<Step>, i: nat, j: nat, a: nat, b: nat)
    requires Run(config, ws, steps) && i <= j <= |steps| && IsSettled(ws[i], a) && IsSettled(ws[j], b)
    requires
      DocumentId(ws[i].broker.submissions[a - 1].document) == DocumentId(ws[j].broker.submissions[b - 1].document)
    ensures a == b
  {
    SettledStaysSettled(config, ws, steps, i, j);
    SettledTogether(config, ws, steps, j, a, b);
  }

  /**
   Each settled submission has exactly one record with its identifier's hash, and it states the submitted document
   as Ministry took it in: that very document, unless its holder is not a string.
   */
  lemma SettledHasOneRecord(config: Config, ws: seq<World>, steps: seq<Step>, i: nat, id: nat) returns (k: nat)
    requires Run(config, ws, steps) && i <= |steps| && IsSettled(ws[i], id)
    ensures k < |ws[i].l2.db| && StatesSubmitted(config, ws[i].l2.db[k], ws[i].broker.submissions[id - 1].document)
    ensures
      var idHash := Sha256Hash(config.ministry.crypto, DocumentId(ws[i].broker.submissions[id - 1].document));
      forall m :: 0 <= m < |ws[i].l2.db| && ws[i].l2.db[m].documentIdHash == idHash ==> m == k
  {
    var call;
    call, k := RecordStates(config, ws, steps, i, id);
    RunDiffer(config, ws, steps, i);
  }

  // ---- where credentials come from ----

  /** The credential is the one Ministry issues for the document, and verifies. */
  predicate IssuedFor(config: Config, vc: Credential, document: Document) {
    && vc == Issue(config.ministry.crypto, config.ministry.keys, config.ministry.did, document, vc.issuanceDate)
    && CredentialVerifies(config.ministry.crypto, vc)
  }

  predicate OperatorApproved(b: Broker.State, row: Broker.Submission) {
    && 1 <= row.reviewItemId <= |b.queue|
    && b.queue[row.reviewItemId - 1].status == ReviewQueue.Approved
    && b.queue[row.reviewItemId - 1].payload == row.document
  }

  predicate OfficerApproved(config: Config, m: Ministry.State, row: Broker.Submission) {
    && row.ministryRefId.Some? && 1 <= row.ministryRefId.value <= |m.queue|
    && m.queue[row.ministryRefId.value - 1].status == ReviewQueue.Approved
    && Passes(config, row.document, m.queue[row.ministryRefId.value - 1].payload)
  }

  /** The credential is about the submitted document as Ministry took it in: unchanged exactly if its schema fits. */
  predicate About(config: Config, vc: Credential, v: Submittable) {
    && Passes(config, v, vc.rawDocument)
    && (vc.rawDocument == v <==> IsDocument(v))
  }

  /**
   A submission that is past Ministry holds the very credential Ministry issued for the review item it refers
   to; that item was approved by an officer, is about the submitted document as Ministry's framework hands it
   over, and the operator had approved the submission before.
   */
  lemma CredentialProvenance(config: Config, ws: seq<World>, steps: seq<Step>, i: nat, id: nat)
    requires Run(config, ws, steps) && i <= |steps| && 1 <= id <= |ws[i].broker.submissions|
    requires ws[i].broker.submissions[id - 1].status in {Broker.VcReceived, Broker.ProofRequested, Broker.Settled}
    requires KeyPair(config.ministry.crypto, config.ministry.keys.privateKey, config.ministry.keys.publicKey)
    ensures
      var w, row := ws[i], ws[i].broker.submissions[id - 1];
      && OperatorApproved(w.broker, row)
      && OfficerApproved(config, w.ministry, row)
      && row.credential.Some? && About(config, row.credential.value, row.document)
      && IssuedFor(config, row.credential.value, row.credential.value.rawDocument)
      && Issued(w.ministry, row.ministryRefId.value, row.credential.value)
  {
    RunInv(config, ws, steps, i);
    OperatorSide(ws[i].broker, id);
    assert Sourced(config, ws[i].broker.submissions[id - 1], ws[i].ministry);
    MinistrySide(config, ws[i].ministry, ws[i].broker.submissions[id - 1]);
  }

  lemma OperatorSide(b: Broker.State, id: nat)
    requires Broker.Inv(b) && 1 <= id <= |b.submissions|
    requires b.submissions[id - 1].status in {Broker.VcReceived, Broker.ProofRequested, Broker.Settled}
    ensures OperatorApproved(b, b.submissions[id - 1]) && b.submissions[id - 1].credential.Some?
  {
    assert Broker.RowAgrees(b.submissions[id - 1], b.queue[id - 1].status);
  }

  /** What stands in the documents table, under the item it stands for. */
  lemma IssuedItem(config: Config, m: Ministry.State, refId: nat, vc: Credential)
    requires Ministry.Inv(config.ministry, m) && Issued(m, refId, vc)
    ensures 1 <= refId <= |m.queue| && m.queue[refId - 1].status == ReviewQueue.Approved
    ensures m.queue[refId - 1].payload == vc.rawDocument
    ensures
      vc == Issue(config.ministry.crypto, config.ministry.keys, config.ministry.did, vc.rawDocument, vc.issuanceDate)
  {
    assert Ministry.Agrees(config.ministry, m.queue[refId - 1], m.documents[refId]);
  }

  lemma IssuedIsFor(config: Config, vc: Credential)
    requires
      vc == Issue(config.ministry.crypto, config.ministry.keys, config.ministry.did, vc.rawDocument, vc.issuanceDate)
    requires KeyPair(config.ministry.crypto, config.ministry.keys.privateKey, config.ministry.keys.publicKey)
    ensures IssuedFor(config, vc, vc.rawDocument)
  {
    IssuedVerifies(config.ministry.crypto, config.ministry.keys, config.ministry.did, vc.rawDocument, vc.issuanceDate);
  }

  lemma MinistrySide(config: Config, m: Ministry.State, row: Broker.Submission)
    requires Ministry.Inv(config.ministry, m) && Sourced(config, row, m) && row.credential.Some?
    requires KeyPair(config.ministry.crypto, config.ministry.keys.privateKey, config.ministry.keys.publicKey)
    ensures OfficerApproved(config, m, row) && About(config, row.credential.value, row.document)
    ensures IssuedFor(config, row.credential.value, row.credential.value.rawDocument)
  {
    IssuedItem(config, m, row.ministryRefId.value, row.credential.value);
    IssuedIsFor(config, row.credential.value);
  }

  // ---- what records prove ----

  /** The bytes Ministry's signature binds: both hashes of a document. */
  function Bound(config: Config, document: Document): Hex.Bytes {
    Combined(
      Sha256HashDocument(config.ministry.crypto, document),
      Sha256Hash(config.ministry.crypto, DocumentId(document)))
  }

  predicate ApprovedFor(config: Config, item: ReviewQueue.Item<Document>, p: L2.Presentation) {
    && item.status == ReviewQueue.Approved
    && Bound(config, item.payload) == Combined(p.documentHash, p.documentIdHash)
    && p.ministryPublicKey == config.ministry.keys.publicKey
  }

  /** Ministry approved a document with just the hashes presented, as bytes, and its key is the one presented. */
  ghost predicate Traced(config: Config, queue: seq<ReviewQueue.Item<Document>>, p: L2.Presentation) {
    exists k :: 0 <= k < |queue| && ApprovedFor(config, queue[k], p)
  }

  ghost function Traceable(config: Config, queue: seq<ReviewQueue.Item<Document>>): L2.Presentation -> bool {
    p => Traced(config, queue, p)
  }

  /** Ministry has issued a credential under this number, and its signature is over this digest. */
  predicate SignedAs(config: Config, m: Ministry.State, id: nat, digest: Hex.Bytes) {
    && id in m.documents && m.documents[id].credential.Some?
    && config.ministry.crypto.sha256(SignedBytes(config.ministry.crypto, m.documents[id].credential.value)) == digest
  }

  /**
   What cryptography is relied on for, at the moment a presentation is checked: a signature that verifies
   under Ministry's key is over the digest of a credential Ministry has issued, and the hash has no collision
   between what was presented and what is signed in an issued credential.
   */
  ghost predicate Unforged(config: Config, m: Ministry.State, p: L2.Presentation) {
    var crypto := config.ministry.crypto;
    var digest := crypto.sha256(Combined(p.documentHash, p.documentIdHash));
    && (crypto.verify(config.ministry.keys.publicKey, digest, p.proofBytes) ==>
          exists id :: SignedAs(config, m, id, digest))
    && (forall id :: SignedAs(config, m, id, digest) ==>
          SignedBytes(crypto, m.documents[id].credential.value) == Combined(p.documentHash, p.documentIdHash))
  }

  /** The L2 step inside a step of the pipeline. */
  function L2Part(config: Config, w: World, step: Step): Option<L2.Step>
    requires step.PresentToL2? ==> step.call < |w.calls|
  {
    match step
    case L2Alone(l) => Some(l)
    case PresentToL2(call, proof) => Some(L2.DoSettle(Presented(config, w, call, proof)))
    case _ => None
  }

  ghost predicate Guarded(config: Config, w: World, step: Step)
    requires Enabled(config, w, step)
  {
    var part := L2Part(config, w, step);
    part.Some? ==>
      && L2.Synchronous(Env(config), w.l2, part.value)
      && (part.value.DoSettle? ==> Unforged(config, w.ministry, part.value.p))
  }

  ghost predicate GuardedAt(config: Config, ws: seq<World>, steps: seq<Step>, i: nat)
    requires i < |steps| < |ws|
  {
    Enabled(config, ws[i], steps[i]) && Guarded(config, ws[i], steps[i])
  }

  ghost predicate GuardedRun(config: Config, ws: seq<World>, steps: seq<Step>) {
    && Run(config, ws, steps)
    && forall i :: 0 <= i < |steps| ==> GuardedAt(config, ws, steps, i)
  }

  /** L2 knows no key but Ministry's, and all it let in is traceable. */
  ghost predicate Proven(config: Config, queue: seq<ReviewQueue.Item<Document>>, l2: L2.State) {
    && l2.keys.authorized <= {config.ministry.keys.publicKey}
    && Evidence.VettedState(Traceable(config, queue), l2)
  }

  /** An issued credential is over an item an officer approved. */
  lemma IssuedIsApproved(config: Config, m: Ministry.State, id: nat)
    requires Ministry.Inv(config.ministry, m) && id in m.documents && m.documents[id].credential.Some?
    ensures 1 <= id <= |m.queue| && m.queue[id - 1].status == ReviewQueue.Approved
    ensures
      Bound(config, m.queue[id - 1].payload) == SignedBytes(config.ministry.crypto, m.documents[id].credential.value)
  {
    IssuedItem(config, m, id, m.documents[id].credential.value);
  }

  /** Only what an officer approved passes the check of the development path. */
  lemma AdmittedIsTraced(config: Config, w: World, p: L2.Presentation)
    requires w.l2.keys.authorized <= {config.ministry.keys.publicKey} && Ministry.Inv(config.ministry, w.ministry)
    requires L2.Judge(Env(config), w.l2.keys.authorized, w.l2.keys.revoked, p).EnterMutex?
    requires Unforged(config, w.ministry, p)
    ensures Traced(config, w.ministry.queue, p)
  {
    var crypto := config.ministry.crypto;
    var digest := crypto.sha256(Combined(p.documentHash, p.documentIdHash));
    L2.AdmittedKey(Env(config), w.l2, p);
    Hex.DecodeEncode(digest);
    var id: nat :| SignedAs(config, w.ministry, id, digest);
    IssuedIsApproved(config, w.ministry, id);
    assert ApprovedFor(config, w.ministry.queue[id - 1], p);
  }

  lemma TracedStays(config: Config, m: Ministry.State, later: Ministry.State, p: L2.Presentation)
    requires Ministry.Settles(m, later) && Traced(config, m.queue, p)
    ensures Traced(config, later.queue, p)
  {
    var k :| 0 <= k < |m.queue| && ApprovedFor(config, m.queue[k], p);
    assert ReviewQueue.Follows(m.queue[k], later.queue[k]);
    assert ApprovedFor(config, later.queue[k], p);
  }

  lemma MinistryKeepsProven(config: Config, w: World, step: Ministry.Step)
    requires Ministry.Inv(config.ministry, w.ministry) && Proven(config, w.ministry.queue, w.l2)
    ensures Proven(config, MinistryMoves(config, w, step).ministry.queue, w.l2)
  {
    var later := MinistryMoves(config, w, step).ministry;
    Ministry.StepKeepsInv(config.ministry, w.ministry, step);
    forall p | Traced(config, w.ministry.queue, p) ensures Traced(config, later.queue, p) {
      TracedStays(config, w.ministry, later, p);
    }
    Evidence.WiderVetted(Traceable(config, w.ministry.queue), Traceable(config, later.queue), w.l2);
  }

  lemma L2KeepsProven(config: Config, w: World, step: L2.Step)
    requires L2.Inv(Env(config), w.l2) && Proven(config, w.ministry.queue, w.l2) && L2.Enabled(w.l2, step)
    requires L2.Synchronous(Env(config), w.l2, step)
    requires step.DoSync? ==> step.key == config.ministry.keys.publicKey
    requires step.DoSettle? ==> Ministry.Inv(config.ministry, w.ministry) && Unforged(config, w.ministry, step.p)
    ensures Proven(config, w.ministry.queue, L2Moves(config, w, step).l2)
  {
    if step.DoSettle? && L2.Judge(Env(config), w.l2.keys.authorized, w.l2.keys.revoked, step.p).EnterMutex? {
      AdmittedIsTraced(config, w, step.p);
    }
    Evidence.StepKeepsVetted(Env(config), Traceable(config, w.ministry.queue), w.l2, step);
    L2.KeysBy(Env(config), w.l2, step);
  }

  /** Ministry moves alone, L2 moves alone, or neither does. */
  lemma NextParts(config: Config, w: World, step: Step, v: World)
    requires Next(config, w, step, v)
    ensures
      var part := L2Part(config, w, step);
      v.l2 == if part.Some? then L2Moves(config, w, part.value).l2 else w.l2
    ensures
      v.ministry ==
      match step
      case MinistryAlone(m) => MinistryMoves(config, w, m).ministry
      case RegisterDocument(call, now) =>
        MinistryMoves(config, w, Ministry.Submit(Arriving(config, w, call), now)).ministry
      case _ => w.ministry
  {
  }

  lemma NextKeepsProven(config: Config, w: World, step: Step, v: World)
    requires Stores(config, w) && Proven(config, w.ministry.queue, w.l2)
    requires Next(config, w, step, v) && Guarded(config, w, step)
    ensures Proven(config, v.ministry.queue, v.l2)
  {
    NextParts(config, w, step, v);
    match step
    case MinistryAlone(m) => MinistryKeepsProven(config, w, m);
    case RegisterDocument(call, now) =>
      MinistryKeepsProven(config, w, Ministry.Submit(Arriving(config, w, call), now));
    case L2Alone(l) => L2KeepsProven(config, w, l);
    case PresentToL2(call, proof) => L2KeepsProven(config, w, L2.DoSettle(Presented(config, w, call, proof)));
    case _ =>
  }

  lemma RunStores(config: Config, ws: seq<World>, steps: seq<Step>, i: nat)
    requires Run(config, ws, steps) && i <= |steps|
    ensures Stores(config, ws[i])
  {
    RunInv(config, ws, steps, i);
  }

  lemma StepAtKeepsProven(config: Config, ws: seq<World>, steps: seq<Step>, i: nat)
    requires 0 < i <= |steps| < |ws| && StepAt(config, ws, steps, i - 1) && GuardedAt(config, ws, steps, i - 1)
    requires Stores(config, ws[i - 1]) && Proven(config, ws[i - 1].ministry.queue, ws[i - 1].l2)
    ensures Proven(config, ws[i].ministry.queue, ws[i].l2)
  {
    NextKeepsProven(config, ws[i - 1], steps[i - 1], ws[i]);
  }

  lemma {:induction false} RunIsProven(config: Config, ws: seq<World>, steps: seq<Step>, i: nat)
    requires GuardedRun(config, ws, steps) && i <= |steps|
    ensures Proven(config, ws[i].ministry.queue, ws[i].l2)
  {
    if i > 0 {
      RunIsProven(config, ws, steps, i - 1);
      RunStores(config, ws, steps, i - 1);
      StepAtKeepsProven(config, ws, steps, i);
    }
  }

  /** The record's two hashes decode to what is signed for the document, and its key is Ministry's. */
  predicate TracesTo(config: Config, record: L2.Record, document: Document) {
    && Bound(config, document) == Combined(record.documentHash, record.documentIdHash)
    && record.ministryPublicKeyHash == Sha256Hash(config.ministry.crypto, config.ministry.keys.publicKey)
  }

  /**
   Every record of the verifier goes back to a document an officer approved. The record's two hashes are that
   document's own texts exactly when they are spelt in 64 lower-case digits each, as this code spells them.
   */
  lemma RecordTraces(config: Config, ws: seq<World>, steps: seq<Step>, i: nat, k: nat) returns (item: nat)
    requires GuardedRun(config, ws, steps) && i <= |steps| && k < |ws[i].l2.db| && DigestLength(config.ministry.crypto)
    ensures item < |ws[i].ministry.queue| && ws[i].ministry.queue[item].status == ReviewQueue.Approved
    ensures TracesTo(config, ws[i].l2.db[k], ws[i].ministry.queue[item].payload)
    ensures
      var record, document := ws[i].l2.db[k], ws[i].ministry.queue[item].payload;
      States(config, record, document) <==> IsDigestText(record.documentHash) && IsDigestText(record.documentIdHash)
  {
    var w := ws[i];
    RunStores(config, ws, steps, i);
    RunIsProven(config, ws, steps, i);
    var p := w.l2.asked[w.l2.owners[k]];
    assert L2.Records(Env(config), p, w.l2.db[k]);
    assert Traced(config, w.ministry.queue, p);
    item :| 0 <= item < |w.ministry.queue| && ApprovedFor(config, w.ministry.queue[item], p);
    TextsOfTrace(config, w.ministry.queue[item].payload, p.documentHash, p.documentIdHash);
  }

  lemma TextsOfTrace(config: Config, document: Document, documentHash: Text, documentIdHash: Text)
    requires DigestLength(config.ministry.crypto)
    requires Bound(config, document) == Combined(documentHash, documentIdHash)
    ensures
      documentHash == Sha256HashDocument(config.ministry.crypto, document) &&
      documentIdHash == Sha256Hash(config.ministry.crypto, DocumentId(document))
      <==> IsDigestText(documentHash) && IsDigestText(documentIdHash)
  {
    var crypto := config.ministry.crypto;
    var d1, d2 := crypto.sha256(crypto.utf8(DocumentText(document))), crypto.sha256(crypto.utf8(DocumentId(document)));
    Hex.DecodeEncode(d1);
    Hex.DecodeEncode(d2);
    SignedTextsIffDigestTexts(d1, d2, documentHash, documentIdHash);
  }

  /** The record has its document's own identifier hash exactly when that text is 64 lower-case digits. */
  lemma OwnIdTextIffDigestText(config: Config, record: L2.Record, document: Document)
    requires DigestLength(config.ministry.crypto) && TracesTo(config, record, document)
    ensures record.documentIdHash == Sha256Hash(config.ministry.crypto, DocumentId(document))
        <==> IsDigestText(record.documentIdHash)
  {
    var crypto := config.ministry.crypto;
    var d1, d2 := crypto.sha256(crypto.utf8(DocumentText(document))), crypto.sha256(crypto.utf8(DocumentId(document)));
    Hex.DecodeEncode(d1);
    Hex.DecodeEncode(d2);
    SecondTextIffDigestText(d1, d2, record.documentHash, record.documentIdHash);
  }

  /**
   Two records that trace to documents with one identifier are one record, if both spell the identifier hash as
   digests are spelt: a test on the request alone, which the verifier does not make.
   */
  lemma OneRecordPerDocument(
    config: Config, ws: seq<World>, steps: seq<Step>, i: nat, j: nat, k: nat, a: Document, b: Document)
    requires Run(config, ws, steps) && i <= |steps| && DigestLength(config.ministry.crypto)
    requires j < |ws[i].l2.db| && TracesTo(config, ws[i].l2.db[j], a)
    requires k < |ws[i].l2.db| && TracesTo(config, ws[i].l2.db[k], b)
    requires DocumentId(a) == DocumentId(b)
    requires IsDigestText(ws[i].l2.db[j].documentIdHash) && IsDigestText(ws[i].l2.db[k].documentIdHash)
    ensures j == k
  {
    RunDiffer(config, ws, steps, i);
    OwnIdTextIffDigestText(config, ws[i].l2.db[j], a);
    OwnIdTextIffDigestText(config, ws[i].l2.db[k], b);
  }
}
