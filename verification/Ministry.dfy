/**
 Ministry's two tables, the review queue and the documents the broker polls, and the handlers that keep them
 in step: submit, approve, reject.
 */
module Ministry {
  import opened Wrappers
  import opened Utf16
  import opened DocumentCrypto
  import opened Credentials
  import opened ReviewQueue

  datatype DocumentRecord = DocumentRecord(status: Status, credential: Option<Credential>, updatedAt: int)

  datatype Config = Config(crypto: Primitives, keys: Keys, did: Text)

  datatype State = State(queue: seq<Item<Document>>, documents: map<nat, DocumentRecord>)

  const INITIAL: State := State([], map[])
  const DOCUMENT_APPROVAL: Text := Ascii("document-approval")
  const BROKER: Text := Ascii("broker")
  const OFFICER: Text := Ascii("officer")

  datatype Step =
    | Submit(document: Document, now: int)
    | OfficerApproves(id: int, issuanceDate: Text, now: int)
    | OfficerRejects(id: int, note: Option<Text>, now: int)

  function Submitted(s: State, document: Document, now: int): State {
    State(
      After(s.queue, Create(DOCUMENT_APPROVAL, DocumentId(document), document, BROKER, now)),
      s.documents[|s.queue| + 1 := DocumentRecord(AwaitingApproval, None, now)])
  }

  function Judged(s: State, id: int, decision: Decision, note: Option<Text>, vc: Option<Credential>, now: int): State
    requires Decidable(s.queue, id)
  {
    State(
      After(s.queue, Decide(id, decision, OFFICER, note, now)),
      s.documents[id := DocumentRecord(Outcome(decision), vc, now)])
  }

  function CredentialFor(config: Config, d: Document, date: Text): Credential {
    Issue(config.crypto, config.keys, config.did, d, date)
  }

  /** Approving an open item issues its credential. */
  function IssuedNow(config: Config, s: State, id: int, issuanceDate: Text, now: int): State
    requires Decidable(s.queue, id)
  {
    Judged(s, id, Approve, None, Some(CredentialFor(config, s.queue[id - 1].payload, issuanceDate)), now)
  }

  function Apply(config: Config, s: State, step: Step): State {
    match step
    case Submit(document, now) => Submitted(s, document, now)
    case OfficerApproves(id, issuanceDate, now) =>
      if Decidable(s.queue, id) then IssuedNow(config, s, id, issuanceDate, now) else s
    case OfficerRejects(id, note, now) =>
      if Decidable(s.queue, id) then Judged(s, id, Reject, note, None, now) else s
  }

  /** The record says what the item says; the credential is there exactly on approval, and is the item's own. */
  ghost predicate Agrees(config: Config, item: Item<Document>, record: DocumentRecord) {
    && record.status == item.status
    && (record.credential.Some? <==> item.status == Approved)
    && (record.credential.Some? ==>
          var vc := record.credential.value;
          vc == CredentialFor(config, item.payload, vc.issuanceDate))
  }

  ghost predicate Inv(config: Config, s: State) {
    && Numbered(s.queue)
    && (forall id :: id in s.documents <==> 1 <= id <= |s.queue|)
    && (forall id :: 1 <= id <= |s.queue| ==> Agrees(config, s.queue[id - 1], s.documents[id]))
  }

  lemma AppendAgrees(config: Config, s: State, id: nat, item: Item<Document>, record: DocumentRecord)
    requires Inv(config, s) && id == |s.queue| + 1 && item.id == id && Agrees(config, item, record)
    ensures Inv(config, State(s.queue + [item], s.documents[id := record]))
  {
  }

  lemma UpdateAgrees(config: Config, s: State, id: nat, item: Item<Document>, record: DocumentRecord)
    requires Inv(config, s) && 1 <= id <= |s.queue| && item.id == id && Agrees(config, item, record)
    ensures Inv(config, State(s.queue[id - 1 := item], s.documents[id := record]))
  {
  }

  lemma SubmittedKeepsInv(config: Config, s: State, document: Document, now: int)
    requires Inv(config, s)
    ensures Inv(config, Submitted(s, document, now))
  {
    var t := Submitted(s, document, now);
    AppendAgrees(config, s, |s.queue| + 1, t.queue[|s.queue|], t.documents[|s.queue| + 1]);
  }

  lemma SubmittedSettles(s: State, document: Document, now: int)
    requires forall id :: id in s.documents ==> id <= |s.queue|
    ensures Settles(s, Submitted(s, document, now))
  {
  }

  lemma JudgedKeepsInv(
    config: Config, s: State, id: int, item: Item<Document>, record: DocumentRecord, t: State)
    requires Inv(config, s) && Decidable(s.queue, id) && Agrees(config, item, record) && item.id == id
    requires t == State(s.queue[id - 1 := item], s.documents[id := record])
    ensures Inv(config, t)
  {
    UpdateAgrees(config, s, id, item, record);
  }

  /** A decision replaces the open item and its record. */
  lemma JudgedIs(s: State, id: int, decision: Decision, note: Option<Text>, vc: Option<Credential>, now: int)
    requires Decidable(s.queue, id)
    ensures
      Judged(s, id, decision, note, vc, now) ==
      State(s.queue[id - 1 := Decided(s.queue[id - 1], decision, OFFICER, note, now)],
            s.documents[id := DocumentRecord(Outcome(decision), vc, now)])
  {
  }

  lemma ReplacingOpenSettles(s: State, id: nat, item: Item<Document>, record: DocumentRecord)
    requires Decidable(s.queue, id) && Follows(s.queue[id - 1], item)
    ensures Settles(s, State(s.queue[id - 1 := item], s.documents[id := record]))
  {
  }

  lemma JudgementHolds(
    config: Config, s: State, id: int, decision: Decision, note: Option<Text>, vc: Option<Credential>, now: int)
    requires Inv(config, s) && Decidable(s.queue, id)
    requires
      Agrees(config, Decided(s.queue[id - 1], decision, OFFICER, note, now), DocumentRecord(Outcome(decision), vc, now))
    ensures var t := Judged(s, id, decision, note, vc, now); Inv(config, t) && Settles(s, t)
  {
    var item := Decided(s.queue[id - 1], decision, OFFICER, note, now);
    var record := DocumentRecord(Outcome(decision), vc, now);
    JudgedIs(s, id, decision, note, vc, now);
    JudgedKeepsInv(config, s, id, item, record, Judged(s, id, decision, note, vc, now));
    ReplacingOpenSettles(s, id, item, record);
  }

  lemma IssuedAgrees(config: Config, item: Item<Document>, date: Text, now: int)
    ensures
      var vc := CredentialFor(config, item.payload, date);
      Agrees(config, Decided(item, Approve, OFFICER, None, now), DocumentRecord(Approved, Some(vc), now))
  {
  }

  lemma ApproveKeepsInv(config: Config, s: State, id: int, date: Text, now: int)
    requires Inv(config, s)
    ensures var t := Apply(config, s, OfficerApproves(id, date, now)); Inv(config, t) && Settles(s, t)
  {
    if Decidable(s.queue, id) {
      var vc := CredentialFor(config, s.queue[id - 1].payload, date);
      IssuedAgrees(config, s.queue[id - 1], date, now);
      JudgementHolds(config, s, id, Approve, None, Some(vc), now);
    }
  }

  lemma RejectKeepsInv(config: Config, s: State, id: int, note: Option<Text>, now: int)
    requires Inv(config, s)
    ensures var t := Apply(config, s, OfficerRejects(id, note, now)); Inv(config, t) && Settles(s, t)
  {
    if Decidable(s.queue, id) {
      JudgementHolds(config, s, id, Reject, note, None, now);
    }
  }

  lemma StepKeepsInv(config: Config, s: State, step: Step)
    requires Inv(config, s)
    ensures Inv(config, Apply(config, s, step)) && Settles(s, Apply(config, s, step))
  {
    match step
    case Submit(document, now) =>
      SubmittedKeepsInv(config, s, document, now);
      SubmittedSettles(s, document, now);
    case OfficerApproves(id, issuanceDate, now) => ApproveKeepsInv(config, s, id, issuanceDate, now);
    case OfficerRejects(id, note, now) => RejectKeepsInv(config, s, id, note, now);
  }

  /** What a decision settled, later requests leave alone: the item, the record and the credential. */
  ghost predicate Settles(s: State, t: State) {
    && |s.queue| <= |t.queue|
    && (forall i :: 0 <= i < |s.queue| ==> Follows(s.queue[i], t.queue[i]))
    && (forall id :: 1 <= id <= |s.queue| && s.queue[id - 1].status != AwaitingApproval && id in s.documents ==>
          id in t.documents && t.documents[id] == s.documents[id])
  }

  function Run(config: Config, s: State, steps: seq<Step>): State
    decreases steps
  {
    if steps == [] then s else Run(config, Apply(config, s, steps[0]), steps[1..])
  }

  lemma SettlesTransitive(a: State, b: State, c: State)
    requires Settles(a, b) && Settles(b, c)
    ensures Settles(a, c)
  {
    forall i | 0 <= i < |a.queue| ensures Follows(a.queue[i], c.queue[i]) {
      assert Follows(a.queue[i], b.queue[i]) && Follows(b.queue[i], c.queue[i]);
    }
    forall id | 1 <= id <= |a.queue| && a.queue[id - 1].status != AwaitingApproval && id in a.documents
      ensures id in c.documents && c.documents[id] == a.documents[id]
    {
      assert Follows(a.queue[id - 1], b.queue[id - 1]);
    }
  }

  lemma {:induction false} RunKeepsInv(config: Config, s: State, steps: seq<Step>)
    requires Inv(config, s)
    ensures Inv(config, Run(config, s, steps)) && Settles(s, Run(config, s, steps))
    decreases steps
  {
    if steps != [] {
      var t := Apply(config, s, steps[0]);
      StepKeepsInv(config, s, steps[0]);
      RunKeepsInv(config, t, steps[1..]);
      SettlesTransitive(s, t, Run(config, s, steps));
    }
  }

  /**
   After any requests the documents table and the review queue agree item by item: same status, a credential
   exactly for what was approved, over that item's own document, with a signature that verifies.
   */
  lemma TablesAgree(config: Config, steps: seq<Step>, id: nat)
    requires KeyPair(config.crypto, config.keys.privateKey, config.keys.publicKey)
    ensures
      var s := Run(config, INITIAL, steps);
      && (id in s.documents <==> GetItem(s.queue, id).Some?)
      && (id in s.documents ==>
            var record, item := s.documents[id], GetItem(s.queue, id).value;
            && item.id == id
            && record.status == item.status
            && (record.credential.Some? <==> item.status == Approved)
            && (record.credential.Some? ==>
                  && record.credential.value.rawDocument == item.payload
                  && record.credential.value.documentId == DocumentId(item.payload)
                  && record.credential.value.ministryPublicKey == config.keys.publicKey
                  && CredentialVerifies(config.crypto, record.credential.value)))
  {
    RunKeepsInv(config, INITIAL, steps);
    var s := Run(config, INITIAL, steps);
    if id in s.documents && s.documents[id].credential.Some? {
      var vc := s.documents[id].credential.value;
      assert Agrees(config, s.queue[id - 1], s.documents[id]);
      IssuedVerifies(config.crypto, config.keys, config.did, s.queue[id - 1].payload, vc.issuanceDate);
    }
  }

  class Server {
    const config: Config
    const reviewQueue: Queue<Document>
    var documents: map<nat, DocumentRecord>

    ghost function View(): State
      reads this, reviewQueue
    {
      State(reviewQueue.rows, documents)
    }

    ghost predicate Valid()
      reads this, reviewQueue
    {
      Inv(config, View())
    }

    constructor (config: Config)
      ensures fresh(reviewQueue) && this.config == config && Valid() && View() == INITIAL
    {
      this.config := config;
      reviewQueue := new Queue();
      documents := map[];
    }

    method UpsertDocumentRecord(submissionId: nat, status: Status, credential: Option<Credential>, now: int)
      modifies this
      ensures documents == old(documents)[submissionId := DocumentRecord(status, credential, now)]
    {
      documents := documents[submissionId := DocumentRecord(status, credential, now)];
    }

    method ReceiveDocument(document: Document, now: int) returns (submissionId: nat)
      requires Valid()
      modifies this, reviewQueue
      ensures Valid() && View() == Apply(config, old(View()), Submit(document, now))
      ensures GetDocument(submissionId) == Some(DocumentRecord(AwaitingApproval, None, now))
    {
      StepKeepsInv(config, View(), Submit(document, now));
      var item := reviewQueue.CreateReviewItem(DOCUMENT_APPROVAL, DocumentId(document), document, BROKER, now);
      UpsertDocumentRecord(item.id, AwaitingApproval, None, now);
      submissionId := item.id;
    }

    /** `/api/documents/:submissionId`; None is the 404. */
    function GetDocument(submissionId: int): Option<DocumentRecord>
      reads this
    {
      if submissionId >= 0 && submissionId in documents then Some(documents[submissionId]) else None
    }

    method ApprovePending(id: int, issuanceDate: Text, now: int) returns (issued: Option<Credential>)
      requires Valid()
      modifies this, reviewQueue
      ensures Valid() && View() == Apply(config, old(View()), OfficerApproves(id, issuanceDate, now))
      ensures issued.Some? <==> old(Decidable(reviewQueue.rows, id))
      ensures issued.Some? ==> GetDocument(id) == Some(DocumentRecord(Approved, issued, now))
      ensures issued.Some? ==> issued.value.rawDocument == old(reviewQueue.rows)[id - 1].payload
                               && issued.value.issuanceDate == issuanceDate
    {
      StepKeepsInv(config, View(), OfficerApproves(id, issuanceDate, now));
      var item := reviewQueue.DecideReviewItem(id, Approve, OFFICER, None, now);
      if item.None? {
        return None;
      }
      var vc := CredentialFor(config, item.value.payload, issuanceDate);
      UpsertDocumentRecord(id, Approved, Some(vc), now);
      issued := Some(vc);
    }

    method RejectPending(id: int, note: Option<Text>, now: int) returns (rejected: bool)
      requires Valid()
      modifies this, reviewQueue
      ensures Valid() && View() == Apply(config, old(View()), OfficerRejects(id, note, now))
      ensures rejected <==> old(Decidable(reviewQueue.rows, id))
      ensures rejected ==> GetDocument(id) == Some(DocumentRecord(Rejected, None, now))
    {
      StepKeepsInv(config, View(), OfficerRejects(id, note, now));
      var item := reviewQueue.DecideReviewItem(id, Reject, OFFICER, note, now);
      if item.None? {
        return false;
      }
      UpsertDocumentRecord(id, Rejected, None, now);
      rejected := true;
    }
  }
}
