/**
 Who decided what at Ministry: a document is approved, and a credential for it issued, exactly if an officer approved it
 while it was open, and it is rejected exactly if an officer rejected it while it was open.
 */
module Officers {
  import opened Wrappers
  import opened Utf16
  import opened Credentials
  import opened ReviewQueue
  import opened Ministry
  import Json
  import Canonical

  // ---- one step ----

  predicate OpenItem(s: State, id: int) {
    1 <= id <= |s.queue| && s.queue[id - 1].status == AwaitingApproval
  }

  predicate Approves(s: State, step: Step, id: nat) {
    step.OfficerApproves? && step.id == id && OpenItem(s, id)
  }

  predicate Rejects(s: State, step: Step, id: nat) {
    step.OfficerRejects? && step.id == id && OpenItem(s, id)
  }

  /** The holder a document names; without one, the placeholder. */
  predicate NamesHolder(d: Document, holder: Text) {
    match Canonical.Find(d.members, Ascii("holderDid"))
    case Some(did) => did == Json.Str(holder)
    case None => holder == Ascii("did:ublp:agent:unknown")
  }

  /** The credential is over the document, as of the date, and is signed with Ministry's private key. */
  predicate Certifies(config: Config, vc: Credential, d: Document, date: Text) {
    && vc.rawDocument == d && vc.documentId == DocumentId(d) && vc.id == Ascii("urn:ublp:vc:") + DocumentId(d)
    && vc.issuer == config.did && vc.issuanceDate == date && NamesHolder(d, vc.holder)
    && vc.ministryPublicKey == config.keys.publicKey
    && vc.proofValue == config.crypto.sign(config.keys.privateKey, config.crypto.sha256(SignedBytes(config.crypto, vc)))
  }

  /** What an approval leaves behind. */
  predicate Approval(config: Config, step: Step, item: Item<Document>, record: DocumentRecord) {
    && step.OfficerApproves?
    && item.status == Approved && item.decidedBy == Some(Ascii("officer")) && item.decisionNote == None
    && item.updatedAt == step.now
    && record.status == Approved && record.updatedAt == step.now
    && record.credential.Some? && Certifies(config, record.credential.value, item.payload, step.issuanceDate)
  }

  /** What a rejection leaves behind: no credential. */
  predicate Rejection(step: Step, item: Item<Document>, record: DocumentRecord) {
    && step.OfficerRejects?
    && item.status == Rejected && item.decidedBy == Some(Ascii("officer")) && item.decisionNote == step.note
    && item.updatedAt == step.now
    && record == DocumentRecord(Rejected, None, step.now)
  }

  lemma IssuedCertifies(config: Config, d: Document, date: Text)
    ensures Certifies(config, CredentialFor(config, d, date), d, date)
  {
  }

  lemma ApprovalIs(config: Config, step: Step, item: Item<Document>, vc: Credential)
    requires step.OfficerApproves? && Certifies(config, vc, item.payload, step.issuanceDate)
    ensures Approval(config, step, ReviewQueue.Decided(item, Approve, OFFICER, None, step.now),
                     DocumentRecord(Approved, Some(vc), step.now))
  {
  }

  lemma ApprovedIsJudged(config: Config, s: State, id: int, date: Text, now: int)
    requires Decidable(s.queue, id)
    ensures
      var vc := CredentialFor(config, s.queue[id - 1].payload, date);
      Apply(config, s, OfficerApproves(id, date, now)) == Judged(s, id, Approve, None, Some(vc), now)
  {
  }

  lemma ApprovalFollows(config: Config, s: State, step: Step, id: nat)
    requires Approves(s, step, id)
    ensures
      var t := Apply(config, s, step);
      && |t.queue| == |s.queue| && id in t.documents
      && t.queue[id - 1].payload == s.queue[id - 1].payload
      && Approval(config, step, t.queue[id - 1], t.documents[id])
  {
    var item := s.queue[id - 1];
    var vc := CredentialFor(config, item.payload, step.issuanceDate);
    IssuedCertifies(config, item.payload, step.issuanceDate);
    ApprovalIs(config, step, item, vc);
    ApprovedIsJudged(config, s, id, step.issuanceDate, step.now);
    JudgedIs(s, id, Approve, None, Some(vc), step.now);
  }

  lemma RejectionFollows(config: Config, s: State, step: Step, id: nat)
    requires Rejects(s, step, id)
    ensures
      var t := Apply(config, s, step);
      && |t.queue| == |s.queue| && id in t.documents
      && t.queue[id - 1].payload == s.queue[id - 1].payload
      && Rejection(step, t.queue[id - 1], t.documents[id])
  {
  }

  /** An item decided now was decided before, or an officer has just decided it. */
  lemma OnlyOfficersDecide(config: Config, s: State, step: Step, id: nat)
    requires 1 <= id <= |Apply(config, s, step).queue|
    ensures
      var t := Apply(config, s, step);
      && |s.queue| <= |t.queue|
      && (t.queue[id - 1].status == AwaitingApproval || (id <= |s.queue| && t.queue[id - 1] == s.queue[id - 1])
          || Approves(s, step, id) || Rejects(s, step, id))
  {
  }

  // ---- runs ----

  lemma {:induction false} RunLast(config: Config, s: State, steps: seq<Step>)
    requires steps != []
    ensures
      var n := |steps| - 1;
      Run(config, s, steps) == Apply(config, Run(config, s, steps[..n]), steps[n])
    decreases steps
  {
    if |steps| > 1 {
      RunLast(config, Apply(config, s, steps[0]), steps[1..]);
      assert steps[..|steps| - 1][1..] == steps[1..][..|steps| - 2];
    }
  }

  /** Ministry's tables before a step. */
  function Before(config: Config, steps: seq<Step>, i: nat): State
    requires i <= |steps|
  {
    Run(config, INITIAL, steps[..i])
  }

  lemma Growing(config: Config, steps: seq<Step>, i: nat)
    requires i < |steps|
    ensures Before(config, steps, i + 1) == Apply(config, Before(config, steps, i), steps[i])
    ensures Inv(config, Before(config, steps, i)) && Settles(Before(config, steps, i), Before(config, steps, i + 1))
  {
    RunLast(config, INITIAL, steps[..i + 1]);
    assert steps[..i + 1][..i] == steps[..i];
    RunKeepsInv(config, INITIAL, steps[..i]);
    StepKeepsInv(config, Before(config, steps, i), steps[i]);
  }

  lemma {:induction false} Settling(config: Config, steps: seq<Step>, i: nat, j: nat)
    requires i <= j <= |steps|
    ensures Settles(Before(config, steps, i), Before(config, steps, j))
    decreases j
  {
    if i < j {
      Settling(config, steps, i, j - 1);
      Growing(config, steps, j - 1);
      SettlesTransitive(Before(config, steps, i), Before(config, steps, j - 1), Before(config, steps, j));
    }
  }

  predicate Decided(s: State, id: nat) {
    1 <= id <= |s.queue| && id in s.documents && s.queue[id - 1].status != AwaitingApproval
  }

  /** What an officer decided is what stands, then and later. */
  lemma DecisionStands(config: Config, steps: seq<Step>, j: nat, i: nat, id: nat)
    requires j < i <= |steps|
    requires var s := Before(config, steps, j); Approves(s, steps[j], id) || Rejects(s, steps[j], id)
    ensures
      var s, t := Before(config, steps, j), Before(config, steps, i);
      && Decided(t, id) && t.queue[id - 1].payload == s.queue[id - 1].payload
      && (Approves(s, steps[j], id) ==> Approval(config, steps[j], t.queue[id - 1], t.documents[id]))
      && (Rejects(s, steps[j], id) ==> Rejection(steps[j], t.queue[id - 1], t.documents[id]))
  {
    var s := Before(config, steps, j);
    Growing(config, steps, j);
    Settling(config, steps, j + 1, i);
    if Approves(s, steps[j], id) {
      ApprovalFollows(config, s, steps[j], id);
    } else {
      RejectionFollows(config, s, steps[j], id);
    }
    assert Follows(Before(config, steps, j + 1).queue[id - 1], Before(config, steps, i).queue[id - 1]);
  }

  /** Whatever is decided, an officer decided while it was open. */
  lemma {:induction false} DecidedByOfficer(config: Config, steps: seq<Step>, i: nat, id: nat) returns (j: nat)
    requires i <= |steps| && Decided(Before(config, steps, i), id)
    ensures j < i
    ensures var s := Before(config, steps, j); Approves(s, steps[j], id) || Rejects(s, steps[j], id)
    decreases i
  {
    assert i > 0;
    var s := Before(config, steps, i - 1);
    Growing(config, steps, i - 1);
    OnlyOfficersDecide(config, s, steps[i - 1], id);
    if Approves(s, steps[i - 1], id) || Rejects(s, steps[i - 1], id) {
      j := i - 1;
    } else {
      j := DecidedByOfficer(config, steps, i - 1, id);
    }
  }

  ghost predicate ApprovedAt(config: Config, steps: seq<Step>, j: nat, id: nat)
    requires j < |steps|
  {
    Approves(Before(config, steps, j), steps[j], id)
  }

  ghost predicate RejectedAt(config: Config, steps: seq<Step>, j: nat, id: nat)
    requires j < |steps|
  {
    Rejects(Before(config, steps, j), steps[j], id)
  }

  predicate HasCredential(s: State, id: nat) {
    id in s.documents && s.documents[id].credential.Some?
  }

  predicate HasStatus(s: State, id: nat, status: Status) {
    id in s.documents && s.documents[id].status == status
  }

  /**
   Over any requests a credential stands in the table exactly if an officer approved the open item, and the document is
   rejected, with none, exactly if one rejected it; what stands is what the officer's request said.
   */
  lemma StandsIffDecided(config: Config, steps: seq<Step>, id: nat)
    ensures
      var s := Run(config, INITIAL, steps);
      && (HasCredential(s, id) <==> exists j :: 0 <= j < |steps| && ApprovedAt(config, steps, j, id))
      && (HasStatus(s, id, Approved) <==> exists j :: 0 <= j < |steps| && ApprovedAt(config, steps, j, id))
      && (HasStatus(s, id, Rejected) <==> exists j :: 0 <= j < |steps| && RejectedAt(config, steps, j, id))
  {
    var n := |steps|;
    assert steps[..n] == steps;
    var s := Before(config, steps, n);
    RunKeepsInv(config, INITIAL, steps);
    if id in s.documents {
      assert Agrees(config, s.queue[id - 1], s.documents[id]);
    }
    if Decided(s, id) {
      var j := DecidedByOfficer(config, steps, n, id);
      DecisionStands(config, steps, j, n, id);
      assert ApprovedAt(config, steps, j, id) || RejectedAt(config, steps, j, id);
    }
    forall j | 0 <= j < n && (ApprovedAt(config, steps, j, id) || RejectedAt(config, steps, j, id))
      ensures ApprovedAt(config, steps, j, id) ==> HasCredential(s, id) && HasStatus(s, id, Approved)
      ensures RejectedAt(config, steps, j, id) ==> HasStatus(s, id, Rejected)
    {
      DecisionStands(config, steps, j, n, id);
    }
  }
}
