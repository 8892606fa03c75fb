/**
 What becomes of a presentation that is sent again. The verifier looks for a record with the same hash text, but
 a signature is over bytes, and many texts stand for the same bytes.
 */
module Replay {
  import opened Utf16
  import opened DocumentCrypto
  import opened Credentials
  import opened Pipeline
  import opened Clearance
  import opened Journey
  import ReviewQueue
  import L2
  import Hex

  lemma RefusedAlone(
    env: L2.Env, key: Text, db: seq<L2.Record>, owners: seq<nat>, replies: map<nat, L2.Reply>,
    asked: map<nat, L2.Presentation>, next: nat, p: L2.Presentation, now: Text)
    requires L2.Judge(env, {key}, map[], p) == L2.EnterMutex && L2.HasDuplicate(db, p.documentIdHash)
    ensures
      var s := Verifier(key, db, owners, replies, asked, next);
      var arrived := L2.Apply(env, s, L2.DoSettle(p));
      && L2.Enabled(arrived, L2.DoAcquire)
      && var held := L2.Apply(env, arrived, L2.DoAcquire);
      && L2.Enabled(held, L2.DoFinish(now))
      && L2.Apply(env, held, L2.DoFinish(now)) ==
         Verifier(key, db, owners, replies[next := L2.Refused(409)], asked[next := p], next + 1)
  {
  }

  /** The verifier with one record after another request. */
  function AfterAnother(config: Config, first: L2.Presentation, at: Text, p: L2.Presentation, later: Text): L2.State {
    var s := OneRecord(config, first, at);
    if p.documentIdHash == first.documentIdHash then
      s.(replies := s.replies[1 := L2.Refused(409)], asked := s.asked[1 := p], next := 2)
    else
      s.(db := s.db + [L2.NewRecord(Env(config), p, later)], owners := s.owners + [1],
         replies := s.replies[1 := L2.Settled(1)], asked := s.asked[1 := p], next := 2)
  }

  lemma AnotherRequest(config: Config, first: L2.Presentation, at: Text, p: L2.Presentation, later: Text)
    requires L2.Judge(Env(config), {config.ministry.keys.publicKey}, map[], p) == L2.EnterMutex
    ensures
      var arrived := L2.Apply(Env(config), OneRecord(config, first, at), L2.DoSettle(p));
      && L2.Enabled(arrived, L2.DoAcquire)
      && var held := L2.Apply(Env(config), arrived, L2.DoAcquire);
      && L2.Enabled(held, L2.DoFinish(later))
      && L2.Apply(Env(config), held, L2.DoFinish(later)) == AfterAnother(config, first, at, p, later)
  {
    var s, key := OneRecord(config, first, at), config.ministry.keys.publicKey;
    assert s.db[0].documentIdHash == first.documentIdHash;
    if p.documentIdHash == first.documentIdHash {
      RefusedAlone(Env(config), key, s.db, s.owners, s.replies, s.asked, 1, p, later);
    } else {
      SettlesAlone(Env(config), key, s.db, s.owners, s.replies, s.asked, 1, p, later);
    }
  }

  lemma ReachesAnother(config: Config, w: World, first: L2.Presentation, at: Text, p: L2.Presentation, later: Text)
    requires Reaches(config, w) && w.l2 == OneRecord(config, first, at) && Unforged(config, w.ministry, p)
    requires L2.Judge(Env(config), {config.ministry.keys.publicKey}, map[], p) == L2.EnterMutex
    ensures Reaches(config, w.(l2 := AfterAnother(config, first, at, p, later)))
  {
    AnotherRequest(config, first, at, p, later);
    var arrived := L2.Apply(Env(config), w.l2, L2.DoSettle(p));
    var held := L2.Apply(Env(config), arrived, L2.DoAcquire);
    L2Step(config, w, L2.DoSettle(p), arrived);
    L2Step(config, w.(l2 := arrived), L2.DoAcquire, held);
    L2Step(config, w.(l2 := held), L2.DoFinish(later), AfterAnother(config, first, at, p, later));
  }

  /** Ministry has approved one item, this document, and nothing else was ever put up for review. */
  predicate ApprovedOnce(w: World, d: Document) {
    |w.ministry.queue| == 1 && w.ministry.queue[0].status == ReviewQueue.Approved && w.ministry.queue[0].payload == d
  }

  /** The verifier holds a record of the document under these hash texts. */
  predicate RecordedAs(config: Config, record: L2.Record, d: Document, documentHash: Text, documentIdHash: Text) {
    && record.status == L2.APPROVED && TracesTo(config, record, d)
    && record.documentHash == documentHash && record.documentIdHash == documentIdHash
  }

  lemma RecordsOfAnother(
    config: Config, vc: Credential, first: L2.Presentation, at: Text, p: L2.Presentation, later: Text)
    requires Carries(config, vc, first) && Carries(config, vc, p)
    requires SignedBytes(config.ministry.crypto, vc) == Bound(config, vc.rawDocument)
    ensures
      var db := AfterAnother(config, first, at, p, later).db;
      && |db| == (if p.documentIdHash == first.documentIdHash then 1 else 2)
      && RecordedAs(config, db[0], vc.rawDocument, first.documentHash, first.documentIdHash)
      && (|db| == 2 ==> RecordedAs(config, db[1], vc.rawDocument, p.documentHash, p.documentIdHash))
  {
  }

  /** Of all texts that carry the signature, the identifier's is the agent's own exactly when it is a digest text. */
  lemma CarriedIdText(config: Config, vc: Credential, p: L2.Presentation)
    requires DigestLength(config.ministry.crypto) && Carries(config, vc, p)
    ensures p.documentIdHash == Sha256Hash(config.ministry.crypto, vc.documentId) <==> IsDigestText(p.documentIdHash)
  {
    var crypto := config.ministry.crypto;
    var d1 := crypto.sha256(crypto.utf8(DocumentText(vc.rawDocument)));
    var d2 := crypto.sha256(crypto.utf8(vc.documentId));
    Hex.DecodeEncode(d1);
    Hex.DecodeEncode(d2);
    SecondTextIffDigestText(d1, d2, p.documentHash, p.documentIdHash);
  }

  /**
   A document Ministry approved once and that was settled is presented again, by anyone, with the same signature and
   any hash texts that stand for the signed bytes: the verifier makes a second approved record of it exactly when
   the text of the identifier hash is not the 64 lower-case digits of a digest.
   */
  lemma SecondRecordIffOtherText(
    config: Config, v: Submittable, d: Document, date: Text, now: int, holderPubKeyHash: Text, at: Text,
    again: L2.Presentation, later: Text)
    returns (ws: seq<World>, steps: seq<Step>)
    requires config.mode.Dev? && DigestLength(config.ministry.crypto) && config.ministry.keys.publicKey != []
    requires KeyPair(config.ministry.crypto, config.ministry.keys.privateKey, config.ministry.keys.publicKey)
    requires Passes(config, v, d) && HolderDid(d) != [] && |holderPubKeyHash| == 64
    requires Ministry.CredentialFor(config.ministry, d, date).proofValue != []
    requires Carries(config, Ministry.CredentialFor(config.ministry, d, date), again)
    ensures GuardedRun(config, ws, steps) && IsSettled(ws[|steps|], 1) && ApprovedOnce(ws[|steps|], d)
    ensures
      var crypto, db := config.ministry.crypto, ws[|steps|].l2.db;
      var documentHash, idHash := Sha256HashDocument(crypto, d), Sha256Hash(crypto, DocumentId(d));
      && |db| == (if IsDigestText(again.documentIdHash) then 1 else 2)
      && RecordedAs(config, db[0], d, documentHash, idHash)
      && (|db| == 2 ==> RecordedAs(config, db[1], d, again.documentHash, again.documentIdHash))
  {
    var vc := Ministry.CredentialFor(config.ministry, d, date);
    IssuedVerifies(config.ministry.crypto, config.ministry.keys, config.ministry.did, d, date);
    PresentedIsCarried(config, vc, holderPubKeyHash);
    var p := Present(config.ministry.crypto, vc, MockProof(vc, holderPubKeyHash));
    ReachesOutcome(config, v, d, date, now, holderPubKeyHash, vc, p, at);
    CarriedIsAdmitted(config, vc, again);
    OneCredentialIsUnforged(config, d, vc, now, again);
    var w := Outcome(config, v, d, vc, now, p, at);
    var t := w.(l2 := AfterAnother(config, p, at, again, later));
    ReachesAnother(config, w, p, at, again, later);
    RecordsOfAnother(config, vc, p, at, again, later);
    CarriedIdText(config, vc, again);
    ws, steps :| GuardedRun(config, ws, steps) && ws[|steps|] == t;
  }

  /** A letter behind the identifier hash makes another text of the same bytes. */
  lemma Lengthened(config: Config, vc: Credential, p: L2.Presentation) returns (again: L2.Presentation)
    requires DigestLength(config.ministry.crypto) && Carries(config, vc, p) && IsDigestText(p.documentIdHash)
    ensures Carries(config, vc, again) && !IsDigestText(again.documentIdHash)
  {
    again := p.(documentIdHash := p.documentIdHash + [0x7A]);
    Hex.EncodeDecode(p.documentIdHash);
    Hex.DecodeConcat(Hex.Decode(p.documentIdHash), [0x7A]);
    assert Hex.Decode([0x7A]) == [];
  }

  lemma PresentedIsDigestText(config: Config, vc: Credential, proof: ZkProof)
    requires DigestLength(config.ministry.crypto)
    ensures IsDigestText(Present(config.ministry.crypto, vc, proof).documentIdHash)
  {
    DigestText(config.ministry.crypto.sha256(config.ministry.crypto.utf8(vc.documentId)));
  }

  /** So every document that settles can be recorded twice: a letter behind the identifier hash is enough. */
  lemma OneApprovalTwoRecords(
    config: Config, v: Submittable, d: Document, date: Text, now: int, holderPubKeyHash: Text, at: Text, later: Text)
    returns (ws: seq<World>, steps: seq<Step>)
    requires config.mode.Dev? && DigestLength(config.ministry.crypto) && config.ministry.keys.publicKey != []
    requires KeyPair(config.ministry.crypto, config.ministry.keys.privateKey, config.ministry.keys.publicKey)
    requires Passes(config, v, d) && HolderDid(d) != [] && |holderPubKeyHash| == 64
    requires Ministry.CredentialFor(config.ministry, d, date).proofValue != []
    ensures GuardedRun(config, ws, steps) && IsSettled(ws[|steps|], 1) && ApprovedOnce(ws[|steps|], d)
    ensures
      var db := ws[|steps|].l2.db;
      && |db| == 2 && db[0].status == db[1].status == L2.APPROVED
      && TracesTo(config, db[0], d) && TracesTo(config, db[1], d)
  {
    var vc := Ministry.CredentialFor(config.ministry, d, date);
    PresentedIsCarried(config, vc, holderPubKeyHash);
    PresentedIsDigestText(config, vc, MockProof(vc, holderPubKeyHash));
    var again := Lengthened(config, vc, Present(config.ministry.crypto, vc, MockProof(vc, holderPubKeyHash)));
    ws, steps := SecondRecordIffOtherText(config, v, d, date, now, holderPubKeyHash, at, again, later);
  }
}
