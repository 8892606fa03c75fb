/**
 Customs documents, the credentials Ministry issues over them and the presentations the agent builds from
 those. Documents arrive as JSON request bodies, so they hold nothing JSON cannot carry.
 */
module Credentials {
  import opened Wrappers
  import opened Utf16
  import opened Json
  import opened Canonical
  import opened DocumentCrypto
  import Hex
  import L2

  const DOCUMENT_ID: Text := Ascii("documentId")
  const HOLDER_DID: Text := Ascii("holderDid")
  const UNKNOWN_HOLDER: Text := Ascii("did:ublp:agent:unknown")
  const CREDENTIAL_PREFIX: Text := Ascii("urn:ublp:vc:")
  const MOCK_PROOF: Text := Ascii("mock-ecdsa-p256")

  /** What the broker's request schema lets through: it asks for a document number and nothing else. */
  predicate IsSubmittable(v: Value) {
    && v.Obj?
    && Legal(v)
    && Plain(v)
    && (match Find(v.members, DOCUMENT_ID)
        case Some(Str(s)) => s != []
        case _ => false)
  }

  /** What Ministry's schema lets through as it is: the holder, if there is one, is a string. */
  predicate IsDocument(v: Value) {
    && IsSubmittable(v)
    && (match Find(v.members, HOLDER_DID)
        case Some(Str(_)) => true
        case Some(_) => false
        case None => true)
  }

  function Sample(): (v: Value)
    ensures IsDocument(v)
  {
    var members := [Member(DOCUMENT_ID, Str([0x41]))];
    assert members[1..] == [];
    assert Find(members, DOCUMENT_ID) == Some(Str([0x41]));
    assert DOCUMENT_ID[0] == 'd' as int as CodeUnit && HOLDER_DID[0] == 'h' as int as CodeUnit;
    assert Find(members, HOLDER_DID) == Find(members[1..], HOLDER_DID);
    assert Legal(Obj(members)) by { assert LegalMembers(members[1..]); }
    assert Plain(Obj(members)) by { assert PlainMembers(members[1..]); }
    Obj(members)
  }

  type Submittable = v: Value | IsSubmittable(v) witness Sample()

  type Document = v: Value | IsDocument(v) witness Sample()

  function DocumentId(v: Submittable): (id: Text)
    ensures id != []
  {
    Find(v.members, DOCUMENT_ID).value.s
  }

  // ---- coercion at Ministry ----

  /** The members with one value replaced where it stands. */
  function Replaced(members: seq<Member>, key: Text, value: Value): (after: seq<Member>)
    ensures |after| == |members|
    ensures forall i :: 0 <= i < |members| ==> after[i].key == members[i].key
  {
    if members == [] then []
    else if members[0].key == key then [Member(key, value)] + members[1..]
    else [members[0]] + Replaced(members[1..], key, value)
  }

  lemma {:induction false} ReplacedIsPlain(members: seq<Member>, key: Text, value: Value)
    requires LegalMembers(members) && PlainMembers(members) && Legal(value) && Plain(value)
    ensures LegalMembers(Replaced(members, key, value)) && PlainMembers(Replaced(members, key, value))
  {
    if members != [] {
      var after := Replaced(members, key, value);
      if members[0].key == key {
        assert after[1..] == members[1..];
      } else {
        ReplacedIsPlain(members[1..], key, value);
        assert after[1..] == Replaced(members[1..], key, value);
      }
    }
  }

  lemma FindInFront(m: Member, rest: seq<Member>, key: Text)
    ensures Find([m] + rest, key) == if m.key == key && !m.value.Undefined? then Some(m.value) else Find(rest, key)
  {
    assert ([m] + rest)[1..] == rest;
  }

  lemma {:induction false} ReplacedIsFound(members: seq<Member>, key: Text, value: Value, other: Text)
    requires PlainMembers(members) && Plain(value) && Find(members, key).Some?
    ensures Find(Replaced(members, key, value), key) == Some(value)
    ensures other != key ==> Find(Replaced(members, key, value), other) == Find(members, other)
  {
    var m, rest := members[0], members[1..];
    assert members == [m] + rest;
    FindInFront(m, rest, key);
    FindInFront(m, rest, other);
    if m.key == key {
      FindInFront(Member(key, value), rest, key);
      FindInFront(Member(key, value), rest, other);
    } else {
      ReplacedIsFound(rest, key, value, other);
      FindInFront(m, Replaced(rest, key, value), key);
      FindInFront(m, Replaced(rest, key, value), other);
    }
  }

  lemma NamedIsDocument(members: seq<Member>, id: Text, holder: Text)
    requires LegalMembers(members) && PlainMembers(members) && id != []
    requires Find(members, DOCUMENT_ID) == Some(Str(id)) && Find(members, HOLDER_DID) == Some(Str(holder))
    ensures IsDocument(Obj(members))
  {
  }

  function WithHolder(v: Submittable, holder: Text): Value {
    Obj(Replaced(v.members, HOLDER_DID, Str(holder)))
  }

  lemma WithHolderIsDocument(v: Submittable, holder: Text)
    requires Find(v.members, HOLDER_DID).Some?
    ensures IsDocument(WithHolder(v, holder))
    ensures Find(WithHolder(v, holder).members, DOCUMENT_ID) == Find(v.members, DOCUMENT_ID)
    ensures Find(WithHolder(v, holder).members, HOLDER_DID) == Some(Str(holder))
  {
    assert DOCUMENT_ID[0] == 'd' as int as CodeUnit && HOLDER_DID[0] == 'h' as int as CodeUnit;
    ReplacedIsPlain(v.members, HOLDER_DID, Str(holder));
    ReplacedIsFound(v.members, HOLDER_DID, Str(holder), DOCUMENT_ID);
    NamedIsDocument(WithHolder(v, holder).members, DocumentId(v), holder);
  }

  /**
   What Ministry's framework makes of a body: a holder that is not a string becomes one, or the request is
   refused. `coerce` is the framework's conversion.
   */
  function Accepted(coerce: Value -> Option<Text>, v: Submittable): (d: Option<Document>)
    ensures d.Some? ==> DocumentId(d.value) == DocumentId(v)
    ensures d == Some(v) <==> IsDocument(v)
  {
    if IsDocument(v) then Some(v)
    else
      match coerce(Find(v.members, HOLDER_DID).value)
      case None => None
      case Some(holder) =>
        WithHolderIsDocument(v, holder);
        Some(WithHolder(v, holder))
  }

  /** A holder that is no string is replaced by what it converts to, or turns the body away; nothing else changes. */
  lemma OnlyTheHolderChanges(coerce: Value -> Option<Text>, v: Submittable, key: Text)
    requires !IsDocument(v)
    ensures
      var holder := Find(v.members, HOLDER_DID);
      holder.Some? && !holder.value.Str? &&
      match coerce(holder.value)
      case None => Accepted(coerce, v) == None
      case Some(text) =>
        && Accepted(coerce, v).Some?
        && var d := Accepted(coerce, v).value;
           && Find(d.members, HOLDER_DID) == Some(Str(text))
           && (key != HOLDER_DID ==> Find(d.members, key) == Find(v.members, key))
  {
    if coerce(Find(v.members, HOLDER_DID).value).Some? {
      var text := coerce(Find(v.members, HOLDER_DID).value).value;
      WithHolderIsDocument(v, text);
      ReplacedIsFound(v.members, HOLDER_DID, Str(text), key);
    }
  }

  /** A submission the broker takes and Ministry does not take as it is: its holder is a number. */
  lemma NumericHolder(coerce: Value -> Option<Text>)
    ensures
      var v := Obj([Member(DOCUMENT_ID, Str([0x41])), Member(HOLDER_DID, Num([0x31]))]);
      && IsSubmittable(v) && !IsDocument(v)
      && Accepted(coerce, v) != Some(v)
      && (Accepted(coerce, v).Some? <==> coerce(Num([0x31])).Some?)
  {
    var number := Num([0x31]);
    var members, rest := [Member(DOCUMENT_ID, Str([0x41])), Member(HOLDER_DID, number)], [Member(HOLDER_DID, number)];
    assert DOCUMENT_ID[0] == 'd' as int as CodeUnit && HOLDER_DID[0] == 'h' as int as CodeUnit;
    assert members[1..] == rest && rest[1..] == [];
    assert Find(rest, HOLDER_DID) == Some(number);
    assert Find(members, DOCUMENT_ID) == Some(Str([0x41])) && Find(members, HOLDER_DID) == Some(number);
    assert DigitsEnd([0x31], 1) == 1 && DigitsEnd([0x31], 0) == 1 && IsNumber([0x31]);
    assert !HasKey(rest[1..], HOLDER_DID) && LegalMembers(rest[1..]) && PlainMembers(rest[1..]);
    assert Legal(number) && LegalMembers(rest) && PlainMembers(rest);
    assert !HasKey(rest, DOCUMENT_ID);
    assert LegalMembers(members[1..]) && PlainMembers(members[1..]) && !HasKey(members[1..], members[0].key);
    assert Legal(members[0].value);
    assert LegalMembers(members);
    assert PlainMembers(members);
  }

  function HolderDid(d: Document): Text {
    match Find(d.members, HOLDER_DID)
    case Some(did) => did.s
    case None => UNKNOWN_HOLDER
  }

  /** Storing a request body as JSON text and reading it back loses nothing. */
  lemma StoredDocument(v: Submittable)
    ensures Stringify(v).Some? && JsonParse(Stringify(v).value) == Some(v)
  {
    CleanOfPlain(v);
    JsonParsePrint(v);
  }

  datatype Keys = Keys(privateKey: Text, publicKey: Text)

  datatype Credential = Credential(
    id: Text, issuer: Text, issuanceDate: Text, holder: Text, documentId: Text, rawDocument: Document,
    proofValue: Text, ministryPublicKey: Text)

  function Issue(p: Primitives, keys: Keys, ministryDid: Text, d: Document, issuanceDate: Text): Credential {
    Credential(
      CREDENTIAL_PREFIX + DocumentId(d), ministryDid, issuanceDate, HolderDid(d), DocumentId(d), d,
      SignDocument(p, d, keys.privateKey, Sha256Hash(p, DocumentId(d))), keys.publicKey)
  }

  /** What the signature of a credential is over, before it is hashed. */
  function SignedBytes(p: Primitives, vc: Credential): Hex.Bytes {
    Combined(Sha256HashDocument(p, vc.rawDocument), Sha256Hash(p, vc.documentId))
  }

  /** The agent's check of a credential it is handed. */
  predicate CredentialVerifies(p: Primitives, vc: Credential) {
    VerifySignature(p, vc.rawDocument, vc.proofValue, vc.ministryPublicKey, Sha256Hash(p, vc.documentId))
  }

  /** What the proof generator returns. */
  datatype ZkProof = ZkProof(proofSystem: Text, ministrySignature: Text, holderPubKeyHash: Text)

  /** The development generator hands the signature through. */
  function MockProof(vc: Credential, holderPubKeyHash: Text): ZkProof {
    ZkProof(MOCK_PROOF, vc.proofValue, holderPubKeyHash)
  }

  /** The presentation the agent sends to L2: hashes recomputed from the document, the document left out. */
  function Present(p: Primitives, vc: Credential, proof: ZkProof): L2.Presentation {
    L2.Presentation(
      vc.holder, false, proof.proofSystem, Sha256HashDocument(p, vc.rawDocument), Sha256Hash(p, vc.documentId),
      proof.holderPubKeyHash, proof.ministrySignature, vc.ministryPublicKey)
  }

  /** An issued credential names its document and verifies, wherever the keys belong together. */
  lemma IssuedVerifies(p: Primitives, keys: Keys, ministryDid: Text, d: Document, issuanceDate: Text)
    requires KeyPair(p, keys.privateKey, keys.publicKey)
    ensures CredentialVerifies(p, Issue(p, keys, ministryDid, d, issuanceDate))
  {
    SignatureSurvivesTransport(p, d, d, keys.privateKey, keys.publicKey, Sha256Hash(p, DocumentId(d))) by {
      CanonicalJsonIsComplete(d, d);
    }
  }

  /**
   Issued by Ministry, checked by the agent, presented under the development proof system: what L2 makes of it,
   whatever document it is about. An empty holder passes Ministry's schema but not L2's.
   */
  lemma IssuedIsAdmitted(
    env: L2.Env, keys: Keys, ministryDid: Text, d: Document, issuanceDate: Text, holderPubKeyHash: Text,
    authorized: set<Text>, revoked: map<Text, Text>)
    requires env.mode.Dev? && KeyPair(env.crypto, keys.privateKey, keys.publicKey) && |holderPubKeyHash| == 64
    requires DigestLength(env.crypto)
    ensures
      var vc := Issue(env.crypto, keys, ministryDid, d, issuanceDate);
      var presentation := Present(env.crypto, vc, MockProof(vc, holderPubKeyHash));
      L2.Judge(env, authorized, revoked, presentation) ==
      if HolderDid(d) == [] || vc.proofValue == [] || keys.publicKey == [] then L2.Refuse(400)
      else if keys.publicKey in authorized && keys.publicKey !in revoked then L2.EnterMutex
      else L2.Refuse(403)
  {
    var idHash := Sha256Hash(env.crypto, DocumentId(d));
    SignatureSurvivesTransport(env.crypto, d, d, keys.privateKey, keys.publicKey, idHash) by {
      CanonicalJsonIsComplete(d, d);
    }
    assert !L2.IsSp1(MOCK_PROOF) by {
      assert MOCK_PROOF[0] == 'm' as int as CodeUnit;
      assert L2.SP1_GROTH16[0] == 's' as int as CodeUnit;
      assert L2.SP1_PLONK[0] == 's' as int as CodeUnit;
    }
  }
}
