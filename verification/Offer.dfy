/**
 A signed offer and its delivery from the seller's agent to the buyer's: the proposal is printed as JSON,
 encrypted, decrypted, parsed, checked and stored. Nothing but the signature over canonical JSON ties
 what the buyer stores to what the seller signed.
 */
module Offer {
  import opened Wrappers
  import opened Utf16
  import opened Json
  import opened Canonical
  import opened DocumentCrypto
  import Decimal
  import Hex
  import Memo

  const SHIPMENT_ID: Text := Ascii("shipmentId")
  const BUYER_DID: Text := Ascii("buyerDid")
  const AMOUNT: Text := Ascii("amount")
  const TERMS: Text := Ascii("terms")
  const SELLER_SIGNATURE: Text := Ascii("sellerSignature")
  const SELLER_PUBLIC_KEY: Text := Ascii("sellerPublicKey")
  const CONTRACT_ADDRESS: Text := Ascii("contractAddress")
  const PROPOSAL: Text := Ascii("proposal")

  /** What the two agents run on besides their own code. */
  datatype Platform = Platform(
    crypto: Primitives,
    cipher: Memo.Cipher,
    fromUtf8: Hex.Bytes -> Text,
    toBig: Value -> Option<int>)   // BigInt of anything but a string

  /** UTF-8 carries every text without unpaired surrogates. */
  ghost predicate Utf8Lossless(p: Platform) {
    forall t :: WellFormed(t) ==> p.fromUtf8(p.crypto.utf8(t)) == t
  }

  /** Property access; undefined for an absent property and for a value that is not an object. */
  function Get(v: Value, key: Text): Value {
    if v.Obj? then (match Find(v.members, key) case Some(x) => x case None => Undefined) else Undefined
  }

  predicate Truthy(v: Value) {
    match v
    case Undefined => false
    case Null => false
    case Bool(b) => b
    case NonFinite => false
    case Num(repr) => repr != [0x30]
    case Str(s) => s != []
    case Arr(_) => true
    case Obj(_) => true
  }

  datatype Refusal = BadSignature | WrongBuyer | BadAmount | NotABuyer | Undecryptable | Malformed | Throws

  // ---- proposing and accepting ----

  /** `termsIdHash`; None where hashing undefined throws. */
  function TermsIdHash(p: Platform, terms: Value): Option<Text>
    requires Legal(terms)
  {
    GetIsLegal(terms, SHIPMENT_ID);
    match Get(terms, SHIPMENT_ID)
    case Str(s) => Some(Sha256Hash(p.crypto, s))
    case other =>
      match CanonicalJson(other)
      case Some(t) => Some(Sha256Hash(p.crypto, t))
      case None => None
  }

  function ProposeEscrow(p: Platform, terms: Value, privateKey: Text, publicKey: Text): (proposal: Value)
    requires Legal(terms) && terms.Obj? && TermsIdHash(p, terms).Some?
    ensures Legal(proposal)
  {
    var signature := SignDocument(p.crypto, terms, privateKey, TermsIdHash(p, terms).value);
    Proposal(terms, signature, publicKey)
  }

  function Proposal(terms: Value, signature: Text, publicKey: Text): (proposal: Value)
    requires Legal(terms)
    ensures Legal(proposal)
  {
    assert SELLER_SIGNATURE[6] != SELLER_PUBLIC_KEY[6];
    var members := [Member(TERMS, terms), Member(SELLER_SIGNATURE, Str(signature)),
                    Member(SELLER_PUBLIC_KEY, Str(publicKey))];
    FewMembers(members);
    Obj(members)
  }

  /** `BigInt(v)`; None where it throws. */
  function BigIntOf(p: Platform, v: Value): Option<int> {
    match v
    case Str(s) => Decimal.Parse(s)
    case _ => p.toBig(v)
  }

  /** `acceptEscrow`: the first check that fails. */
  function Refuses(p: Platform, proposal: Value, did: Text): Option<Refusal>
    requires Legal(proposal)
  {
    var terms := Get(proposal, TERMS);
    GetIsLegal(proposal, TERMS);
    match (TermsIdHash(p, terms), Get(proposal, SELLER_SIGNATURE), Get(proposal, SELLER_PUBLIC_KEY))
    case (None, _, _) => Some(Throws)
    case (Some(idHash), Str(signature), Str(publicKey)) =>
      if !terms.Obj? || !VerifySignature(p.crypto, terms, signature, publicKey, idHash) then Some(BadSignature)
      else if Get(terms, BUYER_DID) != Str(did) then Some(WrongBuyer)
      else (match BigIntOf(p, Get(terms, AMOUNT))
            case None => Some(Throws)
            case Some(n) => if n <= 0 then Some(BadAmount) else None)
    case _ => Some(BadSignature)
  }

  // ---- what is accepted, and why not ----

  /** The text whose hash stands for the shipment in the signature; None where there is none. */
  function ShipmentText(terms: Value): Option<Text>
    requires Legal(terms)
  {
    GetIsLegal(terms, SHIPMENT_ID);
    var id := Get(terms, SHIPMENT_ID);
    if id.Str? then Some(id.s) else CanonicalJson(id)
  }

  /**
   Under the key the proposal names, its signature is over the digests of the canonical terms and of the shipment's
   identifier, one behind the other.
   */
  predicate SignedBySeller(p: Platform, proposal: Value)
    requires Legal(proposal)
  {
    var terms := Get(proposal, TERMS);
    GetIsLegal(proposal, TERMS);
    && terms.Obj? && ShipmentText(terms).Some?
    && Get(proposal, SELLER_SIGNATURE).Str? && Get(proposal, SELLER_PUBLIC_KEY).Str?
    && var document := p.crypto.sha256(p.crypto.utf8(Ascii("ublp-doc-v1:") + CanonicalJson(terms).value));
       var shipment := p.crypto.sha256(p.crypto.utf8(ShipmentText(terms).value));
       p.crypto.verify(Get(proposal, SELLER_PUBLIC_KEY).s, p.crypto.sha256(document + shipment),
                       Get(proposal, SELLER_SIGNATURE).s)
  }

  /** Signed, addressed to this buyer, and about a positive amount. */
  predicate SignedFor(p: Platform, proposal: Value, did: Text)
    requires Legal(proposal)
  {
    var terms := Get(proposal, TERMS);
    && SignedBySeller(p, proposal)
    && Get(terms, BUYER_DID) == Str(did)
    && BigIntOf(p, Get(terms, AMOUNT)).Some? && BigIntOf(p, Get(terms, AMOUNT)).value > 0
  }

  lemma TermsIdHashIs(p: Platform, terms: Value)
    requires Legal(terms)
    ensures TermsIdHash(p, terms).Some? <==> ShipmentText(terms).Some?
    ensures ShipmentText(terms).Some? ==>
              Hex.Decode(TermsIdHash(p, terms).value) == p.crypto.sha256(p.crypto.utf8(ShipmentText(terms).value))
  {
    if ShipmentText(terms).Some? {
      Hex.DecodeEncode(p.crypto.sha256(p.crypto.utf8(ShipmentText(terms).value)));
    }
  }

  lemma VerifiesAs(p: Primitives, terms: Value, signature: Text, publicKey: Text, idHash: Text)
    requires Legal(terms) && terms.Obj?
    ensures VerifySignature(p, terms, signature, publicKey, idHash) <==>
              p.verify(publicKey,
                       p.sha256(p.sha256(p.utf8(Ascii("ublp-doc-v1:") + CanonicalJson(terms).value)) +
                                Hex.Decode(idHash)),
                       signature)
  {
    Hex.DecodeEncode(p.sha256(p.utf8(DocumentText(terms))));
  }

  /** An offer passes exactly if it is signed, addressed to this buyer and positive; and otherwise what it fails on. */
  lemma RefusalIs(p: Platform, proposal: Value, did: Text)
    requires Legal(proposal)
    ensures Legal(Get(proposal, TERMS))
    ensures
      var terms := Get(proposal, TERMS);
      var amount := BigIntOf(p, Get(terms, AMOUNT));
      Refuses(p, proposal, did) ==
      if SignedFor(p, proposal, did) then None
      else if ShipmentText(terms).None? then Some(Throws)
      else if !SignedBySeller(p, proposal) then Some(BadSignature)
      else if Get(terms, BUYER_DID) != Str(did) then Some(WrongBuyer)
      else if amount.None? then Some(Throws)
      else Some(BadAmount)
  {
    var terms := Get(proposal, TERMS);
    GetIsLegal(proposal, TERMS);
    TermsIdHashIs(p, terms);
    var signature, key := Get(proposal, SELLER_SIGNATURE), Get(proposal, SELLER_PUBLIC_KEY);
    if terms.Obj? && ShipmentText(terms).Some? && signature.Str? && key.Str? {
      VerifiesAs(p.crypto, terms, signature.s, key.s, TermsIdHash(p, terms).value);
    }
  }

  /** What the envelope holds, as far as it can be opened and parsed. */
  function Opened(p: Platform, own: MemoKeys, e: Envelope): Option<Value> {
    match Memo.Decrypt(p.cipher, e.ciphertextHex, own.privateKeyHex, e.senderMemoPublicKeyHex)
    case None => None
    case Some(plain) => JsonParse(p.fromUtf8(plain))
  }

  /** The buyer's agent takes in exactly what holds a contract's address and an offer signed for it. */
  lemma ReceivesIffSigned(
    p: Platform, isBuyer: bool, did: Text, own: MemoKeys, e: Envelope, address: Text, proposal: Value)
    ensures
      Examine(p, isBuyer, did, own, e) == Ok((address, proposal)) <==>
        && isBuyer && Opened(p, own, e).Some?
        && var parsed := Opened(p, own, e).value;
           && Get(parsed, CONTRACT_ADDRESS) == Str(address) && address != []
           && Get(parsed, PROPOSAL) == proposal
           && Legal(proposal) && SignedFor(p, proposal, did) && Get(proposal, SELLER_SIGNATURE) != Str([])
  {
    if Opened(p, own, e).Some? {
      ChecksIffSigned(p, did, Opened(p, own, e).value, address, proposal);
    }
  }

  lemma ChecksIffSigned(p: Platform, did: Text, parsed: Value, address: Text, proposal: Value)
    requires Legal(parsed)
    ensures
      Check(p, did, parsed) == Ok((address, proposal)) <==>
        && Get(parsed, CONTRACT_ADDRESS) == Str(address) && address != []
        && Get(parsed, PROPOSAL) == proposal
        && Legal(proposal) && SignedFor(p, proposal, did) && Get(proposal, SELLER_SIGNATURE) != Str([])
  {
    GetIsLegal(parsed, PROPOSAL);
    RefusalIs(p, Get(parsed, PROPOSAL), did);
  }

  /** Who is no buyer, cannot open the envelope, or finds a part missing is told so, in this order. */
  lemma DeliveryRefusedAs(p: Platform, isBuyer: bool, did: Text, own: MemoKeys, e: Envelope)
    ensures
      var r := Examine(p, isBuyer, did, own, e);
      var plain := Memo.Decrypt(p.cipher, e.ciphertextHex, own.privateKeyHex, e.senderMemoPublicKeyHex);
      && (r == Err(NotABuyer) <==> !isBuyer)
      && (r == Err(Undecryptable) <==> isBuyer && plain == None)
      && (isBuyer && plain.Some? && Opened(p, own, e) == None ==> r == Err(Throws))
      && (r == Err(Malformed) <==>
            && isBuyer && Opened(p, own, e).Some?
            && var parsed := Opened(p, own, e).value;
               var proposal := Get(parsed, PROPOSAL);
               || !Truthy(Get(parsed, CONTRACT_ADDRESS))
               || !Truthy(Get(proposal, TERMS)) || !Truthy(Get(proposal, SELLER_SIGNATURE)))
  {
    if Opened(p, own, e).Some? {
      var parsed := Opened(p, own, e).value;
      GetIsLegal(parsed, PROPOSAL);
      RefusalIs(p, Get(parsed, PROPOSAL), did);
    }
  }

  /** Members with pairwise different keys make a legal object. */
  lemma {:induction false} FewMembers(members: seq<Member>)
    requires forall i :: 0 <= i < |members| ==> Legal(members[i].value)
    requires forall i, j :: 0 <= i < j < |members| ==> members[i].key != members[j].key
    ensures LegalMembers(members)
  {
    if members != [] {
      FewMembers(members[1..]);
    }
  }

  // ---- delivery ----

  datatype Envelope = Envelope(senderMemoPublicKeyHex: Text, ciphertextHex: Text)

  datatype MemoKeys = MemoKeys(privateKeyHex: Text, publicKeyHex: Text)

  /** The payload of a delivery. */
  function Payload(contractAddress: Text, proposal: Value): (v: Value)
    requires Legal(proposal)
    ensures Legal(v)
  {
    var members := [Member(CONTRACT_ADDRESS, Str(contractAddress)), Member(PROPOSAL, proposal)];
    FewMembers(members);
    Obj(members)
  }

  function EncryptOfferForBuyer(
    p: Platform, own: MemoKeys, contractAddress: Text, proposal: Value, buyerMemoPublicKeyHex: Text, nonce: Hex.Bytes)
    : Envelope
    requires Legal(proposal)
  {
    var plain := p.crypto.utf8(Stringify(Payload(contractAddress, proposal)).value);
    Envelope(own.publicKeyHex, Memo.Encrypt(p.cipher, plain, own.privateKeyHex, buyerMemoPublicKeyHex, nonce))
  }

  /** Everything `receiveOffer` does before it stores the offer. */
  function Examine(p: Platform, isBuyer: bool, did: Text, own: MemoKeys, e: Envelope): Result<(Text, Value), Refusal> {
    if !isBuyer then Err(NotABuyer)
    else
      match Memo.Decrypt(p.cipher, e.ciphertextHex, own.privateKeyHex, e.senderMemoPublicKeyHex)
      case None => Err(Undecryptable)
      case Some(plain) =>
        match JsonParse(p.fromUtf8(plain))
        case None => Err(Throws)
        case Some(parsed) => Check(p, did, parsed)
  }

  /** The checks on the decrypted and parsed payload. */
  function Check(p: Platform, did: Text, parsed: Value): Result<(Text, Value), Refusal>
    requires Legal(parsed)
  {
    var proposal := Get(parsed, PROPOSAL);
    GetIsLegal(parsed, PROPOSAL);
    if !Truthy(Get(parsed, CONTRACT_ADDRESS)) || !Truthy(Get(proposal, TERMS))
       || !Truthy(Get(proposal, SELLER_SIGNATURE)) then Err(Malformed)
    else
      match Refuses(p, proposal, did)
      case Some(reason) => Err(reason)
      case None =>
        match Get(parsed, CONTRACT_ADDRESS)
        case Str(address) => Ok((address, proposal))
        case _ => Err(Throws)
  }

  datatype IncomingOffer = IncomingOffer(
    id: nat, contractAddress: Text, proposal: Text, senderMemoPublicKeyHex: Text, status: OfferStatus)

  datatype OfferStatus = Pending | Dismissed | Used

  /** The buyer's inbox. */
  class Inbox {
    const platform: Platform
    const isBuyer: bool
    const did: Text
    const memoKeys: MemoKeys
    var offers: seq<IncomingOffer>

    constructor (platform: Platform, isBuyer: bool, did: Text, memoKeys: MemoKeys)
      ensures offers == []
      ensures this.platform == platform && this.isBuyer == isBuyer && this.did == did && this.memoKeys == memoKeys
    {
      this.platform, this.isBuyer, this.did, this.memoKeys := platform, isBuyer, did, memoKeys;
      offers := [];
    }

    /** Stores an offer that passes every check; a refused one leaves no trace. */
    method ReceiveOffer(e: Envelope) returns (r: Result<IncomingOffer, Refusal>)
      modifies this
      ensures
        match Examine(platform, isBuyer, did, memoKeys, e)
        case Err(reason) => r == Err(reason) && offers == old(offers)
        case Ok((address, proposal)) =>
          && Legal(proposal) && !proposal.Undefined? && isBuyer && SignedFor(platform, proposal, did)
          && r.Ok? && offers == old(offers) + [r.value]
          && r.value == IncomingOffer(
               |old(offers)| + 1, address, Stringify(proposal).value, e.senderMemoPublicKeyHex, Pending)
    {
      var checked := Examine(platform, isBuyer, did, memoKeys, e);
      match checked
      case Err(reason) =>
        return Err(reason);
      case Ok((address, proposal)) =>
        ExaminedIsLegal(platform, isBuyer, did, memoKeys, e);
        ReceivesIffSigned(platform, isBuyer, did, memoKeys, e, address, proposal);
        var offer := IncomingOffer(
          |offers| + 1, address, Stringify(proposal).value, e.senderMemoPublicKeyHex, Pending);
        offers := offers + [offer];
        return Ok(offer);
    }
  }

  // ---- lemmas ----

  lemma GetIsLegal(v: Value, key: Text)
    requires Legal(v)
    ensures Legal(Get(v, key))
  {
    if v.Obj? {
      LegalIsDistinct(v.members);
    }
  }

  lemma ExaminedIsLegal(p: Platform, isBuyer: bool, did: Text, own: MemoKeys, e: Envelope)
    requires Examine(p, isBuyer, did, own, e).Ok?
    ensures
      var proposal := Examine(p, isBuyer, did, own, e).value.1;
      Legal(proposal) && proposal.Obj? && Refuses(p, proposal, did) == None
  {
    var plain := Memo.Decrypt(p.cipher, e.ciphertextHex, own.privateKeyHex, e.senderMemoPublicKeyHex).value;
    GetIsLegal(JsonParse(p.fromUtf8(plain)).value, PROPOSAL);
  }

  lemma {:induction false} FindInClean(members: seq<Member>, key: Text)
    requires LegalMembers(members)
    ensures
      match Find(members, key)
      case None => Find(CleanMembers(members), key) == None
      case Some(v) => Legal(v) && Find(CleanMembers(members), key) == Some(Clean(v))
  {
    if members != [] {
      FindInClean(members[1..], key);
    }
  }

  /** Printing and parsing an object keeps every defined property. */
  lemma GetOfClean(v: Value, key: Text)
    requires Legal(v) && v.Obj?
    ensures Legal(Get(v, key))
    ensures Get(Clean(v), key) == if Get(v, key).Undefined? then Undefined else Clean(Get(v, key))
  {
    FindInClean(v.members, key);
    GetIsLegal(v, key);
  }

  lemma ProposalParts(terms: Value, signature: Text, publicKey: Text)
    requires Legal(terms) && !terms.Undefined?
    ensures
      var proposal := Proposal(terms, signature, publicKey);
      && Get(proposal, TERMS) == terms
      && Get(proposal, SELLER_SIGNATURE) == Str(signature)
      && Get(proposal, SELLER_PUBLIC_KEY) == Str(publicKey)
  {
    assert SELLER_SIGNATURE[6] != SELLER_PUBLIC_KEY[6];
    var members := Proposal(terms, signature, publicKey).members;
    LegalIsDistinct(members);
    FindIsUnique(members, members[0]);
    FindIsUnique(members, members[1]);
    FindIsUnique(members, members[2]);
  }

  lemma PayloadParts(contractAddress: Text, proposal: Value)
    requires Legal(proposal) && !proposal.Undefined?
    ensures Get(Payload(contractAddress, proposal), CONTRACT_ADDRESS) == Str(contractAddress)
    ensures Get(Payload(contractAddress, proposal), PROPOSAL) == proposal
  {
    assert |CONTRACT_ADDRESS| != |PROPOSAL|;
    var members := Payload(contractAddress, proposal).members;
    assert members[1..][0] == members[1];
  }

  /** What JSON keeps of a value is the same value. */
  lemma {:induction false} CleanIsSame(v: Value)
    requires Legal(v) && !v.Undefined?
    ensures Legal(Clean(v)) && Same(v, Clean(v))
    decreases v
  {
    CleanIsLegal(v);
    if v.Arr? {
      CleanEachItem(v.items);
    } else if v.Obj? {
      LegalIsDistinct(v.members);
      CleanMembersIsLegal(v.members);
      var cleaned := CleanMembers(v.members);
      forall i | 0 <= i < |v.members| && !v.members[i].value.Undefined?
        ensures Find(cleaned, v.members[i].key).Some?
        ensures Same(v.members[i].value, Find(cleaned, v.members[i].key).value)
      {
        var m := v.members[i];
        assert m in v.members;
        FindIsUnique(v.members, m);
        FindInClean(v.members, m.key);
        CleanIsSame(m.value);
      }
      forall n | n in cleaned && !n.value.Undefined?
        ensures Find(v.members, n.key).Some?
      {
        FindInClean(v.members, n.key);
      }
    }
  }

  lemma {:induction false} CleanEachItem(items: seq<Value>)
    requires LegalItems(items)
    ensures forall i :: 0 <= i < |items| ==> SameItem(items[i], CleanItems(items)[i])
    decreases items
  {
    if items != [] {
      CleanEachItem(items[1..]);
      if !items[0].Undefined? {
        CleanIsSame(items[0]);
      }
      forall i | 0 <= i < |items|
        ensures SameItem(items[i], CleanItems(items)[i])
      {
        if i > 0 {
          assert items[i] == items[1..][i - 1];
        }
      }
    }
  }

  /** The seller's own terms, addressed to the buyer, with a positive amount. */
  predicate Acceptable(terms: Value, did: Text)
    requires Legal(terms)
  {
    && terms.Obj?
    && Get(terms, SHIPMENT_ID).Str?
    && Get(terms, BUYER_DID) == Str(did)
    && Get(terms, AMOUNT).Str?
    && Decimal.Parse(Get(terms, AMOUNT).s).Some?
    && Decimal.Parse(Get(terms, AMOUNT).s).value > 0
  }

  /** A proposal signed by its seller is still accepted after JSON transport. */
  lemma TransportedProposalIsAccepted(p: Platform, terms: Value, privateKey: Text, publicKey: Text, did: Text)
    requires Legal(terms) && Acceptable(terms, did) && KeyPair(p.crypto, privateKey, publicKey)
    ensures Legal(Clean(ProposeEscrow(p, terms, privateKey, publicKey)))
    ensures Refuses(p, Clean(ProposeEscrow(p, terms, privateKey, publicKey)), did) == None
  {
    var proposal := ProposeEscrow(p, terms, privateKey, publicKey);
    var idHash := TermsIdHash(p, terms).value;
    var signature := SignDocument(p.crypto, terms, privateKey, idHash);
    var received := Clean(terms);
    ProposalParts(terms, signature, publicKey);
    CleanIsLegal(proposal);
    CleanIsSame(terms);
    GetOfClean(proposal, TERMS);
    GetOfClean(proposal, SELLER_SIGNATURE);
    GetOfClean(proposal, SELLER_PUBLIC_KEY);
    GetOfClean(terms, SHIPMENT_ID);
    GetOfClean(terms, BUYER_DID);
    GetOfClean(terms, AMOUNT);
    SignatureSurvivesTransport(p.crypto, terms, received, privateKey, publicKey, idHash);
    assert TermsIdHash(p, received) == Some(idHash);
  }

  /** An encrypted payload is parsed back to what JSON keeps of it. */
  lemma PayloadArrives(
    p: Platform, seller: MemoKeys, buyer: MemoKeys, contractAddress: Text, proposal: Value, nonce: Hex.Bytes)
    requires Memo.Lawful(p.cipher) && Utf8Lossless(p) && |nonce| == Memo.NONCE_LENGTH
    requires Hex.Decode(seller.publicKeyHex) == p.cipher.publicOf(Hex.Decode(seller.privateKeyHex))
    requires Hex.Decode(buyer.publicKeyHex) == p.cipher.publicOf(Hex.Decode(buyer.privateKeyHex))
    requires Legal(proposal)
    ensures
      var e := EncryptOfferForBuyer(p, seller, contractAddress, proposal, buyer.publicKeyHex, nonce);
      var plain := Memo.Decrypt(p.cipher, e.ciphertextHex, buyer.privateKeyHex, e.senderMemoPublicKeyHex);
      plain.Some? && JsonParse(p.fromUtf8(plain.value)) == Some(Clean(Payload(contractAddress, proposal)))
  {
    var v := Clean(Payload(contractAddress, proposal));
    PrintIsWellFormed(v);
    CleanIsLegal(Payload(contractAddress, proposal));
    JsonParsePrint(v);
    Memo.OpensForBothSides(p.cipher, p.crypto.utf8(Print(v)), seller.privateKeyHex, seller.publicKeyHex,
                           buyer.privateKeyHex, buyer.publicKeyHex, nonce);
  }

  /**
   Delivery succeeds for every acceptable offer of the seller, and the proposal the buyer stores is the
   one the seller signed, up to members that are undefined.
   */
  lemma DeliveryPreservesOffer(
    p: Platform, seller: MemoKeys, buyer: MemoKeys, did: Text, contractAddress: Text, terms: Value,
    privateKey: Text, publicKey: Text, nonce: Hex.Bytes)
    requires Memo.Lawful(p.cipher) && Utf8Lossless(p) && |nonce| == Memo.NONCE_LENGTH
    requires Hex.Decode(seller.publicKeyHex) == p.cipher.publicOf(Hex.Decode(seller.privateKeyHex))
    requires Hex.Decode(buyer.publicKeyHex) == p.cipher.publicOf(Hex.Decode(buyer.privateKeyHex))
    requires KeyPair(p.crypto, privateKey, publicKey)
    requires Legal(terms) && Acceptable(terms, did)
    requires contractAddress != [] && forall message :: p.crypto.sign(privateKey, message) != []
    ensures
      var proposal := ProposeEscrow(p, terms, privateKey, publicKey);
      var e := EncryptOfferForBuyer(p, seller, contractAddress, proposal, buyer.publicKeyHex, nonce);
      && Examine(p, true, did, buyer, e) == Ok((contractAddress, Clean(proposal)))
      && Legal(Clean(proposal)) && Same(proposal, Clean(proposal))
  {
    var proposal := ProposeEscrow(p, terms, privateKey, publicKey);
    PayloadArrives(p, seller, buyer, contractAddress, proposal, nonce);
    CleanIsSame(proposal);
    CheckAccepts(p, did, contractAddress, terms, privateKey, publicKey);
  }

  lemma CheckAccepts(p: Platform, did: Text, contractAddress: Text, terms: Value, privateKey: Text, publicKey: Text)
    requires KeyPair(p.crypto, privateKey, publicKey)
    requires Legal(terms) && Acceptable(terms, did)
    requires contractAddress != [] && forall message :: p.crypto.sign(privateKey, message) != []
    ensures
      var proposal := ProposeEscrow(p, terms, privateKey, publicKey);
      var payload := Clean(Payload(contractAddress, proposal));
      Legal(payload) && Check(p, did, payload) == Ok((contractAddress, Clean(proposal)))
  {
    var proposal := ProposeEscrow(p, terms, privateKey, publicKey);
    var payload := Payload(contractAddress, proposal);
    CleanIsLegal(payload);
    PayloadParts(contractAddress, proposal);
    GetOfClean(payload, CONTRACT_ADDRESS);
    GetOfClean(payload, PROPOSAL);
    TransportedProposalIsAccepted(p, terms, privateKey, publicKey, did);
    var signature := SignDocument(p.crypto, terms, privateKey, TermsIdHash(p, terms).value);
    ProposalParts(terms, signature, publicKey);
    GetOfClean(proposal, TERMS);
    GetOfClean(proposal, SELLER_SIGNATURE);
  }

  /** Whatever the network delivers, a stored offer passes `acceptEscrow` again when it is read back to be locked. */
  lemma StoredOfferIsAcceptedAtLock(p: Platform, isBuyer: bool, did: Text, own: MemoKeys, e: Envelope)
    requires Examine(p, isBuyer, did, own, e).Ok?
    ensures
      var proposal := Examine(p, isBuyer, did, own, e).value.1;
      && Legal(proposal) && !proposal.Undefined?
      && JsonParse(Stringify(proposal).value) == Some(proposal)
      && Refuses(p, proposal, did) == None
  {
    ExaminedIsLegal(p, isBuyer, did, own, e);
    ExaminedIsPlain(p, isBuyer, did, own, e);
    var proposal := Examine(p, isBuyer, did, own, e).value.1;
    CleanOfPlain(proposal);
    JsonParsePrint(proposal);
  }

  lemma ExaminedIsPlain(p: Platform, isBuyer: bool, did: Text, own: MemoKeys, e: Envelope)
    requires Examine(p, isBuyer, did, own, e).Ok?
    ensures Plain(Examine(p, isBuyer, did, own, e).value.1)
  {
    var plain := Memo.Decrypt(p.cipher, e.ciphertextHex, own.privateKeyHex, e.senderMemoPublicKeyHex).value;
    var parsed := JsonParse(p.fromUtf8(plain)).value;
    FindInPlain(parsed.members, PROPOSAL);
  }

  lemma {:induction false} FindInPlain(members: seq<Member>, key: Text)
    requires PlainMembers(members)
    ensures Find(members, key).Some? ==> Plain(Find(members, key).value)
  {
    if members != [] {
      FindInPlain(members[1..], key);
    }
  }
}
