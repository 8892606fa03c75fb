/**
 What the two agents do in the course of a deal: propose, lock, claim, release after the deadline, and the
 seller's own check of the deposit. Each side rebuilds the deposited coin by itself, from its own saved state
 or from the signed terms, with a detour through hexadecimal either way.
 */
module DealActions {
  import opened Wrappers
  import opened Utf16
  import opened Json
  import opened Canonical
  import opened DocumentCrypto
  import opened EscrowContract
  import opened DealState
  import opened Offer
  import Decimal
  import Hex
  import Memo

  // ---- coins ----

  datatype EncodedCoin = EncodedCoin(nonce: Option<Text>, color: Text)

  /** The wallet library's token type, and how it encodes a coin of a type, nonce and value. */
  datatype CoinEncoder = CoinEncoder(tokenType: Text, encode: (Text, Text, int) -> EncodedCoin)

  function BuildCoin(e: CoinEncoder, nonceHex: Text, amount: int): CoinCore {
    var encoded := e.encode(e.tokenType, nonceHex, amount);
    CoinCore(
      Hex.Decode(if encoded.nonce.Some? then encoded.nonce.value else nonceHex), Hex.Decode(encoded.color), amount)
  }

  /** The library may print the nonce anew, but keeps its bytes. */
  ghost predicate KeepsNonce(e: CoinEncoder) {
    forall nonce, value :: BuildCoin(e, nonce, value).nonce == Hex.Decode(nonce)
  }

  // ---- terms ----

  const SELLER_DID: Text := Ascii("sellerDid")
  const PORT_AUTHORITY_DID: Text := Ascii("portAuthorityDid")
  const PORT_AUTHORITY_KEY_HASH: Text := Ascii("portAuthorityKeyHashHex")
  const INCOTERM: Text := Ascii("incoterm")
  const AMOUNT_SALT: Text := Ascii("amountSalt")
  const DEPOSIT_NONCE: Text := Ascii("depositNonceHex")
  const DEPOSIT_SALT: Text := Ascii("depositSaltHex")
  const DURATION_SECONDS: Text := Ascii("durationSeconds")
  const TIMEOUT_DIRECTION: Text := Ascii("timeoutDirection")
  const SELLER_MEMO_KEY: Text := Ascii("sellerMemoPublicKey")
  const BUYER_MEMO_KEY: Text := Ascii("buyerMemoPublicKey")
  const SHIPMENT_PREFIX: Text := Ascii("shp:")

  datatype Agent = Agent(did: Text, coinPublicKeyHex: Text, memoKeys: MemoKeys)

  datatype Params = Params(
    shipmentId: Text, buyerDid: Text, portAuthorityDid: Text, portAuthorityKeyHashHex: Text,
    buyerMemoPublicKeyHex: Text, incoterm: Text, agreedAmount: Text, durationSeconds: nat, durationText: Text,
    timeoutDirection: Direction)

  datatype Randoms = Randoms(
    addressSalt: Hex.Bytes, amountSalt: Hex.Bytes, depositNonce: Hex.Bytes, depositSalt: Hex.Bytes)

  function DirectionText(d: Direction): Text {
    match d case ToBuyer => Ascii("buyer") case ToSeller => Ascii("seller")
  }

  /** The members of the terms, in the order they are written. */
  function TermsMembers(agent: Agent, params: Params, r: Randoms): seq<Member> {
    [ Member(SHIPMENT_ID, Str(SHIPMENT_PREFIX + params.shipmentId)),
      Member(SELLER_DID, Str(agent.did)),
      Member(BUYER_DID, Str(params.buyerDid)),
      Member(PORT_AUTHORITY_DID, Str(params.portAuthorityDid)),
      Member(PORT_AUTHORITY_KEY_HASH, Str(params.portAuthorityKeyHashHex)),
      Member(INCOTERM, Str(params.incoterm)),
      Member(AMOUNT, Str(params.agreedAmount)),
      Member(AMOUNT_SALT, Str(Hex.Encode(r.amountSalt))),
      Member(DEPOSIT_NONCE, Str(Hex.Encode(r.depositNonce))),
      Member(DEPOSIT_SALT, Str(Hex.Encode(r.depositSalt))),
      Member(DURATION_SECONDS, Num(params.durationText)),
      Member(TIMEOUT_DIRECTION, Str(DirectionText(params.timeoutDirection))),
      Member(SELLER_MEMO_KEY, Str(agent.memoKeys.publicKeyHex)),
      Member(BUYER_MEMO_KEY, Str(params.buyerMemoPublicKeyHex)) ]
  }

  function TermsValue(agent: Agent, params: Params, r: Randoms): Value {
    Obj(TermsMembers(agent, params, r))
  }

  /** Tells the fourteen keys apart, by length and first letters. */
  ghost function KeyIndex(key: Text): nat {
    if |key| < 2 then 14
    else if |key| == 10 then (if key[0] == 0x73 then 0 else 7)
    else if |key| == 9 then 1
    else if |key| == 8 then (if key[0] == 0x62 then 2 else 5)
    else if |key| == 16 then (if key[0] == 0x70 then 3 else 11)
    else if |key| == 23 then 4
    else if |key| == 6 then 6
    else if |key| == 15 then (if key[1] == 0x65 then 8 else 10)
    else if |key| == 14 then 9
    else if |key| == 19 then 12
    else 13
  }

  lemma KeysInOrder(agent: Agent, params: Params, r: Randoms)
    ensures |TermsMembers(agent, params, r)| == 14
    ensures forall i :: 0 <= i < 14 ==> KeyIndex(TermsMembers(agent, params, r)[i].key) == i
  {
    assert KeyIndex(SHIPMENT_ID) == 0 && KeyIndex(SELLER_DID) == 1 && KeyIndex(BUYER_DID) == 2;
    assert KeyIndex(PORT_AUTHORITY_DID) == 3 && KeyIndex(PORT_AUTHORITY_KEY_HASH) == 4 && KeyIndex(INCOTERM) == 5;
    assert KeyIndex(AMOUNT) == 6 && KeyIndex(AMOUNT_SALT) == 7 && KeyIndex(DEPOSIT_NONCE) == 8;
    assert KeyIndex(DEPOSIT_SALT) == 9 && KeyIndex(DURATION_SECONDS) == 10 && KeyIndex(TIMEOUT_DIRECTION) == 11;
    assert KeyIndex(SELLER_MEMO_KEY) == 12 && KeyIndex(BUYER_MEMO_KEY) == 13;
  }

  lemma {:induction false} FlatIsPlain(members: seq<Member>)
    requires forall i :: 0 <= i < |members| ==>
      members[i].value.Str? || (members[i].value.Num? && IsNumber(members[i].value.repr))
    ensures PlainMembers(members)
  {
    if members != [] {
      FlatIsPlain(members[1..]);
    }
  }

  /** Terms are a legal JSON object that loses nothing in transport. */
  lemma TermsArePlain(agent: Agent, params: Params, r: Randoms)
    requires IsNumber(params.durationText)
    ensures Legal(TermsValue(agent, params, r)) && Plain(TermsValue(agent, params, r))
  {
    var members := TermsMembers(agent, params, r);
    KeysInOrder(agent, params, r);
    FlatIsPlain(members);
    FewMembers(members);
  }

  /** Reading a property of a flat object finds the member that was written. */
  lemma MemberIsRead(members: seq<Member>, m: Member)
    requires LegalMembers(members) && m in members && !m.value.Undefined?
    ensures Get(Obj(members), m.key) == m.value
  {
    LegalIsDistinct(members);
    FindIsUnique(members, m);
  }

  // ---- proposing ----

  const ZERO_8: Hex.Bytes := [0, 0, 0, 0, 0, 0, 0, 0]
  const ZERO_32: Hex.Bytes := ZERO_8 + ZERO_8 + ZERO_8 + ZERO_8

  function ZswapRecipient(publicKey: Hex.Bytes): Memo.EitherAddress {
    Memo.EitherAddress(true, publicKey, ZERO_32)
  }

  datatype Offered = Offered(terms: Value, state: DealState, call: Call)

  /** `proposeDeal`; None where `BigInt` throws on the amount. */
  function ProposeDeal(agent: Agent, params: Params, r: Randoms): Option<Offered> {
    match Decimal.Parse(params.agreedAmount)
    case None => None
    case Some(amount) =>
      var seller := ZswapRecipient(Hex.Decode(agent.coinPublicKeyHex));
      var state := EMPTY.(
        sellerAddress := Some(seller), sellerAddressSalt := Some(r.addressSalt),
        ownMemoPrivateKey := Some(Hex.Decode(agent.memoKeys.privateKeyHex)),
        counterpartyMemoPublicKey := Some(Hex.Decode(params.buyerMemoPublicKeyHex)),
        agreedAmount := Some(amount), agreedAmountSalt := Some(r.amountSalt),
        depositNonce := Some(r.depositNonce), depositSalt := Some(r.depositSalt));
      var terms := Terms(Hex.Decode(params.portAuthorityKeyHashHex), params.durationSeconds, params.timeoutDirection);
      Some(Offered(
        TermsValue(agent, params, r), state,
        Propose(terms, seller, r.addressSalt, amount, r.amountSalt, r.depositNonce, r.depositSalt)))
  }

  // ---- locking ----

  datatype Reading = Reading(
    keyHashHex: Text, amount: int, amountSaltHex: Text, nonceHex: Text, saltHex: Text, sellerMemoKeyHex: Text)

  function TextAt(terms: Value, key: Text): Option<Text> {
    match Get(terms, key) case Str(s) => Some(s) case _ => None
  }

  /** What `lockDeal` reads of the terms; None where a property it decodes is not a string. */
  function ReadTerms(p: Platform, terms: Value): Option<Reading> {
    match (TextAt(terms, PORT_AUTHORITY_KEY_HASH), BigIntOf(p, Get(terms, AMOUNT)), TextAt(terms, AMOUNT_SALT),
           TextAt(terms, DEPOSIT_NONCE), TextAt(terms, DEPOSIT_SALT), TextAt(terms, SELLER_MEMO_KEY))
    case (Some(keyHash), Some(amount), Some(amountSalt), Some(nonce), Some(salt), Some(memoKey)) =>
      Some(Reading(keyHash, amount, amountSalt, nonce, salt, memoKey))
    case _ => None
  }

  /**
   `lockDeal` up to the chain call: the state it saves. None where it refuses the proposal or its
   port authority, whose trusted key hash is given.
   */
  function LockDeal(
    p: Platform, e: CoinEncoder, agent: Agent, proposal: Value, trustedHex: Text, addressSalt: Hex.Bytes)
    : Option<DealState>
    requires Legal(proposal)
  {
    if Refuses(p, proposal, agent.did).Some? then None
    else
      match ReadTerms(p, Get(proposal, TERMS))
      case None => None
      case Some(t) =>
        if trustedHex != Hex.LowerCase(t.keyHashHex) then None
        else
          Some(EMPTY.(
            depositedCoin := Some(BuildCoin(e, t.nonceHex, t.amount)),
            depositSalt := Some(Hex.Decode(t.saltHex)),
            buyerAddress := Some(ZswapRecipient(Hex.Decode(agent.coinPublicKeyHex))),
            buyerAddressSalt := Some(addressSalt),
            ownMemoPrivateKey := Some(Hex.Decode(agent.memoKeys.privateKeyHex)),
            counterpartyMemoPublicKey := Some(Hex.Decode(t.sellerMemoKeyHex)),
            agreedAmount := Some(t.amount),
            agreedAmountSalt := Some(Hex.Decode(t.amountSaltHex)),
            resolvedPortAuthorityKeyHash := Some(Hex.Decode(trustedHex))))
  }

  /**
   The buyer's agent locks exactly what the seller signed for it, with terms it can read and the port authority's key
   hash it trusts.
   */
  lemma LocksIffSigned(
    p: Platform, e: CoinEncoder, agent: Agent, proposal: Value, trustedHex: Text, addressSalt: Hex.Bytes)
    requires Legal(proposal)
    ensures
      var read := ReadTerms(p, Get(proposal, TERMS));
      LockDeal(p, e, agent, proposal, trustedHex, addressSalt).Some? <==>
        SignedFor(p, proposal, agent.did) && read.Some? && Hex.LowerCase(read.value.keyHashHex) == trustedHex
  {
    RefusalIs(p, proposal, agent.did);
  }

  /** The lock call, from the witnesses in a state; None where one is missing. */
  function LockCall(s: DealState, claimedLockTime: nat, newIndex: nat): Option<Call> {
    match (s.resolvedPortAuthorityKeyHash, s.depositedCoin, s.depositSalt, s.agreedAmount, s.agreedAmountSalt,
           s.buyerAddress, s.buyerAddressSalt)
    case (Some(resolved), Some(coin), Some(salt), Some(amount), Some(amountSalt), Some(buyer), Some(buyerSalt)) =>
      Some(LockEscrow(claimedLockTime, resolved, coin, salt, amount, amountSalt, buyer, buyerSalt, newIndex))
    case _ => None
  }

  // ---- payouts ----

  /** The coin as the seller rebuilds it: in claiming, in releasing, and in checking the deposit. */
  function SellerCoin(e: CoinEncoder, s: DealState): Option<CoinCore> {
    match (s.depositNonce, s.agreedAmount)
    case (Some(nonce), Some(amount)) => Some(BuildCoin(e, Hex.Encode(nonce), amount))
    case _ => None
  }

  /** `claimDeal` and `releaseTimeoutAsSeller` up to the chain call; None where the saved state falls short. */
  function SellerPrepares(e: CoinEncoder, s: DealState, mtIndex: nat): Option<DealState> {
    match (s.sellerAddress, s.sellerAddressSalt, s.depositSalt, SellerCoin(e, s))
    case (Some(_), Some(_), Some(_), Some(coin)) => Some(s.(qualifiedCoin := Some(QualifiedCoin(coin, mtIndex))))
    case _ => None
  }

  /** `releaseTimeoutAsBuyer` up to the chain call. */
  function BuyerPrepares(s: DealState, mtIndex: nat): Option<DealState> {
    match (s.depositedCoin, s.depositSalt, s.buyerAddress, s.buyerAddressSalt)
    case (Some(coin), Some(_), Some(_), Some(_)) => Some(s.(qualifiedCoin := Some(QualifiedCoin(coin, mtIndex))))
    case _ => None
  }

  /** The witnesses of `payOutToSeller`, and of `payOutToBuyer`. */
  function SellerPayout(s: DealState): Option<Payout> {
    match (s.qualifiedCoin, s.depositSalt, s.sellerAddress, s.sellerAddressSalt)
    case (Some(q), Some(salt), Some(address), Some(addressSalt)) =>
      Some(Payout(q.coin, q.mtIndex, salt, address, addressSalt))
    case _ => None
  }

  function BuyerPayout(s: DealState): Option<Payout> {
    match (s.qualifiedCoin, s.depositSalt, s.buyerAddress, s.buyerAddressSalt)
    case (Some(q), Some(salt), Some(address), Some(addressSalt)) =>
      Some(Payout(q.coin, q.mtIndex, salt, address, addressSalt))
    case _ => None
  }

  /** `computeDepositVerification`; None where it throws. */
  function DepositVerification(e: CoinEncoder, scheme: Scheme, s: DealState, held: Hex.Bytes): Option<bool> {
    match (SellerCoin(e, s), s.depositSalt)
    case (Some(coin), Some(salt)) => Some(scheme.commitCoin(coin, salt) == held)
    case _ => None
  }

  // ---- the two sides agree ----

  lemma AgreementIsRead(agent: Agent, params: Params, r: Randoms)
    requires LegalMembers(TermsMembers(agent, params, r))
    ensures
      var terms := TermsValue(agent, params, r);
      && Get(terms, PORT_AUTHORITY_KEY_HASH) == Str(params.portAuthorityKeyHashHex)
      && Get(terms, AMOUNT) == Str(params.agreedAmount)
      && Get(terms, AMOUNT_SALT) == Str(Hex.Encode(r.amountSalt))
  {
    var members := TermsMembers(agent, params, r);
    assert members[4].key == PORT_AUTHORITY_KEY_HASH && members[6].key == AMOUNT && members[7].key == AMOUNT_SALT;
    MemberIsRead(members, members[4]);
    MemberIsRead(members, members[6]);
    MemberIsRead(members, members[7]);
  }

  lemma DepositIsRead(agent: Agent, params: Params, r: Randoms)
    requires LegalMembers(TermsMembers(agent, params, r))
    ensures
      var terms := TermsValue(agent, params, r);
      && Get(terms, DEPOSIT_NONCE) == Str(Hex.Encode(r.depositNonce))
      && Get(terms, DEPOSIT_SALT) == Str(Hex.Encode(r.depositSalt))
      && Get(terms, SELLER_MEMO_KEY) == Str(agent.memoKeys.publicKeyHex)
  {
    var members := TermsMembers(agent, params, r);
    MemberIsRead(members, members[8]);
    MemberIsRead(members, members[9]);
    MemberIsRead(members, members[12]);
  }

  lemma ReadingOf(p: Platform, terms: Value, t: Reading, amountText: Text)
    requires Get(terms, PORT_AUTHORITY_KEY_HASH) == Str(t.keyHashHex)
    requires Get(terms, AMOUNT) == Str(amountText) && Decimal.Parse(amountText) == Some(t.amount)
    requires Get(terms, AMOUNT_SALT) == Str(t.amountSaltHex) && Get(terms, DEPOSIT_NONCE) == Str(t.nonceHex)
    requires Get(terms, DEPOSIT_SALT) == Str(t.saltHex) && Get(terms, SELLER_MEMO_KEY) == Str(t.sellerMemoKeyHex)
    ensures ReadTerms(p, terms) == Some(t)
  {
  }

  /** The buyer's reading of the seller's terms gives back what the seller put in. */
  lemma TermsAreRead(p: Platform, agent: Agent, params: Params, r: Randoms)
    requires IsNumber(params.durationText) && Decimal.Parse(params.agreedAmount).Some?
    ensures ReadTerms(p, TermsValue(agent, params, r)) == Some(Reading(
              params.portAuthorityKeyHashHex, Decimal.Parse(params.agreedAmount).value, Hex.Encode(r.amountSalt),
              Hex.Encode(r.depositNonce), Hex.Encode(r.depositSalt), agent.memoKeys.publicKeyHex))
  {
    TermsArePlain(agent, params, r);
    AgreementIsRead(agent, params, r);
    DepositIsRead(agent, params, r);
    ReadingOf(
      p, TermsValue(agent, params, r),
      Reading(params.portAuthorityKeyHashHex, Decimal.Parse(params.agreedAmount).value, Hex.Encode(r.amountSalt),
              Hex.Encode(r.depositNonce), Hex.Encode(r.depositSalt), agent.memoKeys.publicKeyHex),
      params.agreedAmount);
  }

  /** The state the buyer saves for the seller's own terms. */
  function Mirror(e: CoinEncoder, offered: Offered, buyer: Agent, addressSalt: Hex.Bytes, memoKey: Hex.Bytes): DealState
    requires offered.call.Propose? && SellerCoin(e, offered.state).Some?
  {
    EMPTY.(
      depositedCoin := SellerCoin(e, offered.state), depositSalt := offered.state.depositSalt,
      buyerAddress := Some(ZswapRecipient(Hex.Decode(buyer.coinPublicKeyHex))), buyerAddressSalt := Some(addressSalt),
      ownMemoPrivateKey := Some(Hex.Decode(buyer.memoKeys.privateKeyHex)), counterpartyMemoPublicKey := Some(memoKey),
      agreedAmount := offered.state.agreedAmount, agreedAmountSalt := offered.state.agreedAmountSalt,
      resolvedPortAuthorityKeyHash := Some(offered.call.terms.portAuthorityKeyHash))
  }

  /**
   Whatever the buyer locks for terms the seller signed, it is the coin the seller will rebuild from its own
   saved state, with the seller's salt, amount and port authority.
   */
  lemma SidesAgree(
    p: Platform, e: CoinEncoder, seller: Agent, params: Params, r: Randoms, buyer: Agent, proposal: Value,
    trustedHex: Text, addressSalt: Hex.Bytes)
    requires IsNumber(params.durationText) && ProposeDeal(seller, params, r).Some? && Legal(proposal)
    requires Get(proposal, TERMS) == ProposeDeal(seller, params, r).value.terms
    requires LockDeal(p, e, buyer, proposal, trustedHex, addressSalt).Some?
    ensures
      LockDeal(p, e, buyer, proposal, trustedHex, addressSalt).value ==
      Mirror(e, ProposeDeal(seller, params, r).value, buyer, addressSalt, Hex.Decode(seller.memoKeys.publicKeyHex))
  {
    TermsAreRead(p, seller, params, r);
    Hex.DecodeEncode(r.amountSalt);
    Hex.DecodeEncode(r.depositSalt);
    Hex.DecodeLowerCase(params.portAuthorityKeyHashHex);
  }

  // ---- from the seller's signature to the buyer's lock ----

  lemma PartiesAreRead(agent: Agent, params: Params, r: Randoms)
    requires LegalMembers(TermsMembers(agent, params, r))
    ensures
      var terms := TermsValue(agent, params, r);
      && Get(terms, SHIPMENT_ID) == Str(SHIPMENT_PREFIX + params.shipmentId)
      && Get(terms, BUYER_DID) == Str(params.buyerDid)
  {
    var members := TermsMembers(agent, params, r);
    MemberIsRead(members, members[0]);
    MemberIsRead(members, members[2]);
  }

  lemma DeadlineIsRead(agent: Agent, params: Params, r: Randoms)
    requires LegalMembers(TermsMembers(agent, params, r))
    ensures
      var terms := TermsValue(agent, params, r);
      && Get(terms, DURATION_SECONDS) == Num(params.durationText)
      && Get(terms, TIMEOUT_DIRECTION) == Str(DirectionText(params.timeoutDirection))
      && Get(terms, BUYER_MEMO_KEY) == Str(params.buyerMemoPublicKeyHex)
  {
    var members := TermsMembers(agent, params, r);
    assert members[10].key == DURATION_SECONDS && members[11].key == TIMEOUT_DIRECTION;
    MemberIsRead(members, members[10]);
    MemberIsRead(members, members[11]);
    MemberIsRead(members, members[13]);
  }

  lemma TermIsRead(agent: Agent, params: Params, r: Randoms, m: Member)
    requires LegalMembers(TermsMembers(agent, params, r)) && m in TermsMembers(agent, params, r) && !m.value.Undefined?
    ensures Get(TermsValue(agent, params, r), m.key) == m.value
  {
    MemberIsRead(TermsMembers(agent, params, r), m);
  }

  lemma NamesAreRead(agent: Agent, params: Params, r: Randoms)
    requires LegalMembers(TermsMembers(agent, params, r))
    ensures
      var terms := TermsValue(agent, params, r);
      && Get(terms, SELLER_DID) == Str(agent.did)
      && Get(terms, PORT_AUTHORITY_DID) == Str(params.portAuthorityDid)
      && Get(terms, INCOTERM) == Str(params.incoterm)
  {
    var members := TermsMembers(agent, params, r);
    assert members[1] == Member(SELLER_DID, Str(agent.did));
    assert members[3] == Member(PORT_AUTHORITY_DID, Str(params.portAuthorityDid));
    assert members[5] == Member(INCOTERM, Str(params.incoterm));
    TermIsRead(agent, params, r, Member(SELLER_DID, Str(agent.did)));
    TermIsRead(agent, params, r, Member(PORT_AUTHORITY_DID, Str(params.portAuthorityDid)));
    TermIsRead(agent, params, r, Member(INCOTERM, Str(params.incoterm)));
  }

  /** What a proposal asks of the contract is what its terms say: to anyone who reads them. */
  predicate SaysWhatItAsks(terms: Value, call: Call)
    requires call.Propose?
  {
    && (match Get(terms, PORT_AUTHORITY_KEY_HASH)
        case Str(hex) => call.terms.portAuthorityKeyHash == Hex.Decode(hex)
        case _ => false)
    && (match Get(terms, TIMEOUT_DIRECTION)
        case Str(side) =>
          && (side == Ascii("buyer") <==> call.terms.timeoutDirection == ToBuyer)
          && (side == Ascii("seller") <==> call.terms.timeoutDirection == ToSeller)
        case _ => false)
    && (match Get(terms, AMOUNT) case Str(amount) => Decimal.Parse(amount) == Some(call.amount) case _ => false)
    && (match Get(terms, AMOUNT_SALT) case Str(hex) => Hex.Decode(hex) == call.amountSalt case _ => false)
    && (match Get(terms, DEPOSIT_NONCE) case Str(hex) => Hex.Decode(hex) == call.depositNonce case _ => false)
    && (match Get(terms, DEPOSIT_SALT) case Str(hex) => Hex.Decode(hex) == call.depositSalt case _ => false)
  }

  /** The side is named by one of two different words. */
  lemma SidesAreTold(d: Direction)
    ensures DirectionText(d) == Ascii("buyer") <==> d == ToBuyer
    ensures DirectionText(d) == Ascii("seller") <==> d == ToSeller
  {
    assert |Ascii("buyer")| == 5 && |Ascii("seller")| == 6;
  }

  lemma SaltsAreRead(agent: Agent, params: Params, r: Randoms, call: Call)
    requires LegalMembers(TermsMembers(agent, params, r)) && call.Propose?
    requires Decimal.Parse(params.agreedAmount) == Some(call.amount)
    requires call.amountSalt == r.amountSalt && call.depositNonce == r.depositNonce && call.depositSalt == r.depositSalt
    requires call.terms.portAuthorityKeyHash == Hex.Decode(params.portAuthorityKeyHashHex)
    requires call.terms.timeoutDirection == params.timeoutDirection
    ensures SaysWhatItAsks(TermsValue(agent, params, r), call)
  {
    AgreementIsRead(agent, params, r);
    DepositIsRead(agent, params, r);
    DeadlineIsRead(agent, params, r);
    Hex.DecodeEncode(r.amountSalt);
    Hex.DecodeEncode(r.depositNonce);
    Hex.DecodeEncode(r.depositSalt);
    SidesAreTold(params.timeoutDirection);
  }

  /** The terms name the parties, the goods and the deadline of the order. */
  predicate NamesTheOrder(terms: Value, agent: Agent, params: Params) {
    && Get(terms, SHIPMENT_ID) == Str(Ascii("shp:") + params.shipmentId)
    && Get(terms, SELLER_DID) == Str(agent.did) && Get(terms, BUYER_DID) == Str(params.buyerDid)
    && Get(terms, PORT_AUTHORITY_DID) == Str(params.portAuthorityDid)
    && Get(terms, PORT_AUTHORITY_KEY_HASH) == Str(params.portAuthorityKeyHashHex)
    && Get(terms, INCOTERM) == Str(params.incoterm) && Get(terms, AMOUNT) == Str(params.agreedAmount)
    && Get(terms, DURATION_SECONDS) == Num(params.durationText)
    && Get(terms, SELLER_MEMO_KEY) == Str(agent.memoKeys.publicKeyHex)
    && Get(terms, BUYER_MEMO_KEY) == Str(params.buyerMemoPublicKeyHex)
  }

  lemma OrderIsNamed(agent: Agent, params: Params, r: Randoms)
    requires LegalMembers(TermsMembers(agent, params, r))
    ensures NamesTheOrder(TermsValue(agent, params, r), agent, params)
  {
    AgreementIsRead(agent, params, r);
    DepositIsRead(agent, params, r);
    DeadlineIsRead(agent, params, r);
    NamesAreRead(agent, params, r);
    PartiesAreRead(agent, params, r);
  }

  /** The call asks for the order's deadline and for payment to the seller, and the seller keeps both memo keys. */
  predicate PlacesTheOrder(call: Call, state: DealState, agent: Agent, params: Params) {
    && call.Propose?
    && call.terms.durationSeconds == params.durationSeconds
    && call.terms.timeoutDirection == params.timeoutDirection
    && call.seller.isLeft && call.seller.left == Hex.Decode(agent.coinPublicKeyHex)
    && state.ownMemoPrivateKey == Some(Hex.Decode(agent.memoKeys.privateKeyHex))
    && state.counterpartyMemoPublicKey == Some(Hex.Decode(params.buyerMemoPublicKeyHex))
  }

  /** The signed terms, the call to the contract and the order both are for agree in everything the terms speak of. */
  lemma OfferedIsWhatWasAsked(agent: Agent, params: Params, r: Randoms)
    requires IsNumber(params.durationText) && ProposeDeal(agent, params, r).Some?
    ensures
      var offered := ProposeDeal(agent, params, r).value;
      && PlacesTheOrder(offered.call, offered.state, agent, params)
      && NamesTheOrder(offered.terms, agent, params)
      && SaysWhatItAsks(offered.terms, offered.call)
  {
    TermsArePlain(agent, params, r);
    OrderIsNamed(agent, params, r);
    SaltsAreRead(agent, params, r, ProposeDeal(agent, params, r).value.call);
  }

  lemma OfferedIsAcceptable(seller: Agent, params: Params, r: Randoms)
    requires IsNumber(params.durationText) && Decimal.Parse(params.agreedAmount).Some?
    requires Decimal.Parse(params.agreedAmount).value > 0
    ensures Legal(TermsValue(seller, params, r)) && Acceptable(TermsValue(seller, params, r), params.buyerDid)
  {
    TermsArePlain(seller, params, r);
    PartiesAreRead(seller, params, r);
    AgreementIsRead(seller, params, r);
  }

  /**
   The offer the seller signs is, as JSON hands it over, an offer the buyer locks, if the key hash the buyer
   trusts for the port authority is the one in the terms; and the terms are read just as they were written.
   */
  lemma SignedOfferLocks(
    p: Platform, e: CoinEncoder, seller: Agent, params: Params, r: Randoms, buyer: Agent, privateKey: Text,
    publicKey: Text, addressSalt: Hex.Bytes)
    requires IsNumber(params.durationText) && Decimal.Parse(params.agreedAmount).Some?
    requires Decimal.Parse(params.agreedAmount).value > 0 && params.buyerDid == buyer.did
    requires KeyPair(p.crypto, privateKey, publicKey)
    ensures Legal(TermsValue(seller, params, r)) && TermsIdHash(p, TermsValue(seller, params, r)).Some?
    ensures
      var received := Clean(ProposeEscrow(p, TermsValue(seller, params, r), privateKey, publicKey));
      && Legal(received)
      && Get(received, TERMS) == TermsValue(seller, params, r)
      && LockDeal(p, e, buyer, received, Hex.LowerCase(params.portAuthorityKeyHashHex), addressSalt).Some?
  {
    var terms := TermsValue(seller, params, r);
    OfferedIsAcceptable(seller, params, r);
    TransportedProposalIsAccepted(p, terms, privateKey, publicKey, buyer.did);
    OfferedTermsArrive(p, seller, params, r, privateKey, publicKey);
    TermsAreRead(p, seller, params, r);
  }

  lemma OfferedTermsArrive(
    p: Platform, seller: Agent, params: Params, r: Randoms, privateKey: Text, publicKey: Text)
    requires IsNumber(params.durationText)
    requires Legal(TermsValue(seller, params, r)) && TermsIdHash(p, TermsValue(seller, params, r)).Some?
    ensures
      Get(Clean(ProposeEscrow(p, TermsValue(seller, params, r), privateKey, publicKey)), TERMS) ==
      TermsValue(seller, params, r)
  {
    var terms := TermsValue(seller, params, r);
    var signature := SignDocument(p.crypto, terms, privateKey, TermsIdHash(p, terms).value);
    TermsArePlain(seller, params, r);
    ProposalParts(terms, signature, publicKey);
    GetOfClean(Proposal(terms, signature, publicKey), TERMS);
    CleanOfPlain(terms);
  }
}
