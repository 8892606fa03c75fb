/**
 A deal from proposal to payout: the agents' saved states against the contract's ledger, with strangers free to
 make any calls in between.
 */
module Deals {
  import opened Wrappers
  import opened Utf16
  import opened EscrowContract
  import opened DealState
  import opened DealActions
  import Json
  import Offer
  import Hex
  import Memo
  import PrivateState

  /** The seller's side of a deal has all it needs for a payout. */
  predicate Complete(offered: Offered) {
    && offered.call.Propose?
    && offered.state.sellerAddress == Some(offered.call.seller)
    && offered.state.sellerAddressSalt == Some(offered.call.sellerSalt)
    && offered.state.depositNonce == Some(offered.call.depositNonce)
    && offered.state.depositSalt == Some(offered.call.depositSalt)
    && offered.state.agreedAmount == Some(offered.call.amount)
    && offered.state.agreedAmountSalt == Some(offered.call.amountSalt)
  }

  lemma ProposedIsComplete(agent: Agent, params: Params, r: Randoms)
    requires ProposeDeal(agent, params, r).Some?
    ensures Complete(ProposeDeal(agent, params, r).value)
  {
  }

  function DepositOf(e: CoinEncoder, offered: Offered): CoinCore
    requires Complete(offered)
  {
    SellerCoin(e, offered.state).value
  }

  /** The buyer's address and the salt it was committed to with. */
  datatype Refund = Refund(address: Memo.EitherAddress, salt: Hex.Bytes)

  /** What the ledger holds once the buyer has locked what the seller offered. */
  predicate Holds(scheme: Scheme, e: CoinEncoder, offered: Offered, refund: Refund, index: nat, l: Ledger)
    requires Complete(offered)
  {
    && (l.phase == Locked || l.phase == Released)
    && l.terms == offered.call.terms
    && l.commitments.sellerAddress == scheme.commitAddress(offered.call.seller, offered.call.sellerSalt)
    && l.heldCommitment == scheme.commitCoin(DepositOf(e, offered), offered.call.depositSalt)
    && l.buyerAddressCommitment == scheme.commitAddress(refund.address, refund.salt)
    && (l.phase == Locked ==> l.pool == map[index := DepositOf(e, offered)])
  }

  /** The lock call made from the buyer's saved state. */
  function LockOf(e: CoinEncoder, offered: Offered, refund: Refund, claimed: nat, index: nat): Call
    requires Complete(offered)
  {
    LockEscrow(
      claimed, offered.call.terms.portAuthorityKeyHash, DepositOf(e, offered), offered.call.depositSalt,
      offered.call.amount, offered.call.amountSalt, refund.address, refund.salt, index)
  }

  /** The buyer that accepted the seller's own terms makes that call. */
  lemma BuyerLocks(
    p: Offer.Platform, e: CoinEncoder, seller: Agent, params: Params, r: Randoms, buyer: Agent, proposal: Json.Value,
    trustedHex: Text, addressSalt: Hex.Bytes, claimed: nat, index: nat)
    requires Json.IsNumber(params.durationText) && ProposeDeal(seller, params, r).Some? && Json.Legal(proposal)
    requires Offer.Get(proposal, Offer.TERMS) == ProposeDeal(seller, params, r).value.terms
    requires LockDeal(p, e, buyer, proposal, trustedHex, addressSalt).Some?
    ensures
      var offered := ProposeDeal(seller, params, r).value;
      var refund := Refund(ZswapRecipient(Hex.Decode(buyer.coinPublicKeyHex)), addressSalt);
      Complete(offered) &&
      LockCall(LockDeal(p, e, buyer, proposal, trustedHex, addressSalt).value, claimed, index) ==
      Some(LockOf(e, offered, refund, claimed, index))
  {
    SidesAgree(p, e, seller, params, r, buyer, proposal, trustedHex, addressSalt);
  }

  /**
   While the offer stands, the buyer's lock is accepted, provided the values fit the circuits, the clock is
   within the tolerance and the wallet library keeps the nonce it is given.
   */
  lemma LockIsAccepted(
    scheme: Scheme, e: CoinEncoder, offered: Offered, refund: Refund, claimed: nat, index: nat, l: Ledger, time: nat)
    requires Complete(offered) && KeepsNonce(e) && Sized(offered.call)
    requires l.phase == Proposed && l.terms == offered.call.terms
    requires l.commitments == Proposes(scheme, l, offered.call).commitments
    requires |DepositOf(e, offered).color| == 32 && IsAddress(refund.address) && |refund.salt| == 32
    requires claimed <= time <= claimed + TOLERANCE_SECONDS < UINT64
    requires claimed + offered.call.terms.durationSeconds < UINT64 && index !in l.pool
    ensures Accepts(scheme, l, LockOf(e, offered, refund, claimed, index), time)
  {
    Hex.DecodeEncode(offered.call.depositNonce);
    assert DepositOf(e, offered) == BuildCoin(e, Hex.Encode(offered.call.depositNonce), offered.call.amount);
  }

  // ---- what a lock guarantees ----

  /** No two openings of the commitments made by the proposal. */
  ghost predicate BindingProposal(scheme: Scheme) {
    && (forall a, s, b, t :: scheme.commitAmount(a, s) == scheme.commitAmount(b, t) ==> a == b && s == t)
    && (forall a, s, b, t :: scheme.commitBytes(a, s) == scheme.commitBytes(b, t) ==> a == b && s == t)
  }

  /** The proposal on the ledger says what the buyer read in the signed terms, as far as the lock can tell. */
  predicate Matches(call: Call, t: Reading)
    requires call.Propose?
  {
    && call.terms.portAuthorityKeyHash == Hex.Decode(t.keyHashHex)
    && call.amount == t.amount && call.amountSalt == Hex.Decode(t.amountSaltHex)
    && call.depositNonce == Hex.Decode(t.nonceHex) && call.depositSalt == Hex.Decode(t.saltHex)
  }

  /** The clock is within the tolerance, and the deadline can be represented. */
  predicate Timely(call: Call, claimed: nat, time: nat)
    requires call.Propose?
  {
    claimed <= time <= claimed + TOLERANCE_SECONDS < UINT64 && claimed + call.terms.durationSeconds < UINT64
  }

  lemma LockCallIs(p: Offer.Platform, e: CoinEncoder, buyer: Agent, proposal: Json.Value, trustedHex: Text,
                   addressSalt: Hex.Bytes, t: Reading, claimed: nat, index: nat) returns (call: Call)
    requires Json.Legal(proposal) && LockDeal(p, e, buyer, proposal, trustedHex, addressSalt).Some?
    requires ReadTerms(p, Offer.Get(proposal, Offer.TERMS)) == Some(t)
    ensures LockCall(LockDeal(p, e, buyer, proposal, trustedHex, addressSalt).value, claimed, index) == Some(call)
    ensures
      call ==
      LockEscrow(claimed, Hex.Decode(t.keyHashHex), BuildCoin(e, t.nonceHex, t.amount), Hex.Decode(t.saltHex), t.amount,
                 Hex.Decode(t.amountSaltHex), ZswapRecipient(Hex.Decode(buyer.coinPublicKeyHex)), addressSalt, index)
  {
    Hex.DecodeLowerCase(t.keyHashHex);
    call := LockCall(LockDeal(p, e, buyer, proposal, trustedHex, addressSalt).value, claimed, index).value;
  }

  /**
   Which of the signed terms a landed lock guarantees, whoever made the proposal on the ledger: the port authority's
   key hash, amount, amount salt, nonce and deposit salt, and no other. The duration comes in only where the deadline
   would overflow, and the side the timeout favours not at all, so the ledger may differ from the signed terms in both.
   */
  lemma LockGuarantees(
    p: Offer.Platform, scheme: Scheme, e: CoinEncoder, buyer: Agent, proposal: Json.Value, trustedHex: Text,
    addressSalt: Hex.Bytes, t: Reading, proposed: Call, proposedAt: nat, claimed: nat, index: nat, time: nat)
    returns (call: Call)
    requires Json.Legal(proposal) && LockDeal(p, e, buyer, proposal, trustedHex, addressSalt).Some?
    requires ReadTerms(p, Offer.Get(proposal, Offer.TERMS)) == Some(t)
    requires BindingProposal(scheme) && KeepsNonce(e)
    requires proposed.Propose? && Accepts(scheme, INITIAL, proposed, proposedAt)
    ensures LockCall(LockDeal(p, e, buyer, proposal, trustedHex, addressSalt).value, claimed, index) == Some(call)
    ensures
      Accepts(scheme, After(scheme, INITIAL, proposed, proposedAt), call, time) <==>
      Sized(call) && Timely(proposed, claimed, time) && Matches(proposed, t)
  {
    call := LockCallIs(p, e, buyer, proposal, trustedHex, addressSalt, t, claimed, index);
    LockMatches(scheme, e, t, proposed, proposedAt, call, time);
  }

  lemma LockMatches(scheme: Scheme, e: CoinEncoder, t: Reading, proposed: Call, proposedAt: nat, call: Call, time: nat)
    requires BindingProposal(scheme) && KeepsNonce(e)
    requires proposed.Propose? && Accepts(scheme, INITIAL, proposed, proposedAt)
    requires call.LockEscrow? && call.resolvedKeyHash == Hex.Decode(t.keyHashHex)
    requires call.coin == BuildCoin(e, t.nonceHex, t.amount) && call.coinSalt == Hex.Decode(t.saltHex)
    requires call.lockedAmount == t.amount && call.lockedAmountSalt == Hex.Decode(t.amountSaltHex)
    ensures
      Accepts(scheme, After(scheme, INITIAL, proposed, proposedAt), call, time) <==>
      Sized(call) && Timely(proposed, call.claimedLockTime, time) && Matches(proposed, t)
  {
    assert call.coin.nonce == Hex.Decode(t.nonceHex) && call.coin.value == t.amount;
  }

  /** Whatever else is called before and after the lock, the ledger holds the deal from then on. */
  lemma LockedAsOffered(
    scheme: Scheme, e: CoinEncoder, offered: Offered, refund: Refund, claimed: nat, index: nat, proposedAt: nat,
    before: seq<Timed>, lockedAt: nat, later: seq<Timed>)
    requires Complete(offered) && Binding(scheme) && Accepts(scheme, INITIAL, offered.call, proposedAt)
    requires
      var l := AfterAll(scheme, After(scheme, INITIAL, offered.call, proposedAt), before);
      Accepts(scheme, l, LockOf(e, offered, refund, claimed, index), lockedAt)
    ensures
      var l := AfterAll(scheme, After(scheme, INITIAL, offered.call, proposedAt), before);
      var locked := After(scheme, l, LockOf(e, offered, refund, claimed, index), lockedAt);
      Holds(scheme, e, offered, refund, index, AfterAll(scheme, locked, later))
  {
    var first := After(scheme, INITIAL, offered.call, proposedAt);
    var l := AfterAll(scheme, first, before);
    var locked := After(scheme, l, LockOf(e, offered, refund, claimed, index), lockedAt);
    CallKeepsInv(scheme, INITIAL, offered.call, proposedAt);
    RunKeepsInv(scheme, first, before);
    RunFixes(scheme, first, before);
    assert l.pool == map[];
    RunFixes(scheme, locked, later);
  }

  // ---- payouts open what is held ----

  /** The payout each side prepares from the state it saved and loaded again. */
  function SellersPayout(e: CoinEncoder, saved: Text, c: PrivateState.Coercions, index: nat): Option<Payout> {
    match LoadDeal(saved, c)
    case None => None
    case Some(s) => match SellerPrepares(e, s, index) case None => None case Some(t) => SellerPayout(t)
  }

  function BuyersPayout(saved: Text, c: PrivateState.Coercions, index: nat): Option<Payout> {
    match LoadDeal(saved, c)
    case None => None
    case Some(s) => match BuyerPrepares(s, index) case None => None case Some(t) => BuyerPayout(t)
  }

  /** The seller's independent check of the deposit succeeds, from its saved state alone. */
  lemma DepositIsVerified(
    scheme: Scheme, e: CoinEncoder, offered: Offered, refund: Refund, index: nat, l: Ledger, c: PrivateState.Coercions)
    requires Complete(offered) && Holds(scheme, e, offered, refund, index, l)
    ensures
      var loaded := LoadDeal(SaveDeal(offered.state), c);
      loaded.Some? && DepositVerification(e, scheme, loaded.value, l.heldCommitment) == Some(true)
  {
    StateSurvives(offered.state, c);
  }

  lemma PreparedPayout(e: CoinEncoder, offered: Offered, index: nat)
    requires Complete(offered)
    ensures SellerPrepares(e, offered.state, index).Some?
    ensures
      SellerPayout(SellerPrepares(e, offered.state, index).value) ==
      Some(Payout(DepositOf(e, offered), index, offered.call.depositSalt, offered.call.seller, offered.call.sellerSalt))
  {
  }

  lemma SellersPayoutIs(e: CoinEncoder, offered: Offered, index: nat, c: PrivateState.Coercions)
    requires Complete(offered)
    ensures
      SellersPayout(e, SaveDeal(offered.state), c, index) ==
      Some(Payout(DepositOf(e, offered), index, offered.call.depositSalt, offered.call.seller, offered.call.sellerSalt))
  {
    StateSurvives(offered.state, c);
    PreparedPayout(e, offered, index);
  }

  lemma BuyersPayoutIs(
    e: CoinEncoder, offered: Offered, saved: Refund, s: DealState, index: nat, c: PrivateState.Coercions)
    requires Complete(offered) && Saves(e, offered, saved, s)
    ensures
      BuyersPayout(SaveDeal(s), c, index) ==
      Some(Payout(DepositOf(e, offered), index, offered.call.depositSalt, saved.address, saved.salt))
  {
    StateSurvives(s, c);
  }

  /** The seller's payout opens the deposit and the seller's own address. */
  lemma SellersPayoutOpens(
    scheme: Scheme, e: CoinEncoder, offered: Offered, refund: Refund, index: nat, l: Ledger, c: PrivateState.Coercions)
    requires Complete(offered) && Holds(scheme, e, offered, refund, index, l) && l.phase == Locked
    requires Sized(offered.call) && IsCoin(DepositOf(e, offered))
    ensures
      var payout := SellersPayout(e, SaveDeal(offered.state), c, index);
      && payout.Some? && IsPayout(payout.value)
      && payout.value.coin == DepositOf(e, offered) && payout.value.address == offered.call.seller
      && OpensHeld(scheme, l, payout.value, l.commitments.sellerAddress)
  {
    SellersPayoutIs(e, offered, index, c);
  }

  /** Once attested, the seller's claim is accepted and pays the deposit to the seller's own address. */
  lemma ClaimIsAccepted(
    scheme: Scheme, e: CoinEncoder, offered: Offered, refund: Refund, index: nat, l: Ledger, c: PrivateState.Coercions,
    time: nat)
    requires Complete(offered) && Holds(scheme, e, offered, refund, index, l)
    requires l.phase == Locked && l.milestoneConfirmed
    requires Sized(offered.call) && IsCoin(DepositOf(e, offered))
    ensures
      var payout := SellersPayout(e, SaveDeal(offered.state), c, index);
      && payout.Some? && Accepts(scheme, l, ClaimPayout(payout.value), time)
      && After(scheme, l, ClaimPayout(payout.value), time).payments ==
         l.payments + [Payment(DepositOf(e, offered), offered.call.seller, time)]
  {
    SellersPayoutOpens(scheme, e, offered, refund, index, l, c);
  }

  /** Past the deadline and unattested, the seller's release is accepted where the terms favour the seller. */
  lemma SellersReleaseIsAccepted(
    scheme: Scheme, e: CoinEncoder, offered: Offered, refund: Refund, index: nat, l: Ledger, c: PrivateState.Coercions,
    time: nat)
    requires Complete(offered) && Holds(scheme, e, offered, refund, index, l)
    requires l.phase == Locked && !l.milestoneConfirmed && time >= l.deadlineTimestamp
    requires l.terms.timeoutDirection == ToSeller
    requires Sized(offered.call) && IsCoin(DepositOf(e, offered))
    ensures
      var payout := SellersPayout(e, SaveDeal(offered.state), c, index);
      && payout.Some? && Accepts(scheme, l, ReleaseOnTimeout(payout.value), time)
      && After(scheme, l, ReleaseOnTimeout(payout.value), time).payments ==
         l.payments + [Payment(DepositOf(e, offered), offered.call.seller, time)]
  {
    SellersPayoutOpens(scheme, e, offered, refund, index, l, c);
  }

  /** The buyer's saved state as far as a refund needs it. */
  predicate Saves(e: CoinEncoder, offered: Offered, refund: Refund, s: DealState)
    requires Complete(offered)
  {
    && s.depositedCoin == Some(DepositOf(e, offered)) && s.depositSalt == Some(offered.call.depositSalt)
    && s.buyerAddress == Some(refund.address) && s.buyerAddressSalt == Some(refund.salt)
  }

  lemma BuyerSaves(
    p: Offer.Platform, e: CoinEncoder, seller: Agent, params: Params, r: Randoms, buyer: Agent, proposal: Json.Value,
    trustedHex: Text, addressSalt: Hex.Bytes)
    requires Json.IsNumber(params.durationText) && ProposeDeal(seller, params, r).Some? && Json.Legal(proposal)
    requires Offer.Get(proposal, Offer.TERMS) == ProposeDeal(seller, params, r).value.terms
    requires LockDeal(p, e, buyer, proposal, trustedHex, addressSalt).Some?
    ensures
      var offered := ProposeDeal(seller, params, r).value;
      Complete(offered) &&
      Saves(e, offered, Refund(ZswapRecipient(Hex.Decode(buyer.coinPublicKeyHex)), addressSalt),
            LockDeal(p, e, buyer, proposal, trustedHex, addressSalt).value)
  {
    SidesAgree(p, e, seller, params, r, buyer, proposal, trustedHex, addressSalt);
  }

  /** The refund that is accepted pays the whole deposit to the buyer's own address. */
  lemma RefundPaysBuyer(
    scheme: Scheme, e: CoinEncoder, offered: Offered, refund: Refund, index: nat, l: Ledger, s: DealState,
    c: PrivateState.Coercions, time: nat)
    requires Complete(offered) && Holds(scheme, e, offered, refund, index, l)
    requires l.phase == Locked && !l.milestoneConfirmed && time >= l.deadlineTimestamp
    requires l.terms.timeoutDirection == ToBuyer
    requires Sized(offered.call) && IsCoin(DepositOf(e, offered)) && IsAddress(refund.address) && |refund.salt| == 32
    requires Saves(e, offered, refund, s)
    ensures
      var payout := BuyersPayout(SaveDeal(s), c, index);
      && payout.Some? && Accepts(scheme, l, ReleaseOnTimeout(payout.value), time)
      && After(scheme, l, ReleaseOnTimeout(payout.value), time).payments ==
         l.payments + [Payment(DepositOf(e, offered), refund.address, time)]
  {
    BuyersPayoutIs(e, offered, refund, s, index, c);
  }
}
