/**
 The buyer's attempts to lock one deal. Each attempt that passes the agent's checks saves a fresh private state
 over the last one, and only then makes its chain call, which may land at any later time or never. In between
 anyone may call the contract.
 */
module Attempts {
  import opened Wrappers
  import opened Utf16
  import opened EscrowContract
  import opened DealState
  import opened DealActions
  import opened Deals
  import Decimal
  import DocumentCrypto
  import Json
  import Offer
  import Hex
  import Memo
  import PrivateState

  /** The buyer's agent and what it runs on. */
  datatype Env = Env(
    platform: Offer.Platform, scheme: Scheme, encoder: CoinEncoder, buyer: Agent, coercions: PrivateState.Coercions)

  /** Which attempt's call locked the deal, and where the deposit lies. */
  datatype Landing = Landing(attempt: nat, index: nat)

  datatype State = State(
    ledger: Ledger,
    saved: Option<Text>,          // the private state the agent would load for a refund
    attempts: seq<DealState>,     // history: what each attempt that passed the checks saved
    pending: set<nat>,            // attempts whose call may still land
    landed: Option<Landing>)

  const START := State(EscrowContract.INITIAL, None, [], {}, None)

  datatype Event =
    | Other(call: Call, time: nat)                                       // anyone else's call
    | Try(proposal: Json.Value, trustedHex: Text, salt: Hex.Bytes)       // `lockDeal` up to its chain call
    | Land(attempt: nat, claimed: nat, index: nat, time: nat)            // the call reaches a block
    | Lose(attempt: nat)                                                 // the call never will
    | Refund(index: nat, time: nat)                                      // `releaseTimeoutAsBuyer`

  predicate Enabled(s: State, event: Event) {
    match event
    case Try(proposal, _, _) => Json.Legal(proposal)
    case Land(attempt, _, _, _) => attempt in s.pending && attempt < |s.attempts|
    case Lose(attempt) => attempt in s.pending
    case _ => true
  }

  function Tried(env: Env, s: State, proposal: Json.Value, trustedHex: Text, salt: Hex.Bytes): State
    requires Json.Legal(proposal)
  {
    match LockDeal(env.platform, env.encoder, env.buyer, proposal, trustedHex, salt)
    case None => s
    case Some(state) =>
      s.(saved := Some(SaveDeal(state)), attempts := s.attempts + [state], pending := s.pending + {|s.attempts|})
  }

  function Lands(env: Env, s: State, attempt: nat, claimed: nat, index: nat, time: nat): State
    requires attempt < |s.attempts|
  {
    var rest := s.(pending := s.pending - {attempt});
    match LockCall(s.attempts[attempt], claimed, index)
    case None => rest
    case Some(call) =>
      if Accepts(env.scheme, s.ledger, call, time)
      then rest.(ledger := After(env.scheme, s.ledger, call, time), landed := Some(Landing(attempt, index)))
      else rest
  }

  /** The release saves what it has loaded together with the place of the coin, and makes its call. */
  function Refunded(env: Env, s: State, index: nat, time: nat): State {
    if s.saved.None? then s
    else
      match LoadDeal(s.saved.value, env.coercions)
      case None => s
      case Some(previous) =>
        match BuyerPrepares(previous, index)
        case None => s
        case Some(prepared) =>
          var t := s.(saved := Some(SaveDeal(prepared)));
          match BuyerPayout(prepared)
          case None => t
          case Some(payout) => t.(ledger := After(env.scheme, s.ledger, ReleaseOnTimeout(payout), time))
  }

  function Apply(env: Env, s: State, event: Event): State
    requires Enabled(s, event)
  {
    match event
    case Other(call, time) => s.(ledger := After(env.scheme, s.ledger, call, time))
    case Try(proposal, trustedHex, salt) => Tried(env, s, proposal, trustedHex, salt)
    case Land(attempt, claimed, index, time) => Lands(env, s, attempt, claimed, index, time)
    case Lose(attempt) => s.(pending := s.pending - {attempt})
    case Refund(index, time) => Refunded(env, s, index, time)
  }

  // ---- runs ----

  ghost predicate Next(env: Env, s: State, event: Event, t: State) {
    Enabled(s, event) && t == Apply(env, s, event)
  }

  ghost predicate StepAt(env: Env, ss: seq<State>, events: seq<Event>, i: nat)
    requires i < |events| < |ss|
  {
    Next(env, ss[i], events[i], ss[i + 1])
  }

  ghost predicate Run(env: Env, ss: seq<State>, events: seq<Event>) {
    && |ss| == |events| + 1
    && ss[0] == START
    && forall i :: 0 <= i < |events| ==> StepAt(env, ss, events, i)
  }

  // ---- what the saved state opens ----

  /** Two states prepare the same refund. */
  predicate SameRefund(a: DealState, b: DealState) {
    && a.depositedCoin == b.depositedCoin && a.depositSalt == b.depositSalt
    && a.buyerAddress == b.buyerAddress && a.buyerAddressSalt == b.buyerAddressSalt
  }

  /** A state with everything a refund needs. */
  predicate Refundable(s: DealState) {
    s.depositedCoin.Some? && s.depositSalt.Some? && s.buyerAddress.Some? && s.buyerAddressSalt.Some?
  }

  function Last(attempts: seq<DealState>): DealState
    requires attempts != []
  {
    attempts[|attempts| - 1]
  }

  /** The address the buyer is paid at. */
  function OwnAddress(env: Env): Memo.EitherAddress {
    ZswapRecipient(Hex.Decode(env.buyer.coinPublicKeyHex))
  }

  /** What is saved prepares the refund of the last attempt, and every attempt's refund goes to the buyer. */
  ghost predicate SavedAgrees(env: Env, saved: Option<Text>, attempts: seq<DealState>) {
    && (saved.Some? <==> attempts != [])
    && (saved.Some? ==>
          var loaded := LoadDeal(saved.value, env.coercions);
          loaded.Some? && SameRefund(loaded.value, Last(attempts)))
    && OwnAttempts(env, attempts)
  }

  /** Every attempt saved what a refund to the buyer's own address needs. */
  ghost predicate OwnAttempts(env: Env, attempts: seq<DealState>) {
    forall i :: 0 <= i < |attempts| ==> Refundable(attempts[i]) && attempts[i].buyerAddress == Some(OwnAddress(env))
  }

  /** The ledger holds what the landed attempt committed to. */
  ghost predicate HoldsAttempt(scheme: Scheme, l: Ledger, a: DealState, index: nat) {
    && Refundable(a) && IsCoin(a.depositedCoin.value) && |a.depositSalt.value| == 32
    && IsAddress(a.buyerAddress.value) && |a.buyerAddressSalt.value| == 32
    && (l.phase == Locked || l.phase == Released)
    && l.heldCommitment == scheme.commitCoin(a.depositedCoin.value, a.depositSalt.value)
    && l.buyerAddressCommitment == scheme.commitAddress(a.buyerAddress.value, a.buyerAddressSalt.value)
    && (l.phase == Locked ==> l.pool == map[index := a.depositedCoin.value])
  }

  ghost predicate LandedAgrees(env: Env, s: State) {
    s.landed.Some? ==>
      && s.landed.value.attempt < |s.attempts|
      && HoldsAttempt(env.scheme, s.ledger, s.attempts[s.landed.value.attempt], s.landed.value.index)
  }

  ghost predicate Inv(env: Env, s: State) {
    && EscrowContract.Inv(env.scheme, s.ledger)
    && SavedAgrees(env, s.saved, s.attempts)
    && LandedAgrees(env, s)
  }

  lemma CallKeepsHolding(scheme: Scheme, l: Ledger, call: Call, time: nat, a: DealState, index: nat)
    requires HoldsAttempt(scheme, l, a, index)
    ensures HoldsAttempt(scheme, After(scheme, l, call, time), a, index)
  {
  }

  lemma CallKeepsAttempts(env: Env, s: State, call: Call, time: nat)
    requires Binding(env.scheme) && Inv(env, s)
    ensures Inv(env, s.(ledger := After(env.scheme, s.ledger, call, time)))
  {
    CallKeepsInv(env.scheme, s.ledger, call, time);
    if s.landed.Some? {
      CallKeepsHolding(env.scheme, s.ledger, call, time, s.attempts[s.landed.value.attempt], s.landed.value.index);
    }
  }

  lemma LockDealIsRefundable(env: Env, proposal: Json.Value, trustedHex: Text, salt: Hex.Bytes)
    requires Json.Legal(proposal)
    requires LockDeal(env.platform, env.encoder, env.buyer, proposal, trustedHex, salt).Some?
    ensures
      var state := LockDeal(env.platform, env.encoder, env.buyer, proposal, trustedHex, salt).value;
      && Refundable(state) && state.buyerAddressSalt == Some(salt)
      && state.buyerAddress == Some(OwnAddress(env))
  {
  }

  lemma OneMoreAttempt(env: Env, attempts: seq<DealState>, state: DealState)
    requires OwnAttempts(env, attempts) && Refundable(state) && state.buyerAddress == Some(OwnAddress(env))
    ensures OwnAttempts(env, attempts + [state])
  {
  }

  lemma LastAgrees(env: Env, attempts: seq<DealState>, state: DealState, text: Text)
    requires OwnAttempts(env, attempts) && attempts != [] && Last(attempts) == state
    requires LoadDeal(text, env.coercions) == Some(state)
    ensures SavedAgrees(env, Some(text), attempts)
  {
  }

  lemma SavingKeepsSaved(env: Env, attempts: seq<DealState>, state: DealState, text: Text)
    requires OwnAttempts(env, attempts) && Refundable(state) && state.buyerAddress == Some(OwnAddress(env))
    requires LoadDeal(text, env.coercions) == Some(state)
    ensures SavedAgrees(env, Some(text), attempts + [state])
  {
    OneMoreAttempt(env, attempts, state);
    LastAgrees(env, attempts + [state], state, text);
  }

  lemma SavingKeepsInv(env: Env, s: State, state: DealState)
    requires Inv(env, s) && Refundable(state) && state.buyerAddress == Some(OwnAddress(env))
    ensures
      Inv(env, s.(saved := Some(SaveDeal(state)), attempts := s.attempts + [state],
                  pending := s.pending + {|s.attempts|}))
  {
    StateSurvives(state, env.coercions);
    SavingKeepsSaved(env, s.attempts, state, SaveDeal(state));
    if s.landed.Some? {
      assert (s.attempts + [state])[s.landed.value.attempt] == s.attempts[s.landed.value.attempt];
    }
  }

  lemma TryKeepsInv(env: Env, s: State, proposal: Json.Value, trustedHex: Text, salt: Hex.Bytes)
    requires Inv(env, s) && Json.Legal(proposal)
    ensures Inv(env, Tried(env, s, proposal, trustedHex, salt))
  {
    var locked := LockDeal(env.platform, env.encoder, env.buyer, proposal, trustedHex, salt);
    if locked.Some? {
      LockDealIsRefundable(env, proposal, trustedHex, salt);
      SavingKeepsInv(env, s, locked.value);
    }
  }

  lemma LockHolds(scheme: Scheme, l: Ledger, a: DealState, claimed: nat, index: nat, time: nat)
    requires EscrowContract.Inv(scheme, l) && Refundable(a) && LockCall(a, claimed, index).Some?
    requires Accepts(scheme, l, LockCall(a, claimed, index).value, time)
    ensures HoldsAttempt(scheme, After(scheme, l, LockCall(a, claimed, index).value, time), a, index)
  {
    assert l.pool == map[];
  }

  lemma LandedKeepsInv(env: Env, s: State, attempt: nat, index: nat, l: Ledger, pending: set<nat>)
    requires Inv(env, s) && attempt < |s.attempts| && EscrowContract.Inv(env.scheme, l)
    requires HoldsAttempt(env.scheme, l, s.attempts[attempt], index)
    ensures Inv(env, s.(ledger := l, pending := pending, landed := Some(Landing(attempt, index))))
  {
  }

  lemma LandKeepsInv(env: Env, s: State, attempt: nat, claimed: nat, index: nat, time: nat)
    requires Binding(env.scheme) && Inv(env, s) && attempt < |s.attempts|
    ensures Inv(env, Lands(env, s, attempt, claimed, index, time))
  {
    var a := s.attempts[attempt];
    var call := LockCall(a, claimed, index);
    if call.Some? && Accepts(env.scheme, s.ledger, call.value, time) {
      CallKeepsInv(env.scheme, s.ledger, call.value, time);
      LockHolds(env.scheme, s.ledger, a, claimed, index, time);
      LandedKeepsInv(
        env, s, attempt, index, After(env.scheme, s.ledger, call.value, time), s.pending - {attempt});
    }
  }

  lemma PreparingKeepsRefund(env: Env, s: State, previous: DealState, index: nat)
    requires Inv(env, s) && s.saved.Some? && LoadDeal(s.saved.value, env.coercions) == Some(previous)
    requires BuyerPrepares(previous, index).Some?
    ensures Inv(env, s.(saved := Some(SaveDeal(BuyerPrepares(previous, index).value))))
  {
    StateSurvives(BuyerPrepares(previous, index).value, env.coercions);
  }

  lemma RefundKeepsInv(env: Env, s: State, index: nat, time: nat)
    requires Binding(env.scheme) && Inv(env, s)
    ensures Inv(env, Refunded(env, s, index, time))
  {
    if s.saved.Some? {
      var previous := LoadDeal(s.saved.value, env.coercions).value;
      var prepared := BuyerPrepares(previous, index);
      if prepared.Some? {
        PreparingKeepsRefund(env, s, previous, index);
        var t, payout := s.(saved := Some(SaveDeal(prepared.value))), BuyerPayout(prepared.value);
        if payout.Some? {
          CallKeepsAttempts(env, t, ReleaseOnTimeout(payout.value), time);
        }
      }
    }
  }

  lemma StepKeepsInv(env: Env, s: State, event: Event)
    requires Binding(env.scheme) && Inv(env, s) && Enabled(s, event)
    ensures Inv(env, Apply(env, s, event))
  {
    match event
    case Other(call, time) => CallKeepsAttempts(env, s, call, time);
    case Try(proposal, trustedHex, salt) => TryKeepsInv(env, s, proposal, trustedHex, salt);
    case Land(attempt, claimed, index, time) => LandKeepsInv(env, s, attempt, claimed, index, time);
    case Lose(_) =>
    case Refund(index, time) => RefundKeepsInv(env, s, index, time);
  }

  lemma {:induction false} RunInv(env: Env, ss: seq<State>, events: seq<Event>, i: nat)
    requires Binding(env.scheme) && Run(env, ss, events) && i <= |events|
    ensures Inv(env, ss[i])
  {
    if i > 0 {
      RunInv(env, ss, events, i - 1);
      assert StepAt(env, ss, events, i - 1);
      StepKeepsInv(env, ss[i - 1], events[i - 1]);
    }
  }

  // ---- when the refund is accepted ----

  /** The refund the agent would prepare, by the state it has saved, of the deposit at a place. */
  function Prepared(env: Env, s: State, index: nat): Option<Payout> {
    if s.saved.None? then None else BuyersPayout(s.saved.value, env.coercions, index)
  }

  /** The contract pays a refund that opens its commitments now. */
  predicate Due(l: Ledger, time: nat) {
    l.phase == Locked && !l.milestoneConfirmed && time >= l.deadlineTimestamp
  }

  function RefundOf(s: DealState, index: nat): Payout
    requires Refundable(s)
  {
    Payout(s.depositedCoin.value, index, s.depositSalt.value, s.buyerAddress.value, s.buyerAddressSalt.value)
  }

  lemma PreparedIsLast(env: Env, s: State, index: nat)
    requires SavedAgrees(env, s.saved, s.attempts) && s.attempts != []
    ensures Prepared(env, s, index) == Some(RefundOf(Last(s.attempts), index))
  {
    assert Refundable(Last(s.attempts));
  }

  lemma OpensIffSame(scheme: Scheme, l: Ledger, a: DealState, b: DealState, index: nat, time: nat)
    requires Binding(scheme) && HoldsAttempt(scheme, l, a, index) && Refundable(b)
    requires l.terms.timeoutDirection == ToBuyer
    ensures Accepts(scheme, l, ReleaseOnTimeout(RefundOf(b, index)), time) <==> Due(l, time) && SameRefund(b, a)
  {
  }

  /**
   After any run in which a lock of the buyer's has landed, and where the terms favour the buyer: the refund the
   agent prepares is accepted exactly when it is due and the state the last saving attempt left agrees with the
   landed attempt's in coin, deposit salt, address and address salt.
   */
  lemma RefundIffLastOpensLanded(env: Env, ss: seq<State>, events: seq<Event>, i: nat, time: nat)
    requires Binding(env.scheme) && Run(env, ss, events) && i <= |events| && ss[i].landed.Some?
    requires ss[i].ledger.terms.timeoutDirection == ToBuyer
    ensures ss[i].attempts != [] && ss[i].landed.value.attempt < |ss[i].attempts|
    ensures
      var s := ss[i];
      var payout := Prepared(env, s, s.landed.value.index);
      && payout.Some?
      && (Accepts(env.scheme, s.ledger, ReleaseOnTimeout(payout.value), time) <==>
            Due(s.ledger, time) && SameRefund(Last(s.attempts), s.attempts[s.landed.value.attempt]))
  {
    RunInv(env, ss, events, i);
    var s := ss[i];
    PreparedIsLast(env, s, s.landed.value.index);
    OpensIffSame(
      env.scheme, s.ledger, s.attempts[s.landed.value.attempt], Last(s.attempts), s.landed.value.index, time);
  }

  /** Address salts are drawn at random and do not repeat. */
  ghost predicate FreshSalts(attempts: seq<DealState>) {
    forall j, k :: 0 <= j < k < |attempts| ==> attempts[j].buyerAddressSalt != attempts[k].buyerAddressSalt
  }

  lemma SameIffLast(attempts: seq<DealState>, k: nat)
    requires FreshSalts(attempts) && k < |attempts|
    ensures SameRefund(Last(attempts), attempts[k]) <==> k == |attempts| - 1
  {
  }

  /** With fresh salts, that is exactly when the attempt that landed is the last one that passed the checks. */
  lemma RefundIffLastAttemptLanded(env: Env, ss: seq<State>, events: seq<Event>, i: nat, time: nat)
    requires Binding(env.scheme) && Run(env, ss, events) && i <= |events| && ss[i].landed.Some?
    requires ss[i].ledger.terms.timeoutDirection == ToBuyer && FreshSalts(ss[i].attempts)
    ensures
      var s := ss[i];
      var payout := Prepared(env, s, s.landed.value.index);
      && payout.Some?
      && (Accepts(env.scheme, s.ledger, ReleaseOnTimeout(payout.value), time) <==>
            Due(s.ledger, time) && s.landed.value.attempt == |s.attempts| - 1)
  {
    RefundIffLastOpensLanded(env, ss, events, i, time);
    SameIffLast(ss[i].attempts, ss[i].landed.value.attempt);
  }

  // ---- a guard that suffices ----

  /** An attempt is made only while the offer stands and no earlier call of the agent's can still land. */
  predicate Careful(s: State, event: Event) {
    event.Try? ==> s.ledger.phase == Proposed && s.pending == {}
  }

  ghost predicate CarefulRun(env: Env, ss: seq<State>, events: seq<Event>) {
    && Run(env, ss, events)
    && forall i {:trigger events[i]} :: 0 <= i < |events| ==> Careful(ss[i], events[i])
  }

  predicate OnlyLast(s: State) {
    && (forall k :: k in s.pending ==> k + 1 == |s.attempts|)
    && (s.landed.Some? ==> s.landed.value.attempt + 1 == |s.attempts|)
  }

  lemma CarefulTry(env: Env, s: State, proposal: Json.Value, trustedHex: Text, salt: Hex.Bytes)
    requires OnlyLast(s) && Json.Legal(proposal) && s.landed.None? && s.pending == {}
    ensures OnlyLast(Tried(env, s, proposal, trustedHex, salt))
  {
  }

  lemma RefundKeepsAttempts(env: Env, s: State, index: nat, time: nat)
    ensures
      var t := Refunded(env, s, index, time);
      t.attempts == s.attempts && t.pending == s.pending && t.landed == s.landed
  {
  }

  lemma CarefulStep(env: Env, s: State, event: Event)
    requires LandedAgrees(env, s) && OnlyLast(s) && Enabled(s, event) && Careful(s, event)
    ensures OnlyLast(Apply(env, s, event))
  {
    match event
    case Try(proposal, trustedHex, salt) => CarefulTry(env, s, proposal, trustedHex, salt);
    case Refund(index, time) => RefundKeepsAttempts(env, s, index, time);
    case _ =>
  }

  lemma {:induction false} CarefulRunOnlyLast(env: Env, ss: seq<State>, events: seq<Event>, i: nat)
    requires Binding(env.scheme) && CarefulRun(env, ss, events) && i <= |events|
    ensures OnlyLast(ss[i])
  {
    if i > 0 {
      CarefulRunOnlyLast(env, ss, events, i - 1);
      RunInv(env, ss, events, i - 1);
      assert StepAt(env, ss, events, i - 1) && Careful(ss[i - 1], events[i - 1]);
      CarefulStep(env, ss[i - 1], events[i - 1]);
    }
  }

  lemma RefundPays(env: Env, s: State, payout: Payout, time: nat)
    requires Binding(env.scheme) && Inv(env, s) && s.landed.Some? && s.ledger.terms.timeoutDirection == ToBuyer
    requires payout == RefundOf(s.attempts[s.landed.value.attempt], s.landed.value.index)
    requires Accepts(env.scheme, s.ledger, ReleaseOnTimeout(payout), time)
    ensures After(env.scheme, s.ledger, ReleaseOnTimeout(payout), time).payments ==
            s.ledger.payments + [Payment(s.ledger.deposit, OwnAddress(env), time)]
  {
    PayKeepsCustody(env.scheme, s.ledger, payout, s.ledger.buyerAddressCommitment, time);
  }

  lemma LastIs(attempts: seq<DealState>, k: nat)
    requires k + 1 == |attempts|
    ensures Last(attempts) == attempts[k]
  {
  }

  lemma CarefulRefund(env: Env, s: State, time: nat)
    requires Binding(env.scheme) && Inv(env, s) && OnlyLast(s) && s.landed.Some?
    requires s.ledger.terms.timeoutDirection == ToBuyer
    ensures
      var payout := Prepared(env, s, s.landed.value.index);
      && payout.Some?
      && (Accepts(env.scheme, s.ledger, ReleaseOnTimeout(payout.value), time) <==> Due(s.ledger, time))
      && (Due(s.ledger, time) ==>
            After(env.scheme, s.ledger, ReleaseOnTimeout(payout.value), time).payments ==
            s.ledger.payments + [Payment(s.ledger.deposit, OwnAddress(env), time)])
  {
    var k, index := s.landed.value.attempt, s.landed.value.index;
    LastIs(s.attempts, k);
    PreparedIsLast(env, s, index);
    OpensIffSame(env.scheme, s.ledger, s.attempts[k], s.attempts[k], index, time);
    if Due(s.ledger, time) {
      RefundPays(env, s, RefundOf(s.attempts[k], index), time);
    }
  }

  /** Under that guard no attempt strands the refund: once due, the agent's refund is accepted and pays the buyer. */
  lemma CarefulRefundIsAccepted(env: Env, ss: seq<State>, events: seq<Event>, i: nat, time: nat)
    requires Binding(env.scheme) && CarefulRun(env, ss, events) && i <= |events| && ss[i].landed.Some?
    requires ss[i].ledger.terms.timeoutDirection == ToBuyer
    ensures
      var s := ss[i];
      var payout := Prepared(env, s, s.landed.value.index);
      && payout.Some?
      && (Accepts(env.scheme, s.ledger, ReleaseOnTimeout(payout.value), time) <==> Due(s.ledger, time))
      && (Due(s.ledger, time) ==>
            After(env.scheme, s.ledger, ReleaseOnTimeout(payout.value), time).payments ==
            s.ledger.payments + [Payment(s.ledger.deposit, OwnAddress(env), time)])
  {
    RunInv(env, ss, events, i);
    CarefulRunOnlyLast(env, ss, events, i);
    CarefulRefund(env, ss[i], time);
  }

  // ---- runs that strand the refund ----

  /** A seller's offer of a deal, and the keys it is signed with. */
  datatype Deal = Deal(seller: Agent, params: Params, r: Randoms, privateKey: Text, publicKey: Text)

  /** The coin the deal is about. */
  function Deposit(env: Env, deal: Deal): CoinCore
    requires ProposeDeal(deal.seller, deal.params, deal.r).Some?
  {
    BuildCoin(env.encoder, Hex.Encode(deal.r.depositNonce), Decimal.Parse(deal.params.agreedAmount).value)
  }

  /** An offer to this buyer that fits the circuits, on a wallet library that keeps nonces. */
  ghost predicate Fits(env: Env, deal: Deal) {
    && Json.IsNumber(deal.params.durationText) && deal.params.buyerDid == env.buyer.did
    && DocumentCrypto.KeyPair(env.platform.crypto, deal.privateKey, deal.publicKey)
    && ProposeDeal(deal.seller, deal.params, deal.r).Some?
    && Sized(ProposeDeal(deal.seller, deal.params, deal.r).value.call)
    && Decimal.Parse(deal.params.agreedAmount).value > 0
    && KeepsNonce(env.encoder)
    && |Deposit(env, deal).color| == 32
    && IsAddress(OwnAddress(env))
  }

  function Offered(deal: Deal): DealActions.Offered
    requires ProposeDeal(deal.seller, deal.params, deal.r).Some?
  {
    ProposeDeal(deal.seller, deal.params, deal.r).value
  }

  function Trusted(deal: Deal): Text {
    Hex.LowerCase(deal.params.portAuthorityKeyHashHex)
  }

  function BuyersRefund(env: Env, salt: Hex.Bytes): Deals.Refund {
    Deals.Refund(OwnAddress(env), salt)
  }

  /** The signed offer as it arrives at the buyer. */
  lemma Received(env: Env, deal: Deal) returns (proposal: Json.Value)
    requires Fits(env, deal)
    ensures Json.Legal(proposal) && Offer.Get(proposal, Offer.TERMS) == Offered(deal).terms && Complete(Offered(deal))
    ensures forall salt :: LockDeal(env.platform, env.encoder, env.buyer, proposal, Trusted(deal), salt).Some?
  {
    SignedOfferLocks(env.platform, env.encoder, deal.seller, deal.params, deal.r, env.buyer, deal.privateKey,
                     deal.publicKey, []);
    var terms := TermsValue(deal.seller, deal.params, deal.r);
    proposal := Json.Clean(Offer.ProposeEscrow(env.platform, terms, deal.privateKey, deal.publicKey));
    forall salt ensures LockDeal(env.platform, env.encoder, env.buyer, proposal, Trusted(deal), salt).Some? {
      SignedOfferLocks(env.platform, env.encoder, deal.seller, deal.params, deal.r, env.buyer, deal.privateKey,
                       deal.publicKey, salt);
    }
    ProposedIsComplete(deal.seller, deal.params, deal.r);
  }

  /** An attempt at it saves a state that makes the modelled lock call. */
  lemma AttemptAt(env: Env, deal: Deal, proposal: Json.Value, salt: Hex.Bytes)
    returns (a: DealState)
    requires Json.IsNumber(deal.params.durationText) && ProposeDeal(deal.seller, deal.params, deal.r).Some?
    requires Json.Legal(proposal) && Offer.Get(proposal, Offer.TERMS) == Offered(deal).terms && Complete(Offered(deal))
    requires LockDeal(env.platform, env.encoder, env.buyer, proposal, Trusted(deal), salt).Some?
    ensures LockDeal(env.platform, env.encoder, env.buyer, proposal, Trusted(deal), salt) == Some(a)
    ensures a.buyerAddressSalt == Some(salt)
    ensures forall claimed, index ::
              LockCall(a, claimed, index) ==
              Some(LockOf(env.encoder, Offered(deal), BuyersRefund(env, salt), claimed, index))
  {
    LockDealIsRefundable(env, proposal, Trusted(deal), salt);
    a := LockDeal(env.platform, env.encoder, env.buyer, proposal, Trusted(deal), salt).value;
    forall claimed, index
      ensures LockCall(a, claimed, index) ==
              Some(LockOf(env.encoder, Offered(deal), BuyersRefund(env, salt), claimed, index))
    {
      BuyerLocks(env.platform, env.encoder, deal.seller, deal.params, deal.r, env.buyer, proposal, Trusted(deal), salt,
                 claimed, index);
    }
  }

  /** The buyer's lock is accepted right after the proposal. */
  lemma FirstLockLands(env: Env, deal: Deal, salt: Hex.Bytes, proposedAt: nat, claimed: nat, index: nat, time: nat)
    requires Fits(env, deal) && Complete(Offered(deal)) && |salt| == 32
    requires claimed <= time <= claimed + TOLERANCE_SECONDS < UINT64
    requires claimed + deal.params.durationSeconds < UINT64
    ensures
      var l := After(env.scheme, EscrowContract.INITIAL, Offered(deal).call, proposedAt);
      var call := LockOf(env.encoder, Offered(deal), BuyersRefund(env, salt), claimed, index);
      && l.phase == Proposed && Accepts(env.scheme, l, call, time)
      && After(env.scheme, l, call, time).phase == Locked
      && After(env.scheme, l, call, time).terms == Offered(deal).call.terms
  {
    var l := After(env.scheme, EscrowContract.INITIAL, Offered(deal).call, proposedAt);
    LockIsAccepted(env.scheme, env.encoder, Offered(deal), BuyersRefund(env, salt), claimed, index, l, time);
  }

  /** Some run ends in the state, with every attempt careful but at most the one made in state u. */
  ghost predicate Reaches(env: Env, s: State, u: Option<State>) {
    exists ss: seq<State>, events: seq<Event> :: RunsTo(env, ss, events, s, u)
  }

  ghost predicate RunsTo(env: Env, ss: seq<State>, events: seq<Event>, s: State, u: Option<State>) {
    && Run(env, ss, events) && ss[|events|] == s
    && forall j :: 0 <= j < |events| ==> CarefulAt(ss, events, j, u)
  }

  predicate CarefulAt(ss: seq<State>, events: seq<Event>, j: nat, u: Option<State>)
    requires j < |events| < |ss|
  {
    Careful(ss[j], events[j]) || u == Some(ss[j])
  }

  lemma ReachesStart(env: Env)
    ensures Reaches(env, START, None)
  {
    var ss: seq<State>, events: seq<Event> := [START], [];
    assert RunsTo(env, ss, events, START, None);
  }

  lemma LongerRun(env: Env, ss: seq<State>, events: seq<Event>, event: Event, t: State)
    requires Run(env, ss, events) && Next(env, ss[|events|], event, t)
    ensures Run(env, ss + [t], events + [event])
  {
    var more, longer := ss + [t], events + [event];
    forall i | 0 <= i < |longer| ensures StepAt(env, more, longer, i) {
      if i < |events| {
        assert StepAt(env, ss, events, i);
      }
    }
  }

  lemma LongerCareful(ss: seq<State>, events: seq<Event>, event: Event, t: State, u: Option<State>, v: Option<State>)
    requires |ss| == |events| + 1 && (u == v || u.None?)
    requires forall j :: 0 <= j < |events| ==> CarefulAt(ss, events, j, u)
    requires Careful(ss[|events|], event) || v == Some(ss[|events|])
    ensures forall j :: 0 <= j < |events + [event]| ==> CarefulAt(ss + [t], events + [event], j, v)
  {
    forall j | 0 <= j < |events + [event]| ensures CarefulAt(ss + [t], events + [event], j, v) {
      if j < |events| {
        assert CarefulAt(ss, events, j, u);
      }
    }
  }

  lemma RunsToNext(env: Env, ss: seq<State>, events: seq<Event>, s: State, u: Option<State>, event: Event, t: State,
                   v: Option<State>)
    requires RunsTo(env, ss, events, s, u) && Next(env, s, event, t)
    requires u == v || u.None?
    requires Careful(s, event) || v == Some(s)
    ensures RunsTo(env, ss + [t], events + [event], t, v)
  {
    LongerRun(env, ss, events, event, t);
    LongerCareful(ss, events, event, t, u, v);
    assert (ss + [t])[|events + [event]|] == t;
  }

  /** One more step; a careless attempt is one that is let pass. */
  lemma ReachesNext(env: Env, s: State, u: Option<State>, event: Event, t: State, v: Option<State>)
    requires Reaches(env, s, u) && Next(env, s, event, t)
    requires u == v || u.None?
    requires Careful(s, event) || v == Some(s)
    ensures Reaches(env, t, v)
  {
    var ss: seq<State>, events: seq<Event> :| RunsTo(env, ss, events, s, u);
    RunsToNext(env, ss, events, s, u, event, t, v);
  }

  function Saving(s: State, a: DealState, text: Text): State {
    State(s.ledger, Some(text), s.attempts + [a], s.pending + {|s.attempts|}, s.landed)
  }

  /** Whenever the attempt is made, it saves this state as this text. */
  ghost predicate Saves(env: Env, event: Event, a: DealState, text: Text) {
    event.Try? && forall s :: Next(env, s, event, Saving(s, a, text))
  }

  lemma TrySaves(env: Env, s: State, proposal: Json.Value, trustedHex: Text, salt: Hex.Bytes, a: DealState)
    requires Json.Legal(proposal)
    requires LockDeal(env.platform, env.encoder, env.buyer, proposal, trustedHex, salt) == Some(a)
    ensures Next(env, s, Try(proposal, trustedHex, salt), Saving(s, a, SaveDeal(a)))
  {
  }

  lemma Tries(env: Env, s: State, u: Option<State>, v: Option<State>, event: Event, a: DealState, text: Text)
    requires Reaches(env, s, u) && Saves(env, event, a, text)
    requires u == v || u.None?
    requires (s.ledger.phase == Proposed && s.pending == {}) || v == Some(s)
    ensures Reaches(env, Saving(s, a, text), v)
  {
    ReachesNext(env, s, u, event, Saving(s, a, text), v);
  }

  lemma FirstLands(env: Env, s: State, u: Option<State>, call: Call, claimed: nat, index: nat, time: nat)
    requires Reaches(env, s, u) && s.attempts != [] && 0 in s.pending
    requires LockCall(s.attempts[0], claimed, index) == Some(call) && Accepts(env.scheme, s.ledger, call, time)
    ensures
      Reaches(env, State(After(env.scheme, s.ledger, call, time), s.saved, s.attempts, s.pending - {0},
                         Some(Landing(0, index))), u)
  {
    ReachesNext(env, s, u, Land(0, claimed, index, time),
                State(After(env.scheme, s.ledger, call, time), s.saved, s.attempts, s.pending - {0},
                      Some(Landing(0, index))), u);
  }

  /** The offer and two attempts at it. */
  lemma TwoAttempts(env: Env, deal: Deal, salt: Hex.Bytes, second: Hex.Bytes)
    returns (a: DealState, x: Text, b: DealState, y: Text, first: Event, again: Event)
    requires Fits(env, deal)
    ensures Complete(Offered(deal))
    ensures forall claimed, index ::
              LockCall(a, claimed, index) ==
              Some(LockOf(env.encoder, Offered(deal), BuyersRefund(env, salt), claimed, index))
    ensures a.buyerAddressSalt == Some(salt) && b.buyerAddressSalt == Some(second)
    ensures Saves(env, first, a, x) && Saves(env, again, b, y)
  {
    var proposal := Received(env, deal);
    a := AttemptAt(env, deal, proposal, salt);
    b := AttemptAt(env, deal, proposal, second);
    x, y := SaveDeal(a), SaveDeal(b);
    first, again := Try(proposal, Trusted(deal), salt), Try(proposal, Trusted(deal), second);
    forall s ensures Next(env, s, first, Saving(s, a, x)) {
      TrySaves(env, s, proposal, Trusted(deal), salt, a);
    }
    forall s ensures Next(env, s, again, Saving(s, b, y)) {
      TrySaves(env, s, proposal, Trusted(deal), second, b);
    }
  }

  lemma ReachesOffer(env: Env, deal: Deal, proposedAt: nat) returns (l: Ledger)
    requires ProposeDeal(deal.seller, deal.params, deal.r).Some?
    ensures l == After(env.scheme, EscrowContract.INITIAL, Offered(deal).call, proposedAt)
    ensures Reaches(env, State(l, None, [], {}, None), None)
  {
    l := After(env.scheme, EscrowContract.INITIAL, Offered(deal).call, proposedAt);
    ReachesStart(env);
    ReachesNext(env, START, None, Other(Offered(deal).call, proposedAt), State(l, None, [], {}, None), None);
  }

  lemma FirstTried(env: Env, l: Ledger, a: DealState, x: Text, first: Event)
    requires Reaches(env, State(l, None, [], {}, None), None) && l.phase == Proposed && Saves(env, first, a, x)
    ensures Reaches(env, State(l, Some(x), [a], {0}, None), None)
  {
    assert [] + [a] == [a] && {} + {0} == {0};
    Tries(env, State(l, None, [], {}, None), None, None, first, a, x);
  }

  lemma TriedAgain(env: Env, s: State, a: DealState, b: DealState, y: Text, again: Event)
    requires Reaches(env, s, None) && Saves(env, again, b, y) && s.attempts == [a]
    ensures Reaches(env, State(s.ledger, Some(y), [a, b], s.pending + {1}, s.landed), Some(s))
  {
    assert [a] + [b] == [a, b];
    Tries(env, s, None, Some(s), again, b, y);
  }

  /** The second attempt comes after the first has locked the deal, with nothing left that could land. */
  lemma LateAttempt(env: Env, l: Ledger, a: DealState, x: Text, b: DealState, y: Text, again: Event, call: Call,
                    claimed: nat, index: nat, time: nat)
    requires Reaches(env, State(l, Some(x), [a], {0}, None), None) && Saves(env, again, b, y)
    requires LockCall(a, claimed, index) == Some(call) && Accepts(env.scheme, l, call, time)
    ensures
      var locked := After(env.scheme, l, call, time);
      Reaches(env, State(locked, Some(y), [a, b], {1}, Some(Landing(0, index))),
              Some(State(locked, Some(x), [a], {}, Some(Landing(0, index)))))
  {
    FirstLands(env, State(l, Some(x), [a], {0}, None), None, call, claimed, index, time);
    assert {0} - {0} == {} && {} + {1} == {1};
    TriedAgain(env, State(After(env.scheme, l, call, time), Some(x), [a], {}, Some(Landing(0, index))), a, b, y, again);
  }

  /** It comes while the offer stands, but before the first has landed. */
  lemma EarlyAttempt(env: Env, l: Ledger, a: DealState, x: Text, b: DealState, y: Text, again: Event, call: Call,
                     claimed: nat, index: nat, time: nat)
    requires Reaches(env, State(l, Some(x), [a], {0}, None), None) && Saves(env, again, b, y)
    requires LockCall(a, claimed, index) == Some(call) && Accepts(env.scheme, l, call, time)
    ensures
      var locked := After(env.scheme, l, call, time);
      Reaches(env, State(locked, Some(y), [a, b], {1}, Some(Landing(0, index))),
              Some(State(l, Some(x), [a], {0}, None)))
  {
    var tried := State(l, Some(x), [a], {0}, None);
    TriedAgain(env, tried, a, b, y, again);
    assert {0} + {1} - {0} == {1};
    FirstLands(env, State(l, Some(y), [a, b], {0} + {1}, None), Some(tried), call, claimed, index, time);
  }

  /** A deal locked by the first of two attempts, of which the second saved last. */
  ghost predicate Stranded(s: State, index: nat) {
    && s.landed == Some(Landing(0, index)) && |s.attempts| == 2 && FreshSalts(s.attempts)
    && s.ledger.phase == Locked && !s.ledger.milestoneConfirmed && s.ledger.terms.timeoutDirection == ToBuyer
  }

  /**
   Each half of the guard is needed. The second attempt comes after the first has locked the deal, with nothing
   left that could land; or it comes while the offer stands, but before the first has landed. Both runs end with the
   deposit locked and the wrong salt saved, and no other attempt in them breaks the guard.
   */
  lemma SecondAttemptRuns(
    env: Env, deal: Deal, salt: Hex.Bytes, second: Hex.Bytes, proposedAt: nat, claimed: nat, index: nat, time: nat,
    late: bool)
    returns (ss: seq<State>, events: seq<Event>, s: State, u: State)
    requires Fits(env, deal) && |salt| == 32 && salt != second && deal.params.timeoutDirection == ToBuyer
    requires claimed <= time <= claimed + TOLERANCE_SECONDS < UINT64
    requires claimed + deal.params.durationSeconds < UINT64
    ensures RunsTo(env, ss, events, s, Some(u)) && Stranded(s, index)
    ensures if late then u.ledger.phase == Locked && u.pending == {} else u.ledger.phase == Proposed && u.pending == {0}
  {
    var a, x, b, y, first, again := TwoAttempts(env, deal, salt, second);
    var l := ReachesOffer(env, deal, proposedAt);
    var call := LockOf(env.encoder, Offered(deal), BuyersRefund(env, salt), claimed, index);
    FirstLockLands(env, deal, salt, proposedAt, claimed, index, time);
    FirstTried(env, l, a, x, first);
    s := State(After(env.scheme, l, call, time), Some(y), [a, b], {1}, Some(Landing(0, index)));
    if late {
      LateAttempt(env, l, a, x, b, y, again, call, claimed, index, time);
      u := State(After(env.scheme, l, call, time), Some(x), [a], {}, Some(Landing(0, index)));
    } else {
      EarlyAttempt(env, l, a, x, b, y, again, call, claimed, index, time);
      u := State(l, Some(x), [a], {0}, None);
    }
    ss, events :| RunsTo(env, ss, events, s, Some(u));
  }

  /** From there the agent's refund is refused at any time, while the one by the first attempt's state is paid. */
  lemma StrandedRefund(env: Env, ss: seq<State>, events: seq<Event>, i: nat, index: nat, time: nat)
    requires Binding(env.scheme) && Run(env, ss, events) && i <= |events| && Stranded(ss[i], index)
    ensures
      var s := ss[i];
      && s.attempts != [] && Refundable(s.attempts[0])
      && Prepared(env, s, index).Some?
      && !Accepts(env.scheme, s.ledger, ReleaseOnTimeout(Prepared(env, s, index).value), time)
      && (Accepts(env.scheme, s.ledger, ReleaseOnTimeout(RefundOf(s.attempts[0], index)), time) <==>
            Due(s.ledger, time))
  {
    RefundIffLastAttemptLanded(env, ss, events, i, time);
    RunInv(env, ss, events, i);
    OpensIffSame(env.scheme, ss[i].ledger, ss[i].attempts[0], ss[i].attempts[0], index, time);
  }

  /** What a release sends is the payout prepared from the saved state. */
  lemma RefundCalls(env: Env, s: State, index: nat, time: nat)
    requires SavedAgrees(env, s.saved, s.attempts) && s.attempts != []
    ensures Prepared(env, s, index).Some?
    ensures
      var t := Refunded(env, s, index, time);
      && t.ledger == After(env.scheme, s.ledger, ReleaseOnTimeout(Prepared(env, s, index).value), time)
      && t.attempts == s.attempts && t.landed == s.landed && t.pending == s.pending
  {
    PreparedIsLast(env, s, index);
  }

  /** The release the agent attempts there is refused, and changes nothing but the place in the saved state. */
  lemma StrandedStays(env: Env, s: State, index: nat, time: nat)
    requires SavedAgrees(env, s.saved, s.attempts) && Stranded(s, index) && Prepared(env, s, index).Some?
    requires !Accepts(env.scheme, s.ledger, ReleaseOnTimeout(Prepared(env, s, index).value), time)
    ensures
      var t := Refunded(env, s, index, time);
      t.ledger == s.ledger && t.attempts == s.attempts && t.landed == s.landed
  {
    RefundCalls(env, s, index, time);
  }

  lemma RunSaves(env: Env, ss: seq<State>, events: seq<Event>, i: nat)
    requires Binding(env.scheme) && Run(env, ss, events) && i <= |events|
    ensures SavedAgrees(env, ss[i].saved, ss[i].attempts)
  {
    RunInv(env, ss, events, i);
  }

  /** And a refused refund leaves the deal as it is. */
  lemma StrandedForGood(env: Env, ss: seq<State>, events: seq<Event>, i: nat, index: nat, time: nat)
    requires Binding(env.scheme) && Run(env, ss, events) && i <= |events| && Stranded(ss[i], index)
    ensures
      var payout := Prepared(env, ss[i], index);
      payout.Some? && !Accepts(env.scheme, ss[i].ledger, ReleaseOnTimeout(payout.value), time)
    ensures
      var t := Refunded(env, ss[i], index, time);
      t.ledger == ss[i].ledger && Stranded(t, index)
  {
    StrandedRefund(env, ss, events, i, index, time);
    RunSaves(env, ss, events, i);
    StrandedStays(env, ss[i], index, time);
  }
}
