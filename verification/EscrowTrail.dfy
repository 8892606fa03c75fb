/**
 Where everything on the escrow's ledger comes from: the terms from a proposal, the deposit from a lock that opened its
 commitments, the confirmation from the holder of the port authority's secret, a payment from a claim or a release.
 */
module EscrowTrail {
  import opened Wrappers
  import opened Hex
  import opened EscrowContract
  import opened DealState
  import opened DealActions
  import Deals

  lemma {:induction false} AfterLast(scheme: Scheme, l: Ledger, calls: seq<Timed>)
    requires calls != []
    ensures
      var n := |calls| - 1;
      AfterAll(scheme, l, calls) == After(scheme, AfterAll(scheme, l, calls[..n]), calls[n].call, calls[n].time)
    decreases calls
  {
    if |calls| > 1 {
      var first := After(scheme, l, calls[0].call, calls[0].time);
      AfterLast(scheme, first, calls[1..]);
      assert calls[..|calls| - 1][1..] == calls[1..][..|calls| - 2];
    }
  }

  /** The ledger before a call. */
  function Before(scheme: Scheme, calls: seq<Timed>, i: nat): Ledger
    requires i <= |calls|
  {
    AfterAll(scheme, INITIAL, calls[..i])
  }

  lemma Growing(scheme: Scheme, calls: seq<Timed>, i: nat)
    requires i < |calls|
    ensures Before(scheme, calls, i + 1) == After(scheme, Before(scheme, calls, i), calls[i].call, calls[i].time)
  {
    AfterLast(scheme, INITIAL, calls[..i + 1]);
    assert calls[..i + 1][..i] == calls[..i];
  }

  // ---- the proposal ----

  /** The ledger holds what this call proposed. */
  predicate ProposedBy(scheme: Scheme, call: Call, l: Ledger) {
    && call.Propose?
    && l.terms.portAuthorityKeyHash == call.terms.portAuthorityKeyHash
    && l.terms.durationSeconds == call.terms.durationSeconds
    && l.terms.timeoutDirection == call.terms.timeoutDirection
    && l.seller == call.seller
    && l.commitments.sellerAddress == scheme.commitAddress(call.seller, call.sellerSalt)
    && l.commitments.agreedAmount == scheme.commitAmount(call.amount, call.amountSalt)
    && l.commitments.depositParams == scheme.commitBytes(call.depositNonce, call.depositSalt)
  }

  lemma {:induction false} ProposalOf(scheme: Scheme, calls: seq<Timed>, i: nat) returns (p: nat)
    requires i <= |calls| && Before(scheme, calls, i).phase != Empty
    ensures p < i && Before(scheme, calls, p).phase == Empty
    ensures ProposedBy(scheme, calls[p].call, Before(scheme, calls, i))
    decreases i
  {
    assert i > 0;
    Growing(scheme, calls, i - 1);
    if Before(scheme, calls, i - 1).phase == Empty {
      p := i - 1;
    } else {
      p := ProposalOf(scheme, calls, i - 1);
    }
  }

  // ---- the lock ----

  /** The ledger, and the proposal it held by then, are those of this lock, made at this block time. */
  predicate LockedBy(scheme: Scheme, call: Call, time: nat, l: Ledger) {
    && call.LockEscrow?
    && call.resolvedKeyHash == l.terms.portAuthorityKeyHash
    && scheme.commitBytes(call.coin.nonce, call.coinSalt) == l.commitments.depositParams
    && scheme.commitAmount(call.lockedAmount, call.lockedAmountSalt) == l.commitments.agreedAmount
    && call.coin.value == call.lockedAmount
    && l.deposit == call.coin && l.heldCommitment == scheme.commitCoin(call.coin, call.coinSalt)
    && l.buyer == call.buyer && l.buyerAddressCommitment == scheme.commitAddress(call.buyer, call.buyerSalt)
    && l.lockedAt == time && call.claimedLockTime <= time <= call.claimedLockTime + 300
    && l.deadlineTimestamp == call.claimedLockTime + l.terms.durationSeconds
  }

  predicate Funded(phase: Phase) {
    phase == Locked || phase == Released
  }

  lemma {:induction false} LockedOnce(scheme: Scheme, calls: seq<Timed>, i: nat) returns (q: nat)
    requires i <= |calls| && Funded(Before(scheme, calls, i).phase)
    ensures q < i && Before(scheme, calls, q).phase == Proposed
    ensures LockedBy(scheme, calls[q].call, calls[q].time, Before(scheme, calls, i))
    decreases i
  {
    assert i > 0;
    Growing(scheme, calls, i - 1);
    if Funded(Before(scheme, calls, i - 1).phase) {
      q := LockedOnce(scheme, calls, i - 1);
    } else {
      q := i - 1;
    }
  }

  /**
   Whoever calls what, the deposit in the escrow has the nonce and the value the proposal committed to, and the lock
   named the port authority's key hash of the proposal.
   */
  lemma DepositIsAsProposed(scheme: Scheme, calls: seq<Timed>) returns (p: nat, q: nat)
    requires Deals.BindingProposal(scheme) && Funded(AfterAll(scheme, INITIAL, calls).phase)
    ensures
      var l := AfterAll(scheme, INITIAL, calls);
      && p < q < |calls|
      && ProposedBy(scheme, calls[p].call, l) && LockedBy(scheme, calls[q].call, calls[q].time, l)
      && l.deposit.nonce == calls[p].call.depositNonce && l.deposit.value == calls[p].call.amount
      && calls[q].call.resolvedKeyHash == calls[p].call.terms.portAuthorityKeyHash
      && calls[q].call.lockedAmount == calls[p].call.amount
  {
    assert calls[..|calls|] == calls;
    q := LockedOnce(scheme, calls, |calls|);
    p := ProposalOf(scheme, calls, |calls|);
    Growing(scheme, calls, p);
    if q <= p {
      NeverEmptyAgain(scheme, calls, q, p);
    }
  }

  lemma {:induction false} NeverEmptyAgain(scheme: Scheme, calls: seq<Timed>, i: nat, j: nat)
    requires i <= j <= |calls| && Before(scheme, calls, i).phase != Empty
    ensures Before(scheme, calls, j).phase != Empty
    decreases j
  {
    if i < j {
      NeverEmptyAgain(scheme, calls, i, j - 1);
      Growing(scheme, calls, j - 1);
    }
  }

  // ---- the confirmation ----

  /** The call carries a secret whose key hash this is. */
  predicate HoldsSecret(scheme: Scheme, call: Call, keyHash: Bytes) {
    call.AttestMilestone? && |call.secretKey| == 32 && scheme.roleKeyHash(call.secretKey) == keyHash
  }

  /** An attestation is accepted from the holder of the secret while the deposit is locked, and from nobody else. */
  lemma AttestsIff(scheme: Scheme, l: Ledger, secretKey: Bytes, time: nat)
    ensures
      var t := After(scheme, l, AttestMilestone(secretKey), time);
      && t == l.(milestoneConfirmed := t.milestoneConfirmed)
      && (t.milestoneConfirmed <==>
            || l.milestoneConfirmed
            || (l.phase == Locked && HoldsSecret(scheme, AttestMilestone(secretKey), l.terms.portAuthorityKeyHash)))
  {
  }

  lemma {:induction false} Confirmed(scheme: Scheme, calls: seq<Timed>, i: nat) returns (j: nat)
    requires i <= |calls| && Before(scheme, calls, i).milestoneConfirmed
    ensures j < i && Before(scheme, calls, j).phase == Locked
    ensures HoldsSecret(scheme, calls[j].call, Before(scheme, calls, i).terms.portAuthorityKeyHash)
    ensures Before(scheme, calls, i).phase != Empty
    decreases i
  {
    assert i > 0;
    Growing(scheme, calls, i - 1);
    if Before(scheme, calls, i - 1).milestoneConfirmed {
      j := Confirmed(scheme, calls, i - 1);
    } else {
      j := i - 1;
    }
  }

  /** The milestone is confirmed only by a call that carries the secret behind the port authority's key hash. */
  lemma ConfirmedByAuthority(scheme: Scheme, calls: seq<Timed>) returns (j: nat)
    requires AfterAll(scheme, INITIAL, calls).milestoneConfirmed
    ensures j < |calls| && Before(scheme, calls, j).phase == Locked
    ensures HoldsSecret(scheme, calls[j].call, AfterAll(scheme, INITIAL, calls).terms.portAuthorityKeyHash)
  {
    assert calls[..|calls|] == calls;
    j := Confirmed(scheme, calls, |calls|);
  }

  // ---- the payment ----

  /** The payment was made by this call, on this ledger. */
  predicate PaidBy(l: Ledger, call: Call, time: nat, payment: Payment) {
    && l.phase == Locked && payment.time == time
    && match call
       case ClaimPayout(payout) => l.milestoneConfirmed && payment.coin == payout.coin && payment.to == payout.address
       case ReleaseOnTimeout(payout) =>
         && !l.milestoneConfirmed && time >= l.deadlineTimestamp
         && payment.coin == payout.coin && payment.to == payout.address
       case _ => false
  }

  /** A payment comes from a claim after the confirmation, or from a release past the deadline without one. */
  lemma {:induction false} Paid(scheme: Scheme, calls: seq<Timed>, i: nat, k: nat) returns (j: nat)
    requires i <= |calls| && k < |Before(scheme, calls, i).payments|
    ensures j < i
    ensures PaidBy(Before(scheme, calls, j), calls[j].call, calls[j].time, Before(scheme, calls, i).payments[k])
    decreases i
  {
    assert i > 0;
    Growing(scheme, calls, i - 1);
    if k < |Before(scheme, calls, i - 1).payments| {
      j := Paid(scheme, calls, i - 1, k);
    } else {
      j := i - 1;
    }
  }

  /**
   Without the port authority's secret nobody gets the deposit before the deadline, and then only the side the terms
   name does.
   */
  lemma NothingWithoutTheSecret(scheme: Scheme, calls: seq<Timed>, k: nat)
    requires Binding(scheme) && k < |AfterAll(scheme, INITIAL, calls).payments|
    requires
      forall j :: 0 <= j < |calls| ==>
        !HoldsSecret(scheme, calls[j].call, AfterAll(scheme, INITIAL, calls).terms.portAuthorityKeyHash)
    ensures
      var l := AfterAll(scheme, INITIAL, calls);
      && l.payments[k].time >= l.deadlineTimestamp
      && l.payments[k].to == if l.terms.timeoutDirection.ToBuyer? then l.buyer else l.seller
  {
    if AfterAll(scheme, INITIAL, calls).milestoneConfirmed {
      var j := ConfirmedByAuthority(scheme, calls);
    }
    DepositLeavesOnce(scheme, calls);
  }

  /** The seller's check of the deposit says yes exactly if the coin locked is the one it rebuilds, under its salt. */
  lemma VerifiedIffOwnCoin(scheme: Scheme, calls: seq<Timed>, e: CoinEncoder, s: DealState) returns (q: nat)
    requires Binding(scheme) && Funded(AfterAll(scheme, INITIAL, calls).phase)
    ensures
      var l := AfterAll(scheme, INITIAL, calls);
      && q < |calls| && LockedBy(scheme, calls[q].call, calls[q].time, l)
      && (DepositVerification(e, scheme, s, l.heldCommitment) == Some(true) <==>
            SellerCoin(e, s) == Some(l.deposit) && s.depositSalt == Some(calls[q].call.coinSalt))
  {
    assert calls[..|calls|] == calls;
    q := LockedOnce(scheme, calls, |calls|);
  }
}
