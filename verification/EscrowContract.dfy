/**
 The escrow contract: its ledger, and its five circuits with their asserts in order. Anyone may call any
 circuit with any witnesses; what the asserts check is all that protects the deposit. Commitments are
 parameters, and the lemmas that need them to be binding say so.
 */
module EscrowContract {
  import opened Wrappers
  import opened Hex
  import opened Memo

  datatype Phase = Empty | Proposed | Locked | Released

  datatype Direction = ToBuyer | ToSeller

  datatype CoinCore = CoinCore(nonce: Bytes, color: Bytes, value: int)

  datatype Scheme = Scheme(
    commitCoin: (CoinCore, Bytes) -> Bytes,
    commitAmount: (int, Bytes) -> Bytes,
    commitBytes: (Bytes, Bytes) -> Bytes,
    commitAddress: (EitherAddress, Bytes) -> Bytes,
    roleKeyHash: Bytes -> Bytes)

  /** No two openings of the commitments to coins and to addresses. */
  ghost predicate Binding(scheme: Scheme) {
    && (forall a, s, b, t :: scheme.commitCoin(a, s) == scheme.commitCoin(b, t) ==> a == b && s == t)
    && (forall a, s, b, t :: scheme.commitAddress(a, s) == scheme.commitAddress(b, t) ==> a == b && s == t)
  }

  datatype Terms = Terms(portAuthorityKeyHash: Bytes, durationSeconds: nat, timeoutDirection: Direction)

  datatype Commitments = Commitments(sellerAddress: Bytes, agreedAmount: Bytes, depositParams: Bytes)

  datatype Payment = Payment(coin: CoinCore, to: EitherAddress, time: nat)

  datatype Ledger = Ledger(
    phase: Phase,
    terms: Terms,
    commitments: Commitments,
    deadlineTimestamp: nat,
    milestoneConfirmed: bool,
    heldCommitment: Bytes,
    buyerAddressCommitment: Bytes,
    pool: map<nat, CoinCore>,   // the coins the contract owns, by their place in the coin tree
    // history
    payments: seq<Payment>,
    seller: EitherAddress,      // what the commitments were made to
    buyer: EitherAddress,
    deposit: CoinCore,
    lockedAt: nat)              // block time of the lock

  const NO_ADDRESS := EitherAddress(false, [], [])

  const INITIAL := Ledger(
    Empty, Terms([], 0, ToBuyer), Commitments([], [], []), 0, false, [], [], map[], [], NO_ADDRESS, NO_ADDRESS,
    CoinCore([], [], 0), 0)

  const TOLERANCE_SECONDS := 300
  const UINT64: nat := 0x1_0000_0000_0000_0000

  /** The witnesses a payout is proved with. */
  datatype Payout = Payout(coin: CoinCore, mtIndex: nat, coinSalt: Bytes, address: EitherAddress, addressSalt: Bytes)

  datatype Call =
    | Propose(terms: Terms, seller: EitherAddress, sellerSalt: Bytes, amount: int, amountSalt: Bytes,
              depositNonce: Bytes, depositSalt: Bytes)
    | LockEscrow(claimedLockTime: nat, resolvedKeyHash: Bytes, coin: CoinCore, coinSalt: Bytes, lockedAmount: int,
                 lockedAmountSalt: Bytes, buyer: EitherAddress, buyerSalt: Bytes, newIndex: nat)
    | AttestMilestone(secretKey: Bytes)
    | ClaimPayout(payout: Payout)
    | ReleaseOnTimeout(payout: Payout)

  const UINT128: nat := 0x1_0000_0000_0000_0000_0000_0000_0000_0000

  predicate IsAddress(a: EitherAddress) {
    |a.left| == 32 && |a.right| == 32
  }

  predicate IsCoin(c: CoinCore) {
    |c.nonce| == 32 && |c.color| == 32 && 0 <= c.value < UINT128
  }

  predicate IsPayout(p: Payout) {
    IsCoin(p.coin) && |p.coinSalt| == 32 && IsAddress(p.address) && |p.addressSalt| == 32
  }

  /** The values fit the circuits' types: 32-byte strings, 64-bit times, 128-bit amounts. */
  predicate Sized(call: Call) {
    match call
    case Propose(terms, seller, sellerSalt, amount, amountSalt, depositNonce, depositSalt) =>
      && |terms.portAuthorityKeyHash| == 32 && terms.durationSeconds < UINT64
      && IsAddress(seller) && 0 <= amount < UINT128
      && |sellerSalt| == 32 && |amountSalt| == 32 && |depositNonce| == 32 && |depositSalt| == 32
    case LockEscrow(claimed, resolved, coin, coinSalt, amount, amountSalt, buyer, buyerSalt, _) =>
      && claimed < UINT64 && |resolved| == 32 && IsCoin(coin) && |coinSalt| == 32 && 0 <= amount < UINT128
      && |amountSalt| == 32 && IsAddress(buyer) && |buyerSalt| == 32
    case AttestMilestone(secretKey) => |secretKey| == 32
    case ClaimPayout(payout) => IsPayout(payout)
    case ReleaseOnTimeout(payout) => IsPayout(payout)
  }

  predicate OpensProposal(scheme: Scheme, l: Ledger, call: Call)
    requires call.LockEscrow?
  {
    && scheme.commitBytes(call.coin.nonce, call.coinSalt) == l.commitments.depositParams
    && scheme.commitAmount(call.lockedAmount, call.lockedAmountSalt) == l.commitments.agreedAmount
    && call.coin.value == call.lockedAmount
  }

  /** The payout opens the held coin and the address committed to, and the coin is where it says. */
  predicate OpensHeld(scheme: Scheme, l: Ledger, p: Payout, addressCommitment: Bytes) {
    && scheme.commitCoin(p.coin, p.coinSalt) == l.heldCommitment
    && scheme.commitAddress(p.address, p.addressSalt) == addressCommitment
    && p.mtIndex in l.pool && l.pool[p.mtIndex] == p.coin
  }

  predicate Accepts(scheme: Scheme, l: Ledger, call: Call, blockTime: nat) {
    Sized(call) && Asserts(scheme, l, call, blockTime)
  }

  predicate Asserts(scheme: Scheme, l: Ledger, call: Call, blockTime: nat) {
    match call
    case Propose(_, _, _, _, _, _, _) => l.phase == Empty
    case LockEscrow(claimed, resolved, _, _, _, _, _, _, newIndex) =>
      && l.phase == Proposed
      && resolved == l.terms.portAuthorityKeyHash
      && claimed <= blockTime <= claimed + TOLERANCE_SECONDS < UINT64
      && claimed + l.terms.durationSeconds < UINT64
      && OpensProposal(scheme, l, call)
      && newIndex !in l.pool
    case AttestMilestone(secretKey) =>
      l.phase == Locked && !l.milestoneConfirmed && scheme.roleKeyHash(secretKey) == l.terms.portAuthorityKeyHash
    case ClaimPayout(payout) =>
      l.phase == Locked && l.milestoneConfirmed && OpensHeld(scheme, l, payout, l.commitments.sellerAddress)
    case ReleaseOnTimeout(payout) =>
      && l.phase == Locked && !l.milestoneConfirmed && blockTime >= l.deadlineTimestamp
      && OpensHeld(scheme, l, payout,
                   if l.terms.timeoutDirection.ToBuyer? then l.buyerAddressCommitment else l.commitments.sellerAddress)
  }

  function Proposes(scheme: Scheme, l: Ledger, call: Call): Ledger
    requires call.Propose?
  {
    l.(phase := Proposed, terms := call.terms, seller := call.seller,
       commitments := Commitments(
         scheme.commitAddress(call.seller, call.sellerSalt), scheme.commitAmount(call.amount, call.amountSalt),
         scheme.commitBytes(call.depositNonce, call.depositSalt)))
  }

  function Locks(scheme: Scheme, l: Ledger, call: Call, blockTime: nat): Ledger
    requires call.LockEscrow?
  {
    l.(phase := Locked, deadlineTimestamp := call.claimedLockTime + l.terms.durationSeconds,
       heldCommitment := scheme.commitCoin(call.coin, call.coinSalt),
       buyerAddressCommitment := scheme.commitAddress(call.buyer, call.buyerSalt),
       pool := l.pool[call.newIndex := call.coin], buyer := call.buyer, deposit := call.coin, lockedAt := blockTime)
  }

  function Pays(l: Ledger, p: Payout, blockTime: nat): Ledger {
    l.(phase := Released, pool := l.pool - {p.mtIndex},
       payments := l.payments + [Payment(p.coin, p.address, blockTime)])
  }

  /** A rejected call leaves the ledger alone. */
  function After(scheme: Scheme, l: Ledger, call: Call, blockTime: nat): Ledger {
    if !Accepts(scheme, l, call, blockTime) then l
    else
      match call
      case Propose(_, _, _, _, _, _, _) => Proposes(scheme, l, call)
      case LockEscrow(_, _, _, _, _, _, _, _, _) => Locks(scheme, l, call, blockTime)
      case AttestMilestone(_) => l.(milestoneConfirmed := true)
      case ClaimPayout(payout) => Pays(l, payout, blockTime)
      case ReleaseOnTimeout(payout) => Pays(l, payout, blockTime)
  }

  // ---- custody ----

  /** The contract owns the deposit exactly while it is locked, and it has left once exactly when released. */
  ghost predicate Custody(l: Ledger) {
    match l.phase
    case Locked => l.payments == [] && exists i :: l.pool == map[i := l.deposit]
    case Released => |l.payments| == 1 && l.payments[0].coin == l.deposit && l.pool == map[]
    case _ => l.payments == [] && l.pool == map[]
  }

  ghost predicate Committed(scheme: Scheme, l: Ledger) {
    && (l.phase != Empty ==> exists s :: scheme.commitAddress(l.seller, s) == l.commitments.sellerAddress)
    && (l.phase == Locked ==>
          && (exists s :: scheme.commitAddress(l.buyer, s) == l.buyerAddressCommitment)
          && (exists s :: scheme.commitCoin(l.deposit, s) == l.heldCommitment))
  }

  /** Who may have been paid, and why. */
  predicate Justified(l: Ledger, p: Payment) {
    if l.milestoneConfirmed then p.to == l.seller
    else p.time >= l.deadlineTimestamp && p.to == if l.terms.timeoutDirection.ToBuyer? then l.buyer else l.seller
  }

  predicate Anchored(l: Ledger) {
    && (l.phase == Locked || l.phase == Released ==>
          l.lockedAt + l.terms.durationSeconds <= l.deadlineTimestamp + TOLERANCE_SECONDS
          && l.deadlineTimestamp <= l.lockedAt + l.terms.durationSeconds)
    && (l.milestoneConfirmed ==> l.phase == Locked || l.phase == Released)
  }

  ghost predicate Inv(scheme: Scheme, l: Ledger) {
    && Custody(l)
    && Committed(scheme, l)
    && Anchored(l)
    && (l.phase == Released ==> Justified(l, l.payments[0]))
  }

  lemma ProposeKeepsInv(scheme: Scheme, l: Ledger, call: Call)
    requires Inv(scheme, l) && l.phase == Empty && call.Propose?
    ensures Inv(scheme, Proposes(scheme, l, call))
  {
    assert scheme.commitAddress(call.seller, call.sellerSalt) == Proposes(scheme, l, call).commitments.sellerAddress;
  }

  lemma LockKeepsInv(scheme: Scheme, l: Ledger, call: Call, blockTime: nat)
    requires Inv(scheme, l) && call.LockEscrow? && Accepts(scheme, l, call, blockTime)
    ensures Inv(scheme, Locks(scheme, l, call, blockTime))
  {
    var t := Locks(scheme, l, call, blockTime);
    assert t.pool == map[call.newIndex := call.coin];
    assert scheme.commitAddress(call.buyer, call.buyerSalt) == t.buyerAddressCommitment;
    assert scheme.commitCoin(call.coin, call.coinSalt) == t.heldCommitment;
  }

  /** A payout that opens the commitments pays out the deposit, and to the address committed to. */
  lemma PayKeepsCustody(scheme: Scheme, l: Ledger, p: Payout, addressCommitment: Bytes, blockTime: nat)
    requires Inv(scheme, l) && Binding(scheme) && l.phase == Locked && OpensHeld(scheme, l, p, addressCommitment)
    ensures Custody(Pays(l, p, blockTime)) && p.coin == l.deposit
    ensures addressCommitment == l.commitments.sellerAddress ==> p.address == l.seller
    ensures addressCommitment == l.buyerAddressCommitment ==> p.address == l.buyer
  {
    var i :| l.pool == map[i := l.deposit];
    assert p.mtIndex == i;
    assert l.pool - {i} == map[];
  }

  lemma CallKeepsInv(scheme: Scheme, l: Ledger, call: Call, blockTime: nat)
    requires Inv(scheme, l) && Binding(scheme)
    ensures Inv(scheme, After(scheme, l, call, blockTime))
  {
    if Accepts(scheme, l, call, blockTime) {
      match call
      case Propose(_, _, _, _, _, _, _) => ProposeKeepsInv(scheme, l, call);
      case LockEscrow(_, _, _, _, _, _, _, _, _) => LockKeepsInv(scheme, l, call, blockTime);
      case AttestMilestone(_) =>
      case ClaimPayout(payout) => PayKeepsCustody(scheme, l, payout, l.commitments.sellerAddress, blockTime);
      case ReleaseOnTimeout(payout) =>
        PayKeepsCustody(
          scheme, l, payout,
          if l.terms.timeoutDirection.ToBuyer? then l.buyerAddressCommitment else l.commitments.sellerAddress,
          blockTime);
    }
  }

  // ---- runs ----

  datatype Timed = Timed(call: Call, time: nat)

  /** Calls by anyone, in block order. */
  function AfterAll(scheme: Scheme, l: Ledger, calls: seq<Timed>): Ledger
    decreases calls
  {
    if calls == [] then l else AfterAll(scheme, After(scheme, l, calls[0].call, calls[0].time), calls[1..])
  }

  lemma {:induction false} RunKeepsInv(scheme: Scheme, l: Ledger, calls: seq<Timed>)
    requires Inv(scheme, l) && Binding(scheme)
    ensures Inv(scheme, AfterAll(scheme, l, calls))
    decreases calls
  {
    if calls != [] {
      CallKeepsInv(scheme, l, calls[0].call, calls[0].time);
      RunKeepsInv(scheme, After(scheme, l, calls[0].call, calls[0].time), calls[1..]);
    }
  }

  /**
   Whatever calls are made and whoever makes them, the deposit leaves at most once and whole: to the seller if
   the milestone was confirmed, otherwise only at or after the deadline and to the side the terms name.
   The deadline lies within the tolerance of the lock's block time plus the agreed duration.
   */
  lemma DepositLeavesOnce(scheme: Scheme, calls: seq<Timed>)
    requires Binding(scheme)
    ensures
      var l := AfterAll(scheme, INITIAL, calls);
      && |l.payments| <= 1
      && (|l.payments| == 1 <==> l.phase == Released)
      && (l.phase == Locked <==> l.pool != map[])
      && (l.phase == Released ==>
            var payment := l.payments[0];
            && payment.coin == l.deposit
            && (l.milestoneConfirmed ==> payment.to == l.seller)
            && (!l.milestoneConfirmed ==>
                  && payment.time >= l.deadlineTimestamp
                  && payment.time + TOLERANCE_SECONDS >= l.lockedAt + l.terms.durationSeconds
                  && payment.to == if l.terms.timeoutDirection.ToBuyer? then l.buyer else l.seller))
  {
    RunKeepsInv(scheme, INITIAL, calls);
    var l := AfterAll(scheme, INITIAL, calls);
    if l.phase == Locked {
      var i :| l.pool == map[i := l.deposit];
      assert i in l.pool;
    }
  }

  predicate Later(a: Phase, b: Phase) {
    match a
    case Empty => true
    case Proposed => !b.Empty?
    case Locked => b.Locked? || b.Released?
    case Released => b.Released?
  }

  /** What was fixed stays fixed: terms from the proposal on, deposit and deadline from the lock on. */
  predicate Fixes(l: Ledger, later: Ledger) {
    && Later(l.phase, later.phase)
    && (l.phase != Empty ==> later.terms == l.terms && later.commitments == l.commitments && later.seller == l.seller)
    && (l.phase == Locked || l.phase == Released ==>
          && later.deadlineTimestamp == l.deadlineTimestamp && later.heldCommitment == l.heldCommitment
          && later.deposit == l.deposit && later.buyer == l.buyer
          && later.buyerAddressCommitment == l.buyerAddressCommitment)
    && (l.phase == Locked && later.phase == Locked ==> later.pool == l.pool)
    && (l.phase == Released ==> later == l)
    && (l.milestoneConfirmed ==> later.milestoneConfirmed)
  }

  /** In every run the phases only advance, terms never change, and a released escrow never moves again. */
  lemma {:induction false} RunFixes(scheme: Scheme, l: Ledger, calls: seq<Timed>)
    ensures Fixes(l, AfterAll(scheme, l, calls))
    decreases calls
  {
    if calls != [] {
      assert Fixes(l, After(scheme, l, calls[0].call, calls[0].time));
      RunFixes(scheme, After(scheme, l, calls[0].call, calls[0].time), calls[1..]);
    }
  }

  // ---- the contract object ----

  class Contract {
    const scheme: Scheme
    var ledger: Ledger

    constructor (scheme: Scheme)
      ensures this.scheme == scheme && ledger == INITIAL
    {
      this.scheme := scheme;
      ledger := INITIAL;
    }

    method ProposeTerms(call: Call, blockTime: nat) returns (accepted: bool)
      requires call.Propose? && Sized(call)
      modifies this
      ensures accepted == Accepts(scheme, old(ledger), call, blockTime)
      ensures ledger == After(scheme, old(ledger), call, blockTime)
    {
      if ledger.phase != Empty {
        return false;
      }
      var address := scheme.commitAddress(call.seller, call.sellerSalt);
      var amount := scheme.commitAmount(call.amount, call.amountSalt);
      var deposit := scheme.commitBytes(call.depositNonce, call.depositSalt);
      ledger := ledger.(
        terms := call.terms, commitments := Commitments(address, amount, deposit), seller := call.seller);
      ledger := ledger.(phase := Proposed);
      return true;
    }

    method Lock(call: Call, blockTime: nat) returns (accepted: bool)
      requires call.LockEscrow? && Sized(call)
      requires call.newIndex !in ledger.pool
      modifies this
      ensures accepted == Accepts(scheme, old(ledger), call, blockTime)
      ensures ledger == After(scheme, old(ledger), call, blockTime)
    {
      if ledger.phase != Proposed || call.resolvedKeyHash != ledger.terms.portAuthorityKeyHash {
        return false;
      }
      var latest := call.claimedLockTime + TOLERANCE_SECONDS;
      if latest >= UINT64 || blockTime < call.claimedLockTime || latest < blockTime {
        return false;
      }
      var deadline := call.claimedLockTime + ledger.terms.durationSeconds;
      if deadline >= UINT64 {
        return false;
      }
      var coin := call.coin;
      if scheme.commitBytes(coin.nonce, call.coinSalt) != ledger.commitments.depositParams {
        return false;
      }
      if scheme.commitAmount(call.lockedAmount, call.lockedAmountSalt) != ledger.commitments.agreedAmount {
        return false;
      }
      if coin.value != call.lockedAmount {
        return false;
      }
      ledger := ledger.(deadlineTimestamp := deadline, lockedAt := blockTime);
      ledger := ledger.(pool := ledger.pool[call.newIndex := coin], deposit := coin,
                        heldCommitment := scheme.commitCoin(coin, call.coinSalt));
      ledger := ledger.(
        buyer := call.buyer, buyerAddressCommitment := scheme.commitAddress(call.buyer, call.buyerSalt));
      ledger := ledger.(phase := Locked);
      return true;
    }

    method Attest(secretKey: Bytes, blockTime: nat) returns (accepted: bool)
      requires |secretKey| == 32
      modifies this
      ensures accepted == Accepts(scheme, old(ledger), AttestMilestone(secretKey), blockTime)
      ensures ledger == After(scheme, old(ledger), AttestMilestone(secretKey), blockTime)
    {
      if ledger.phase != Locked || ledger.milestoneConfirmed {
        return false;
      }
      if scheme.roleKeyHash(secretKey) != ledger.terms.portAuthorityKeyHash {
        return false;
      }
      ledger := ledger.(milestoneConfirmed := true);
      return true;
    }

    /** `payOutToSeller` and `payOutToBuyer`, which differ in the commitment they check. */
    method PayOut(payout: Payout, addressCommitment: Bytes, blockTime: nat) returns (accepted: bool)
      requires ledger.phase == Locked
      modifies this
      ensures accepted == OpensHeld(scheme, old(ledger), payout, addressCommitment)
      ensures ledger == if accepted then Pays(old(ledger), payout, blockTime) else old(ledger)
    {
      if scheme.commitCoin(payout.coin, payout.coinSalt) != ledger.heldCommitment {
        return false;
      }
      if scheme.commitAddress(payout.address, payout.addressSalt) != addressCommitment {
        return false;
      }
      if payout.mtIndex !in ledger.pool || ledger.pool[payout.mtIndex] != payout.coin {
        return false;
      }
      ledger := ledger.(pool := ledger.pool - {payout.mtIndex},
                        payments := ledger.payments + [Payment(payout.coin, payout.address, blockTime)]);
      ledger := ledger.(phase := Released);
      return true;
    }

    method Claim(payout: Payout, blockTime: nat) returns (accepted: bool)
      requires IsPayout(payout)
      modifies this
      ensures accepted == Accepts(scheme, old(ledger), ClaimPayout(payout), blockTime)
      ensures ledger == After(scheme, old(ledger), ClaimPayout(payout), blockTime)
    {
      if ledger.phase != Locked || !ledger.milestoneConfirmed {
        return false;
      }
      accepted := PayOut(payout, ledger.commitments.sellerAddress, blockTime);
    }

    method Release(payout: Payout, blockTime: nat) returns (accepted: bool)
      requires IsPayout(payout)
      modifies this
      ensures accepted == Accepts(scheme, old(ledger), ReleaseOnTimeout(payout), blockTime)
      ensures ledger == After(scheme, old(ledger), ReleaseOnTimeout(payout), blockTime)
    {
      if ledger.phase != Locked || ledger.milestoneConfirmed || blockTime < ledger.deadlineTimestamp {
        return false;
      }
      if ledger.terms.timeoutDirection.ToBuyer? {
        accepted := PayOut(payout, ledger.buyerAddressCommitment, blockTime);
      } else {
        accepted := PayOut(payout, ledger.commitments.sellerAddress, blockTime);
      }
    }
  }
}
