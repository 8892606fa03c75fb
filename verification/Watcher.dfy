/**
 The watcher: when an agent acts on a deal by itself. The policy looks at a status that may be old by the time
 its call reaches the chain; the contract has the last word, so a stale call is refused and nothing else.
 */
module Watcher {
  import opened Wrappers
  import opened Utf16
  import opened EscrowContract
  import opened DealState
  import opened DealActions
  import opened Deals
  import Attempts
  import PrivateState

  datatype Role = Seller | Buyer | PortAuthority

  datatype DealStatus = DealStatus(
    state: nat, milestoneConfirmed: bool, deadlineTimestamp: nat, timeoutDirection: Direction,
    depositVerified: Option<bool>)

  const LOCKED_STATE := 2

  predicate ShouldAutoClaimDeal(role: Role, status: DealStatus) {
    && role == Seller
    && status.state == LOCKED_STATE
    && status.milestoneConfirmed
    && status.depositVerified != Some(false)
  }

  function Beneficiary(d: Direction): Role {
    match d case ToBuyer => Buyer case ToSeller => Seller
  }

  predicate ShouldAutoReleaseTimeout(role: Role, status: DealStatus, now: nat) {
    && (role == Buyer || role == Seller)
    && Beneficiary(status.timeoutDirection) == role
    && status.state == LOCKED_STATE
    && !status.milestoneConfirmed
    && now >= status.deadlineTimestamp
    && status.depositVerified != Some(false)
  }

  datatype Action = Claim | Release

  // ---- the tick ----

  /** What reading a deal's status may come to. */
  datatype Observation = Throws | NoDeal | Status(status: DealStatus, now: nat)

  datatype Issued = Issued(dealRef: Text, action: Action)

  function ActionsFor(role: Role, o: Observation): seq<Action> {
    match o
    case Status(status, now) =>
      (if ShouldAutoClaimDeal(role, status) then [Claim] else []) +
      (if ShouldAutoReleaseTimeout(role, status, now) then [Release] else [])
    case _ => []
  }

  function IssuesFor(role: Role, dealRef: Text, o: Observation): (issues: seq<Issued>)
    ensures |issues| <= 1
  {
    var actions := ActionsFor(role, o);
    seq(|actions|, i requires 0 <= i < |actions| => Issued(dealRef, actions[i]))
  }

  /** The calls a tick issues for the deals it has looked at. */
  function TickIssues(role: Role, refs: seq<Text>, observed: seq<Observation>): seq<Issued>
    requires |observed| <= |refs|
  {
    if observed == [] then []
    else
      var n := |observed| - 1;
      TickIssues(role, refs, observed[..n]) + IssuesFor(role, refs[n], observed[n])
  }

  /** Where a tick stands: at one of its awaits, or not running. */
  datatype Stage =
    | Idle
    | AwaitStatus(dealRef: Text, rest: seq<Text>)
    | AwaitClaim(dealRef: Text, status: DealStatus, now: nat, rest: seq<Text>)
    | AwaitRelease(dealRef: Text, rest: seq<Text>)

  /** A tick: the deals it found, and what the status reads came to. */
  datatype Log = Log(refs: seq<Text>, observed: seq<Observation>)

  datatype State = State(
    ticking: bool,
    stage: Stage,
    issued: seq<Issued>,        // every call made so far
    returned: nat,              // how many of them have come back
    current: Log,
    finished: seq<Log>)

  const RESTING := State(false, Idle, [], 0, Log([], []), [])

  datatype Event = Fires(refs: seq<Text>) | Reads(o: Observation) | Returns

  predicate Enabled(s: State, event: Event) {
    match event
    case Fires(_) => true
    case Reads(_) => s.stage.AwaitStatus?
    case Returns => s.stage.AwaitClaim? || s.stage.AwaitRelease?
  }

  /** On to the next deal, or to the end of the tick. */
  function Onward(s: State, rest: seq<Text>): State {
    if rest == [] then Ended(s) else s.(stage := AwaitStatus(rest[0], rest[1..]))
  }

  function Ended(s: State): State {
    s.(ticking := false, stage := Idle, finished := s.finished + [s.current], current := Log([], []))
  }

  function Makes(s: State, dealRef: Text, action: Action, stage: Stage): State {
    s.(stage := stage, issued := s.issued + [Issued(dealRef, action)])
  }

  function Releases(s: State, role: Role, dealRef: Text, status: DealStatus, now: nat, rest: seq<Text>): State {
    if ShouldAutoReleaseTimeout(role, status, now) then Makes(s, dealRef, Release, AwaitRelease(dealRef, rest))
    else Onward(s, rest)
  }

  function Seen(s: State, o: Observation): State {
    s.(current := Log(s.current.refs, s.current.observed + [o]))
  }

  function Read(s: State, role: Role, o: Observation): State
    requires s.stage.AwaitStatus?
  {
    var AwaitStatus(dealRef, rest) := s.stage;
    match o
    case Throws => Ended(Seen(s, o))
    case NoDeal => Onward(Seen(s, o), rest)
    case Status(status, now) =>
      if ShouldAutoClaimDeal(role, status)
      then Makes(Seen(s, o), dealRef, Claim, AwaitClaim(dealRef, status, now, rest))
      else Releases(Seen(s, o), role, dealRef, status, now, rest)
  }

  function Apply(role: Role, s: State, event: Event): State
    requires Enabled(s, event)
  {
    match event
    case Fires(refs) => if s.ticking then s else Onward(s.(ticking := true, current := Log(refs, [])), refs)
    case Reads(o) => Read(s, role, o)
    case Returns =>
      var t := s.(returned := s.returned + 1);
      match s.stage
      case AwaitClaim(dealRef, status, now, rest) => Releases(t, role, dealRef, status, now, rest)
      case _ => Onward(t, s.stage.rest)
  }

  // ---- what ticks issue ----

  /** The tick looked at its deals one by one, to the last or to the first that could not be read. */
  predicate Whole(log: Log) {
    var n := |log.observed|;
    && n <= |log.refs|
    && (forall i :: 0 <= i < n - 1 ==> !log.observed[i].Throws?)
    && (n < |log.refs| ==> n > 0 && log.observed[n - 1].Throws?)
  }

  function AllIssues(role: Role, finished: seq<Log>): seq<Issued>
    requires forall i :: 0 <= i < |finished| ==> Whole(finished[i])
  {
    if finished == [] then []
    else
      var n := |finished| - 1;
      assert Whole(finished[n]);
      AllIssues(role, finished[..n]) + TickIssues(role, finished[n].refs, finished[n].observed)
  }

  /** So far the tick has looked at the deals in front, and nothing threw. */
  predicate Partly(log: Log, rest: seq<Text>) {
    var n := |log.observed|;
    && n <= |log.refs| && log.refs[n..] == rest
    && forall i :: 0 <= i < n ==> !log.observed[i].Throws?
  }

  predicate AtStage(role: Role, stage: Stage, log: Log) {
    match stage
    case Idle => log == Log([], [])
    case AwaitStatus(dealRef, rest) => Partly(log, [dealRef] + rest)
    case AwaitClaim(_, status, now, rest) =>
      && Partly(log, rest) && log.observed != []
      && log.observed[|log.observed| - 1] == Status(status, now) && ShouldAutoClaimDeal(role, status)
    case AwaitRelease(_, rest) => Partly(log, rest)
  }

  ghost predicate Inv(role: Role, s: State) {
    && (s.ticking <==> !s.stage.Idle?)
    && AtStage(role, s.stage, s.current)
    && (forall i :: 0 <= i < |s.finished| ==> Whole(s.finished[i]))
    && s.issued == AllIssues(role, s.finished) + TickIssues(role, s.current.refs, s.current.observed)
    && |s.issued| == s.returned + if s.stage.AwaitClaim? || s.stage.AwaitRelease? then 1 else 0
  }

  lemma EndedKeepsInv(role: Role, s: State)
    requires Whole(s.current) && (forall i :: 0 <= i < |s.finished| ==> Whole(s.finished[i]))
    requires s.issued == AllIssues(role, s.finished) + TickIssues(role, s.current.refs, s.current.observed)
    requires |s.issued| == s.returned
    ensures Inv(role, Ended(s))
  {
    var t := Ended(s);
    assert t.finished[..|s.finished|] == s.finished;
  }

  lemma OnwardKeepsInv(role: Role, s: State, rest: seq<Text>)
    requires s.ticking && Partly(s.current, rest) && (forall i :: 0 <= i < |s.finished| ==> Whole(s.finished[i]))
    requires s.issued == AllIssues(role, s.finished) + TickIssues(role, s.current.refs, s.current.observed)
    requires |s.issued| == s.returned
    ensures Inv(role, Onward(s, rest))
  {
    if rest == [] {
      EndedKeepsInv(role, s);
    } else {
      assert [rest[0]] + rest[1..] == rest;
    }
  }

  lemma SeenIssues(role: Role, log: Log, o: Observation, dealRef: Text, rest: seq<Text>)
    requires Partly(log, [dealRef] + rest)
    ensures |log.observed| < |log.refs|
    ensures TickIssues(role, log.refs, log.observed + [o]) ==
            TickIssues(role, log.refs, log.observed) + IssuesFor(role, dealRef, o)
    ensures
      var after := Log(log.refs, log.observed + [o]);
      if o.Throws? then Whole(after) else Partly(after, rest)
  {
    var n := |log.observed|;
    assert log.refs[n] == log.refs[n..][0] == dealRef && log.refs[n + 1..] == log.refs[n..][1..] == rest;
    assert (log.observed + [o])[..n] == log.observed;
  }

  lemma MakesKeepsInv(role: Role, s: State, dealRef: Text, action: Action, stage: Stage)
    requires s.ticking && (stage.AwaitClaim? || stage.AwaitRelease?) && AtStage(role, stage, s.current)
    requires forall i :: 0 <= i < |s.finished| ==> Whole(s.finished[i])
    requires |s.current.observed| <= |s.current.refs| && |s.issued| == s.returned
    requires s.issued + [Issued(dealRef, action)] ==
             AllIssues(role, s.finished) + TickIssues(role, s.current.refs, s.current.observed)
    ensures Inv(role, Makes(s, dealRef, action, stage))
  {
  }

  /** A status seen leads on as the policy asks for. */
  lemma StatusKeepsInv(role: Role, s: State, dealRef: Text, status: DealStatus, now: nat, rest: seq<Text>)
    requires s.ticking && Partly(s.current, rest) && (forall i :: 0 <= i < |s.finished| ==> Whole(s.finished[i]))
    requires s.current.observed != [] && s.current.observed[|s.current.observed| - 1] == Status(status, now)
    requires s.issued + IssuesFor(role, dealRef, Status(status, now)) ==
             AllIssues(role, s.finished) + TickIssues(role, s.current.refs, s.current.observed)
    requires |s.issued| == s.returned
    ensures ShouldAutoClaimDeal(role, status) ==>
              Inv(role, Makes(s, dealRef, Claim, AwaitClaim(dealRef, status, now, rest)))
    ensures !ShouldAutoClaimDeal(role, status) ==> Inv(role, Releases(s, role, dealRef, status, now, rest))
  {
    var issues := IssuesFor(role, dealRef, Status(status, now));
    if ShouldAutoClaimDeal(role, status) {
      assert issues == [Issued(dealRef, Claim)];
      MakesKeepsInv(role, s, dealRef, Claim, AwaitClaim(dealRef, status, now, rest));
    } else if ShouldAutoReleaseTimeout(role, status, now) {
      assert issues == [Issued(dealRef, Release)];
      MakesKeepsInv(role, s, dealRef, Release, AwaitRelease(dealRef, rest));
    } else {
      assert issues == [];
      OnwardKeepsInv(role, s, rest);
    }
  }

  lemma ReadKeepsInv(role: Role, s: State, o: Observation)
    requires Inv(role, s) && s.stage.AwaitStatus?
    ensures Inv(role, Read(s, role, o))
  {
    var AwaitStatus(dealRef, rest) := s.stage;
    var t := Seen(s, o);
    SeenIssues(role, s.current, o, dealRef, rest);
    SeenAll(role, s, o, dealRef);
    match o
    case Throws => EndedKeepsInv(role, t);
    case NoDeal => OnwardKeepsInv(role, t, rest);
    case Status(status, now) => StatusKeepsInv(role, t, dealRef, status, now, rest);
  }

  lemma SeenAll(role: Role, s: State, o: Observation, dealRef: Text)
    requires (forall i :: 0 <= i < |s.finished| ==> Whole(s.finished[i])) && |s.current.observed| < |s.current.refs|
    requires s.issued == AllIssues(role, s.finished) + TickIssues(role, s.current.refs, s.current.observed)
    requires TickIssues(role, s.current.refs, s.current.observed + [o]) ==
             TickIssues(role, s.current.refs, s.current.observed) + IssuesFor(role, dealRef, o)
    ensures s.issued + IssuesFor(role, dealRef, o) ==
            AllIssues(role, s.finished) + TickIssues(role, s.current.refs, s.current.observed + [o])
  {
  }

  lemma StepKeepsInv(role: Role, s: State, event: Event)
    requires Inv(role, s) && Enabled(s, event)
    ensures Inv(role, Apply(role, s, event))
  {
    match event
    case Fires(refs) =>
      if !s.ticking {
        assert refs[0..] == refs;
        OnwardKeepsInv(role, s.(ticking := true, current := Log(refs, [])), refs);
      }
    case Reads(o) => ReadKeepsInv(role, s, o);
    case Returns => OnwardKeepsInv(role, s.(returned := s.returned + 1), s.stage.rest);
  }

  ghost predicate Run(role: Role, ss: seq<State>, events: seq<Event>) {
    && |ss| == |events| + 1
    && ss[0] == RESTING
    && forall i {:trigger events[i]} :: 0 <= i < |events| ==>
         Enabled(ss[i], events[i]) && ss[i + 1] == Apply(role, ss[i], events[i])
  }

  lemma {:induction false} RunInv(role: Role, ss: seq<State>, events: seq<Event>, i: nat)
    requires Run(role, ss, events) && i <= |events|
    ensures Inv(role, ss[i])
  {
    if i > 0 {
      RunInv(role, ss, events, i - 1);
      StepKeepsInv(role, ss[i - 1], events[i - 1]);
    }
  }

  /**
   However the timer fires while a tick waits, ticks do not overlap: what has been issued is what the policy asks
   for on the statuses the finished ticks read, tick by tick, then what the running one read; no deal is asked more
   than one call by one look; and at most one call is ever awaited.
   */
  lemma TicksDoNotOverlap(role: Role, ss: seq<State>, events: seq<Event>, i: nat)
    requires Run(role, ss, events) && i <= |events|
    ensures
      var s := ss[i];
      && (forall k :: 0 <= k < |s.finished| ==> Whole(s.finished[k]))
      && |s.current.observed| <= |s.current.refs| && (!s.ticking ==> s.current.refs == [])
      && s.issued == AllIssues(role, s.finished) + TickIssues(role, s.current.refs, s.current.observed)
      && s.returned <= |s.issued| <= s.returned + 1
  {
    RunInv(role, ss, events, i);
  }

  class DealWatcher {
    const role: Role
    var ticking: bool
    var stage: Stage
    var issued: seq<Issued>
    ghost var returned: nat
    ghost var current: Log
    ghost var finished: seq<Log>

    ghost function View(): State
      reads this
    {
      State(ticking, stage, issued, returned, current, finished)
    }

    constructor (role: Role)
      requires role != PortAuthority    // that role gets no watcher
      ensures this.role == role && View() == RESTING
    {
      this.role := role;
      ticking, stage, issued := false, Idle, [];
      returned, current, finished := 0, Log([], []), [];
    }

    /** The timer fires; a tick in progress makes it do nothing. */
    method Tick(refs: seq<Text>)
      modifies this
      ensures View() == Apply(role, old(View()), Fires(refs))
    {
      if ticking {
        return;
      }
      ticking, current := true, Log(refs, []);
      NextDeal(refs);
    }

    /** The loop takes its next deal, up to the read of its status; after the last one the tick is over. */
    method NextDeal(rest: seq<Text>)
      modifies this
      ensures View() == Onward(old(View()), rest)
    {
      if |rest| > 0 {
        stage := AwaitStatus(rest[0], rest[1..]);
      } else {
        EndTick();
      }
    }

    method EndTick()
      modifies this
      ensures View() == Ended(old(View()))
    {
      ticking, stage := false, Idle;
      finished, current := finished + [current], Log([], []);
    }

    /** `checkOneDeal` from the status on, up to its next await. */
    method StatusRead(o: Observation)
      requires stage.AwaitStatus?
      modifies this
      ensures View() == Apply(role, old(View()), Reads(o))
    {
      var AwaitStatus(dealRef, rest) := stage;
      current := Log(current.refs, current.observed + [o]);
      if o.Throws? {
        EndTick();
        return;
      }
      if o.NoDeal? {
        NextDeal(rest);
        return;
      }
      if ShouldAutoClaimDeal(role, o.status) {
        issued, stage := issued + [Issued(dealRef, Claim)], AwaitClaim(dealRef, o.status, o.now, rest);
        return;
      }
      CheckRelease(dealRef, o.status, o.now, rest);
    }

    method CheckRelease(dealRef: Text, status: DealStatus, now: nat, rest: seq<Text>)
      modifies this
      ensures View() == Releases(old(View()), role, dealRef, status, now, rest)
    {
      if ShouldAutoReleaseTimeout(role, status, now) {
        issued, stage := issued + [Issued(dealRef, Release)], AwaitRelease(dealRef, rest);
        return;
      }
      NextDeal(rest);
    }

    /** A claim or a release has come back; a failure is logged and left to the next tick. */
    method CallReturned()
      requires stage.AwaitClaim? || stage.AwaitRelease?
      modifies this
      ensures View() == Apply(role, old(View()), Returns)
    {
      returned := returned + 1;
      match stage
      case AwaitClaim(dealRef, status, now, rest) => CheckRelease(dealRef, status, now, rest);
      case AwaitRelease(_, rest) => NextDeal(rest);
    }
  }

  // ---- what a status says ----

  function Ordinal(p: Phase): nat {
    match p case Empty => 0 case Proposed => 1 case Locked => 2 case Released => 3
  }

  /** `getDealStatus` of a ledger: the seller, and only the seller, checks the deposit once it is locked. */
  function StatusOf(role: Role, e: CoinEncoder, scheme: Scheme, l: Ledger, previous: Option<DealState>): DealStatus {
    var verified :=
      if role != Seller || Ordinal(l.phase) < LOCKED_STATE || previous.None? then None
      else
        match DepositVerification(e, scheme, previous.value, l.heldCommitment)
        case Some(matches) => Some(matches)
        case None => Some(false);      // a check that throws counts as failed
    DealStatus(Ordinal(l.phase), l.milestoneConfirmed, l.deadlineTimestamp, l.terms.timeoutDirection, verified)
  }

  /** What each watcher does about a ledger it sees as it is. */
  function Acts(role: Role, e: CoinEncoder, scheme: Scheme, l: Ledger, previous: Option<DealState>, now: nat)
    : seq<Action>
  {
    ActionsFor(role, Status(StatusOf(role, e, scheme, l, previous), now))
  }

  predicate Doubted(e: CoinEncoder, scheme: Scheme, l: Ledger, previous: Option<DealState>) {
    previous.Some? && DepositVerification(e, scheme, previous.value, l.heldCommitment) != Some(true)
  }

  /**
   The two watchers never compete and never idle together: on a locked deal that is attested, or past its
   deadline, exactly one of them acts, by exactly one call, and the terms say which; before that neither does.
   A seller that doubts the deposit leaves the deal alone, and nobody acts on a deal that is not locked.
   */
  lemma ExactlyOneWatcherActs(
    e: CoinEncoder, scheme: Scheme, l: Ledger, sellers: Option<DealState>, buyers: Option<DealState>, now: nat)
    ensures
      var seller, buyer := Acts(Seller, e, scheme, l, sellers, now), Acts(Buyer, e, scheme, l, buyers, now);
      var doubted := Doubted(e, scheme, l, sellers);
      && (l.phase != Locked ==> seller == [] && buyer == [])
      && (l.phase == Locked && l.milestoneConfirmed ==> seller == (if doubted then [] else [Claim]) && buyer == [])
      && (l.phase == Locked && !l.milestoneConfirmed && now < l.deadlineTimestamp ==> seller == [] && buyer == [])
      && (l.phase == Locked && !l.milestoneConfirmed && now >= l.deadlineTimestamp ==>
            if l.terms.timeoutDirection.ToBuyer? then seller == [] && buyer == [Release]
            else seller == (if doubted then [] else [Release]) && buyer == [])
  {
  }

  /** The call an action sends. */
  function CallOf(action: Action, payout: Payout): Call {
    match action
    case Claim => ClaimPayout(payout)
    case Release => ReleaseOnTimeout(payout)
  }

  /**
   In a deal locked as offered the seller's watcher has nothing to doubt, and its call, made on a status that is
   still current, is accepted and pays the seller.
   */
  lemma SellersWatcherSucceeds(
    scheme: Scheme, e: CoinEncoder, offered: Offered, refund: Refund, index: nat, l: Ledger, c: PrivateState.Coercions,
    now: nat, time: nat, action: Action)
    requires Complete(offered) && Holds(scheme, e, offered, refund, index, l) && l.phase == Locked && now <= time
    requires Sized(offered.call) && IsCoin(DepositOf(e, offered))
    ensures
      var loaded := LoadDeal(SaveDeal(offered.state), c);
      !Doubted(e, scheme, l, loaded) &&
      (action in Acts(Seller, e, scheme, l, loaded, now) ==>
         var payout := SellersPayout(e, SaveDeal(offered.state), c, index);
         && payout.Some?
         && Accepts(scheme, l, CallOf(action, payout.value), time)
         && After(scheme, l, CallOf(action, payout.value), time).payments ==
            l.payments + [Payment(DepositOf(e, offered), offered.call.seller, time)])
  {
    var loaded := LoadDeal(SaveDeal(offered.state), c);
    assert !Doubted(e, scheme, l, loaded) by {
      DepositIsVerified(scheme, e, offered, refund, index, l, c);
    }
    if action in Acts(Seller, e, scheme, l, loaded, now) {
      ExactlyOneWatcherActs(e, scheme, l, loaded, None, now);
      if l.milestoneConfirmed {
        ClaimIsAccepted(scheme, e, offered, refund, index, l, c, time);
      } else {
        SellersReleaseIsAccepted(scheme, e, offered, refund, index, l, c, time);
      }
    }
  }

  /** So is the buyer's, if the last attempt to lock is the one that landed. */
  lemma BuyersWatcherSucceeds(
    scheme: Scheme, e: CoinEncoder, offered: Offered, refund: Refund, index: nat, l: Ledger, s: DealState,
    c: PrivateState.Coercions, now: nat, time: nat, action: Action)
    requires Complete(offered) && Holds(scheme, e, offered, refund, index, l) && l.phase == Locked && now <= time
    requires Sized(offered.call) && IsCoin(DepositOf(e, offered)) && IsAddress(refund.address) && |refund.salt| == 32
    requires Saves(e, offered, refund, s)
    ensures
      var payout := BuyersPayout(SaveDeal(s), c, index);
      action in Acts(Buyer, e, scheme, l, Some(s), now) ==>
        && payout.Some?
        && Accepts(scheme, l, CallOf(action, payout.value), time)
        && After(scheme, l, CallOf(action, payout.value), time).payments ==
           l.payments + [Payment(DepositOf(e, offered), refund.address, time)]
  {
    BuyersPayoutIs(e, offered, refund, s, index, c);
    ExactlyOneWatcherActs(e, scheme, l, None, Some(s), now);
    if !l.milestoneConfirmed && now >= l.deadlineTimestamp && l.terms.timeoutDirection == ToBuyer {
      RefundPaysBuyer(scheme, e, offered, refund, index, l, s, c, time);
    }
  }

  // ---- the buyer's watcher over whole runs ----

  /** The buyer's watcher asks for a release exactly when the refund is due and the terms favour the buyer. */
  lemma BuyerActsIffDue(e: CoinEncoder, scheme: Scheme, l: Ledger, previous: Option<DealState>, now: nat)
    ensures Acts(Buyer, e, scheme, l, previous, now) ==
            if l.terms.timeoutDirection.ToBuyer? && Attempts.Due(l, now) then [Release] else []
  {
    ExactlyOneWatcherActs(e, scheme, l, None, previous, now);
  }

  /**
   Where attempts are careful, the buyer's watcher acts exactly when the refund is due, and then its call, made from
   whatever the agent has saved by then, is accepted and pays the deposit to the buyer's own address.
   */
  lemma CarefulWatcherIsPaid(
    env: Attempts.Env, ss: seq<Attempts.State>, events: seq<Attempts.Event>, i: nat, previous: Option<DealState>,
    now: nat, time: nat)
    requires Binding(env.scheme) && Attempts.CarefulRun(env, ss, events) && i <= |events| && ss[i].landed.Some?
    requires ss[i].ledger.terms.timeoutDirection == ToBuyer && now <= time
    ensures
      var s := ss[i];
      var payout := Attempts.Prepared(env, s, s.landed.value.index);
      && payout.Some?
      && Acts(Buyer, env.encoder, env.scheme, s.ledger, previous, now) ==
         (if Attempts.Due(s.ledger, now) then [Release] else [])
      && (Attempts.Due(s.ledger, now) ==>
            && Accepts(env.scheme, s.ledger, CallOf(Release, payout.value), time)
            && After(env.scheme, s.ledger, CallOf(Release, payout.value), time).payments ==
               s.ledger.payments + [Payment(s.ledger.deposit, Attempts.OwnAddress(env), time)])
  {
    Attempts.CarefulRefundIsAccepted(env, ss, events, i, time);
    BuyerActsIffDue(env.encoder, env.scheme, ss[i].ledger, previous, now);
  }

  /**
   A stranded buyer's watcher keeps asking in vain: from the deadline on every look at the deal leads to a release that
   is refused whenever it lands, and it leaves the deal stranded.
   */
  lemma StrandedWatcherAsksInVain(
    env: Attempts.Env, ss: seq<Attempts.State>, events: seq<Attempts.Event>, i: nat, index: nat,
    previous: Option<DealState>, now: nat, time: nat)
    requires Binding(env.scheme) && Attempts.Run(env, ss, events) && i <= |events|
    requires Attempts.Stranded(ss[i], index) && now >= ss[i].ledger.deadlineTimestamp
    ensures Acts(Buyer, env.encoder, env.scheme, ss[i].ledger, previous, now) == [Release]
    ensures
      var payout := Attempts.Prepared(env, ss[i], index);
      payout.Some? && !Accepts(env.scheme, ss[i].ledger, CallOf(Release, payout.value), time)
    ensures
      var t := Attempts.Refunded(env, ss[i], index, time);
      t.ledger == ss[i].ledger && Attempts.Stranded(t, index)
  {
    BuyerActsIffDue(env.encoder, env.scheme, ss[i].ledger, previous, now);
    Attempts.StrandedForGood(env, ss, events, i, index, time);
  }
}
