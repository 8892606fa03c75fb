/**
 What let a settle request through and what turned it away: every record and every refusal goes back to the arrival of
 its request, to the verdict on its SP1 proof, or to the moment it held the mutex.
 */
module Admission {
  import opened Utf16
  import opened DocumentCrypto
  import opened Hex
  import opened L2
  import Evidence

  // ---- arrivals ----

  /** The request schema. */
  predicate WellFormed(p: Presentation) {
    && |p.holder| > 0 && |p.proofSystem| > 0 && |p.documentHash| > 0 && |p.documentIdHash| > 0
    && |p.holderPubKeyHash| == 64 && |p.proofBytes| > 0 && |p.ministryPublicKey| > 0
  }

  predicate ByZkProof(p: Presentation) {
    p.proofSystem == SP1_GROTH16 || p.proofSystem == SP1_PLONK
  }

  predicate GoodKey(k: KeyRing, p: Presentation) {
    p.ministryPublicKey in k.authorized && p.ministryPublicKey !in k.revoked
  }

  /** The signature verifies over the digest of the bytes both hash texts stand for. */
  predicate SignedOver(env: Env, p: Presentation) {
    env.crypto.verify(
      p.ministryPublicKey, env.crypto.sha256(Combined(p.documentHash, p.documentIdHash)), p.proofBytes)
  }

  /** Nothing is wrong with the request apart from the proof. */
  predicate Presentable(env: Env, k: KeyRing, p: Presentation) {
    WellFormed(p) && GoodKey(k, p) && !p.hasRawDocument && (env.mode.Sp1? ==> ByZkProof(p))
  }

  /** What becomes of a request on arrival, in all cases. */
  lemma VerdictIs(env: Env, k: KeyRing, p: Presentation)
    ensures
      Judge(env, k.authorized, k.revoked, p) ==
      if WellFormed(p) && !GoodKey(k, p) then Refuse(403)
      else if !Presentable(env, k, p) then Refuse(400)
      else if ByZkProof(p) then AwaitSp1
      else if SignedOver(env, p) then EnterMutex
      else Refuse(400)
  {
    DecodeEncode(env.crypto.sha256(Combined(p.documentHash, p.documentIdHash)));
  }

  // ---- what holds of everyone under way ----

  /** Who awaits a proof came in order; who is in line or has a record is proven too. */
  ghost predicate Checked(came: (nat, Presentation) -> bool, proven: (nat, Presentation) -> bool, s: State) {
    && Awaiting(came, s.verifying)
    && InLine(proven, Line(s))
    && Owning(proven, s.owners, s.asked)
  }

  ghost predicate Awaiting(came: (nat, Presentation) -> bool, verifying: map<nat, Presentation>) {
    forall job :: job in verifying ==> came(job, verifying[job])
  }

  ghost predicate InLine(proven: (nat, Presentation) -> bool, line: seq<Task>) {
    forall i :: 0 <= i < |line| && line[i].Settle? ==> proven(line[i].job, line[i].p)
  }

  ghost predicate Owning(proven: (nat, Presentation) -> bool, owners: seq<nat>, asked: map<nat, Presentation>) {
    forall i :: 0 <= i < |owners| ==> owners[i] in asked && proven(owners[i], asked[owners[i]])
  }

  lemma OwningStays(
    proven: (nat, Presentation) -> bool, owners: seq<nat>, asked: map<nat, Presentation>, later: map<nat, Presentation>)
    requires Owning(proven, owners, asked)
    requires forall job :: job in asked ==> job in later && later[job] == asked[job]
    ensures Owning(proven, owners, later)
  {
  }

  lemma ArrivalAwaits(came: (nat, Presentation) -> bool, s: State, p: Presentation, verdict: Verdict)
    requires Awaiting(came, s.verifying) && (verdict.AwaitSp1? ==> came(s.next, p))
    ensures Awaiting(came, Route(s, p, verdict).verifying)
  {
  }

  lemma ArrivalInLine(proven: (nat, Presentation) -> bool, s: State, p: Presentation, verdict: Verdict)
    requires InLine(proven, Line(s)) && (verdict.EnterMutex? ==> proven(s.next, p))
    ensures InLine(proven, Line(Route(s, p, verdict)))
  {
    ArrivalJoins(s, p, verdict);
  }

  lemma ArrivalKeepsChecked(
    came: (nat, Presentation) -> bool, proven: (nat, Presentation) -> bool, s: State, p: Presentation,
    verdict: Verdict)
    requires Checked(came, proven, s) && forall job :: job in s.asked ==> job < s.next
    requires verdict.AwaitSp1? ==> came(s.next, p)
    requires verdict.EnterMutex? ==> proven(s.next, p)
    ensures Checked(came, proven, Route(s, p, verdict))
  {
    ArrivalAwaits(came, s, p, verdict);
    ArrivalInLine(proven, s, p, verdict);
    ArrivalGrowsAsked(s, p, verdict);
    OwningStays(proven, s.owners, s.asked, Route(s, p, verdict).asked);
  }

  lemma VerdictKeepsChecked(
    env: Env, came: (nat, Presentation) -> bool, proven: (nat, Presentation) -> bool, s: State, job: nat, valid: bool)
    requires Checked(came, proven, s) && job in s.verifying && (valid ==> proven(job, s.verifying[job]))
    ensures Checked(came, proven, Sp1Verified(s, job, valid))
  {
    LineMoves(env, s, DoSp1(job, valid));
  }

  lemma HeadIsProven(
    proven: (nat, Presentation) -> bool, line: seq<Task>, owners: seq<nat>, asked: map<nat, Presentation>,
    later: seq<nat>)
    requires InLine(proven, line) && Owning(proven, owners, asked) && line != [] && Remembered(line, map[], asked)
    requires later == owners || (line[0].Settle? && later == owners + [line[0].job])
    ensures InLine(proven, line[1..]) && Owning(proven, later, asked)
  {
  }

  lemma FinishKeepsChecked(
    env: Env, came: (nat, Presentation) -> bool, proven: (nat, Presentation) -> bool, s: State, now: Text)
    requires Checked(came, proven, s) && Remembered(Line(s), s.verifying, s.asked) && s.holder.Some?
    ensures Checked(came, proven, Apply(env, s, DoFinish(now)))
  {
    var t := Apply(env, s, DoFinish(now));
    FinishLeaves(env, s, now);
    Evidence.FinishOwners(env, s, now);
    HeadOfLine(s, t);
    HeadIsProven(proven, Line(s), s.owners, s.asked, t.owners);
  }

  lemma StepKeepsChecked(
    env: Env, came: (nat, Presentation) -> bool, proven: (nat, Presentation) -> bool, s: State, step: Step)
    requires Inv(env, s) && Checked(came, proven, s) && Enabled(s, step)
    requires step.DoSettle? ==>
               var verdict := Judge(env, s.keys.authorized, s.keys.revoked, step.p);
               && (verdict.AwaitSp1? ==> came(s.next, step.p))
               && (verdict.EnterMutex? ==> proven(s.next, step.p))
    requires step.DoSp1? && step.valid ==> proven(step.job, s.verifying[step.job])
    ensures Checked(came, proven, Apply(env, s, step))
  {
    match step
    case DoSettle(p) => ArrivalKeepsChecked(came, proven, s, p, Judge(env, s.keys.authorized, s.keys.revoked, p));
    case DoSp1(job, valid) => VerdictKeepsChecked(env, came, proven, s, job, valid);
    case DoFinish(now) => FinishKeepsChecked(env, came, proven, s, now);
    case _ => LineMoves(env, s, step);
  }

  lemma WiderChecked(
    came: (nat, Presentation) -> bool, proven: (nat, Presentation) -> bool, more: (nat, Presentation) -> bool,
    fine: (nat, Presentation) -> bool, s: State)
    requires Checked(came, proven, s)
    requires forall job, p :: came(job, p) ==> more(job, p)
    requires forall job, p :: proven(job, p) ==> fine(job, p)
    ensures Checked(more, fine, s)
  {
  }

  // ---- runs ----

  /** Step g is the arrival of the request, with nothing wrong but perhaps the proof. */
  ghost predicate ArrivesAt(env: Env, ss: seq<State>, steps: seq<Step>, g: nat, job: nat, p: Presentation)
    requires g < |steps| < |ss|
  {
    steps[g] == DoSettle(p) && ss[g].next == job && Presentable(env, ss[g].keys, p)
  }

  ghost predicate Came(env: Env, ss: seq<State>, steps: seq<Step>, i: nat, job: nat, p: Presentation)
    requires i <= |steps| < |ss|
  {
    exists g :: 0 <= g < i && ArrivesAt(env, ss, steps, g, job, p)
  }

  /** The proof came out valid before step i: by a verdict where it is an SP1 proof, otherwise on arrival. */
  ghost predicate ProofHolds(env: Env, steps: seq<Step>, i: nat, job: nat, p: Presentation)
    requires i <= |steps|
  {
    if ByZkProof(p) then exists v :: 0 <= v < i && steps[v] == DoSp1(job, true) else SignedOver(env, p)
  }

  ghost function CameBy(env: Env, ss: seq<State>, steps: seq<Step>, i: nat): (nat, Presentation) -> bool
    requires i <= |steps| < |ss|
  {
    (job: nat, p: Presentation) => Came(env, ss, steps, i, job, p) && ByZkProof(p)
  }

  ghost function ProvenBy(env: Env, ss: seq<State>, steps: seq<Step>, i: nat): (nat, Presentation) -> bool
    requires i <= |steps| < |ss|
  {
    (job: nat, p: Presentation) => Came(env, ss, steps, i, job, p) && ProofHolds(env, steps, i, job, p)
  }

  lemma ArrivalCame(env: Env, ss: seq<State>, steps: seq<Step>, i: nat)
    requires i < |steps| < |ss| && steps[i].DoSettle?
    ensures
      var verdict := Judge(env, ss[i].keys.authorized, ss[i].keys.revoked, steps[i].p);
      && (verdict.AwaitSp1? ==> CameBy(env, ss, steps, i + 1)(ss[i].next, steps[i].p))
      && (verdict.EnterMutex? ==> ProvenBy(env, ss, steps, i + 1)(ss[i].next, steps[i].p))
  {
    VerdictIs(env, ss[i].keys, steps[i].p);
    if Presentable(env, ss[i].keys, steps[i].p) {
      assert ArrivesAt(env, ss, steps, i, ss[i].next, steps[i].p);
    }
  }

  lemma LaterCame(env: Env, ss: seq<State>, steps: seq<Step>, i: nat, job: nat, p: Presentation)
    requires i < |steps| < |ss|
    ensures Came(env, ss, steps, i, job, p) ==> Came(env, ss, steps, i + 1, job, p)
    ensures ProofHolds(env, steps, i, job, p) ==> ProofHolds(env, steps, i + 1, job, p)
  {
  }

  lemma LaterChecked(env: Env, ss: seq<State>, steps: seq<Step>, i: nat, s: State)
    requires i < |steps| < |ss| && Checked(CameBy(env, ss, steps, i), ProvenBy(env, ss, steps, i), s)
    ensures Checked(CameBy(env, ss, steps, i + 1), ProvenBy(env, ss, steps, i + 1), s)
  {
    forall job: nat, p | Came(env, ss, steps, i, job, p) ensures Came(env, ss, steps, i + 1, job, p) {
      LaterCame(env, ss, steps, i, job, p);
    }
    forall job: nat, p | ProofHolds(env, steps, i, job, p) ensures ProofHolds(env, steps, i + 1, job, p) {
      LaterCame(env, ss, steps, i, job, p);
    }
    WiderChecked(CameBy(env, ss, steps, i), ProvenBy(env, ss, steps, i), CameBy(env, ss, steps, i + 1),
                 ProvenBy(env, ss, steps, i + 1), s);
  }

  lemma VerdictProves(env: Env, ss: seq<State>, steps: seq<Step>, i: nat)
    requires i < |steps| < |ss| && steps[i].DoSp1? && steps[i].valid && steps[i].job in ss[i].verifying
    requires Awaiting(CameBy(env, ss, steps, i + 1), ss[i].verifying)
    ensures ProvenBy(env, ss, steps, i + 1)(steps[i].job, ss[i].verifying[steps[i].job])
  {
    assert steps[i] == DoSp1(steps[i].job, true);
  }

  lemma {:induction false} RunIsChecked(env: Env, ss: seq<State>, steps: seq<Step>, i: nat)
    requires Run(env, ss, steps) && i <= |steps|
    ensures Checked(CameBy(env, ss, steps, i), ProvenBy(env, ss, steps, i), ss[i])
  {
    if i > 0 {
      var came, proven := CameBy(env, ss, steps, i), ProvenBy(env, ss, steps, i);
      RunIsChecked(env, ss, steps, i - 1);
      RunInv(env, ss, steps, i - 1);
      LaterChecked(env, ss, steps, i - 1, ss[i - 1]);
      if steps[i - 1].DoSettle? {
        ArrivalCame(env, ss, steps, i - 1);
      }
      if steps[i - 1].DoSp1? && steps[i - 1].valid {
        VerdictProves(env, ss, steps, i - 1);
      }
      StepKeepsChecked(env, came, proven, ss[i - 1], steps[i - 1]);
    }
  }

  // ---- records ----

  /** Step h appends record k, as approved, for the holder of the mutex; it states the request and the time. */
  ghost predicate MadeAt(env: Env, ss: seq<State>, steps: seq<Step>, h: nat, k: nat, record: Record)
    requires h < |steps| < |ss|
  {
    && steps[h].DoFinish? && |ss[h].db| == k && |ss[h + 1].db| == k + 1 && ss[h + 1].db[k].status == APPROVED
    && ss[h].holder.Some? && ss[h].holder.value.task.Settle?
    && var p := ss[h].holder.value.task.p;
       && record.settledAt == steps[h].now
       && record.documentHash == p.documentHash && record.documentIdHash == p.documentIdHash
       && record.ministryPublicKeyHash == Sha256Hash(env.crypto, p.ministryPublicKey)
       && record.holderDid == p.holder && record.proofSystem == p.proofSystem
  }

  lemma NextRecords(env: Env, s: State, step: Step, t: State)
    requires Exclusive(s) && Next(env, s, step, t)
    ensures Grows(s.db, t.db) && |t.db| <= |s.db| + 1
    ensures |t.db| > |s.db| ==> step.DoFinish? && s.holder.Some? && s.holder.value.task.Settle?
  {
    StepGrows(env, s, step);
    OthersKeepRecords(env, s, step);
  }

  /** The step at which a record was made, and the request it was made for. */
  lemma {:induction false} RecordIsMade(env: Env, ss: seq<State>, steps: seq<Step>, i: nat, k: nat) returns (h: nat)
    requires Run(env, ss, steps) && i <= |steps| && k < |ss[i].db|
    ensures h < i && MadeAt(env, ss, steps, h, k, ss[i].db[k])
    decreases i
  {
    assert i > 0;
    RunInv(env, ss, steps, i - 1);
    NextRecords(env, ss[i - 1], steps[i - 1], ss[i]);
    if k < |ss[i - 1].db| {
      h := RecordIsMade(env, ss, steps, i - 1, k);
    } else {
      h := i - 1;
    }
  }

  /**
   Every record, in every run, SP1 proofs and restarts included: made as approved, stating what was presented and when
   it was made, for a request that arrived in order under a key good at that time, and whose proof held.
   */
  lemma RecordIsAdmitted(env: Env, ss: seq<State>, steps: seq<Step>, i: nat, k: nat)
    returns (g: nat, h: nat, p: Presentation)
    requires Run(env, ss, steps) && i <= |steps| && k < |ss[i].db|
    ensures h < i && MadeAt(env, ss, steps, h, k, ss[i].db[k])
    ensures ss[h].holder.value.task.p == p
    ensures g < h && ArrivesAt(env, ss, steps, g, ss[h].holder.value.task.job, p)
    ensures ProofHolds(env, steps, h, ss[h].holder.value.task.job, p)
  {
    h := RecordIsMade(env, ss, steps, i, k);
    var task := ss[h].holder.value.task;
    RunIsChecked(env, ss, steps, h);
    assert Line(ss[h])[0] == task;
    assert ProvenBy(env, ss, steps, h)(task.job, task.p);
    p := task.p;
    g :| 0 <= g < h && ArrivesAt(env, ss, steps, g, task.job, p);
  }

  // ---- refusals ----

  /** Why a request is refused on arrival. */
  predicate TurnedAway(env: Env, k: KeyRing, p: Presentation, code: nat) {
    if WellFormed(p) && !GoodKey(k, p) then code == 403
    else code == 400 && (!Presentable(env, k, p) || (!ByZkProof(p) && !SignedOver(env, p)))
  }

  /** Step h refuses the request, and for a reason. */
  ghost predicate RefusedAt(env: Env, ss: seq<State>, steps: seq<Step>, h: nat, job: nat, code: nat)
    requires h < |steps| < |ss|
  {
    match steps[h]
    case DoSettle(p) => ss[h].next == job && TurnedAway(env, ss[h].keys, p, code)
    case DoSp1(verified, valid) => verified == job && !valid && code == 400
    case DoFinish(_) =>
      && ss[h].holder.Some? && ss[h].holder.value.task.Settle? && ss[h].holder.value.task.job == job && code == 409
      && exists k :: 0 <= k < |ss[h].db| && ss[h].db[k].documentIdHash == ss[h].holder.value.task.p.documentIdHash
    case _ => false
  }

  lemma NextRefuses(env: Env, ss: seq<State>, steps: seq<Step>, h: nat, job: nat)
    requires h < |steps| < |ss| && Exclusive(ss[h]) && Next(env, ss[h], steps[h], ss[h + 1])
    requires job in ss[h + 1].replies && ss[h + 1].replies[job].Refused?
    requires !(job in ss[h].replies && ss[h].replies[job] == ss[h + 1].replies[job])
    ensures RefusedAt(env, ss, steps, h, job, ss[h + 1].replies[job].code)
  {
    var s := ss[h];
    match steps[h]
    case DoSettle(p) => VerdictIs(env, s.keys, p);
    case DoFinish(now) => FinishRefuses(env, s, now, job);
    case _ =>
  }

  lemma FinishRefuses(env: Env, s: State, now: Text, job: nat)
    requires s.holder.Some? && Exclusive(s)
    requires var t := Apply(env, s, DoFinish(now)); job in t.replies && t.replies[job].Refused?
    requires !(job in s.replies && s.replies[job] == Apply(env, s, DoFinish(now)).replies[job])
    ensures s.holder.value.task.Settle? && s.holder.value.task.job == job
    ensures Apply(env, s, DoFinish(now)).replies[job] == Refused(409)
    ensures exists k :: 0 <= k < |s.db| && s.db[k].documentIdHash == s.holder.value.task.p.documentIdHash
  {
  }

  /** Every refusal has its reason: the request, the key, the proof, or a record with the same identifier hash. */
  lemma {:induction false} RefusalHasReason(env: Env, ss: seq<State>, steps: seq<Step>, i: nat, job: nat)
    returns (h: nat)
    requires Run(env, ss, steps) && i <= |steps| && job in ss[i].replies && ss[i].replies[job].Refused?
    ensures h < i && RefusedAt(env, ss, steps, h, job, ss[i].replies[job].code)
    decreases i
  {
    assert i > 0;
    RunInv(env, ss, steps, i - 1);
    if job in ss[i - 1].replies && ss[i - 1].replies[job] == ss[i].replies[job] {
      h := RefusalHasReason(env, ss, steps, i - 1, job);
    } else {
      h := i - 1;
      NextRefuses(env, ss, steps, h, job);
    }
  }
}
