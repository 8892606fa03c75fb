/**
 What a record of the verifier is evidence of: that something good was presented, for any notion of good that the
 checks before the mutex establish.
 */
module Evidence {
  import opened Utf16
  import opened L2

  /** What the development path checked before it let a request into the line. */
  predicate Admitted(env: Env, known: set<Text>, p: Presentation) {
    && p.ministryPublicKey in known
    && DevProofValid(env, p)
    && !p.hasRawDocument
    && |p.holderPubKeyHash| == 64
    && env.mode.Dev?
  }

  /** Everyone in line and everyone who got a record presented something good. */
  ghost predicate Vetted(good: Presentation -> bool, line: seq<Task>, owners: seq<nat>, asked: map<nat, Presentation>) {
    && (forall i :: 0 <= i < |line| && line[i].Settle? ==> good(line[i].p))
    && (forall i :: 0 <= i < |owners| ==> owners[i] in asked && good(asked[owners[i]]))
  }

  ghost predicate VettedState(good: Presentation -> bool, s: State) {
    s.verifying == map[] && Vetted(good, Line(s), s.owners, s.asked)
  }

  lemma MoreVetted(good: Presentation -> bool, line: seq<Task>, owners: seq<nat>, asked: map<nat, Presentation>,
                   later: map<nat, Presentation>)
    requires Vetted(good, line, owners, asked)
    requires forall job :: job in asked ==> job in later && later[job] == asked[job]
    ensures Vetted(good, line, owners, later)
  {
  }

  lemma WiderVetted(good: Presentation -> bool, fine: Presentation -> bool, s: State)
    requires VettedState(good, s) && forall p :: good(p) ==> fine(p)
    ensures VettedState(fine, s)
  {
  }

  lemma ArrivalKeepsVetted(good: Presentation -> bool, s: State, p: Presentation, verdict: Verdict)
    requires forall job :: job in s.asked ==> job < s.next
    requires VettedState(good, s) && !verdict.AwaitSp1? && (verdict.EnterMutex? ==> good(p))
    ensures VettedState(good, Route(s, p, verdict))
  {
    ArrivalJoins(s, p, verdict);
    ArrivalGrowsAsked(s, p, verdict);
    MoreVetted(good, Line(s), s.owners, s.asked, Route(s, p, verdict).asked);
  }

  lemma FinishOwners(env: Env, s: State, now: Text)
    requires s.holder.Some?
    ensures
      var t := Apply(env, s, DoFinish(now));
      t.owners == s.owners || (s.holder.value.task.Settle? && t.owners == s.owners + [s.holder.value.task.job])
  {
  }

  lemma HeadVetted(good: Presentation -> bool, line: seq<Task>, owners: seq<nat>, asked: map<nat, Presentation>,
                   later: seq<nat>)
    requires Vetted(good, line, owners, asked) && line != [] && Remembered(line, map[], asked)
    requires later == owners || (line[0].Settle? && later == owners + [line[0].job])
    ensures Vetted(good, line[1..], later, asked)
  {
  }

  lemma FinishKeepsVetted(env: Env, good: Presentation -> bool, s: State, now: Text)
    requires Inv(env, s) && VettedState(good, s) && s.holder.Some?
    ensures VettedState(good, Apply(env, s, DoFinish(now)))
  {
    var t := Apply(env, s, DoFinish(now));
    FinishLeaves(env, s, now);
    FinishOwners(env, s, now);
    HeadOfLine(s, t);
    HeadVetted(good, Line(s), s.owners, s.asked, t.owners);
  }

  /** If only good presentations are let into the line, all records are good. */
  lemma StepKeepsVetted(env: Env, good: Presentation -> bool, s: State, step: Step)
    requires Inv(env, s) && VettedState(good, s) && Enabled(s, step) && Synchronous(env, s, step)
    requires step.DoSettle? && Judge(env, s.keys.authorized, s.keys.revoked, step.p).EnterMutex? ==> good(step.p)
    ensures VettedState(good, Apply(env, s, step))
  {
    match step
    case DoSettle(p) => ArrivalKeepsVetted(good, s, p, Judge(env, s.keys.authorized, s.keys.revoked, p));
    case DoFinish(now) => FinishKeepsVetted(env, good, s, now);
    case _ => LineMoves(env, s, step);
  }

  ghost function Admits(env: Env, known: set<Text>): Presentation -> bool {
    p => Admitted(env, known, p)
  }

  lemma {:induction false} RunIsVetted(env: Env, ss: seq<State>, steps: seq<Step>, i: nat)
    requires SynchronousRun(env, ss, steps) && i <= |steps|
    ensures VettedState(Admits(env, ss[i].keys.known), ss[i])
  {
    if i > 0 {
      var s, step, t := ss[i - 1], steps[i - 1], ss[i];
      RunIsVetted(env, ss, steps, i - 1);
      RunInv(env, ss, steps, i - 1);
      KnownGrows(env, ss, steps, i - 1, i);
      StepKeepsVetted(env, Admits(env, s.keys.known), s, step);
      WiderVetted(Admits(env, s.keys.known), Admits(env, t.keys.known), t);
    }
  }

  /**
   In every run without SP1 proofs each record was presented under an authorized key, without the document
   itself, and with a signature that verifies over the record's two hashes.
   */
  lemma RecordIsProven(env: Env, ss: seq<State>, steps: seq<Step>, i: nat, k: nat) returns (p: Presentation)
    requires SynchronousRun(env, ss, steps) && i <= |steps| && k < |ss[i].db|
    ensures Admitted(env, ss[i].keys.known, p) && Records(env, p, ss[i].db[k])
  {
    RunIsVetted(env, ss, steps, i);
    RunInv(env, ss, steps, i);
    p := ss[i].asked[ss[i].owners[k]];
  }
}
