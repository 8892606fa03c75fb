/**
 What a revocation achieves: requests that were already in line get in before the sweep, which marks what they
 wrote, and later ones are turned away. A restart forgets every request, and of the revoked keys it knows what the
 file says. Requests that wait for an SP1 proof are outside this argument.
 */
module Revoking {
  import opened Wrappers
  import opened Utf16
  import opened L2

  /** Different keys have different hashes. */
  ghost predicate KeysTold(env: Env, known: set<Text>) {
    forall a, b :: a in known && b in known && KeyHash(env, a) == KeyHash(env, b) ==> a == b
  }

  /** Nobody in line settles under the key. */
  ghost predicate NotSettled(line: seq<Task>, key: Text) {
    forall i :: 0 <= i < |line| && line[i].Settle? ==> line[i].p.ministryPublicKey != key
  }

  /** Behind a sweep of a key no one waits to settle under that key. */
  ghost predicate SweepsClose(line: seq<Task>) {
    forall i, j :: 0 <= i < j < |line| && line[i].Sweep? && line[j].Settle? ==>
      line[j].p.ministryPublicKey != line[i].revocation.key
  }

  predicate Barred(k: KeyRing, key: Text) {
    key in k.known && key in k.revoked
  }

  ghost predicate LineKnown(line: seq<Task>, k: KeyRing) {
    && (forall i :: 0 <= i < |line| && line[i].Settle? ==> line[i].p.ministryPublicKey in k.known)
    && (forall i :: 0 <= i < |line| && line[i].Sweep? ==> Barred(k, line[i].revocation.key))
  }

  ghost predicate CallsKnown(k: KeyRing) {
    && k.authorized <= k.known
    && (forall call :: call in k.persisting ==> Barred(k, k.persisting[call].key))
    && (forall call :: call in k.writing ==> Barred(k, k.writing[call].revocation.key))
  }

  /** No record made at or after the revocation time is still approved. */
  ghost predicate Cleared(env: Env, db: seq<Record>, r: Revocation) {
    forall i :: 0 <= i < |db| ==> !Marks(env, r, db[i])
  }

  /** The revocation has done its work, and while the process runs nothing can undo it. */
  ghost predicate Sealed(env: Env, s: State, r: Revocation) {
    Barred(s.keys, r.key) && NotSettled(Line(s), r.key) && Cleared(env, s.db, r)
  }

  ghost predicate Closing(s: State) {
    s.verifying == map[] && SweepsClose(Line(s)) && LineKnown(Line(s), s.keys) && CallsKnown(s.keys)
  }

  lemma ArrivalKeepsClosing(s: State, p: Presentation, verdict: Verdict)
    requires Closing(s) && !verdict.AwaitSp1?
    requires verdict.EnterMutex? ==> p.ministryPublicKey in s.keys.authorized && p.ministryPublicKey !in s.keys.revoked
    ensures Closing(Route(s, p, verdict))
  {
    ArrivalJoins(s, p, verdict);
    if verdict.EnterMutex? {
      JoinKeepsClosing(Line(s), s.keys, Settle(s.next, p));
    }
  }

  lemma JoinKeepsClosing(line: seq<Task>, k: KeyRing, task: Task)
    requires SweepsClose(line) && LineKnown(line, k) && task.Settle?
    requires task.p.ministryPublicKey in k.known && task.p.ministryPublicKey !in k.revoked
    ensures SweepsClose(line + [task]) && LineKnown(line + [task], k)
  {
  }

  lemma SettleKeepsClosing(env: Env, s: State, p: Presentation)
    requires Closing(s) && Synchronous(env, s, DoSettle(p))
    ensures Closing(SettleArrives(env, s, p))
  {
    var verdict := Judge(env, s.keys.authorized, s.keys.revoked, p);
    if verdict.EnterMutex? {
      AdmittedKey(env, s, p);
    }
    ArrivalKeepsClosing(s, p, verdict);
  }

  /** More keys known or revoked never hurt. */
  lemma MoreKeysKnown(line: seq<Task>, k: KeyRing, more: KeyRing)
    requires LineKnown(line, k) && k.known <= more.known && k.revoked.Keys <= more.revoked.Keys
    ensures LineKnown(line, more)
  {
  }

  lemma RevokeKeepsClosing(s: State, key: Text, compromisedAt: Option<Text>, now: Text)
    requires Closing(s)
    ensures Closing(RevokeArrives(s, key, compromisedAt, now))
  {
    MoreKeysKnown(Line(s), s.keys, RevokeArrives(s, key, compromisedAt, now).keys);
  }

  lemma PersistedKeepsClosing(env: Env, s: State, call: nat)
    requires Closing(s) && call in s.keys.writing
    ensures Closing(RevokePersisted(s, call))
  {
    LineMoves(env, s, DoPersisted(call));
    SweepJoins(Line(s), s.keys, Sweep(call, s.keys.writing[call].revocation));
    MoreKeysKnown(Line(RevokePersisted(s, call)), s.keys, Lands(s.keys, call));
  }

  lemma SweepJoins(line: seq<Task>, k: KeyRing, task: Task)
    requires SweepsClose(line) && LineKnown(line, k) && task.Sweep? && Barred(k, task.revocation.key)
    ensures SweepsClose(line + [task]) && LineKnown(line + [task], k)
  {
  }

  lemma FinishKeepsClosing(env: Env, s: State, now: Text)
    requires Closing(s) && s.holder.Some?
    ensures Closing(Apply(env, s, DoFinish(now)))
  {
    FinishLeaves(env, s, now);
    HeadOfLine(s, Apply(env, s, DoFinish(now)));
    TailKeepsClosing(Line(s), s.keys);
  }

  lemma TailKeepsClosing(line: seq<Task>, k: KeyRing)
    requires SweepsClose(line) && LineKnown(line, k) && line != []
    ensures SweepsClose(line[1..]) && LineKnown(line[1..], k)
  {
  }

  lemma StepKeepsClosing(env: Env, s: State, step: Step)
    requires Closing(s) && Enabled(s, step) && Synchronous(env, s, step)
    ensures Closing(Apply(env, s, step))
  {
    match step
    case DoSync(key) => MoreKeysKnown(Line(s), s.keys, Synced(s.keys, key));
    case DoSettle(p) => SettleKeepsClosing(env, s, p);
    case DoRevoke(key, compromisedAt, now) => RevokeKeepsClosing(s, key, compromisedAt, now);
    case DoPersisted(call) => PersistedKeepsClosing(env, s, call);
    case DoFinish(now) => FinishKeepsClosing(env, s, now);
    case _ => LineMoves(env, s, step);
  }

  lemma SweepClears(env: Env, db: seq<Record>, swept: Revocation, r: Revocation)
    requires r == swept || Cleared(env, db, r)
    ensures Cleared(env, Swept(env, swept, db), r)
  {
  }

  /** A record made under another key is none of the revocation's business. */
  lemma SettleStaysCleared(env: Env, s: State, now: Text, r: Revocation)
    requires s.holder.Some? && s.holder.value.task.Settle? && Exclusive(s) && KeysTold(env, s.keys.known)
    requires Cleared(env, s.db, r)
    requires r.key in s.keys.known && s.holder.value.task.p.ministryPublicKey in s.keys.known
    requires s.holder.value.task.p.ministryPublicKey != r.key
    ensures Cleared(env, FinishSettle(env, s, now).db, r)
  {
  }

  /** What a finished revocation achieved, no later step undoes. */
  lemma FinishKeepsSealed(env: Env, s: State, now: Text, r: Revocation)
    requires Closing(s) && Exclusive(s) && KeysTold(env, s.keys.known) && s.holder.Some? && Sealed(env, s, r)
    ensures Sealed(env, Apply(env, s, DoFinish(now)), r)
  {
    var t := Apply(env, s, DoFinish(now));
    FinishLeaves(env, s, now);
    HeadOfLine(s, t);
    assert Line(t) == Line(s)[1..];
    if s.holder.value.task.Sweep? {
      SweepClears(env, s.db, s.holder.value.task.revocation, r);
    } else {
      SettleStaysCleared(env, s, now, r);
    }
  }

  lemma StepKeepsSealed(env: Env, s: State, step: Step, r: Revocation)
    requires Closing(s) && Exclusive(s) && KeysTold(env, s.keys.known) && Sealed(env, s, r)
    requires Enabled(s, step) && Synchronous(env, s, step)
    requires step.DoRestart? ==> r.key in s.keys.file
    ensures Sealed(env, Apply(env, s, step), r)
  {
    match step
    case DoFinish(now) => FinishKeepsSealed(env, s, now, r);
    case DoSettle(p) =>
      LineMoves(env, s, step);
      if Judge(env, s.keys.authorized, s.keys.revoked, p).EnterMutex? {
        AdmittedKey(env, s, p);
      }
    case _ => LineMoves(env, s, step);
  }

  /** A revocation is sealed the moment its call finishes. */
  lemma SweepSeals(env: Env, s: State, now: Text)
    requires Closing(s) && Exclusive(s) && s.holder.Some? && s.holder.value.task.Sweep?
    ensures Sealed(env, Apply(env, s, DoFinish(now)), s.holder.value.task.revocation)
  {
    var r := s.holder.value.task.revocation;
    var t := Apply(env, s, DoFinish(now));
    FinishLeaves(env, s, now);
    HeadOfLine(s, t);
    BehindSweep(Line(s));
    assert Line(t) == Line(s)[1..];
    SweepClears(env, s.db, r, r);
  }

  lemma BehindSweep(line: seq<Task>)
    requires SweepsClose(line) && line != [] && line[0].Sweep?
    ensures NotSettled(line[1..], line[0].revocation.key)
  {
  }

  // ---- runs ----

  lemma {:induction false} RunClosing(env: Env, ss: seq<State>, steps: seq<Step>, i: nat)
    requires SynchronousRun(env, ss, steps) && i <= |steps|
    ensures Closing(ss[i])
  {
    if i > 0 {
      RunClosing(env, ss, steps, i - 1);
      StepKeepsClosing(env, ss[i - 1], steps[i - 1]);
    }
  }

  lemma FewerKeysTold(env: Env, few: set<Text>, many: set<Text>)
    requires few <= many && KeysTold(env, many)
    ensures KeysTold(env, few)
  {
  }

  lemma RunExclusive(env: Env, ss: seq<State>, steps: seq<Step>, i: nat)
    requires Run(env, ss, steps) && i <= |steps|
    ensures Exclusive(ss[i])
  {
    RunInv(env, ss, steps, i);
  }

  lemma NextKeepsSealed(env: Env, s: State, step: Step, t: State, r: Revocation)
    requires Closing(s) && Exclusive(s) && KeysTold(env, s.keys.known) && Sealed(env, s, r)
    requires Next(env, s, step, t) && Synchronous(env, s, step)
    requires step.DoRestart? ==> r.key in s.keys.file
    ensures Sealed(env, t, r)
  {
    StepKeepsSealed(env, s, step, r);
  }

  /** At every restart between two moments the file names the key. */
  ghost predicate KeptAtRestarts(ss: seq<State>, steps: seq<Step>, key: Text, from: nat, to: nat)
    requires to <= |steps| < |ss|
  {
    forall m {:trigger steps[m]} :: from <= m < to && steps[m].DoRestart? ==> key in ss[m].keys.file
  }

  lemma {:induction false} SealedForGood(env: Env, ss: seq<State>, steps: seq<Step>, i: nat, j: nat, r: Revocation)
    requires SynchronousRun(env, ss, steps) && i <= j <= |steps| && KeysTold(env, ss[|steps|].keys.known)
    requires Sealed(env, ss[i], r) && KeptAtRestarts(ss, steps, r.key, i, j)
    ensures Sealed(env, ss[j], r)
    decreases j
  {
    if i < j {
      SealedForGood(env, ss, steps, i, j - 1, r);
      RunClosing(env, ss, steps, j - 1);
      RunExclusive(env, ss, steps, j - 1);
      KnownGrows(env, ss, steps, j - 1, |steps|);
      FewerKeysTold(env, ss[j - 1].keys.known, ss[|steps|].keys.known);
      NextKeepsSealed(env, ss[j - 1], steps[j - 1], ss[j], r);
    }
  }

  /** A call that is finished now was finished before, or is sealed by the sweep that has just ended. */
  lemma NextFinished(env: Env, s: State, step: Step, t: State, call: nat)
    requires Closing(s) && Exclusive(s) && Next(env, s, step, t) && call in t.finished
    ensures Sealed(env, t, t.finished[call]) || (call in s.finished && s.finished[call] == t.finished[call])
  {
    if step.DoFinish? {
      if s.holder.value.task.Sweep? {
        SweepSeals(env, s, step.now);
      }
    } else {
      OthersFinishNothing(env, s, step);
    }
  }

  lemma OthersFinishNothing(env: Env, s: State, step: Step)
    requires Enabled(s, step) && !step.DoFinish?
    ensures Apply(env, s, step).finished == s.finished
  {
    match step
    case DoSettle(p) =>
      assert Route(s, p, Judge(env, s.keys.authorized, s.keys.revoked, p)).finished == s.finished;
    case _ =>
  }

  lemma FinishedBy(env: Env, s: State, now: Text)
    requires s.holder.Some?
    ensures
      var task := s.holder.value.task;
      Apply(env, s, DoFinish(now)).finished ==
      if task.Sweep? then s.finished[task.call := task.revocation] else s.finished
  {
    if s.holder.value.task.Settle? {
      var p := s.holder.value.task.p;
      var record := NewRecord(env, p, now);
      assert Conclude(s, HasDuplicate(s.holder.value.copy, p.documentIdHash), record).finished == s.finished;
    }
  }

  lemma NextGrows(env: Env, s: State, step: Step)
    requires Enabled(s, step)
    ensures Apply(env, s, step).next >= s.next
    ensures step.DoRevoke? && step.key in s.keys.authorized ==> Apply(env, s, step).next > s.next
  {
    if step.DoFinish? {
      FinishLeaves(env, s, step.now);
    }
  }

  /** The moment at which a call that is finished became so. */
  lemma {:induction false} FinishingMoment(env: Env, ss: seq<State>, steps: seq<Step>, i: nat, call: nat)
    returns (m: nat)
    requires SynchronousRun(env, ss, steps) && i <= |steps| && call in ss[i].finished
    ensures m <= i && call in ss[m].finished && ss[m].finished[call] == ss[i].finished[call]
    ensures Sealed(env, ss[m], ss[i].finished[call])
    decreases i
  {
    assert i > 0;
    RunClosing(env, ss, steps, i - 1);
    RunExclusive(env, ss, steps, i - 1);
    NextFinished(env, ss[i - 1], steps[i - 1], ss[i], call);
    if Sealed(env, ss[i], ss[i].finished[call]) {
      m := i;
    } else {
      m := FinishingMoment(env, ss, steps, i - 1, call);
    }
  }

  lemma NextKeepsFinished(env: Env, s: State, step: Step, t: State, call: nat)
    requires Next(env, s, step, t) && call in s.finished
    ensures call in t.finished
  {
    if !step.DoFinish? {
      OthersFinishNothing(env, s, step);
    }
  }

  lemma {:induction false} FinishedStays(env: Env, ss: seq<State>, steps: seq<Step>, i: nat, j: nat, call: nat)
    requires Run(env, ss, steps) && i <= j <= |steps| && call in ss[i].finished
    ensures call in ss[j].finished
    decreases j
  {
    if i < j {
      FinishedStays(env, ss, steps, i, j - 1, call);
      NextKeepsFinished(env, ss[j - 1], steps[j - 1], ss[j], call);
    }
  }

  /** The file names the key at every restart after the call was answered. */
  ghost predicate NamedSince(ss: seq<State>, steps: seq<Step>, call: nat, key: Text, to: nat)
    requires to <= |steps| < |ss|
  {
    forall m {:trigger steps[m]} :: 0 <= m < to && steps[m].DoRestart? && call in ss[m].finished ==>
      key in ss[m].keys.file
  }

  lemma NamedIsKept(env: Env, ss: seq<State>, steps: seq<Step>, m: nat, to: nat, call: nat, key: Text)
    requires Run(env, ss, steps) && m <= to <= |steps| && call in ss[m].finished
    requires NamedSince(ss, steps, call, key, to)
    ensures KeptAtRestarts(ss, steps, key, m, to)
  {
    forall n | m <= n < to && steps[n].DoRestart? ensures key in ss[n].keys.file {
      FinishedStays(env, ss, steps, m, n, call);
    }
  }

  lemma AnsweredIsSealed(env: Env, ss: seq<State>, steps: seq<Step>, i: nat, j: nat, call: nat)
    requires SynchronousRun(env, ss, steps) && i <= j <= |steps| && KeysTold(env, ss[|steps|].keys.known)
    requires call in ss[i].finished && NamedSince(ss, steps, call, ss[i].finished[call].key, j)
    ensures Sealed(env, ss[j], ss[i].finished[call])
  {
    var m := FinishingMoment(env, ss, steps, i, call);
    NamedIsKept(env, ss, steps, m, j, call, ss[i].finished[call].key);
    SealedForGood(env, ss, steps, m, j, ss[i].finished[call]);
  }

  lemma SealedIsSuspicious(env: Env, s: State, r: Revocation, k: nat)
    requires Inv(env, s) && Sealed(env, s, r) && k < |s.db|
    requires s.db[k].ministryPublicKeyHash == KeyHash(env, r.key) && !Less(s.db[k].settledAt, r.revokedAt)
    ensures s.db[k].status == SUSPICIOUS
  {
    assert !Marks(env, r, s.db[k]);
    assert Records(env, s.asked[s.owners[k]], s.db[k]);
  }

  /**
   Once a revocation has been answered, no record of that key made at or after the revocation time is
   approved, then or at any later moment, whatever settle and revoke requests were and are in flight, and however
   often the process restarts, if the file names the key whenever it does.
   */
  lemma RevocationIsFinal(env: Env, ss: seq<State>, steps: seq<Step>, i: nat, j: nat, call: nat, k: nat)
    requires SynchronousRun(env, ss, steps) && i <= j <= |steps| && KeysTold(env, ss[|steps|].keys.known)
    requires call in ss[i].finished && k < |ss[j].db|
    requires NamedSince(ss, steps, call, ss[i].finished[call].key, j)
    requires ss[j].db[k].ministryPublicKeyHash == KeyHash(env, ss[i].finished[call].key)
    requires !Less(ss[j].db[k].settledAt, ss[i].finished[call].revokedAt)
    ensures ss[j].db[k].status == SUSPICIOUS
  {
    AnsweredIsSealed(env, ss, steps, i, j, call);
    RunInv(env, ss, steps, j);
    SealedIsSuspicious(env, ss[j], ss[i].finished[call], k);
  }
}
