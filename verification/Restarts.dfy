/**
 Revocations across restarts of the verifier. Writes of the revoked keys may overlap, and each leaves in the file
 what was revoked when it began, so the write that lands last may be an older one.
 */
module Restarts {
  import opened Wrappers
  import opened Utf16
  import opened L2
  import opened Revoking

  /** The key is revoked, in the file, and in every write that may still land on the file. */
  ghost predicate Durable(k: KeyRing, key: Text) {
    key in k.revoked && key in k.file && WritesHold(k, key)
  }

  ghost predicate WritesHold(k: KeyRing, key: Text) {
    forall call :: call in k.writing ==> key in k.writing[call].snapshot
  }

  lemma KeysKeepDurable(k: KeyRing, call: nat, step: Step, key: Text)
    requires Durable(k, key)
    requires step.DoBeginWrite? ==> step.call in k.persisting
    requires step.DoPersisted? ==> step.call in k.writing
    ensures Durable(NextKeys(k, call, step), key)
  {
  }

  lemma NextKeepsDurable(env: Env, s: State, step: Step, t: State, key: Text)
    requires Next(env, s, step, t) && Durable(s.keys, key)
    ensures Durable(t.keys, key)
  {
    KeysBy(env, s, step);
    KeysKeepDurable(s.keys, s.next, step, key);
  }

  /** Once durable, a revoked key is named at every restart. */
  lemma {:induction false} DurableStays(env: Env, ss: seq<State>, steps: seq<Step>, i: nat, j: nat, key: Text)
    requires Run(env, ss, steps) && i <= j <= |steps| && Durable(ss[i].keys, key)
    ensures Durable(ss[j].keys, key) && KeptAtRestarts(ss, steps, key, i, j)
    decreases j
  {
    if i < j {
      DurableStays(env, ss, steps, i, j - 1, key);
      NextKeepsDurable(env, ss[j - 1], steps[j - 1], ss[j], key);
    }
  }

  // ---- forgetting ----

  /** Synchronous steps lead from one state to the other. */
  ghost predicate Leads(env: Env, s: State, t: State) {
    exists ss: seq<State>, steps: seq<Step> :: Path(env, ss, steps, s, t)
  }

  ghost predicate Path(env: Env, ss: seq<State>, steps: seq<Step>, s: State, t: State) {
    && |ss| == |steps| + 1 && ss[0] == s && ss[|steps|] == t
    && forall i :: 0 <= i < |steps| ==> PathStep(env, ss, steps, i)
  }

  ghost predicate PathStep(env: Env, ss: seq<State>, steps: seq<Step>, i: nat)
    requires i < |steps| < |ss|
  {
    Next(env, ss[i], steps[i], ss[i + 1]) && Synchronous(env, ss[i], steps[i])
  }

  lemma LeadsNowhere(env: Env, s: State)
    ensures Leads(env, s, s)
  {
    var ss: seq<State>, steps: seq<Step> := [s], [];
    assert Path(env, ss, steps, s, s);
  }

  lemma LeadsOn(env: Env, s: State, t: State, step: Step, u: State)
    requires Leads(env, s, t) && Next(env, t, step, u) && Synchronous(env, t, step)
    ensures Leads(env, s, u)
  {
    var ss: seq<State>, steps: seq<Step> :| Path(env, ss, steps, s, t);
    var more, longer := ss + [u], steps + [step];
    forall i | 0 <= i < |longer| ensures PathStep(env, more, longer, i) {
      if i < |steps| {
        assert PathStep(env, ss, steps, i);
      }
    }
    assert Path(env, more, longer, s, u);
  }

  lemma PathIsRun(env: Env, ss: seq<State>, steps: seq<Step>, t: State)
    requires Path(env, ss, steps, INITIAL, t)
    ensures SynchronousRun(env, ss, steps)
  {
    forall i | 0 <= i < |steps|
      ensures Next(env, ss[i], steps[i], ss[i + 1])
      ensures Synchronous(env, ss[i], steps[i])
    {
      assert PathStep(env, ss, steps, i);
    }
  }

  /** A revoked key that is not durable may be gone after a restart, with all else that the process knew. */
  lemma ForgottenUnlessDurable(env: Env, s: State, key: Text) returns (t: State)
    requires key in s.keys.revoked && !Durable(s.keys, key)
    ensures Leads(env, s, t) && key !in t.keys.revoked && t.db == s.db && t.finished == s.finished
    ensures t == Restarted(t)
  {
    LeadsNowhere(env, s);
    var u := s;
    if key in s.keys.file {
      var call :| call in s.keys.writing && key !in s.keys.writing[call].snapshot;
      u := RevokePersisted(s, call);
      LeadsOn(env, s, s, DoPersisted(call), u);
    }
    t := Restarted(u);
    LeadsOn(env, s, u, DoRestart, t);
  }

  /** The verifier after a restart lets in a request under the key, if it knows of no revocation. */
  lemma ThenSettles(env: Env, s: State, t: State, p: Presentation, now: Text) returns (u: State)
    requires Leads(env, s, t) && t == Restarted(t)
    requires Judge(env, {p.ministryPublicKey}, t.keys.revoked, p).EnterMutex? && !HasDuplicate(t.db, p.documentIdHash)
    ensures Leads(env, s, u) && u.db == t.db + [NewRecord(env, p, now)] && u.finished == t.finished
  {
    var synced := t.(keys := Synced(t.keys, p.ministryPublicKey));
    assert synced.keys.authorized == {p.ministryPublicKey};
    LeadsOn(env, s, t, DoSync(p.ministryPublicKey), synced);
    var arrived := Route(synced, p, EnterMutex);
    LeadsOn(env, s, synced, DoSettle(p), arrived);
    var held := Acquire(arrived);
    LeadsOn(env, s, arrived, DoAcquire, held);
    u := FinishSettle(env, held, now);
    LeadsOn(env, s, held, DoFinish(now), u);
  }

  lemma {:induction false} PathKeepsDurable(env: Env, ss: seq<State>, steps: seq<Step>, s: State, t: State, key: Text,
                                            i: nat)
    requires Path(env, ss, steps, s, t) && i <= |steps| && Durable(s.keys, key)
    ensures Durable(ss[i].keys, key)
  {
    if i > 0 {
      PathKeepsDurable(env, ss, steps, s, t, key, i - 1);
      assert PathStep(env, ss, steps, i - 1);
      NextKeepsDurable(env, ss[i - 1], steps[i - 1], ss[i], key);
    }
  }

  /** A revoked key stays revoked, whatever happens and however often the process restarts, exactly if it is durable. */
  lemma RevokedForGoodIffDurable(env: Env, s: State, key: Text)
    requires key in s.keys.revoked
    ensures (forall t :: Leads(env, s, t) ==> key in t.keys.revoked) <==> Durable(s.keys, key)
  {
    if Durable(s.keys, key) {
      forall t | Leads(env, s, t) ensures key in t.keys.revoked {
        var ss: seq<State>, steps: seq<Step> :| Path(env, ss, steps, s, t);
        PathKeepsDurable(env, ss, steps, s, t, key, |steps|);
      }
    } else {
      var t := ForgottenUnlessDurable(env, s, key);
    }
  }

  /** A revocation whose key is durable is final across restarts, whatever the steps after it. */
  lemma DurableIsFinal(env: Env, ss: seq<State>, steps: seq<Step>, i: nat, j: nat, r: Revocation, k: nat)
    requires SynchronousRun(env, ss, steps) && i <= j <= |steps| && KeysTold(env, ss[|steps|].keys.known)
    requires Sealed(env, ss[i], r) && Durable(ss[i].keys, r.key) && k < |ss[j].db|
    requires ss[j].db[k].ministryPublicKeyHash == KeyHash(env, r.key) && !Less(ss[j].db[k].settledAt, r.revokedAt)
    ensures ss[j].db[k].status == SUSPICIOUS
  {
    DurableStays(env, ss, steps, i, j, r.key);
    SealedForGood(env, ss, steps, i, j, r);
    RunInv(env, ss, steps, j);
    SealedIsSuspicious(env, ss[j], r, k);
  }

  /** One whose key is not may be forgotten, and then a request under the key is settled and approved at any time. */
  lemma UndurableIsLost(env: Env, s: State, p: Presentation, now: Text) returns (u: State)
    requires p.ministryPublicKey in s.keys.revoked && !Durable(s.keys, p.ministryPublicKey)
    requires Judge(env, {p.ministryPublicKey}, map[], p).EnterMutex? && !HasDuplicate(s.db, p.documentIdHash)
    ensures Leads(env, s, u) && u.db == s.db + [NewRecord(env, p, now)] && u.finished == s.finished
  {
    var t := ForgottenUnlessDurable(env, s, p.ministryPublicKey);
    u := ThenSettles(env, s, t, p, now);
  }

  // ---- which revocations last ----

  /** Wherever the call has got to, it is about this revocation. */
  ghost predicate About(k: KeyRing, line: seq<Task>, finished: map<nat, Revocation>, call: nat, r: Revocation) {
    && (call in k.persisting ==> k.persisting[call] == r)
    && (call in k.writing ==> k.writing[call].revocation == r)
    && (forall i :: 0 <= i < |line| && line[i].Sweep? && line[i].call == call ==> line[i].revocation == r)
    && (call in finished ==> finished[call] == r)
  }

  ghost predicate Unwritten(line: seq<Task>, finished: map<nat, Revocation>, call: nat) {
    call !in finished && forall i :: 0 <= i < |line| && line[i].Sweep? ==> line[i].call != call
  }

  /** Until its write lands, every write under way holds the call's key, and from then on the key is durable. */
  ghost predicate Lasting(k: KeyRing, line: seq<Task>, finished: map<nat, Revocation>, call: nat, key: Text) {
    || Durable(k, key)
    || (&& Unwritten(line, finished, call)
        && (call in k.persisting || call in k.writing ==> key in k.revoked && WritesHold(k, key)))
  }

  ghost predicate Lasts(s: State, call: nat, r: Revocation) {
    && call < s.next
    && About(s.keys, Line(s), s.finished, call, r)
    && Lasting(s.keys, Line(s), s.finished, call, r.key)
  }

  lemma KeysKeepAbout(
    k: KeyRing, line: seq<Task>, finished: map<nat, Revocation>, next: nat, step: Step, call: nat, r: Revocation)
    requires About(k, line, finished, call, r) && call < next
    requires step.DoBeginWrite? ==> step.call in k.persisting
    requires step.DoPersisted? ==> step.call in k.writing
    ensures About(NextKeys(k, next, step), line, finished, call, r)
  {
  }

  lemma KeysKeepLasting(
    k: KeyRing, line: seq<Task>, finished: map<nat, Revocation>, next: nat, step: Step, call: nat, key: Text)
    requires Lasting(k, line, finished, call, key) && call < next
    requires step.DoBeginWrite? ==> step.call in k.persisting
    requires step.DoPersisted? ==> step.call in k.writing
    ensures Lasting(NextKeys(k, next, step), line, finished, call, key)
  {
    if Durable(k, key) {
      KeysKeepDurable(k, next, step, key);
    }
  }

  /** The call's own write lands, and its key is durable. */
  lemma LandingLasts(k: KeyRing, line: seq<Task>, finished: map<nat, Revocation>, call: nat, key: Text)
    requires Lasting(k, line, finished, call, key) && call in k.writing
    ensures Durable(Lands(k, call), key)
  {
  }

  lemma TaskJoins(
    k: KeyRing, line: seq<Task>, finished: map<nat, Revocation>, task: Task, call: nat, r: Revocation)
    requires About(k, line, finished, call, r) && Lasting(k, line, finished, call, r.key)
    requires task.Sweep? && task.call == call ==> task.revocation == r && Durable(k, r.key)
    ensures About(k, line + [task], finished, call, r) && Lasting(k, line + [task], finished, call, r.key)
  {
  }

  lemma HeadLeaves(k: KeyRing, line: seq<Task>, finished: map<nat, Revocation>, call: nat, r: Revocation)
    requires About(k, line, finished, call, r) && Lasting(k, line, finished, call, r.key) && line != []
    ensures
      var after := if line[0].Sweep? then finished[line[0].call := line[0].revocation] else finished;
      About(k, line[1..], after, call, r) && Lasting(k, line[1..], after, call, r.key)
  {
  }

  lemma FinishLasts(env: Env, s: State, now: Text, call: nat, r: Revocation)
    requires s.holder.Some? && Lasts(s, call, r)
    ensures Lasts(Apply(env, s, DoFinish(now)), call, r)
  {
    FinishLeaves(env, s, now);
    FinishedBy(env, s, now);
    HeadOfLine(s, Apply(env, s, DoFinish(now)));
    HeadLeaves(s.keys, Line(s), s.finished, call, r);
  }

  lemma OthersLast(env: Env, s: State, step: Step, call: nat, r: Revocation)
    requires Enabled(s, step) && !step.DoFinish? && Lasts(s, call, r)
    ensures Lasts(Apply(env, s, step), call, r)
  {
    var t := Apply(env, s, step);
    var after := NextKeys(s.keys, s.next, step);
    KeysBy(env, s, step);
    NextGrows(env, s, step);
    KeysKeepAbout(s.keys, Line(s), s.finished, s.next, step, call, r);
    KeysKeepLasting(s.keys, Line(s), s.finished, s.next, step, call, r.key);
    OthersFinishNothing(env, s, step);
    LineMoves(env, s, step);
    match step
    case DoSettle(p) => TaskJoins(after, Line(s), s.finished, Settle(s.next, p), call, r);
    case DoSp1(job, valid) => TaskJoins(after, Line(s), s.finished, Settle(job, s.verifying[job]), call, r);
    case DoPersisted(other) =>
      if other == call {
        LandingLasts(s.keys, Line(s), s.finished, call, r.key);
      }
      TaskJoins(after, Line(s), s.finished, Sweep(other, s.keys.writing[other].revocation), call, r);
    case _ =>
  }

  lemma NextLasts(env: Env, s: State, step: Step, t: State, call: nat, r: Revocation)
    requires Next(env, s, step, t) && Lasts(s, call, r)
    ensures Lasts(t, call, r)
  {
    if step.DoFinish? {
      FinishLasts(env, s, step.now, call, r);
    } else {
      OthersLast(env, s, step, call, r);
    }
  }

  // ---- calls have numbers of their own ----

  ghost predicate Numbered(k: KeyRing, line: seq<Task>, finished: map<nat, Revocation>, next: nat) {
    && (forall call :: call in k.persisting ==> call < next)
    && (forall call :: call in k.writing ==> call < next)
    && (forall i :: 0 <= i < |line| && line[i].Sweep? ==> line[i].call < next)
    && (forall call :: call in finished ==> call < next)
  }

  lemma KeysKeepNumbered(k: KeyRing, line: seq<Task>, finished: map<nat, Revocation>, call: nat, step: Step, next: nat)
    requires Numbered(k, line, finished, call)
    requires step.DoBeginWrite? ==> step.call in k.persisting
    requires step.DoPersisted? ==> step.call in k.writing
    requires call <= next && (step.DoRevoke? && step.key in k.authorized ==> call < next)
    ensures Numbered(NextKeys(k, call, step), line, finished, next)
  {
  }

  lemma JoinsNumbered(k: KeyRing, line: seq<Task>, finished: map<nat, Revocation>, next: nat, task: Task)
    requires Numbered(k, line, finished, next) && (task.Sweep? ==> task.call < next)
    ensures Numbered(k, line + [task], finished, next)
  {
  }

  lemma LeavesNumbered(k: KeyRing, line: seq<Task>, finished: map<nat, Revocation>, next: nat)
    requires Numbered(k, line, finished, next) && line != []
    ensures
      var after := if line[0].Sweep? then finished[line[0].call := line[0].revocation] else finished;
      Numbered(k, line[1..], after, next)
  {
  }

  lemma FinishIsNumbered(env: Env, s: State, now: Text)
    requires s.holder.Some? && Numbered(s.keys, Line(s), s.finished, s.next)
    ensures var t := Apply(env, s, DoFinish(now)); Numbered(t.keys, Line(t), t.finished, t.next)
  {
    FinishLeaves(env, s, now);
    FinishedBy(env, s, now);
    HeadOfLine(s, Apply(env, s, DoFinish(now)));
    LeavesNumbered(s.keys, Line(s), s.finished, s.next);
  }

  lemma OthersAreNumbered(env: Env, s: State, step: Step)
    requires Enabled(s, step) && !step.DoFinish? && Numbered(s.keys, Line(s), s.finished, s.next)
    ensures var t := Apply(env, s, step); Numbered(t.keys, Line(t), t.finished, t.next)
  {
    var t := Apply(env, s, step);
    KeysBy(env, s, step);
    NextGrows(env, s, step);
    KeysKeepNumbered(s.keys, Line(s), s.finished, s.next, step, t.next);
    OthersFinishNothing(env, s, step);
    LineMoves(env, s, step);
    match step
    case DoSettle(p) => JoinsNumbered(t.keys, Line(s), s.finished, t.next, Settle(s.next, p));
    case DoSp1(job, valid) => JoinsNumbered(t.keys, Line(s), s.finished, t.next, Settle(job, s.verifying[job]));
    case DoPersisted(call) =>
      JoinsNumbered(t.keys, Line(s), s.finished, t.next, Sweep(call, s.keys.writing[call].revocation));
    case _ =>
  }

  lemma {:induction false} RunNumbered(env: Env, ss: seq<State>, steps: seq<Step>, i: nat)
    requires Run(env, ss, steps) && i <= |steps|
    ensures Numbered(ss[i].keys, Line(ss[i]), ss[i].finished, ss[i].next)
  {
    if i > 0 {
      RunNumbered(env, ss, steps, i - 1);
      if steps[i - 1].DoFinish? {
        FinishIsNumbered(env, ss[i - 1], steps[i - 1].now);
      } else {
        OthersAreNumbered(env, ss[i - 1], steps[i - 1]);
      }
    }
  }

  // ---- a revocation that lasts ----

  lemma {:induction false} PathLasts(
    env: Env, ss: seq<State>, steps: seq<Step>, s: State, t: State, call: nat, r: Revocation, i: nat)
    requires Path(env, ss, steps, s, t) && i <= |steps| && Lasts(s, call, r)
    ensures Lasts(ss[i], call, r)
  {
    if i > 0 {
      PathLasts(env, ss, steps, s, t, call, r, i - 1);
      assert PathStep(env, ss, steps, i - 1);
      NextLasts(env, ss[i - 1], steps[i - 1], ss[i], call, r);
    }
  }

  lemma LeadsLasts(env: Env, s: State, t: State, call: nat, r: Revocation)
    requires Leads(env, s, t) && Lasts(s, call, r)
    ensures Lasts(t, call, r)
  {
    var ss: seq<State>, steps: seq<Step> :| Path(env, ss, steps, s, t);
    PathLasts(env, ss, steps, s, t, call, r, |steps|);
  }

  lemma {:induction false} RunLeads(env: Env, ss: seq<State>, steps: seq<Step>, i: nat, j: nat)
    requires SynchronousRun(env, ss, steps) && i <= j <= |steps|
    ensures Leads(env, ss[i], ss[j])
    decreases j
  {
    if i == j {
      LeadsNowhere(env, ss[i]);
    } else {
      RunLeads(env, ss, steps, i, j - 1);
      LeadsOn(env, ss[i], ss[j - 1], steps[j - 1], ss[j]);
    }
  }

  /** A revocation lasts if every write under way when it is made holds its key. */
  lemma RevokedLasts(s: State, key: Text, compromisedAt: Option<Text>, now: Text)
    requires Numbered(s.keys, Line(s), s.finished, s.next) && key in s.keys.authorized && WritesHold(s.keys, key)
    ensures Lasts(RevokeArrives(s, key, compromisedAt, now), s.next, RevocationOf(key, compromisedAt, now))
  {
    assert Line(RevokeArrives(s, key, compromisedAt, now)) == Line(s);
  }

  // ---- one that does not ----

  /** Whoever is in line for the mutex gets through, and nothing happens to the keys meanwhile. */
  lemma {:induction false} SweepGetsThrough(env: Env, s: State, t: State, i: nat) returns (u: State)
    requires Leads(env, s, t) && i < |Line(t)| && Line(t)[i].Sweep?
    ensures Leads(env, s, u) && u.keys == t.keys && Line(t)[i].call in u.finished
    decreases i, 1
  {
    if t.holder.None? {
      var held := Acquire(t);
      LeadsOn(env, s, t, DoAcquire, held);
      assert Line(held) == Line(t);
      u := HolderGetsOut(env, s, held, i);
    } else {
      u := HolderGetsOut(env, s, t, i);
    }
  }

  lemma {:induction false} HolderGetsOut(env: Env, s: State, t: State, i: nat) returns (u: State)
    requires Leads(env, s, t) && i < |Line(t)| && Line(t)[i].Sweep? && t.holder.Some?
    ensures Leads(env, s, u) && u.keys == t.keys && Line(t)[i].call in u.finished
    decreases i, 0
  {
    var after := Apply(env, t, DoFinish([]));
    FinishLeaves(env, t, []);
    FinishedBy(env, t, []);
    HeadOfLine(t, after);
    LeadsOn(env, s, t, DoFinish([]), after);
    if i == 0 {
      u := after;
    } else {
      u := SweepGetsThrough(env, s, after, i - 1);
    }
  }

  /** A call whose write has not begun gets its answer before another's write lands. */
  lemma AnsweredMeanwhile(env: Env, s: State, t: State, call: nat, other: nat) returns (u: State)
    requires Leads(env, s, t) && call in t.keys.persisting && other in t.keys.writing && other != call
    ensures Leads(env, s, u) && call in u.finished
    ensures other in u.keys.writing && u.keys.writing[other] == t.keys.writing[other]
  {
    var writing := t.(keys := BeginsWrite(t.keys, call));
    LeadsOn(env, s, t, DoBeginWrite(call), writing);
    var queued := RevokePersisted(writing, call);
    LeadsOn(env, s, writing, DoPersisted(call), queued);
    LineMoves(env, writing, DoPersisted(call));
    u := SweepGetsThrough(env, s, queued, |Line(writing)|);
  }

  /** A write under way that does not hold the key may land last, after the revocation is answered. */
  lemma LostUnlessHeld(env: Env, s: State, key: Text, compromisedAt: Option<Text>, now: Text) returns (u: State)
    requires Numbered(s.keys, Line(s), s.finished, s.next) && key in s.keys.authorized && !WritesHold(s.keys, key)
    ensures Leads(env, RevokeArrives(s, key, compromisedAt, now), u) && u == Restarted(u)
    ensures s.next in u.finished && key !in u.keys.revoked
  {
    var other :| other in s.keys.writing && key !in s.keys.writing[other].snapshot;
    var t := RevokeArrives(s, key, compromisedAt, now);
    LeadsNowhere(env, t);
    var v := AnsweredMeanwhile(env, t, t, s.next, other);
    var lost := RevokePersisted(v, other);
    LeadsOn(env, t, v, DoPersisted(other), lost);
    u := Restarted(lost);
    LeadsOn(env, t, lost, DoRestart, u);
  }

  /**
   Whatever happens after a key is revoked, once the call has been answered the key stays revoked across all restarts:
   so it is exactly if every write under way when the call arrived held the key already.
   */
  lemma RevocationLastsIff(
    env: Env, ss: seq<State>, steps: seq<Step>, i: nat, key: Text, compromisedAt: Option<Text>, now: Text)
    requires Run(env, ss, steps) && i <= |steps| && key in ss[i].keys.authorized
    ensures
      var s := ss[i];
      (forall t :: Leads(env, RevokeArrives(s, key, compromisedAt, now), t) && s.next in t.finished ==>
         key in t.keys.revoked)
      <==> WritesHold(s.keys, key)
  {
    var s := ss[i];
    RunNumbered(env, ss, steps, i);
    if WritesHold(s.keys, key) {
      RevokedLasts(s, key, compromisedAt, now);
      forall t | Leads(env, RevokeArrives(s, key, compromisedAt, now), t) && s.next in t.finished
        ensures key in t.keys.revoked
      {
        LeadsLasts(env, RevokeArrives(s, key, compromisedAt, now), t, s.next, RevocationOf(key, compromisedAt, now));
      }
    } else {
      var u := LostUnlessHeld(env, s, key, compromisedAt, now);
    }
  }

  /** Such a revocation, once answered, is final across any restarts. */
  lemma RevocationOutlivesRestarts(env: Env, ss: seq<State>, steps: seq<Step>, h: nat, i: nat, j: nat, k: nat)
    requires SynchronousRun(env, ss, steps) && h < i <= j <= |steps| && KeysTold(env, ss[|steps|].keys.known)
    requires steps[h].DoRevoke? && steps[h].key in ss[h].keys.authorized && WritesHold(ss[h].keys, steps[h].key)
    requires ss[h].next in ss[i].finished && k < |ss[j].db|
    requires ss[j].db[k].ministryPublicKeyHash == KeyHash(env, steps[h].key)
    requires !Less(ss[j].db[k].settledAt, RevocationOf(steps[h].key, steps[h].compromisedAt, steps[h].now).revokedAt)
    ensures ss[j].db[k].status == SUSPICIOUS
  {
    var call, r := ss[h].next, RevocationOf(steps[h].key, steps[h].compromisedAt, steps[h].now);
    RunNumbered(env, ss, steps, h);
    RevokedLasts(ss[h], steps[h].key, steps[h].compromisedAt, steps[h].now);
    var m := FinishingMoment(env, ss, steps, i, call);
    if m <= h {
      FinishedStays(env, ss, steps, m, h, call);
    }
    RunLeads(env, ss, steps, h + 1, m);
    LeadsLasts(env, ss[h + 1], ss[m], call, r);
    DurableIsFinal(env, ss, steps, m, j, r, k);
  }

  // ---- two keys at once ----

  /** The verifier with no requests and no records. */
  function Quiet(k: KeyRing, finished: map<nat, Revocation>, next: nat): State {
    State(k, [], [], [], None, map[], map[], map[], finished, next)
  }

  lemma KeyStep(env: Env, k: KeyRing, next: nat, step: Step, after: KeyRing, number: nat)
    requires Leads(env, INITIAL, Quiet(k, map[], next)) && Enabled(Quiet(k, map[], next), step) && !step.DoSettle?
    requires Apply(env, Quiet(k, map[], next), step) == Quiet(after, map[], number)
    ensures Leads(env, INITIAL, Quiet(after, map[], number))
  {
    LeadsOn(env, INITIAL, Quiet(k, map[], next), step, Quiet(after, map[], number));
  }

  /** Two keys authorized, the first revoked and its write under way. */
  lemma FirstWrite(env: Env, a: Revocation, b: Text)
    requires a.key != b
    ensures
      var write := Write(a, map[a.key := a.revokedAt]);
      var k := KeyRing({a.key, b}, write.snapshot, map[], map[], map[0 := write], {a.key, b});
      Leads(env, INITIAL, Quiet(k, map[], 1))
  {
    LeadsNowhere(env, INITIAL);
    var one := Synced(NO_KEYS, a.key);
    KeyStep(env, NO_KEYS, 0, DoSync(a.key), one, 0);
    var two := Synced(one, b);
    KeyStep(env, one, 0, DoSync(b), two, 0);
    var revoked := Revokes(two, 0, a);
    KeyStep(env, two, 0, DoRevoke(a.key, Some(a.revokedAt), []), revoked, 1);
    KeyStep(env, revoked, 1, DoBeginWrite(0), BeginsWrite(revoked, 0), 1);
    var write := Write(a, map[a.key := a.revokedAt]);
    assert BeginsWrite(revoked, 0) == KeyRing({a.key, b}, write.snapshot, map[], map[], map[0 := write], {a.key, b});
  }

  /** The second revoked meanwhile, written and answered; the first write may still land on it. */
  lemma SecondAnswered(env: Env, k: KeyRing, b: Revocation, a: Write) returns (s: State)
    requires Leads(env, INITIAL, Quiet(k, map[], 1)) && b.key in k.authorized && k.persisting == map[]
    requires k.writing == map[0 := a] && b.key !in a.snapshot
    ensures Leads(env, INITIAL, s) && s.finished == map[1 := b] && s.db == []
    ensures b.key in s.keys.revoked && !Durable(s.keys, b.key)
  {
    var revoked := Revokes(k, 1, b);
    KeyStep(env, k, 1, DoRevoke(b.key, Some(b.revokedAt), []), revoked, 2);
    var writing := BeginsWrite(revoked, 1);
    KeyStep(env, revoked, 2, DoBeginWrite(1), writing, 2);
    var queued := RevokePersisted(Quiet(writing, map[], 2), 1);
    LeadsOn(env, INITIAL, Quiet(writing, map[], 2), DoPersisted(1), queued);
    var held := Acquire(queued);
    LeadsOn(env, INITIAL, queued, DoAcquire, held);
    s := FinishSweep(env, held);
    LeadsOn(env, INITIAL, held, DoFinish([]), s);
    assert 0 in s.keys.writing && s.keys.writing[0] == a;
  }

  /**
   With two keys authorized in one process, overlapping writes lose an answered revocation: for every presentation the
   verifier lets in there is a run at whose end its key's revocation is answered and its record approved, made at any
   time asked for.
   */
  lemma TwoKeysLoseARevocation(env: Env, a: Revocation, p: Presentation, revokedAt: Text, now: Text)
    returns (ss: seq<State>, steps: seq<Step>)
    requires a.key != p.ministryPublicKey && Judge(env, {p.ministryPublicKey}, map[], p).EnterMutex?
    ensures SynchronousRun(env, ss, steps)
    ensures
      var s := ss[|steps|];
      && 1 in s.finished && s.finished[1] == Revocation(p.ministryPublicKey, revokedAt)
      && s.db == [NewRecord(env, p, now)]
  {
    FirstWrite(env, a, p.ministryPublicKey);
    var write := Write(a, map[a.key := a.revokedAt]);
    var keys := {a.key, p.ministryPublicKey};
    var s := SecondAnswered(env, KeyRing(keys, write.snapshot, map[], map[], map[0 := write], keys),
                            Revocation(p.ministryPublicKey, revokedAt), write);
    var u := UndurableIsLost(env, s, p, now);
    LeadsFromLeads(env, INITIAL, s, u);
    ss, steps :| Path(env, ss, steps, INITIAL, u);
    PathIsRun(env, ss, steps, u);
  }

  lemma LeadsFromLeads(env: Env, s: State, t: State, u: State)
    requires Leads(env, s, t) && Leads(env, t, u)
    ensures Leads(env, s, u)
  {
    var ss: seq<State>, steps: seq<Step> :| Path(env, ss, steps, t, u);
    PathLeads(env, s, t, u, ss, steps, |steps|);
  }

  lemma {:induction false} PathLeads(
    env: Env, s: State, t: State, u: State, ss: seq<State>, steps: seq<Step>, i: nat)
    requires Leads(env, s, t) && Path(env, ss, steps, t, u) && i <= |steps|
    ensures Leads(env, s, ss[i])
  {
    if i > 0 {
      PathLeads(env, s, t, u, ss, steps, i - 1);
      assert PathStep(env, ss, steps, i - 1);
      LeadsOn(env, s, ss[i - 1], steps[i - 1], ss[i]);
    }
  }
}
