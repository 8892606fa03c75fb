/**
 Which records a revocation touches, and no others: a record is suspicious because of a revocation that was asked for,
 of its key, and no later than the record was made.
 */
module Suspicion {
  import opened Utf16
  import opened DocumentCrypto
  import opened L2
  import opened Revoking

  // ---- where revocations come from ----

  /** What is being revoked, at every stage, is sound. */
  ghost predicate AllSound(
    sound: (nat, Revocation) -> bool, k: KeyRing, line: seq<Task>, finished: map<nat, Revocation>)
  {
    && (forall call :: call in k.persisting ==> sound(call, k.persisting[call]))
    && (forall call :: call in k.writing ==> sound(call, k.writing[call].revocation))
    && (forall i :: 0 <= i < |line| && line[i].Sweep? ==> sound(line[i].call, line[i].revocation))
    && (forall call :: call in finished ==> sound(call, finished[call]))
  }

  lemma KeysKeepSound(
    sound: (nat, Revocation) -> bool, k: KeyRing, line: seq<Task>, finished: map<nat, Revocation>, next: nat,
    step: Step)
    requires AllSound(sound, k, line, finished)
    requires step.DoBeginWrite? ==> step.call in k.persisting
    requires step.DoPersisted? ==> step.call in k.writing
    requires step.DoRevoke? && step.key in k.authorized ==>
               sound(next, RevocationOf(step.key, step.compromisedAt, step.now))
    ensures AllSound(sound, NextKeys(k, next, step), line, finished)
  {
  }

  lemma TaskKeepsSound(
    sound: (nat, Revocation) -> bool, k: KeyRing, line: seq<Task>, finished: map<nat, Revocation>, task: Task)
    requires AllSound(sound, k, line, finished) && (task.Sweep? ==> sound(task.call, task.revocation))
    ensures AllSound(sound, k, line + [task], finished)
  {
  }

  lemma HeadKeepsSound(
    sound: (nat, Revocation) -> bool, k: KeyRing, line: seq<Task>, finished: map<nat, Revocation>)
    requires AllSound(sound, k, line, finished) && line != []
    ensures
      var after := if line[0].Sweep? then finished[line[0].call := line[0].revocation] else finished;
      AllSound(sound, k, line[1..], after)
  {
  }

  lemma FinishKeepsSound(env: Env, sound: (nat, Revocation) -> bool, s: State, now: Text)
    requires s.holder.Some? && AllSound(sound, s.keys, Line(s), s.finished)
    ensures var t := Apply(env, s, DoFinish(now)); AllSound(sound, t.keys, Line(t), t.finished)
  {
    FinishLeaves(env, s, now);
    FinishedBy(env, s, now);
    HeadOfLine(s, Apply(env, s, DoFinish(now)));
    HeadKeepsSound(sound, s.keys, Line(s), s.finished);
  }

  lemma OthersKeepSound(env: Env, sound: (nat, Revocation) -> bool, s: State, step: Step)
    requires Enabled(s, step) && !step.DoFinish? && AllSound(sound, s.keys, Line(s), s.finished)
    requires step.DoRevoke? && step.key in s.keys.authorized ==>
               sound(s.next, RevocationOf(step.key, step.compromisedAt, step.now))
    ensures var t := Apply(env, s, step); AllSound(sound, t.keys, Line(t), t.finished)
  {
    var after := NextKeys(s.keys, s.next, step);
    KeysBy(env, s, step);
    KeysKeepSound(sound, s.keys, Line(s), s.finished, s.next, step);
    OthersFinishNothing(env, s, step);
    LineMoves(env, s, step);
    match step
    case DoSettle(p) => TaskKeepsSound(sound, after, Line(s), s.finished, Settle(s.next, p));
    case DoSp1(job, valid) => TaskKeepsSound(sound, after, Line(s), s.finished, Settle(job, s.verifying[job]));
    case DoPersisted(call) =>
      TaskKeepsSound(sound, after, Line(s), s.finished, Sweep(call, s.keys.writing[call].revocation));
    case _ =>
  }

  /** Step g asks for the revocation, of a key the verifier knows, as of the time named or, without one, of now. */
  predicate AskedAt(ss: seq<State>, steps: seq<Step>, g: nat, call: nat, r: Revocation)
    requires g < |steps| < |ss|
  {
    && steps[g].DoRevoke? && steps[g].key == r.key && r.key in ss[g].keys.authorized && ss[g].next == call
    && match steps[g].compromisedAt
       case Some(time) => r.revokedAt == time
       case None => r.revokedAt == steps[g].now
  }

  ghost function AskedBefore(ss: seq<State>, steps: seq<Step>, i: nat): (nat, Revocation) -> bool
    requires i <= |steps| < |ss|
  {
    (call: nat, r: Revocation) => exists g :: 0 <= g < i && AskedAt(ss, steps, g, call, r)
  }

  lemma AllAskedLater(ss: seq<State>, steps: seq<Step>, i: nat, s: State)
    requires i < |steps| < |ss| && AllSound(AskedBefore(ss, steps, i), s.keys, Line(s), s.finished)
    ensures AllSound(AskedBefore(ss, steps, i + 1), s.keys, Line(s), s.finished)
  {
    forall call: nat, r | AskedBefore(ss, steps, i)(call, r) ensures AskedBefore(ss, steps, i + 1)(call, r) {
    }
  }

  lemma JustAsked(ss: seq<State>, steps: seq<Step>, i: nat)
    requires i < |steps| < |ss| && steps[i].DoRevoke? && steps[i].key in ss[i].keys.authorized
    ensures
      AskedBefore(ss, steps, i + 1)(ss[i].next, RevocationOf(steps[i].key, steps[i].compromisedAt, steps[i].now))
  {
    assert AskedAt(ss, steps, i, ss[i].next, RevocationOf(steps[i].key, steps[i].compromisedAt, steps[i].now));
  }

  lemma {:induction false} RunIsSound(env: Env, ss: seq<State>, steps: seq<Step>, i: nat)
    requires Run(env, ss, steps) && i <= |steps|
    ensures AllSound(AskedBefore(ss, steps, i), ss[i].keys, Line(ss[i]), ss[i].finished)
  {
    if i > 0 {
      var sound := AskedBefore(ss, steps, i);
      RunIsSound(env, ss, steps, i - 1);
      AllAskedLater(ss, steps, i - 1, ss[i - 1]);
      if steps[i - 1].DoFinish? {
        FinishKeepsSound(env, sound, ss[i - 1], steps[i - 1].now);
      } else {
        if steps[i - 1].DoRevoke? && steps[i - 1].key in ss[i - 1].keys.authorized {
          JustAsked(ss, steps, i - 1);
        }
        OthersKeepSound(env, sound, ss[i - 1], steps[i - 1]);
      }
    }
  }

  /** Every revocation answered was asked for: of that key, and as of the time the request named. */
  lemma AnsweredAsAsked(env: Env, ss: seq<State>, steps: seq<Step>, i: nat, call: nat) returns (g: nat)
    requires Run(env, ss, steps) && i <= |steps| && call in ss[i].finished
    ensures g < i && AskedAt(ss, steps, g, call, ss[i].finished[call])
  {
    RunIsSound(env, ss, steps, i);
    assert AskedBefore(ss, steps, i)(call, ss[i].finished[call]);
    g :| 0 <= g < i && AskedAt(ss, steps, g, call, ss[i].finished[call]);
  }

  // ---- call numbers ----

  lemma {:induction false} NumbersGrow(env: Env, ss: seq<State>, steps: seq<Step>, i: nat, j: nat)
    requires Run(env, ss, steps) && i <= j <= |steps|
    ensures ss[i].next <= ss[j].next
    decreases j
  {
    if i < j {
      NumbersGrow(env, ss, steps, i, j - 1);
      assert Next(env, ss[j - 1], steps[j - 1], ss[j]);
      NextGrows(env, ss[j - 1], steps[j - 1]);
    }
  }

  /** A call number names one request. */
  lemma OneRequest(
    env: Env, ss: seq<State>, steps: seq<Step>, g: nat, h: nat, call: nat, a: Revocation, b: Revocation)
    requires Run(env, ss, steps) && g < |steps| && h < |steps|
    requires AskedAt(ss, steps, g, call, a) && AskedAt(ss, steps, h, call, b)
    ensures g == h && a == b
  {
    assert Next(env, ss[g], steps[g], ss[g + 1]) && Next(env, ss[h], steps[h], ss[h + 1]);
    NextGrows(env, ss[g], steps[g]);
    NextGrows(env, ss[h], steps[h]);
    if g < h {
      NumbersGrow(env, ss, steps, g + 1, h);
    } else if h < g {
      NumbersGrow(env, ss, steps, h + 1, g);
    }
  }

  lemma AnsweredOnce(env: Env, ss: seq<State>, steps: seq<Step>, i: nat, j: nat, call: nat)
    requires Run(env, ss, steps) && i <= j <= |steps| && call in ss[i].finished
    ensures call in ss[j].finished && ss[j].finished[call] == ss[i].finished[call]
  {
    FinishedStays(env, ss, steps, i, j, call);
    var g := AnsweredAsAsked(env, ss, steps, i, call);
    var h := AnsweredAsAsked(env, ss, steps, j, call);
    OneRequest(env, ss, steps, g, h, call, ss[i].finished[call], ss[j].finished[call]);
  }

  // ---- why a record is suspicious ----

  /** The revocation is of the record's key, and the record was made at its time or later. */
  predicate Concerns(env: Env, r: Revocation, record: Record) {
    record.ministryPublicKeyHash == Sha256Hash(env.crypto, r.key) && !Less(record.settledAt, r.revokedAt)
  }

  /** A record that turns suspicious does so as the sweep of a revocation that concerns it is answered. */
  lemma NextSuspects(env: Env, s: State, step: Step, t: State, k: nat)
    requires Exclusive(s) && Next(env, s, step, t) && k < |t.db| && t.db[k].status == SUSPICIOUS
    requires !(k < |s.db| && s.db[k].status == SUSPICIOUS)
    ensures s.holder.Some? && s.holder.value.task.Sweep?
    ensures
      var Sweep(call, r) := s.holder.value.task;
      call in t.finished && t.finished[call] == r && Concerns(env, r, t.db[k])
  {
    OthersKeepRecords(env, s, step);
  }

  lemma {:induction false} SuspicionIsFounded(env: Env, ss: seq<State>, steps: seq<Step>, i: nat, k: nat)
    returns (call: nat)
    requires Run(env, ss, steps) && i <= |steps| && k < |ss[i].db| && ss[i].db[k].status == SUSPICIOUS
    ensures call in ss[i].finished && Concerns(env, ss[i].finished[call], ss[i].db[k])
    decreases i
  {
    assert i > 0;
    RunInv(env, ss, steps, i - 1);
    StatusesOnlyWorsen(env, ss, steps, i - 1, i);
    if k < |ss[i - 1].db| && ss[i - 1].db[k].status == SUSPICIOUS {
      call := SuspicionIsFounded(env, ss, steps, i - 1, k);
      AnsweredOnce(env, ss, steps, i - 1, i, call);
    } else {
      NextSuspects(env, ss[i - 1], steps[i - 1], ss[i], k);
      call := ss[i - 1].holder.value.task.call;
    }
  }

  /** The file has named the keys of all answered revocations at every restart since. */
  ghost predicate AllNamed(ss: seq<State>, steps: seq<Step>, i: nat)
    requires i <= |steps| < |ss|
  {
    forall call :: call in ss[i].finished ==> NamedSince(ss, steps, call, ss[i].finished[call].key, i)
  }

  /**
   A record is suspicious exactly if a revocation of its key has been answered whose time is not after the record's.
   One half of this needs no condition; the other one needs those of `RevocationIsFinal`.
   */
  lemma SuspiciousIffRevoked(env: Env, ss: seq<State>, steps: seq<Step>, i: nat, k: nat)
    requires SynchronousRun(env, ss, steps) && i <= |steps| && k < |ss[i].db|
    requires KeysTold(env, ss[|steps|].keys.known) && AllNamed(ss, steps, i)
    ensures ss[i].db[k].status == SUSPICIOUS <==>
              exists call :: call in ss[i].finished && Concerns(env, ss[i].finished[call], ss[i].db[k])
  {
    if ss[i].db[k].status == SUSPICIOUS {
      var call := SuspicionIsFounded(env, ss, steps, i, k);
    }
    if call :| call in ss[i].finished && Concerns(env, ss[i].finished[call], ss[i].db[k]) {
      RevocationIsFinal(env, ss, steps, i, i, call, k);
    }
  }
}
