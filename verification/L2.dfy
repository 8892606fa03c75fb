/**
 The L2 verifier: settling presentations and revoking keys. Both kinds of request run concurrently; they
 read and rewrite the settlement file inside one first-come mutex, but consult the revoked keys outside it.
 A handler is cut at every await, and the cuts are the steps of the state machine.
 */
module L2 {
  import opened Wrappers
  import opened Utf16
  import opened DocumentCrypto

  datatype ProofMode = Dev | Sp1

  datatype Env = Env(crypto: Primitives, mode: ProofMode)

  datatype RecordStatus = APPROVED | REJECTED | SUSPICIOUS

  datatype Record = Record(
    documentHash: Text, documentIdHash: Text, ministryPublicKeyHash: Text, holderDid: Text,
    status: RecordStatus, settledAt: Text, proofSystem: Text)

  /** The parts of a presentation the verifier reads. */
  datatype Presentation = Presentation(
    holder: Text, hasRawDocument: bool, proofSystem: Text, documentHash: Text, documentIdHash: Text,
    holderPubKeyHash: Text, proofBytes: Text, ministryPublicKey: Text)

  datatype Revocation = Revocation(key: Text, revokedAt: Text)

  /** Work that waits for the mutex or holds it. */
  datatype Task = Settle(job: nat, p: Presentation) | Sweep(call: nat, revocation: Revocation)

  /** The holder of the mutex, with the copy of the file it loaded. */
  datatype Held = Held(task: Task, copy: seq<Record>)

  datatype Reply = Settled(index: nat) | Refused(code: nat)

  /** A write of the revoked keys under way, with the keys it will leave in the file. */
  datatype Write = Write(revocation: Revocation, snapshot: map<Text, Text>)

  datatype KeyRing = KeyRing(
    authorized: set<Text>,
    revoked: map<Text, Text>,            // in memory
    file: map<Text, Text>,               // on disk
    persisting: map<nat, Revocation>,    // revocations in memory whose write has not begun
    writing: map<nat, Write>,
    known: set<Text>)                    // history: every key ever authorized

  datatype State = State(
    keys: KeyRing,
    db: seq<Record>,                     // the settlement file
    owners: seq<nat>,                    // the job that wrote each record
    queue: seq<Task>,                    // waiting for the mutex, first come first served
    holder: Option<Held>,
    verifying: map<nat, Presentation>,   // jobs awaiting the verdict on an SP1 proof
    replies: map<nat, Reply>,
    asked: map<nat, Presentation>,       // what each settle request presented
    finished: map<nat, Revocation>,      // revocations that have been answered
    next: nat)                           // the next request number

  const SP1_GROTH16: Text := Ascii("sp1-groth16")
  const SP1_PLONK: Text := Ascii("sp1-plonk")

  predicate IsSp1(proofSystem: Text) {
    proofSystem == SP1_GROTH16 || proofSystem == SP1_PLONK
  }

  function KeyHash(env: Env, key: Text): Text {
    Sha256Hash(env.crypto, key)
  }

  // ---- settling ----

  datatype Verdict = Refuse(code: nat) | AwaitSp1 | EnterMutex

  predicate DevProofValid(env: Env, p: Presentation) {
    VerifySignatureOverHash(
      env.crypto, CombinedSignatureHash(env.crypto, p.documentHash, p.documentIdHash), p.proofBytes,
      p.ministryPublicKey)
  }

  /** The request schema: no text is empty, and the holder's key hash has 64 characters (the handler asks again). */
  predicate Formed(p: Presentation) {
    && p.holder != [] && p.proofSystem != [] && p.documentHash != [] && p.documentIdHash != []
    && |p.holderPubKeyHash| == 64 && p.proofBytes != [] && p.ministryPublicKey != []
  }

  /** The part of `/api/verify-and-settle` before its first await. */
  function Judge(env: Env, authorized: set<Text>, revoked: map<Text, Text>, p: Presentation): Verdict {
    if !Formed(p) then Refuse(400)
    else if p.ministryPublicKey !in authorized then Refuse(403)
    else if p.ministryPublicKey in revoked then Refuse(403)
    else if p.hasRawDocument then Refuse(400)
    else if env.mode.Sp1? && !IsSp1(p.proofSystem) then Refuse(400)
    else if IsSp1(p.proofSystem) then AwaitSp1
    else if DevProofValid(env, p) then EnterMutex
    else Refuse(400)
  }

  /** The request goes where the verdict sends it. */
  function Route(s: State, p: Presentation, verdict: Verdict): State {
    var t := s.(asked := s.asked[s.next := p], next := s.next + 1);
    match verdict
    case Refuse(code) => t.(replies := s.replies[s.next := Refused(code)])
    case AwaitSp1 => t.(verifying := s.verifying[s.next := p])
    case EnterMutex => t.(queue := s.queue + [Settle(s.next, p)])
  }

  function SettleArrives(env: Env, s: State, p: Presentation): State {
    Route(s, p, Judge(env, s.keys.authorized, s.keys.revoked, p))
  }

  /** The verdict on an SP1 proof comes back. */
  function Sp1Verified(s: State, job: nat, valid: bool): State
    requires job in s.verifying
  {
    var p := s.verifying[job];
    if valid then s.(verifying := s.verifying - {job}, queue := s.queue + [Settle(job, p)])
    else s.(verifying := s.verifying - {job}, replies := s.replies[job := Refused(400)])
  }

  /** The mutex is free: the first in line takes it and loads the file. */
  function Acquire(s: State): State
    requires s.holder.None? && s.queue != []
  {
    s.(holder := Some(Held(s.queue[0], s.db)), queue := s.queue[1..])
  }

  predicate HasDuplicate(db: seq<Record>, documentIdHash: Text) {
    exists i :: 0 <= i < |db| && db[i].documentIdHash == documentIdHash
  }

  function NewRecord(env: Env, p: Presentation, now: Text): Record {
    Record(p.documentHash, p.documentIdHash, KeyHash(env, p.ministryPublicKey), p.holder, APPROVED, now, p.proofSystem)
  }

  /** The holder answers and releases; without a duplicate it saves its copy with one more record. */
  function Conclude(s: State, duplicate: bool, record: Record): State
    requires s.holder.Some? && s.holder.value.task.Settle?
  {
    var job, copy := s.holder.value.task.job, s.holder.value.copy;
    if duplicate then
      s.(holder := None, replies := s.replies[job := Refused(409)])
    else
      s.(holder := None, db := copy + [record], owners := s.owners + [job],
         replies := s.replies[job := Settled(|copy|)])
  }

  function FinishSettle(env: Env, s: State, now: Text): State
    requires s.holder.Some? && s.holder.value.task.Settle?
  {
    var p := s.holder.value.task.p;
    Conclude(s, HasDuplicate(s.holder.value.copy, p.documentIdHash), NewRecord(env, p, now))
  }

  // ---- revoking ----

  function Synced(k: KeyRing, key: Text): KeyRing {
    k.(authorized := k.authorized + {key}, known := k.known + {key})
  }

  function RevocationOf(key: Text, compromisedAt: Option<Text>, now: Text): Revocation {
    Revocation(key, if compromisedAt.Some? then compromisedAt.value else now)
  }

  /** The part of `/api/revoke-key` before its first await; an unknown key changes nothing. */
  function RevokeArrives(s: State, key: Text, compromisedAt: Option<Text>, now: Text): State {
    if key !in s.keys.authorized then s
    else s.(keys := Revokes(s.keys, s.next, RevocationOf(key, compromisedAt, now)), next := s.next + 1)
  }

  function Revokes(k: KeyRing, call: nat, r: Revocation): KeyRing {
    k.(revoked := k.revoked[r.key := r.revokedAt], persisting := k.persisting[call := r])
  }

  /** The directory is there: the write begins, with the keys revoked by now. */
  function BeginsWrite(k: KeyRing, call: nat): KeyRing
    requires call in k.persisting
  {
    k.(persisting := k.persisting - {call}, writing := k.writing[call := Write(k.persisting[call], k.revoked)])
  }

  /** The write has landed over whatever was in the file. */
  function Lands(k: KeyRing, call: nat): KeyRing
    requires call in k.writing
  {
    k.(file := k.writing[call].snapshot, writing := k.writing - {call})
  }

  /** The revoked keys are on disk; the call gets in line for the mutex. */
  function RevokePersisted(s: State, call: nat): State
    requires call in s.keys.writing
  {
    s.(keys := Lands(s.keys, call), queue := s.queue + [Sweep(call, s.keys.writing[call].revocation)])
  }

  function Reloaded(k: KeyRing): KeyRing {
    k.(authorized := {}, revoked := k.file, persisting := map[], writing := map[])
  }

  /** The process starts anew: the two files are all it has. */
  function Restarted(s: State): State {
    s.(keys := Reloaded(s.keys), queue := [], holder := None, verifying := map[])
  }

  predicate Marks(env: Env, r: Revocation, record: Record) {
    && record.ministryPublicKeyHash == KeyHash(env, r.key)
    && record.status == APPROVED
    && !Less(record.settledAt, r.revokedAt)
  }

  function Mark(env: Env, r: Revocation, record: Record): Record {
    if Marks(env, r, record) then record.(status := SUSPICIOUS) else record
  }

  function Swept(env: Env, r: Revocation, db: seq<Record>): (swept: seq<Record>)
    ensures |swept| == |db|
    ensures forall i :: 0 <= i < |db| ==> swept[i] == Mark(env, r, db[i])
  {
    seq(|db|, i requires 0 <= i < |db| => Mark(env, r, db[i]))
  }

  /** The holder sweeps its copy, saves it if anything changed, answers and releases. */
  function FinishSweep(env: Env, s: State): State
    requires s.holder.Some? && s.holder.value.task.Sweep?
  {
    var r, copy := s.holder.value.task.revocation, s.holder.value.copy;
    var db := if exists i :: 0 <= i < |copy| && Marks(env, r, copy[i]) then Swept(env, r, copy) else s.db;
    s.(holder := None, finished := s.finished[s.holder.value.task.call := r], db := db)
  }

  // ---- the state machine ----

  datatype Step =
    | DoSync(key: Text)
    | DoSettle(p: Presentation)
    | DoSp1(job: nat, valid: bool)
    | DoAcquire
    | DoFinish(now: Text)
    | DoRevoke(key: Text, compromisedAt: Option<Text>, now: Text)
    | DoBeginWrite(call: nat)
    | DoPersisted(call: nat)
    | DoRestart

  predicate Enabled(s: State, step: Step) {
    match step
    case DoSp1(job, _) => job in s.verifying
    case DoAcquire => s.holder.None? && s.queue != []
    case DoFinish(_) => s.holder.Some?
    case DoBeginWrite(call) => call in s.keys.persisting
    case DoPersisted(call) => call in s.keys.writing
    case _ => true
  }

  function Apply(env: Env, s: State, step: Step): State
    requires Enabled(s, step)
  {
    match step
    case DoSync(key) => s.(keys := Synced(s.keys, key))
    case DoSettle(p) => SettleArrives(env, s, p)
    case DoSp1(job, valid) => Sp1Verified(s, job, valid)
    case DoAcquire => Acquire(s)
    case DoFinish(now) =>
      if s.holder.value.task.Settle? then FinishSettle(env, s, now) else FinishSweep(env, s)
    case DoRevoke(key, compromisedAt, now) => RevokeArrives(s, key, compromisedAt, now)
    case DoBeginWrite(call) => s.(keys := BeginsWrite(s.keys, call))
    case DoPersisted(call) => RevokePersisted(s, call)
    case DoRestart => Restarted(s)
  }

  const NO_KEYS := KeyRing({}, map[], map[], map[], map[], {})

  const INITIAL: State := State(NO_KEYS, [], [], [], None, map[], map[], map[], map[], 0)

  // ---- the line at the mutex ----

  /** The holder and everyone behind it. */
  ghost function Line(s: State): seq<Task> {
    (if s.holder.Some? then [s.holder.value.task] else []) + s.queue
  }

  lemma ArrivalJoins(s: State, p: Presentation, verdict: Verdict)
    ensures Line(Route(s, p, verdict)) == if verdict.EnterMutex? then Line(s) + [Settle(s.next, p)] else Line(s)
  {
  }

  lemma FinishLeaves(env: Env, s: State, now: Text)
    requires s.holder.Some?
    ensures
      var t := Apply(env, s, DoFinish(now));
      && t.holder == None && t.queue == s.queue && t.verifying == s.verifying && t.asked == s.asked && t.next == s.next
      && t.keys == s.keys && Line(s) == [s.holder.value.task] + Line(t)
  {
    if s.holder.value.task.Settle? {
    } else {
    }
  }

  /** Every step leaves the line as it was, removes its head, adds one task at its end, or drops it with the process. */
  lemma LineMoves(env: Env, s: State, step: Step)
    requires Enabled(s, step)
    ensures
      var line, after := Line(s), Line(Apply(env, s, step));
      match step
      case DoSettle(p) =>
        after ==
        if Judge(env, s.keys.authorized, s.keys.revoked, p).EnterMutex? then line + [Settle(s.next, p)] else line
      case DoSp1(job, valid) => after == if valid then line + [Settle(job, s.verifying[job])] else line
      case DoPersisted(call) => after == line + [Sweep(call, s.keys.writing[call].revocation)]
      case DoFinish(_) => line == [s.holder.value.task] + after
      case DoRestart => after == []
      case _ => after == line
  {
    match step
    case DoSettle(p) => ArrivalJoins(s, p, Judge(env, s.keys.authorized, s.keys.revoked, p));
    case DoFinish(now) => FinishLeaves(env, s, now);
    case _ =>
  }

  // ---- the record file ----

  /** The settle requests in line are unanswered and pairwise different. */
  ghost predicate Unanswered(line: seq<Task>, verifying: map<nat, Presentation>, replies: map<nat, Reply>, next: nat) {
    && (forall i :: 0 <= i < |line| && line[i].Settle? ==>
          line[i].job < next && line[i].job !in replies && line[i].job !in verifying)
    && (forall i, j :: 0 <= i < j < |line| && line[i].Settle? && line[j].Settle? ==> line[i].job != line[j].job)
  }

  /** Every settle request is in one place: awaiting a proof, in line, or answered. */
  ghost predicate Placed(s: State) {
    && (forall job :: job in s.verifying ==> job < s.next && job !in s.replies)
    && (forall job :: job in s.replies ==> job < s.next)
    && Unanswered(Line(s), s.verifying, s.replies, s.next)
  }

  lemma AppendSettle(
    line: seq<Task>, verifying: map<nat, Presentation>, replies: map<nat, Reply>, next: nat, job: nat, p: Presentation)
    requires Unanswered(line, verifying + map[job := p], replies, next) && job < next && job !in replies
    requires job !in verifying && forall i :: 0 <= i < |line| && line[i].Settle? ==> line[i].job != job
    ensures Unanswered(line + [Settle(job, p)], verifying, replies, next)
  {
  }

  lemma ArrivalKeepsPlaced(s: State, p: Presentation, verdict: Verdict)
    requires Placed(s)
    ensures Placed(Route(s, p, verdict))
  {
    ArrivalJoins(s, p, verdict);
    if verdict.EnterMutex? {
      assert Unanswered(Line(s), s.verifying + map[s.next := p], s.replies, s.next + 1);
      AppendSettle(Line(s), s.verifying, s.replies, s.next + 1, s.next, p);
    }
  }

  lemma Sp1VerifiedKeepsPlaced(env: Env, s: State, job: nat, valid: bool)
    requires Placed(s) && job in s.verifying
    ensures Placed(Sp1Verified(s, job, valid))
  {
    LineMoves(env, s, DoSp1(job, valid));
    if valid {
      var rest := s.verifying - {job};
      assert s.verifying == rest + map[job := s.verifying[job]];
      AppendSettle(Line(s), rest, s.replies, s.next, job, s.verifying[job]);
    }
  }

  lemma DropHead(
    line: seq<Task>, verifying: map<nat, Presentation>, replies: map<nat, Reply>, next: nat, reply: Reply)
    requires Unanswered(line, verifying, replies, next) && line != []
    ensures Unanswered(line[1..], verifying, replies, next)
    ensures line[0].Settle? ==> Unanswered(line[1..], verifying, replies[line[0].job := reply], next)
  {
  }

  lemma FinishReplies(env: Env, s: State, now: Text) returns (reply: Reply)
    requires s.holder.Some?
    ensures
      var task := s.holder.value.task;
      Apply(env, s, DoFinish(now)).replies == if task.Settle? then s.replies[task.job := reply] else s.replies
  {
    if s.holder.value.task.Settle? {
      var p := s.holder.value.task.p;
      reply := Conclusion(s, HasDuplicate(s.holder.value.copy, p.documentIdHash), NewRecord(env, p, now));
    } else {
      reply := Refused(0);
    }
  }

  lemma Conclusion(s: State, duplicate: bool, record: Record) returns (reply: Reply)
    requires s.holder.Some? && s.holder.value.task.Settle?
    ensures Conclude(s, duplicate, record).replies == s.replies[s.holder.value.task.job := reply]
  {
    reply := if duplicate then Refused(409) else Settled(|s.holder.value.copy|);
  }

  lemma FinishKeepsPlaced(env: Env, s: State, now: Text)
    requires Placed(s) && s.holder.Some?
    ensures Placed(Apply(env, s, DoFinish(now)))
  {
    var t := Apply(env, s, DoFinish(now));
    var reply := FinishReplies(env, s, now);
    FinishLeaves(env, s, now);
    DropHead(Line(s), s.verifying, s.replies, s.next, reply);
    HeadOfLine(s, t);
  }

  lemma HeadOfLine(s: State, t: State)
    requires s.holder.Some? && Line(s) == [s.holder.value.task] + Line(t)
    ensures Line(s)[0] == s.holder.value.task && Line(s)[1..] == Line(t)
  {
  }

  lemma StepKeepsPlaced(env: Env, s: State, step: Step)
    requires Placed(s) && Enabled(s, step)
    ensures Placed(Apply(env, s, step))
  {
    match step
    case DoSettle(p) => ArrivalKeepsPlaced(s, p, Judge(env, s.keys.authorized, s.keys.revoked, p));
    case DoSp1(job, valid) => Sp1VerifiedKeepsPlaced(env, s, job, valid);
    case DoFinish(now) => FinishKeepsPlaced(env, s, now);
    case _ => LineMoves(env, s, step);
  }

  /** Requests in line or awaiting a proof are remembered as they were asked. */
  ghost predicate Remembered(line: seq<Task>, verifying: map<nat, Presentation>, asked: map<nat, Presentation>) {
    && (forall i :: 0 <= i < |line| && line[i].Settle? ==>
          line[i].job in asked && asked[line[i].job] == line[i].p)
    && (forall job :: job in verifying ==> job in asked && asked[job] == verifying[job])
  }

  lemma ArrivalKeepsRemembered(s: State, p: Presentation, verdict: Verdict)
    requires Placed(s) && Remembered(Line(s), s.verifying, s.asked)
    ensures var t := Route(s, p, verdict); Remembered(Line(t), t.verifying, t.asked)
  {
    ArrivalJoins(s, p, verdict);
  }

  lemma FinishKeepsRemembered(env: Env, s: State, now: Text)
    requires Remembered(Line(s), s.verifying, s.asked) && s.holder.Some?
    ensures var t := Apply(env, s, DoFinish(now)); Remembered(Line(t), t.verifying, t.asked)
  {
    FinishLeaves(env, s, now);
    HeadOfLine(s, Apply(env, s, DoFinish(now)));
  }

  lemma StepKeepsRemembered(env: Env, s: State, step: Step)
    requires Placed(s) && Remembered(Line(s), s.verifying, s.asked) && Enabled(s, step)
    ensures var t := Apply(env, s, step); Remembered(Line(t), t.verifying, t.asked)
  {
    match step
    case DoSettle(p) => ArrivalKeepsRemembered(s, p, Judge(env, s.keys.authorized, s.keys.revoked, p));
    case DoFinish(now) => FinishKeepsRemembered(env, s, now);
    case _ => LineMoves(env, s, step);
  }

  ghost predicate NoDuplicates(db: seq<Record>) {
    forall i, j :: 0 <= i < j < |db| ==> db[i].documentIdHash != db[j].documentIdHash
  }

  /** Each record answers one job, and each positive answer has its record. */
  ghost predicate Owned(owners: seq<nat>, replies: map<nat, Reply>) {
    && (forall i :: 0 <= i < |owners| ==> owners[i] in replies && replies[owners[i]] == Settled(i))
    && (forall job :: job in replies && replies[job].Settled? ==>
          replies[job].index < |owners| && owners[replies[job].index] == job)
  }

  /** A record states what was presented, under the key it was presented with. */
  predicate Records(env: Env, p: Presentation, record: Record) {
    && record.documentHash == p.documentHash && record.documentIdHash == p.documentIdHash
    && record.ministryPublicKeyHash == Sha256Hash(env.crypto, p.ministryPublicKey)
    && record.holderDid == p.holder && record.proofSystem == p.proofSystem
    && record.status != REJECTED
  }

  /** Each record was written for a request that presented just that. */
  ghost predicate Written(env: Env, db: seq<Record>, owners: seq<nat>, asked: map<nat, Presentation>) {
    && |owners| == |db|
    && forall i :: 0 <= i < |db| ==> owners[i] in asked && Records(env, asked[owners[i]], db[i])
  }

  /** Nobody else writes the file while a holder works on its copy. */
  ghost predicate Exclusive(s: State) {
    s.holder.Some? ==> s.holder.value.copy == s.db
  }

  ghost predicate Inv(env: Env, s: State) {
    && Placed(s)
    && s.keys.authorized <= s.keys.known
    && (forall job :: job in s.asked ==> job < s.next)
    && Remembered(Line(s), s.verifying, s.asked)
    && NoDuplicates(s.db)
    && Owned(s.owners, s.replies)
    && Written(env, s.db, s.owners, s.asked)
    && Exclusive(s)
  }

  lemma AppendRecord(
    env: Env, db: seq<Record>, owners: seq<nat>, replies: map<nat, Reply>, asked: map<nat, Presentation>, job: nat,
    now: Text)
    requires NoDuplicates(db) && Owned(owners, replies) && Written(env, db, owners, asked)
    requires job !in replies && job in asked && !HasDuplicate(db, asked[job].documentIdHash)
    ensures NoDuplicates(db + [NewRecord(env, asked[job], now)])
    ensures Owned(owners + [job], replies[job := Settled(|db|)])
    ensures Written(env, db + [NewRecord(env, asked[job], now)], owners + [job], asked)
  {
    assert job !in owners;
  }

  lemma SettleKeepsFile(env: Env, s: State, now: Text)
    requires Inv(env, s) && s.holder.Some? && s.holder.value.task.Settle?
    ensures
      var t := FinishSettle(env, s, now);
      NoDuplicates(t.db) && Owned(t.owners, t.replies) && Written(env, t.db, t.owners, t.asked)
  {
    var Settle(job, p) := s.holder.value.task;
    assert Line(s)[0] == Settle(job, p);
    if !HasDuplicate(s.db, p.documentIdHash) {
      AppendRecord(env, s.db, s.owners, s.replies, s.asked, job, now);
    }
  }

  lemma SweepKeepsFile(env: Env, db: seq<Record>, owners: seq<nat>, asked: map<nat, Presentation>, r: Revocation)
    requires NoDuplicates(db) && Written(env, db, owners, asked)
    ensures NoDuplicates(Swept(env, r, db)) && Written(env, Swept(env, r, db), owners, asked)
  {
    forall i, j | 0 <= i < j < |db|
      ensures Swept(env, r, db)[i].documentIdHash != Swept(env, r, db)[j].documentIdHash
    {
      assert db[i].documentIdHash != db[j].documentIdHash;
    }
  }

  lemma ArrivalKeepsFile(s: State, p: Presentation, verdict: Verdict)
    requires Placed(s) && Owned(s.owners, s.replies)
    ensures
      var t := Route(s, p, verdict);
      t.db == s.db && t.owners == s.owners && t.holder == s.holder && Owned(t.owners, t.replies)
  {
  }

  lemma OtherStepsKeepFile(env: Env, s: State, step: Step)
    requires Placed(s) && Owned(s.owners, s.replies) && Exclusive(s) && Enabled(s, step) && !step.DoFinish?
    ensures
      var t := Apply(env, s, step);
      t.db == s.db && t.owners == s.owners && Owned(t.owners, t.replies) && Exclusive(t)
  {
    match step
    case DoSettle(p) => ArrivalKeepsFile(s, p, Judge(env, s.keys.authorized, s.keys.revoked, p));
    case _ =>
  }

  lemma FinishSweepKeepsFile(env: Env, s: State)
    requires Inv(env, s) && s.holder.Some? && s.holder.value.task.Sweep?
    ensures
      var t := FinishSweep(env, s);
      NoDuplicates(t.db) && Owned(t.owners, t.replies) && Written(env, t.db, t.owners, t.asked)
  {
    SweepKeepsFile(env, s.db, s.owners, s.asked, s.holder.value.task.revocation);
  }

  lemma FinishKeepsFile(env: Env, s: State, now: Text)
    requires Inv(env, s) && s.holder.Some?
    ensures
      var t := Apply(env, s, DoFinish(now));
      NoDuplicates(t.db) && Owned(t.owners, t.replies) && Written(env, t.db, t.owners, t.asked) && Exclusive(t)
  {
    FinishLeaves(env, s, now);
    if s.holder.value.task.Settle? {
      SettleKeepsFile(env, s, now);
    } else {
      FinishSweepKeepsFile(env, s);
    }
  }

  lemma StepKeepsFile(env: Env, s: State, step: Step)
    requires Inv(env, s) && Enabled(s, step)
    ensures
      var t := Apply(env, s, step);
      NoDuplicates(t.db) && Owned(t.owners, t.replies) && Written(env, t.db, t.owners, t.asked) && Exclusive(t)
  {
    if step.DoFinish? {
      FinishKeepsFile(env, s, step.now);
    } else {
      OtherStepsKeepFile(env, s, step);
      AskedGrows(env, s, step);
      WrittenGrows(env, s.db, s.owners, s.asked, Apply(env, s, step).asked);
    }
  }

  lemma WrittenGrows(
    env: Env, db: seq<Record>, owners: seq<nat>, asked: map<nat, Presentation>, later: map<nat, Presentation>)
    requires Written(env, db, owners, asked)
    requires forall job :: job in asked ==> job in later && later[job] == asked[job]
    ensures Written(env, db, owners, later)
  {
  }

  lemma ArrivalGrowsAsked(s: State, p: Presentation, verdict: Verdict)
    requires forall job :: job in s.asked ==> job < s.next
    ensures
      var t := Route(s, p, verdict);
      && (forall job :: job in t.asked ==> job < t.next)
      && (forall job :: job in s.asked ==> job in t.asked && t.asked[job] == s.asked[job])
  {
  }

  lemma ArrivalIsAsked(env: Env, s: State, p: Presentation)
    ensures SettleArrives(env, s, p).asked == s.asked[s.next := p]
  {
  }

  lemma AskedGrows(env: Env, s: State, step: Step)
    requires Enabled(s, step)
    requires forall job :: job in s.asked ==> job < s.next
    ensures
      var t := Apply(env, s, step);
      && (forall job :: job in t.asked ==> job < t.next)
      && (forall job :: job in s.asked ==> job in t.asked && t.asked[job] == s.asked[job])
  {
    match step
    case DoSettle(p) => ArrivalGrowsAsked(s, p, Judge(env, s.keys.authorized, s.keys.revoked, p));
    case DoFinish(now) => FinishLeaves(env, s, now);
    case _ =>
  }

  lemma StepKeepsInv(env: Env, s: State, step: Step)
    requires Inv(env, s) && Enabled(s, step)
    ensures Inv(env, Apply(env, s, step))
  {
    assert Placed(Apply(env, s, step)) by { StepKeepsPlaced(env, s, step); }
    assert var t := Apply(env, s, step); Remembered(Line(t), t.verifying, t.asked) by {
      StepKeepsRemembered(env, s, step);
    }
    StepKeepsFile(env, s, step);
    AskedGrows(env, s, step);
    KeysBy(env, s, step);
  }

  // ---- statuses ----

  /** Records are never removed or rewritten, except that an approved one may become suspicious. */
  ghost predicate Grows(db: seq<Record>, later: seq<Record>) {
    && |db| <= |later|
    && forall i :: 0 <= i < |db| ==>
         later[i] == db[i] || (db[i].status == APPROVED && later[i] == db[i].(status := SUSPICIOUS))
  }

  lemma OthersKeepRecords(env: Env, s: State, step: Step)
    requires Enabled(s, step)
    ensures !step.DoFinish? ==> Apply(env, s, step).db == s.db
  {
    match step
    case DoSettle(p) => assert Route(s, p, Judge(env, s.keys.authorized, s.keys.revoked, p)).db == s.db;
    case _ =>
  }

  lemma StepGrows(env: Env, s: State, step: Step)
    requires Exclusive(s) && Enabled(s, step)
    ensures Grows(s.db, Apply(env, s, step).db)
  {
    OthersKeepRecords(env, s, step);
    if step.DoFinish? && s.holder.value.task.Sweep? {
      assert Grows(s.db, Swept(env, s.holder.value.task.revocation, s.db));
    }
  }

  // ---- answers stay ----

  lemma ArrivalAnswers(s: State, p: Presentation, verdict: Verdict)
    requires Placed(s)
    ensures
      var t := Route(s, p, verdict);
      forall job :: job in s.replies ==> job in t.replies && t.replies[job] == s.replies[job]
  {
  }

  /** An answer once given stays what it was. */
  lemma AnswersStay(env: Env, s: State, step: Step)
    requires Placed(s) && Enabled(s, step)
    ensures
      var t := Apply(env, s, step);
      forall job :: job in s.replies ==> job in t.replies && t.replies[job] == s.replies[job]
  {
    match step
    case DoSettle(p) => ArrivalAnswers(s, p, Judge(env, s.keys.authorized, s.keys.revoked, p));
    case DoFinish(now) =>
      var reply := FinishReplies(env, s, now);
      assert Line(s)[0] == s.holder.value.task;
    case _ =>
  }

  // ---- runs ----

  predicate Next(env: Env, s: State, step: Step, t: State) {
    Enabled(s, step) && t == Apply(env, s, step)
  }

  ghost predicate Run(env: Env, ss: seq<State>, steps: seq<Step>) {
    && |ss| == |steps| + 1
    && ss[0] == INITIAL
    && forall i :: 0 <= i < |steps| ==> Next(env, ss[i], steps[i], ss[i + 1])
  }

  lemma {:induction false} RunInv(env: Env, ss: seq<State>, steps: seq<Step>, i: nat)
    requires Run(env, ss, steps) && i <= |steps|
    ensures Inv(env, ss[i])
  {
    if i > 0 {
      RunInv(env, ss, steps, i - 1);
      StepKeepsInv(env, ss[i - 1], steps[i - 1]);
    }
  }

  lemma GrowsTransitive(a: seq<Record>, b: seq<Record>, c: seq<Record>)
    requires Grows(a, b) && Grows(b, c)
    ensures Grows(a, c)
  {
  }

  /** In every run no record disappears or changes, but for an approved one becoming suspicious. */
  lemma {:induction false} StatusesOnlyWorsen(env: Env, ss: seq<State>, steps: seq<Step>, i: nat, j: nat)
    requires Run(env, ss, steps) && i <= j <= |steps|
    ensures Grows(ss[i].db, ss[j].db)
    decreases j
  {
    if i < j {
      StatusesOnlyWorsen(env, ss, steps, i, j - 1);
      RunInv(env, ss, steps, j - 1);
      assert Next(env, ss[j - 1], steps[j - 1], ss[j]);
      StepGrows(env, ss[j - 1], steps[j - 1]);
      GrowsTransitive(ss[i].db, ss[j - 1].db, ss[j].db);
    }
  }

  /** In every run one document is settled at most once. */
  lemma SettledOnce(env: Env, ss: seq<State>, steps: seq<Step>, i: nat)
    requires Run(env, ss, steps) && i <= |steps|
    ensures NoDuplicates(ss[i].db)
  {
    RunInv(env, ss, steps, i);
  }

  /** What a step does to the keys: only five of them do anything. */
  function NextKeys(k: KeyRing, call: nat, step: Step): KeyRing
    requires step.DoBeginWrite? ==> step.call in k.persisting
    requires step.DoPersisted? ==> step.call in k.writing
  {
    match step
    case DoSync(key) => Synced(k, key)
    case DoRevoke(key, compromisedAt, now) =>
      if key !in k.authorized then k else Revokes(k, call, RevocationOf(key, compromisedAt, now))
    case DoBeginWrite(write) => BeginsWrite(k, write)
    case DoPersisted(write) => Lands(k, write)
    case DoRestart => Reloaded(k)
    case _ => k
  }

  lemma KeysBy(env: Env, s: State, step: Step)
    requires Enabled(s, step)
    ensures Apply(env, s, step).keys == NextKeys(s.keys, s.next, step)
  {
    match step
    case DoSettle(p) => assert Route(s, p, Judge(env, s.keys.authorized, s.keys.revoked, p)).keys == s.keys;
    case DoFinish(now) => FinishLeaves(env, s, now);
    case _ =>
  }

  lemma StepKnows(env: Env, s: State, step: Step, t: State)
    requires Next(env, s, step, t)
    ensures s.keys.known <= t.keys.known
  {
    KeysBy(env, s, step);
  }

  lemma {:induction false} KnownGrows(env: Env, ss: seq<State>, steps: seq<Step>, i: nat, j: nat)
    requires Run(env, ss, steps) && i <= j <= |steps|
    ensures ss[i].keys.known <= ss[j].keys.known
    decreases j
  {
    if i < j {
      KnownGrows(env, ss, steps, i, j - 1);
      StepKnows(env, ss[j - 1], steps[j - 1], ss[j]);
    }
  }

  // ---- runs without SP1 proofs ----

  /** The step does not start the asynchronous check of an SP1 proof. */
  predicate Synchronous(env: Env, s: State, step: Step) {
    step.DoSettle? ==> !Judge(env, s.keys.authorized, s.keys.revoked, step.p).AwaitSp1?
  }

  /** A settle request that gets in line presented an authorized key that is not revoked. */
  lemma AdmittedKey(env: Env, s: State, p: Presentation)
    requires Judge(env, s.keys.authorized, s.keys.revoked, p).EnterMutex?
    ensures p.ministryPublicKey in s.keys.authorized && p.ministryPublicKey !in s.keys.revoked
    ensures DevProofValid(env, p)
  {
  }

  ghost predicate SynchronousRun(env: Env, ss: seq<State>, steps: seq<Step>) {
    && Run(env, ss, steps)
    && forall i :: 0 <= i < |steps| ==> Synchronous(env, ss[i], steps[i])
  }
}
