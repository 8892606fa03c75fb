/**
 A submission that nothing happens to: step by step, without a lost message, from the operator's draft to the
 settled record. It shows that the states the promises of module Clearance are about do arise.
 */
module Journey {
  import opened Wrappers
  import opened Utf16
  import opened DocumentCrypto
  import opened Credentials
  import opened Pipeline
  import opened Clearance
  import ReviewQueue
  import Broker
  import Ministry
  import L2
  import Hex

  ghost predicate Reaches(config: Config, w: World) {
    exists ws: seq<World>, steps: seq<Step> :: GuardedRun(config, ws, steps) && ws[|steps|] == w
  }

  lemma ReachesInitial(config: Config)
    ensures Reaches(config, INITIAL)
  {
    var ws: seq<World>, steps: seq<Step> := [INITIAL], [];
    assert GuardedRun(config, ws, steps) && ws[|steps|] == INITIAL;
  }

  lemma ReachesNext(config: Config, w: World, step: Step, v: World)
    requires Reaches(config, w) && Next(config, w, step, v) && Guarded(config, w, step)
    ensures Reaches(config, v)
  {
    var ws: seq<World>, steps: seq<Step> :| GuardedRun(config, ws, steps) && ws[|steps|] == w;
    LongerRun(config, ws, steps, step, v);
    assert (ws + [v])[|steps + [step]|] == v;
  }

  lemma LongerRun(config: Config, ws: seq<World>, steps: seq<Step>, step: Step, v: World)
    requires GuardedRun(config, ws, steps)
    requires Next(config, ws[|steps|], step, v) && Guarded(config, ws[|steps|], step)
    ensures GuardedRun(config, ws + [v], steps + [step])
  {
    var more, longer := ws + [v], steps + [step];
    forall i | 0 <= i < |longer| ensures StepAt(config, more, longer, i) {
      if i < |steps| {
        assert StepAt(config, ws, steps, i);
        SameStepAt(config, ws, steps, more, longer, i);
      }
    }
    forall i | 0 <= i < |longer| ensures GuardedAt(config, more, longer, i) {
      if i < |steps| {
        assert GuardedAt(config, ws, steps, i);
        SameStepAt(config, ws, steps, more, longer, i);
      }
    }
  }

  lemma SameStepAt(
    config: Config, ws: seq<World>, steps: seq<Step>, more: seq<World>, longer: seq<Step>, i: nat)
    requires i < |steps| < |ws| && steps <= longer && ws <= more && |longer| < |more|
    ensures StepAt(config, more, longer, i) == StepAt(config, ws, steps, i)
    ensures GuardedAt(config, more, longer, i) == GuardedAt(config, ws, steps, i)
  {
    assert ws[i] == more[i] && ws[i + 1] == more[i + 1] && steps[i] == longer[i];
  }

  // ---- the broker's side ----

  /** The broker with one submission. */
  function BrokerWith(row: Broker.Submission, review: ReviewQueue.Status, calls: set<nat>, tick: Broker.Tick)
    : Broker.State
  {
    Broker.State([row], [ReviewItem(row, review)], calls, tick)
  }

  function ReviewItem(row: Broker.Submission, review: ReviewQueue.Status): ReviewQueue.Item<Submittable> {
    ReviewQueue.Item(
      1, Broker.SUBMISSION_APPROVAL, DocumentId(row.document), review, row.document, Broker.OPERATOR,
      if review.AwaitingApproval? then None else Some(Broker.OPERATOR), None, row.createdAt, row.updatedAt)
  }

  function Draft(v: Submittable, now: int): Broker.Submission {
    Broker.Submission(1, 1, v, Broker.Draft, None, None, None, None, None, now, now)
  }

  lemma Creates(v: Submittable, now: int)
    ensures
      Broker.Apply(Broker.INITIAL, Broker.DoCreate(v, now)) ==
      BrokerWith(Draft(v, now), ReviewQueue.AwaitingApproval, {}, Broker.Idle)
  {
  }

  function Sent(v: Submittable, now: int): Broker.Submission {
    Draft(v, now).(status := Broker.SentToMinistry)
  }

  lemma Approves(v: Submittable, now: int)
    ensures
      Broker.Apply(BrokerWith(Draft(v, now), ReviewQueue.AwaitingApproval, {}, Broker.Idle),
                   Broker.DoApprove(1, now)) ==
      BrokerWith(Sent(v, now), ReviewQueue.Approved, {1}, Broker.Idle)
  {
  }

  function Waiting(v: Submittable, now: int): Broker.Submission {
    Sent(v, now).(status := Broker.AwaitingMinistryApproval, ministryRefId := Some(1))
  }

  lemma Registered(v: Submittable, now: int)
    ensures
      Broker.Apply(BrokerWith(Sent(v, now), ReviewQueue.Approved, {1}, Broker.Idle),
                   Broker.DoApproveReply(1, Broker.Accepted(1), now)) ==
      BrokerWith(Waiting(v, now), ReviewQueue.Approved, {}, Broker.Idle)
  {
  }

  lemma Lists(row: Broker.Submission)
    ensures Broker.IsListing([row], row.status, [row])
  {
    var rows := [row];
    assert forall k :: 0 <= k < |rows| ==> rows[k] == row;
    assert row in rows;
  }

  lemma Polls(v: Submittable, now: int)
    ensures
      var b := BrokerWith(Waiting(v, now), ReviewQueue.Approved, {}, Broker.AtLoop(Broker.First, [Waiting(v, now)]));
      Broker.Apply(b, Broker.DoTakeNext(now)) ==
      BrokerWith(Waiting(v, now), ReviewQueue.Approved, {}, Broker.AwaitMinistry(1, 1, []))
  {
    assert [Waiting(v, now)][1..] == [];
  }

  function Asked(v: Submittable, vc: Credential, now: int): Broker.Submission {
    Waiting(v, now).(status := Broker.ProofRequested, credential := Some(vc))
  }

  lemma Asks(v: Submittable, vc: Credential, now: int)
    ensures
      var b := BrokerWith(Waiting(v, now), ReviewQueue.Approved, {}, Broker.AwaitMinistry(1, 1, []));
      Broker.Apply(b, Broker.DoPollReply(Broker.Answer(ReviewQueue.Approved, Some(vc)), now)) ==
      BrokerWith(Asked(v, vc, now), ReviewQueue.Approved, {}, Broker.AwaitAgent(1, vc, Broker.First, []))
  {
  }

  function Done(v: Submittable, vc: Credential, p: L2.Presentation, result: Broker.L2Result, now: int)
    : Broker.Submission
  {
    Asked(v, vc, now).(status := Broker.Settled, presentation := Some(p), l2Result := Some(result))
  }

  lemma Settles(v: Submittable, vc: Credential, p: L2.Presentation, result: Broker.L2Result, now: int)
    requires result.status == L2.APPROVED
    ensures
      var b := BrokerWith(Asked(v, vc, now), ReviewQueue.Approved, {}, Broker.AwaitAgent(1, vc, Broker.First, []));
      Broker.Apply(b, Broker.DoAgentReply(Broker.Completed(p, result), now)) ==
      BrokerWith(Done(v, vc, p, result, now), ReviewQueue.Approved, {}, Broker.AtLoop(Broker.First, []))
  {
  }

  // ---- Ministry's side ----

  function Taken(d: Document, now: int): Ministry.State {
    Ministry.State(
      [ReviewQueue.Item(1, Ministry.DOCUMENT_APPROVAL, DocumentId(d), ReviewQueue.AwaitingApproval, d, Ministry.BROKER,
                        None, None, now, now)],
      map[1 := Ministry.DocumentRecord(ReviewQueue.AwaitingApproval, None, now)])
  }

  lemma Takes(config: Ministry.Config, d: Document, now: int)
    ensures Ministry.Apply(config, Ministry.INITIAL, Ministry.Submit(d, now)) == Taken(d, now)
  {
  }

  /** Ministry with one document, approved. */
  function Granting(d: Document, vc: Credential, now: int): Ministry.State {
    Ministry.State(
      [ReviewQueue.Item(1, Ministry.DOCUMENT_APPROVAL, DocumentId(d), ReviewQueue.Approved, d, Ministry.BROKER,
                        Some(Ministry.OFFICER), None, now, now)],
      map[1 := Ministry.DocumentRecord(ReviewQueue.Approved, Some(vc), now)])
  }

  lemma Grants(config: Ministry.Config, d: Document, date: Text, now: int)
    ensures
      Ministry.Apply(config, Taken(d, now), Ministry.OfficerApproves(1, date, now)) ==
      Granting(d, Ministry.CredentialFor(config, d, date), now)
  {
  }

  // ---- L2's side ----

  /** The verifier that knows one key, with nothing under way. */
  function Verifier(key: Text, db: seq<L2.Record>, owners: seq<nat>, replies: map<nat, L2.Reply>,
                    asked: map<nat, L2.Presentation>, next: nat): L2.State {
    L2.State(L2.Synced(L2.NO_KEYS, key), db, owners, [], None, map[], replies, asked, map[], next)
  }

  /** A request that is let in, waits for nobody and finds no record of its document number. */
  lemma SettlesAlone(
    env: L2.Env, key: Text, db: seq<L2.Record>, owners: seq<nat>, replies: map<nat, L2.Reply>,
    asked: map<nat, L2.Presentation>, next: nat, p: L2.Presentation, now: Text)
    requires L2.Judge(env, {key}, map[], p) == L2.EnterMutex && !L2.HasDuplicate(db, p.documentIdHash)
    ensures
      var s := Verifier(key, db, owners, replies, asked, next);
      var arrived := L2.Apply(env, s, L2.DoSettle(p));
      && L2.Enabled(arrived, L2.DoAcquire)
      && var held := L2.Apply(env, arrived, L2.DoAcquire);
      && L2.Enabled(held, L2.DoFinish(now))
      && L2.Apply(env, held, L2.DoFinish(now)) ==
         Verifier(key, db + [L2.NewRecord(env, p, now)], owners + [next], replies[next := L2.Settled(|db|)],
                  asked[next := p], next + 1)
  {
  }

  // ---- one step of the world ----

  lemma BrokerStep(config: Config, w: World, step: Broker.Step, b: Broker.State)
    requires Reaches(config, w) && Broker.Enabled(w.broker, step) && Local(step) && b == Broker.Apply(w.broker, step)
    requires w.poll.None? && !b.tick.AwaitAgent? && !step.DoAgentReply?
    ensures Reaches(config, w.(broker := b))
  {
    ReachesNext(config, w, BrokerAlone(step), w.(broker := b));
  }

  lemma MinistryStep(config: Config, w: World, step: Ministry.Step, m: Ministry.State)
    requires Reaches(config, w) && m == Ministry.Apply(config.ministry, w.ministry, step)
    ensures Reaches(config, w.(ministry := m))
  {
    ReachesNext(config, w, MinistryAlone(step), w.(ministry := m));
  }

  lemma L2Step(config: Config, w: World, step: L2.Step, l2: L2.State)
    requires Reaches(config, w) && L2.Enabled(w.l2, step) && l2 == L2.Apply(Env(config), w.l2, step)
    requires step.DoSync? ==> step.key == config.ministry.keys.publicKey
    requires L2.Synchronous(Env(config), w.l2, step)
    requires step.DoSettle? ==> Unforged(config, w.ministry, step.p)
    ensures Reaches(config, w.(l2 := l2))
  {
    ReachesNext(config, w, L2Alone(step), w.(l2 := l2));
  }

  // ---- from the draft to the request to the agent ----

  function Start(b: Broker.State, m: Ministry.State, registered: map<nat, nat>): World {
    World(b, m, L2.INITIAL, registered, None, [], map[])
  }

  lemma ReachesSent(config: Config, v: Submittable, now: int)
    ensures
      Reaches(config, Start(BrokerWith(Sent(v, now), ReviewQueue.Approved, {1}, Broker.Idle), Ministry.INITIAL, map[]))
  {
    ReachesInitial(config);
    Creates(v, now);
    var drafted := BrokerWith(Draft(v, now), ReviewQueue.AwaitingApproval, {}, Broker.Idle);
    BrokerStep(config, INITIAL, Broker.DoCreate(v, now), drafted);
    Approves(v, now);
    BrokerStep(config, Start(drafted, Ministry.INITIAL, map[]), Broker.DoApprove(1, now),
               BrokerWith(Sent(v, now), ReviewQueue.Approved, {1}, Broker.Idle));
  }

  lemma ReachesTaken(config: Config, v: Submittable, d: Document, now: int)
    requires Passes(config, v, d)
    ensures
      Reaches(config, Start(BrokerWith(Sent(v, now), ReviewQueue.Approved, {1}, Broker.Idle), Taken(d, now),
                            map[1 := 1]))
  {
    ReachesSent(config, v, now);
    Takes(config.ministry, d, now);
    var b := BrokerWith(Sent(v, now), ReviewQueue.Approved, {1}, Broker.Idle);
    ReachesNext(config, Start(b, Ministry.INITIAL, map[]), RegisterDocument(1, now),
                Start(b, Taken(d, now), map[1 := 1]));
  }

  lemma ReachesGranting(config: Config, v: Submittable, d: Document, date: Text, now: int)
    requires Passes(config, v, d)
    ensures
      Reaches(config, Start(BrokerWith(Waiting(v, now), ReviewQueue.Approved, {}, Broker.Idle),
                            Granting(d, Ministry.CredentialFor(config.ministry, d, date), now), map[1 := 1]))
  {
    ReachesTaken(config, v, d, now);
    Registered(v, now);
    var b := BrokerWith(Sent(v, now), ReviewQueue.Approved, {1}, Broker.Idle);
    var waiting := BrokerWith(Waiting(v, now), ReviewQueue.Approved, {}, Broker.Idle);
    ReachesNext(config, Start(b, Taken(d, now), map[1 := 1]), DeliverApproval(1, now),
                Start(waiting, Taken(d, now), map[1 := 1]));
    Grants(config.ministry, d, date, now);
    MinistryStep(config, Start(waiting, Taken(d, now), map[1 := 1]), Ministry.OfficerApproves(1, date, now),
                 Granting(d, Ministry.CredentialFor(config.ministry, d, date), now));
  }

  lemma ReachesPoll(config: Config, v: Submittable, m: Ministry.State, now: int)
    requires Reaches(config, Start(BrokerWith(Waiting(v, now), ReviewQueue.Approved, {}, Broker.Idle), m, map[1 := 1]))
    ensures
      Reaches(config, Start(BrokerWith(Waiting(v, now), ReviewQueue.Approved, {}, Broker.AwaitMinistry(1, 1, [])), m,
                            map[1 := 1]))
  {
    var row := Waiting(v, now);
    Lists(row);
    var ticking := BrokerWith(row, ReviewQueue.Approved, {}, Broker.AtLoop(Broker.First, [row]));
    BrokerStep(config, Start(BrokerWith(row, ReviewQueue.Approved, {}, Broker.Idle), m, map[1 := 1]),
               Broker.DoTick([row]), ticking);
    Polls(v, now);
    BrokerStep(config, Start(ticking, m, map[1 := 1]), Broker.DoTakeNext(now),
               BrokerWith(row, ReviewQueue.Approved, {}, Broker.AwaitMinistry(1, 1, [])));
  }

  function AskedWorld(v: Submittable, d: Document, vc: Credential, now: int, l2: L2.State, stage: Stage): World {
    World(BrokerWith(Asked(v, vc, now), ReviewQueue.Approved, {}, Broker.AwaitAgent(1, vc, Broker.First, [])),
          Granting(d, vc, now), l2, map[1 := 1], None, [AgentCall(1, vc, stage)], map[])
  }

  lemma ReachesAsked(config: Config, v: Submittable, d: Document, vc: Credential, now: int)
    requires
      Reaches(config, Start(BrokerWith(Waiting(v, now), ReviewQueue.Approved, {}, Broker.AwaitMinistry(1, 1, [])),
                            Granting(d, vc, now), map[1 := 1]))
    ensures Reaches(config, AskedWorld(v, d, vc, now, L2.INITIAL, Requested))
  {
    var b := BrokerWith(Waiting(v, now), ReviewQueue.Approved, {}, Broker.AwaitMinistry(1, 1, []));
    var w := Start(b, Granting(d, vc, now), map[1 := 1]);
    var answered := w.(poll := Some(Broker.Answer(ReviewQueue.Approved, Some(vc))));
    ReachesNext(config, w, AnswerPoll, answered);
    Asks(v, vc, now);
    ReachesNext(config, answered, DeliverPoll(now), AskedWorld(v, d, vc, now, L2.INITIAL, Requested));
  }

  // ---- from the request to the agent to the settled record ----

  /** The verifier with the key of Ministry and one record, made for the presentation. */
  function OneRecord(config: Config, p: L2.Presentation, at: Text): L2.State {
    Verifier(config.ministry.keys.publicKey, [L2.NewRecord(Env(config), p, at)], [0], map[0 := L2.Settled(0)],
             map[0 := p], 1)
  }

  /** With one credential issued, what is presented over its signed bytes needs no assumption. */
  lemma OneCredentialIsUnforged(config: Config, d: Document, vc: Credential, now: int, p: L2.Presentation)
    requires Combined(p.documentHash, p.documentIdHash) == SignedBytes(config.ministry.crypto, vc)
    ensures Unforged(config, Granting(d, vc, now), p)
  {
    var m := Granting(d, vc, now);
    assert SignedAs(config, m, 1, config.ministry.crypto.sha256(Combined(p.documentHash, p.documentIdHash)));
  }

  lemma PresentIsNext(config: Config, w: World, proof: ZkProof, t: World)
    requires w.calls != [] && w.calls[0].stage.Requested? && CredentialVerifies(config.ministry.crypto, w.calls[0].vc)
    requires t == Restage(L2Moves(config, w, L2.DoSettle(Presented(config, w, 0, proof))), 0, AtL2(w.l2.next))
    ensures Next(config, w, PresentToL2(0, proof), t)
  {
  }

  lemma PresentIsGuarded(config: Config, w: World, proof: ZkProof)
    requires Enabled(config, w, PresentToL2(0, proof))
    requires Unforged(config, w.ministry, Presented(config, w, 0, proof))
    requires L2.Synchronous(Env(config), w.l2, L2.DoSettle(Presented(config, w, 0, proof)))
    ensures Guarded(config, w, PresentToL2(0, proof))
  {
  }

  /** The agent's presentation of its only call reaches L2. */
  lemma PresentStep(config: Config, w: World, call: AgentCall, proof: ZkProof, p: L2.Presentation, t: World)
    requires Reaches(config, w) && w.calls == [call] && call.stage.Requested? && p == Presented(config, w, 0, proof)
    requires CredentialVerifies(config.ministry.crypto, call.vc) && Unforged(config, w.ministry, p)
    requires L2.Synchronous(Env(config), w.l2, L2.DoSettle(p))
    requires t == Restage(L2Moves(config, w, L2.DoSettle(p)), 0, AtL2(w.l2.next))
    ensures Reaches(config, t)
  {
    PresentIsNext(config, w, proof, t);
    PresentIsGuarded(config, w, proof);
    ReachesNext(config, w, PresentToL2(0, proof), t);
  }

  lemma ReachesSynced(config: Config, v: Submittable, d: Document, vc: Credential, now: int)
    requires Reaches(config, AskedWorld(v, d, vc, now, L2.INITIAL, Requested))
    ensures
      Reaches(config, AskedWorld(v, d, vc, now, Verifier(config.ministry.keys.publicKey, [], [], map[], map[], 0),
                                 Requested))
  {
    L2Step(config, AskedWorld(v, d, vc, now, L2.INITIAL, Requested), L2.DoSync(config.ministry.keys.publicKey),
           Verifier(config.ministry.keys.publicKey, [], [], map[], map[], 0));
  }

  lemma ReachesArrived(
    config: Config, v: Submittable, d: Document, vc: Credential, now: int, proof: ZkProof, p: L2.Presentation,
    s: L2.State)
    requires Reaches(config, AskedWorld(v, d, vc, now, s, Requested)) && s.next == 0
    requires CredentialVerifies(config.ministry.crypto, vc) && p == Present(config.ministry.crypto, vc, proof)
    requires Unforged(config, Granting(d, vc, now), p)
    requires L2.Synchronous(Env(config), s, L2.DoSettle(p))
    ensures Reaches(config, AskedWorld(v, d, vc, now, L2.Apply(Env(config), s, L2.DoSettle(p)), AtL2(0)))
  {
    var t := AskedWorld(v, d, vc, now, L2.Apply(Env(config), s, L2.DoSettle(p)), AtL2(0));
    PresentStep(config, AskedWorld(v, d, vc, now, s, Requested), AgentCall(1, vc, Requested), proof, p, t);
  }

  lemma ReachesRecorded(
    config: Config, v: Submittable, d: Document, vc: Credential, now: int, p: L2.Presentation, at: Text)
    requires L2.Judge(Env(config), {config.ministry.keys.publicKey}, map[], p) == L2.EnterMutex
    requires
      var s := Verifier(config.ministry.keys.publicKey, [], [], map[], map[], 0);
      Reaches(config, AskedWorld(v, d, vc, now, L2.Apply(Env(config), s, L2.DoSettle(p)), AtL2(0)))
    ensures Reaches(config, AskedWorld(v, d, vc, now, OneRecord(config, p, at), AtL2(0)))
  {
    var s := Verifier(config.ministry.keys.publicKey, [], [], map[], map[], 0);
    SettlesAlone(Env(config), config.ministry.keys.publicKey, [], [], map[], map[], 0, p, at);
    var arrived := L2.Apply(Env(config), s, L2.DoSettle(p));
    var held := L2.Apply(Env(config), arrived, L2.DoAcquire);
    L2Step(config, AskedWorld(v, d, vc, now, arrived, AtL2(0)), L2.DoAcquire, held);
    L2Step(config, AskedWorld(v, d, vc, now, held, AtL2(0)), L2.DoFinish(at), OneRecord(config, p, at));
  }

  /** The world after the agent's answer. */
  function SettledWorld(
    v: Submittable, d: Document, vc: Credential, now: int, p: L2.Presentation, result: Broker.L2Result, l2: L2.State)
    : World
  {
    World(BrokerWith(Done(v, vc, p, result, now), ReviewQueue.Approved, {}, Broker.AtLoop(Broker.First, [])),
          Granting(d, vc, now), l2, map[1 := 1], None,
          [AgentCall(1, vc, Answered(Broker.Completed(p, result), Some(0)))], map[1 := 0])
  }

  lemma ReachesAnswered(
    config: Config, v: Submittable, d: Document, vc: Credential, now: int, p: L2.Presentation, at: Text,
    reply: Broker.AgentReply)
    requires Reaches(config, AskedWorld(v, d, vc, now, OneRecord(config, p, at), AtL2(0)))
    requires reply == Broker.Completed(p, Broker.L2Result(L2.APPROVED, L2.NewRecord(Env(config), p, at)))
    ensures Reaches(config, AskedWorld(v, d, vc, now, OneRecord(config, p, at), Answered(reply, Some(0))))
  {
    ReachesNext(config, AskedWorld(v, d, vc, now, OneRecord(config, p, at), AtL2(0)), CompleteCall(0),
                AskedWorld(v, d, vc, now, OneRecord(config, p, at), Answered(reply, Some(0))));
  }

  lemma ReachesDelivered(
    config: Config, v: Submittable, d: Document, vc: Credential, now: int, p: L2.Presentation, result: Broker.L2Result,
    l2: L2.State)
    requires
      Reaches(config, AskedWorld(v, d, vc, now, l2, Answered(Broker.Completed(p, result), Some(0))))
    requires result.status == L2.APPROVED
    ensures Reaches(config, SettledWorld(v, d, vc, now, p, result, l2))
  {
    Settles(v, vc, p, result, now);
    ReachesNext(config, AskedWorld(v, d, vc, now, l2, Answered(Broker.Completed(p, result), Some(0))),
                DeliverAgentReply(now), SettledWorld(v, d, vc, now, p, result, l2));
  }

  lemma ReachesSettled(
    config: Config, v: Submittable, d: Document, vc: Credential, now: int, p: L2.Presentation, at: Text)
    requires Reaches(config, AskedWorld(v, d, vc, now, OneRecord(config, p, at), AtL2(0)))
    ensures
      var result := Broker.L2Result(L2.APPROVED, L2.NewRecord(Env(config), p, at));
      Reaches(config, SettledWorld(v, d, vc, now, p, result, OneRecord(config, p, at)))
  {
    var result := Broker.L2Result(L2.APPROVED, L2.NewRecord(Env(config), p, at));
    ReachesAnswered(config, v, d, vc, now, p, at, Broker.Completed(p, result));
    ReachesDelivered(config, v, d, vc, now, p, result, OneRecord(config, p, at));
  }

  // ---- a whole run ----

  /** What L2 lets in: Ministry's own signature over the signed bytes, in whatever texts, by whatever holder. */
  predicate Carries(config: Config, vc: Credential, p: L2.Presentation) {
    && L2.Formed(p) && !p.hasRawDocument && !L2.IsSp1(p.proofSystem)
    && p.ministryPublicKey == config.ministry.keys.publicKey && p.proofBytes == vc.proofValue
    && Combined(p.documentHash, p.documentIdHash) == SignedBytes(config.ministry.crypto, vc)
  }

  lemma CarriedIsAdmitted(config: Config, vc: Credential, p: L2.Presentation)
    requires config.mode.Dev? && CredentialVerifies(config.ministry.crypto, vc) && Carries(config, vc, p)
    requires vc.ministryPublicKey == config.ministry.keys.publicKey
    ensures L2.Judge(Env(config), {config.ministry.keys.publicKey}, map[], p) == L2.EnterMutex
  {
    Hex.DecodeEncode(config.ministry.crypto.sha256(Combined(p.documentHash, p.documentIdHash)));
  }

  lemma PresentedIsCarried(config: Config, vc: Credential, holderPubKeyHash: Text)
    requires DigestLength(config.ministry.crypto) && |holderPubKeyHash| == 64
    requires vc.holder != [] && vc.proofValue != [] && vc.ministryPublicKey == config.ministry.keys.publicKey != []
    ensures Carries(config, vc, Present(config.ministry.crypto, vc, MockProof(vc, holderPubKeyHash)))
  {
    assert !L2.IsSp1(MOCK_PROOF) by {
      assert MOCK_PROOF[0] == 'm' as int as CodeUnit;
      assert L2.SP1_GROTH16[0] == 's' as int as CodeUnit;
      assert L2.SP1_PLONK[0] == 's' as int as CodeUnit;
    }
  }

  /** The world in which the submission is settled, with the presentation that settled it. */
  function Outcome(
    config: Config, v: Submittable, d: Document, vc: Credential, now: int, p: L2.Presentation, at: Text): World
  {
    var result := Broker.L2Result(L2.APPROVED, L2.NewRecord(Env(config), p, at));
    SettledWorld(v, d, vc, now, p, result, OneRecord(config, p, at))
  }

  lemma ReachesOutcome(
    config: Config, v: Submittable, d: Document, date: Text, now: int, holderPubKeyHash: Text, vc: Credential,
    p: L2.Presentation, at: Text)
    requires config.mode.Dev? && Passes(config, v, d)
    requires vc == Ministry.CredentialFor(config.ministry, d, date) && CredentialVerifies(config.ministry.crypto, vc)
    requires p == Present(config.ministry.crypto, vc, MockProof(vc, holderPubKeyHash)) && Carries(config, vc, p)
    ensures Reaches(config, Outcome(config, v, d, vc, now, p, at))
  {
    ReachesGranting(config, v, d, date, now);
    ReachesPoll(config, v, Granting(d, vc, now), now);
    ReachesAsked(config, v, d, vc, now);
    CarriedIsAdmitted(config, vc, p);
    OneCredentialIsUnforged(config, d, vc, now, p);
    ReachesSynced(config, v, d, vc, now);
    ReachesArrived(config, v, d, vc, now, MockProof(vc, holderPubKeyHash), p,
                   Verifier(config.ministry.keys.publicKey, [], [], map[], map[], 0));
    ReachesRecorded(config, v, d, vc, now, p, at);
    ReachesSettled(config, v, d, vc, now, p, at);
  }

  /** The submission is settled, with the one record there is, which states its document as Ministry took it in. */
  ghost predicate SettledOnRecord(config: Config, v: Submittable, w: World) {
    && IsSettled(w, 1) && w.broker.submissions[0].document == v
    && |w.l2.db| == 1 && w.l2.db[0].status == L2.APPROVED && StatesSubmitted(config, w.l2.db[0], v)
  }

  lemma OutcomeIsSettled(
    config: Config, v: Submittable, d: Document, vc: Credential, now: int, p: L2.Presentation, at: Text)
    requires Passes(config, v, d) && Shows(config, p, vc)
    requires vc.rawDocument == d && vc.documentId == DocumentId(d) && vc.holder == HolderDid(d)
    requires vc.ministryPublicKey == config.ministry.keys.publicKey
    ensures SettledOnRecord(config, v, Outcome(config, v, d, vc, now, p, at))
  {
    ShownIsStated(config, p, vc, L2.NewRecord(Env(config), p, at));
  }

  /**
   Nothing stands in the way of a submission that Ministry's schema passes, that names a holder, and that operator
   and officer approve: there is a run without losses at whose end it is settled.
   */
  lemma SubmissionSettles(
    config: Config, v: Submittable, d: Document, date: Text, now: int, holderPubKeyHash: Text, at: Text)
    returns (ws: seq<World>, steps: seq<Step>)
    requires config.mode.Dev? && DigestLength(config.ministry.crypto) && config.ministry.keys.publicKey != []
    requires KeyPair(config.ministry.crypto, config.ministry.keys.privateKey, config.ministry.keys.publicKey)
    requires Passes(config, v, d) && HolderDid(d) != [] && |holderPubKeyHash| == 64
    requires Ministry.CredentialFor(config.ministry, d, date).proofValue != []
    ensures GuardedRun(config, ws, steps) && SettledOnRecord(config, v, ws[|steps|])
  {
    var vc := Ministry.CredentialFor(config.ministry, d, date);
    IssuedVerifies(config.ministry.crypto, config.ministry.keys, config.ministry.did, d, date);
    PresentedIsCarried(config, vc, holderPubKeyHash);
    var p := Present(config.ministry.crypto, vc, MockProof(vc, holderPubKeyHash));
    ReachesOutcome(config, v, d, date, now, holderPubKeyHash, vc, p, at);
    OutcomeIsSettled(config, v, d, vc, now, p, at);
    ws, steps :| GuardedRun(config, ws, steps) && ws[|steps|] == Outcome(config, v, d, vc, now, p, at);
  }
}
