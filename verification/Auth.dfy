/**
 Logging in with a wallet: a challenge is issued, signed by the wallet and redeemed for a session. The first
 wallet to succeed becomes the operator for good, also across restarts, which reload its key from a file.
 */
module Auth {
  import opened Wrappers
  import opened Utf16
  import opened Hex
  import Json
  import Canonical

  const CHALLENGE_TTL_MS := 120_000
  const SESSION_TTL_MS := 28_800_000
  const VERIFYING_KEY: Text := Ascii("verifyingKey")

  /** The signature scheme of the wallet, and what `parseInt` makes of a pair of characters, as a byte. */
  datatype Env = Env(verify: (Text, Bytes, Text) -> bool, pair: (CodeUnit, CodeUnit) -> Byte)

  datatype Challenge = Challenge(nonceHex: Text, expiresAt: int)

  /** A session given out: for which challenge, and on whose signature over what. */
  datatype Mint = Mint(
    token: Text, challengeId: Text, nonceHex: Text, verifyingKey: Text, signed: Bytes, signature: Text)

  /**
   The authorized verifying key: none yet, a key, or what no key compares equal to, which is what a registry file of
   another shape leaves behind.
   */
  datatype Operator = Unset | Key(key: Text) | Blocked

  datatype State = State(
    challenges: map<Text, Challenge>,
    sessions: map<Text, int>,          // expiry by token
    operator: Operator,                // the authorized verifying key
    registry: Option<Text>,            // the file it is kept in
    issued: set<Text>,                 // every challenge ever issued
    minted: seq<Mint>)                 // every session ever given out

  // ---- bytes ----

  function Pairs(env: Env, t: Text): Bytes {
    if |t| < 2 then [] else [env.pair(t[0], t[1])] + Pairs(env, t[2..])
  }

  function HexToBytes(env: Env, hex: Text): Bytes {
    Pairs(env, if |hex| >= 2 && hex[0] == 0x30 && hex[1] == 0x78 then hex[2..] else hex)
  }

  lemma {:induction false} PairsAt(env: Env, t: Text, i: nat)
    requires i < |t| / 2
    ensures |Pairs(env, t)| == |t| / 2 && Pairs(env, t)[i] == env.pair(t[2 * i], t[2 * i + 1])
    decreases t
  {
    if i > 0 {
      PairsAt(env, t[2..], i - 1);
    } else if |t| >= 4 {
      PairsAt(env, t[2..], 0);
    } else {
      assert Pairs(env, t[2..]) == [];
    }
  }

  /** Bytes are read off pair by pair, behind a `0x` if there is one; an odd digit at the end is left out. */
  lemma ReadsPairs(env: Env, hex: Text, i: nat)
    requires
      var start := if |hex| >= 2 && hex[..2] == Ascii("0x") then 2 else 0;
      i < (|hex| - start) / 2
    ensures
      var start := if |hex| >= 2 && hex[..2] == Ascii("0x") then 2 else 0;
      i < |HexToBytes(env, hex)| == (|hex| - start) / 2 &&
      HexToBytes(env, hex)[i] == env.pair(hex[start + 2 * i], hex[start + 2 * i + 1])
  {
    assert Ascii("0x") == [0x30, 0x78];
    PairsAt(env, if |hex| >= 2 && hex[0] == 0x30 && hex[1] == 0x78 then hex[2..] else hex, i);
  }

  /** The needle is not empty and stands somewhere in the haystack. */
  ghost predicate Contains(haystack: Bytes, needle: Bytes) {
    needle != [] && exists i :: 0 <= i <= |haystack| - |needle| && OccursAt(haystack, needle, i)
  }

  predicate OccursAt(haystack: Bytes, needle: Bytes, i: int)
    requires 0 <= i <= |haystack| - |needle|
  {
    haystack[i..i + |needle|] == needle
  }

  /** Byte by byte. */
  predicate StandsAt(haystack: Bytes, needle: Bytes, i: int)
    requires 0 <= i <= |haystack| - |needle|
  {
    forall k :: 0 <= k < |needle| ==> haystack[i + k] == needle[k]
  }

  lemma OccursIffStands(haystack: Bytes, needle: Bytes)
    ensures forall i :: 0 <= i <= |haystack| - |needle| ==>
              (OccursAt(haystack, needle, i) <==> StandsAt(haystack, needle, i))
  {
    forall i | 0 <= i <= |haystack| - |needle|
      ensures OccursAt(haystack, needle, i) <==> StandsAt(haystack, needle, i)
    {
      if OccursAt(haystack, needle, i) {
        forall k | 0 <= k < |needle| ensures haystack[i + k] == needle[k] {
          assert haystack[i..i + |needle|][k] == needle[k];
        }
      }
    }
  }

  method BytesContains(haystack: Bytes, needle: Bytes) returns (found: bool)
    ensures found <==> Contains(haystack, needle)
    ensures found <==> |needle| > 0 && exists i :: 0 <= i <= |haystack| - |needle| && StandsAt(haystack, needle, i)
  {
    OccursIffStands(haystack, needle);
    if |needle| == 0 || |needle| > |haystack| {
      return false;
    }
    var i := 0;
    while i <= |haystack| - |needle|
      invariant 0 <= i <= |haystack| - |needle| + 1
      invariant forall k :: 0 <= k < i ==> !OccursAt(haystack, needle, k)
    {
      var j := 0;
      while j < |needle| && haystack[i + j] == needle[j]
        invariant 0 <= j <= |needle|
        invariant haystack[i..i + j] == needle[..j]
      {
        assert haystack[i..i + j + 1] == haystack[i..i + j] + [haystack[i + j]];
        assert needle[..j + 1] == needle[..j] + [needle[j]];
        j := j + 1;
      }
      if j == |needle| {
        assert OccursAt(haystack, needle, i);
        return true;
      }
      assert haystack[i..i + |needle|][j] != needle[j];
      i := i + 1;
    }
    return false;
  }

  // ---- the registry file ----

  function RegistryText(key: Text): Text {
    Json.Print(Json.Obj([Json.Member(VERIFYING_KEY, Json.Str(key))]))
  }

  /** What a property read off a parsed value leaves for the comparison with null. */
  function OperatorOf(v: Json.Value): Operator {
    match v
    case Null => Unset                   // reading a property of null throws, like a file that is missing or no JSON
    case Obj(members) =>
      (match Canonical.Find(members, VERIFYING_KEY)
       case Some(Str(key)) => Key(key)
       case Some(Null) => Unset
       case _ => Blocked)
    case _ => Blocked                    // an array, a number, a text: the property is undefined
  }

  function LoadKey(registry: Option<Text>): Operator {
    match registry
    case None => Unset
    case Some(text) => match Json.JsonParse(text) case Some(v) => OperatorOf(v) case None => Unset
  }

  lemma KeyIsReloaded(key: Text)
    ensures LoadKey(Some(RegistryText(key))) == Key(key)
  {
    var members := [Json.Member(VERIFYING_KEY, Json.Str(key))];
    assert members[1..] == [];
    assert Json.PlainMembers(members) by {
      assert Json.PlainMembers(members[1..]) && Json.Plain(members[0].value);
    }
    assert Json.LegalMembers(members) by {
      assert !Json.HasKey(members[1..], VERIFYING_KEY) && Json.Legal(members[0].value);
    }
    Json.JsonParsePrint(Json.Obj(members));
  }

  /** There is no operator yet exactly if the file is missing, is no JSON, or leaves null for the key. */
  lemma UnsetIff(registry: Option<Text>)
    ensures
      LoadKey(registry).Unset? <==>
        registry.None? ||
        var parsed := Json.JsonParse(registry.value);
        || parsed == None || parsed == Some(Json.Null)
        || (parsed.value.Obj? && Canonical.Find(parsed.value.members, VERIFYING_KEY) == Some(Json.Null))
  {
  }

  /** The shortest registry file that locks everybody out. */
  lemma EmptyObjectBlocks()
    ensures LoadKey(Some(Ascii("{}"))) == Blocked
  {
    var none: seq<Json.Member> := [];
    assert Json.PlainMembers(none) && Json.LegalMembers(none);
    assert Json.Print(Json.Obj(none)) == [0x7B, 0x7D] == Ascii("{}");
    Json.JsonParsePrint(Json.Obj(none));
    assert Canonical.Find(none, VERIFYING_KEY) == None;
  }

  // ---- requests ----

  datatype Proof = Proof(signature: Text, signedDataHex: Text, verifyingKey: Text)

  datatype Event =
    | Issue(challengeId: Text, nonceHex: Text)
    | Verify(id: Text, proof: Proof, token: Text)
    | Check(session: Text)
    | Revoke(session: Text)
    | Sweep
    | Restart

  /** The answer to a request: whether a session was given out, or whether it is valid. */
  datatype Answer = Session(token: Option<Text>) | Valid(valid: bool) | Silent

  /** The wallet signed something that holds the nonce. */
  ghost predicate Signed(env: Env, nonceHex: Text, proof: Proof) {
    var signed := HexToBytes(env, proof.signedDataHex);
    Contains(signed, HexToBytes(env, nonceHex)) && env.verify(proof.verifyingKey, signed, proof.signature)
  }

  /** The challenge is open and the wallet, if there is an operator yet, is the operator's. */
  ghost predicate Redeems(env: Env, s: State, id: Text, proof: Proof, now: int) {
    && id in s.challenges
    && now <= s.challenges[id].expiresAt
    && Signed(env, s.challenges[id].nonceHex, proof)
    && (s.operator.Unset? || s.operator == Key(proof.verifyingKey))
  }

  ghost function Verified(env: Env, s: State, id: Text, proof: Proof, token: Text, now: int): State {
    if !Redeems(env, s, id, proof, now) then s.(challenges := s.challenges - {id})
    else
      var first := s.operator.Unset?;
      s.(challenges := s.challenges - {id}, sessions := s.sessions[token := now + SESSION_TTL_MS],
         operator := Key(proof.verifyingKey),
         registry := if first then Some(RegistryText(proof.verifyingKey)) else s.registry,
         minted := s.minted + [Mint(token, id, s.challenges[id].nonceHex, proof.verifyingKey,
                                    HexToBytes(env, proof.signedDataHex), proof.signature)])
  }

  predicate Live(sessions: map<Text, int>, token: Text, now: int) {
    token in sessions && now <= sessions[token]
  }

  function LiveChallenges(challenges: map<Text, Challenge>, now: int): map<Text, Challenge> {
    map id | id in challenges && now <= challenges[id].expiresAt :: challenges[id]
  }

  function LiveSessions(sessions: map<Text, int>, now: int): map<Text, int> {
    map token | token in sessions && now <= sessions[token] :: sessions[token]
  }

  ghost function Apply(env: Env, s: State, event: Event, now: int): State {
    match event
    case Issue(id, nonceHex) =>
      s.(challenges := s.challenges[id := Challenge(nonceHex, now + CHALLENGE_TTL_MS)], issued := s.issued + {id})
    case Verify(id, proof, token) => Verified(env, s, id, proof, token, now)
    case Check(session) => if Live(s.sessions, session, now) then s else s.(sessions := s.sessions - {session})
    case Revoke(session) => s.(sessions := s.sessions - {session})
    case Sweep => s.(challenges := LiveChallenges(s.challenges, now), sessions := LiveSessions(s.sessions, now))
    case Restart => s.(challenges := map[], sessions := map[], operator := LoadKey(s.registry))
  }

  ghost function Answers(env: Env, s: State, event: Event, now: int): Answer {
    match event
    case Verify(id, proof, token) => Session(if Redeems(env, s, id, proof, now) then Some(token) else None)
    case Check(session) => Valid(Live(s.sessions, session, now))
    case _ => Silent
  }

  // ---- one operator, one session a challenge ----

  ghost predicate Backed(env: Env, m: Mint) {
    && Contains(m.signed, HexToBytes(env, m.nonceHex))
    && env.verify(m.verifyingKey, m.signed, m.signature)
  }

  ghost predicate MintsAgree(env: Env, minted: seq<Mint>, operator: Operator, issued: set<Text>) {
    && (minted != [] ==> operator.Key?)
    && forall i :: 0 <= i < |minted| ==>
         minted[i].challengeId in issued && Key(minted[i].verifyingKey) == operator && Backed(env, minted[i])
  }

  ghost predicate OneEach(minted: seq<Mint>, challenges: map<Text, Challenge>) {
    && (forall i, j :: 0 <= i < j < |minted| ==> minted[i].challengeId != minted[j].challengeId)
    && (forall i :: 0 <= i < |minted| ==> minted[i].challengeId !in challenges)
  }

  /** The store, and the key it would come back with. */
  ghost predicate Inv(env: Env, s: State) {
    && MintsAgree(env, s.minted, s.operator, s.issued)
    && OneEach(s.minted, s.challenges)
    && (forall id :: id in s.challenges ==> id in s.issued)
    && LoadKey(s.registry) == s.operator
  }

  /** Random challenge numbers do not repeat. */
  predicate Fresh(s: State, event: Event) {
    event.Issue? ==> event.challengeId !in s.issued
  }

  lemma VerifiedKeepsInv(env: Env, s: State, id: Text, proof: Proof, token: Text, now: int)
    requires Inv(env, s)
    ensures Inv(env, Verified(env, s, id, proof, token, now))
  {
    if Redeems(env, s, id, proof, now) {
      KeyIsReloaded(proof.verifyingKey);
      var t := Verified(env, s, id, proof, token, now);
      assert Backed(env, t.minted[|s.minted|]);
    }
  }

  lemma StepKeepsInv(env: Env, s: State, event: Event, now: int)
    requires Inv(env, s) && Fresh(s, event)
    ensures Inv(env, Apply(env, s, event, now))
  {
    match event
    case Verify(id, proof, token) => VerifiedKeepsInv(env, s, id, proof, token, now);
    case _ =>
  }

  // ---- runs ----

  datatype Timed = Timed(event: Event, now: int)

  ghost function Run(env: Env, s: State, events: seq<Timed>): State
    decreases events
  {
    if events == [] then s else Run(env, Apply(env, s, events[0].event, events[0].now), events[1..])
  }

  ghost predicate AllFresh(env: Env, s: State, events: seq<Timed>)
    decreases events
  {
    events == [] ||
    (Fresh(s, events[0].event) && AllFresh(env, Apply(env, s, events[0].event, events[0].now), events[1..]))
  }

  /** A first start, with whatever key file there may be. */
  function Boot(registry: Option<Text>): State {
    State(map[], map[], LoadKey(registry), registry, {}, [])
  }

  lemma {:induction false} RunKeepsInv(env: Env, s: State, events: seq<Timed>)
    requires Inv(env, s) && AllFresh(env, s, events)
    ensures Inv(env, Run(env, s, events))
    decreases events
  {
    if events != [] {
      StepKeepsInv(env, s, events[0].event, events[0].now);
      RunKeepsInv(env, Apply(env, s, events[0].event, events[0].now), events[1..]);
    }
  }

  /**
   Every session ever given out, before and after any restart, was signed for by one and the same wallet over
   the nonce of its own challenge, and no challenge gave out two.
   */
  lemma OneOperator(env: Env, registry: Option<Text>, events: seq<Timed>, i: nat, j: nat)
    requires AllFresh(env, Boot(registry), events)
    requires i < |Run(env, Boot(registry), events).minted| && j < |Run(env, Boot(registry), events).minted|
    ensures
      var s := Run(env, Boot(registry), events);
      && Backed(env, s.minted[i])
      && s.minted[i].verifyingKey == s.minted[j].verifyingKey
      && s.operator == Key(s.minted[i].verifyingKey)
      && (!LoadKey(registry).Unset? ==> s.operator == LoadKey(registry))
      && (s.minted[i].challengeId == s.minted[j].challengeId ==> i == j)
  {
    RunKeepsInv(env, Boot(registry), events);
    if !LoadKey(registry).Unset? {
      OperatorStays(env, Boot(registry), events);
    }
  }

  /** Once there is an operator, or a file that blocks all, it stays. */
  lemma {:induction false} OperatorStays(env: Env, s: State, events: seq<Timed>)
    requires Inv(env, s) && AllFresh(env, s, events) && !s.operator.Unset?
    ensures Run(env, s, events).operator == s.operator
    decreases events
  {
    if events != [] {
      var t := Apply(env, s, events[0].event, events[0].now);
      StepKeepsInv(env, s, events[0].event, events[0].now);
      assert t.operator == s.operator;
      OperatorStays(env, t, events[1..]);
    }
  }

  /** With a registry file of another shape nobody ever logs in, before or after any restart. */
  lemma OtherFilesBlock(env: Env, registry: Option<Text>, events: seq<Timed>)
    requires AllFresh(env, Boot(registry), events) && LoadKey(registry).Blocked?
    ensures Run(env, Boot(registry), events).minted == []
  {
    RunKeepsInv(env, Boot(registry), events);
    OperatorStays(env, Boot(registry), events);
  }

  // ---- sweeping is invisible ----

  ghost function AllAnswers(env: Env, s: State, events: seq<Timed>): seq<Answer>
    decreases events
  {
    if events == [] then []
    else
      var rest := AllAnswers(env, Apply(env, s, events[0].event, events[0].now), events[1..]);
      if events[0].event.Sweep? then rest else [Answers(env, s, events[0].event, events[0].now)] + rest
  }

  function WithoutSweeps(events: seq<Timed>): seq<Timed> {
    if events == [] then []
    else (if events[0].event.Sweep? then [] else [events[0]]) + WithoutSweeps(events[1..])
  }

  predicate Ordered(events: seq<Timed>, from: int) {
    events == [] || (from <= events[0].now && Ordered(events[1..], events[0].now))
  }

  function SeenChallenge(challenges: map<Text, Challenge>, id: Text, now: int): Option<Challenge> {
    if id in challenges && now <= challenges[id].expiresAt then Some(challenges[id]) else None
  }

  function SeenSession(sessions: map<Text, int>, token: Text, now: int): Option<int> {
    if Live(sessions, token, now) then Some(sessions[token]) else None
  }

  ghost predicate AlikeChallenges(a: map<Text, Challenge>, b: map<Text, Challenge>, now: int) {
    forall id :: SeenChallenge(a, id, now) == SeenChallenge(b, id, now)
  }

  ghost predicate AlikeSessions(a: map<Text, int>, b: map<Text, int>, now: int) {
    forall token :: SeenSession(a, token, now) == SeenSession(b, token, now)
  }

  /** The stores differ in nothing that is still live. */
  ghost predicate Alike(s: State, t: State, now: int) {
    && s.operator == t.operator && s.registry == t.registry
    && AlikeChallenges(s.challenges, t.challenges, now)
    && AlikeSessions(s.sessions, t.sessions, now)
  }

  lemma AlikeLater(s: State, t: State, now: int, later: int)
    requires Alike(s, t, now) && now <= later
    ensures Alike(s, t, later)
  {
    forall id ensures SeenChallenge(s.challenges, id, later) == SeenChallenge(t.challenges, id, later) {
      assert SeenChallenge(s.challenges, id, now) == SeenChallenge(t.challenges, id, now);
    }
    forall token ensures SeenSession(s.sessions, token, later) == SeenSession(t.sessions, token, later) {
      assert SeenSession(s.sessions, token, now) == SeenSession(t.sessions, token, now);
    }
  }

  lemma SameAnswer(env: Env, s: State, t: State, event: Event, now: int)
    requires Alike(s, t, now)
    ensures Answers(env, s, event, now) == Answers(env, t, event, now)
  {
    match event
    case Verify(id, proof, token) =>
      assert SeenChallenge(s.challenges, id, now) == SeenChallenge(t.challenges, id, now);
    case Check(session) =>
      assert SeenSession(s.sessions, session, now) == SeenSession(t.sessions, session, now);
    case _ =>
  }

  lemma ChallengesStayAlike(a: map<Text, Challenge>, b: map<Text, Challenge>, now: int, id: Text, c: Challenge)
    requires AlikeChallenges(a, b, now)
    ensures AlikeChallenges(a - {id}, b - {id}, now) && AlikeChallenges(a[id := c], b[id := c], now)
  {
    forall k ensures SeenChallenge(a - {id}, k, now) == SeenChallenge(b - {id}, k, now) {
      assert SeenChallenge(a, k, now) == SeenChallenge(b, k, now);
    }
    var more, others := a[id := c], b[id := c];
    forall k ensures SeenChallenge(more, k, now) == SeenChallenge(others, k, now) {
      assert SeenChallenge(a, k, now) == SeenChallenge(b, k, now);
    }
  }

  lemma SessionsStayAlike(a: map<Text, int>, b: map<Text, int>, now: int, token: Text, expiry: int)
    requires AlikeSessions(a, b, now)
    ensures AlikeSessions(a - {token}, b - {token}, now) && AlikeSessions(a[token := expiry], b[token := expiry], now)
  {
    forall k ensures SeenSession(a - {token}, k, now) == SeenSession(b - {token}, k, now) {
      assert SeenSession(a, k, now) == SeenSession(b, k, now);
    }
    var more, others := a[token := expiry], b[token := expiry];
    forall k ensures SeenSession(more, k, now) == SeenSession(others, k, now) {
      assert SeenSession(a, k, now) == SeenSession(b, k, now);
    }
  }

  lemma VerifyStaysAlike(env: Env, s: State, t: State, id: Text, proof: Proof, token: Text, now: int)
    requires Alike(s, t, now)
    ensures Alike(Verified(env, s, id, proof, token, now), Verified(env, t, id, proof, token, now), now)
  {
    ChallengesStayAlike(s.challenges, t.challenges, now, id, Challenge([], 0));
    SessionsStayAlike(s.sessions, t.sessions, now, token, now + SESSION_TTL_MS);
    SameAnswer(env, s, t, Verify(id, proof, token), now);
  }

  /** The same request keeps alike stores alike, whichever of them forgets an expired entry on the way. */
  lemma StepStaysAlike(env: Env, s: State, t: State, event: Event, now: int)
    requires Alike(s, t, now) && !event.Sweep?
    ensures Alike(Apply(env, s, event, now), Apply(env, t, event, now), now)
  {
    match event
    case Issue(id, nonceHex) =>
      ChallengesStayAlike(s.challenges, t.challenges, now, id, Challenge(nonceHex, now + CHALLENGE_TTL_MS));
    case Verify(id, proof, token) => VerifyStaysAlike(env, s, t, id, proof, token, now);
    case Check(session) =>
      SessionsStayAlike(s.sessions, t.sessions, now, session, 0);
      SameAnswer(env, s, t, event, now);
    case Revoke(session) => SessionsStayAlike(s.sessions, t.sessions, now, session, 0);
    case Restart =>
  }

  lemma SweepStaysAlike(env: Env, s: State, t: State, now: int)
    requires Alike(s, t, now)
    ensures Alike(Apply(env, s, Sweep, now), t, now)
  {
    var swept := Apply(env, s, Sweep, now);
    forall id ensures SeenChallenge(swept.challenges, id, now) == SeenChallenge(t.challenges, id, now) {
      assert SeenChallenge(s.challenges, id, now) == SeenChallenge(t.challenges, id, now);
    }
    forall token ensures SeenSession(swept.sessions, token, now) == SeenSession(t.sessions, token, now) {
      assert SeenSession(s.sessions, token, now) == SeenSession(t.sessions, token, now);
    }
  }

  lemma {:induction false} LeavingOutSweeps(env: Env, s: State, t: State, events: seq<Timed>, from: int)
    requires Alike(s, t, from) && Ordered(events, from)
    ensures AllAnswers(env, s, events) == AllAnswers(env, t, WithoutSweeps(events))
    decreases events
  {
    if events != [] {
      var event, now := events[0].event, events[0].now;
      AlikeLater(s, t, from, now);
      if event.Sweep? {
        SweepStaysAlike(env, s, t, now);
        LeavingOutSweeps(env, Apply(env, s, event, now), t, events[1..], now);
        assert WithoutSweeps(events) == WithoutSweeps(events[1..]);
      } else {
        SameAnswer(env, s, t, event, now);
        StepStaysAlike(env, s, t, event, now);
        LeavingOutSweeps(env, Apply(env, s, event, now), Apply(env, t, event, now), events[1..], now);
        assert WithoutSweeps(events)[1..] == WithoutSweeps(events[1..]);
      }
    }
  }

  /**
   While the clock does not run backwards, sweeping is invisible: two histories with the same requests, swept
   whenever and however often, get the same answers, session by session and login by login.
   */
  lemma SweepsAreInvisible(env: Env, s: State, events: seq<Timed>, others: seq<Timed>, from: int)
    requires Ordered(events, from) && Ordered(others, from) && WithoutSweeps(events) == WithoutSweeps(others)
    ensures AllAnswers(env, s, events) == AllAnswers(env, s, others)
  {
    LeavingOutSweeps(env, s, s, events, from);
    LeavingOutSweeps(env, s, s, others, from);
  }

  // ---- the store ----

  class AuthStore {
    const env: Env
    var challenges: map<Text, Challenge>
    var sessions: map<Text, int>
    var authorizedVerifyingKey: Operator
    var registry: Option<Text>
    ghost var issued: set<Text>
    ghost var minted: seq<Mint>

    ghost function View(): State
      reads this
    {
      State(challenges, sessions, authorizedVerifyingKey, registry, issued, minted)
    }

    constructor (env: Env, registry: Option<Text>)
      ensures this.env == env && View() == Boot(registry)
    {
      this.env := env;
      challenges, sessions := map[], map[];
      authorizedVerifyingKey := LoadKey(registry);
      this.registry := registry;
      issued, minted := {}, [];
    }

    method IssueChallenge(challengeId: Text, nonceHex: Text, now: int) returns (expiresAt: int)
      modifies this
      ensures View() == Apply(env, old(View()), Issue(challengeId, nonceHex), now)
      ensures challenges[challengeId] == Challenge(nonceHex, expiresAt)
    {
      expiresAt := now + CHALLENGE_TTL_MS;
      challenges := challenges[challengeId := Challenge(nonceHex, expiresAt)];
      issued := issued + {challengeId};
    }

    /** One use whatever comes of it; None where no session is given out. */
    method VerifyChallenge(challengeId: Text, proof: Proof, token: Text, now: int) returns (session: Option<Text>)
      modifies this
      ensures View() == Apply(env, old(View()), Verify(challengeId, proof, token), now)
      ensures Session(session) == Answers(env, old(View()), Verify(challengeId, proof, token), now)
    {
      if challengeId !in challenges {
        assert challenges - {challengeId} == challenges;
        return None;
      }
      var challenge := challenges[challengeId];
      challenges := challenges - {challengeId};
      if now > challenge.expiresAt {
        return None;
      }
      var signed := HexToBytes(env, proof.signedDataHex);
      var holdsNonce := BytesContains(signed, HexToBytes(env, challenge.nonceHex));
      if !holdsNonce || !env.verify(proof.verifyingKey, signed, proof.signature) {
        return None;
      }
      if authorizedVerifyingKey.Unset? {
        authorizedVerifyingKey := Key(proof.verifyingKey);
        registry := Some(RegistryText(proof.verifyingKey));
      } else if authorizedVerifyingKey != Key(proof.verifyingKey) {
        return None;
      }
      sessions := sessions[token := now + SESSION_TTL_MS];
      minted := minted + [Mint(token, challengeId, challenge.nonceHex, proof.verifyingKey, signed, proof.signature)];
      return Some(token);
    }

    method IsSessionValid(token: Text, now: int) returns (valid: bool)
      modifies this
      ensures View() == Apply(env, old(View()), Check(token), now)
      ensures Valid(valid) == Answers(env, old(View()), Check(token), now)
    {
      if token !in sessions {
        assert sessions - {token} == sessions;
        return false;
      }
      if now > sessions[token] {
        sessions := sessions - {token};
        return false;
      }
      return true;
    }

    method RevokeSession(token: Text)
      modifies this
      ensures View() == Apply(env, old(View()), Revoke(token), 0)
    {
      sessions := sessions - {token};
    }

    method SweepExpired(now: int)
      modifies this
      ensures View() == Apply(env, old(View()), Sweep, now)
    {
      var ids := challenges.Keys;
      while ids != {}
        invariant ids <= old(challenges).Keys && challenges.Keys <= old(challenges).Keys
        invariant forall id :: id in old(challenges) ==>
          (id in challenges <==> id in ids || now <= old(challenges)[id].expiresAt)
        invariant forall id :: id in challenges ==> challenges[id] == old(challenges)[id]
        invariant View() == old(View()).(challenges := challenges)
        decreases |ids|
      {
        var id :| id in ids;
        if now > challenges[id].expiresAt {
          challenges := challenges - {id};
        }
        ids := ids - {id};
      }
      assert challenges == LiveChallenges(old(challenges), now);
      SweepSessions(now);
    }

    method SweepSessions(now: int)
      modifies this
      ensures View() == old(View()).(sessions := LiveSessions(old(sessions), now))
    {
      var tokens := sessions.Keys;
      while tokens != {}
        invariant tokens <= old(sessions).Keys && sessions.Keys <= old(sessions).Keys
        invariant forall token :: token in old(sessions) ==>
          (token in sessions <==> token in tokens || now <= old(sessions)[token])
        invariant forall token :: token in sessions ==> sessions[token] == old(sessions)[token]
        invariant View() == old(View()).(sessions := sessions)
        decreases |tokens|
      {
        var token :| token in tokens;
        if now > sessions[token] {
          sessions := sessions - {token};
        }
        tokens := tokens - {token};
      }
      assert sessions == LiveSessions(old(sessions), now);
    }
  }
}
