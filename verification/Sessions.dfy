/**
 Logins by their history: a challenge is open, and a session is valid, exactly if what made it was not too long ago and
 nothing has ended it since. Sweeps and checks do not come into it.
 */
module Sessions {
  import opened Wrappers
  import opened Utf16
  import opened Auth

  lemma {:induction false} RunLast(env: Env, s: State, events: seq<Timed>)
    requires events != []
    ensures
      var n := |events| - 1;
      Run(env, s, events) == Apply(env, Run(env, s, events[..n]), events[n].event, events[n].now)
    decreases events
  {
    if |events| > 1 {
      RunLast(env, Apply(env, s, events[0].event, events[0].now), events[1..]);
      assert events[..|events| - 1][1..] == events[1..][..|events| - 2];
    }
  }

  /** The store before an event. */
  ghost function Before(env: Env, registry: Option<Text>, events: seq<Timed>, i: nat): State
    requires i <= |events|
  {
    Run(env, Boot(registry), events[..i])
  }

  lemma Growing(env: Env, registry: Option<Text>, events: seq<Timed>, i: nat)
    requires i < |events|
    ensures
      Before(env, registry, events, i + 1) ==
      Apply(env, Before(env, registry, events, i), events[i].event, events[i].now)
  {
    RunLast(env, Boot(registry), events[..i + 1]);
    assert events[..i + 1][..i] == events[..i];
  }

  /** The clock does not run backwards up to now. */
  ghost predicate InOrder(events: seq<Timed>, now: int) {
    && (forall i, j :: 0 <= i <= j < |events| ==> events[i].now <= events[j].now)
    && (forall i :: 0 <= i < |events| ==> events[i].now <= now)
  }

  // ---- sessions ----

  /** The session is ended by name, or with the process. */
  predicate Ends(event: Event, token: Text) {
    event == Revoke(token) || event.Restart?
  }

  predicate Logs(event: Event, token: Text) {
    event.Verify? && event.token == token
  }

  ghost predicate Gives(env: Env, s: State, event: Event, now: int, token: Text) {
    Logs(event, token) && Redeems(env, s, event.id, event.proof, now)
  }

  /** What one event does to one session. */
  lemma SessionNext(env: Env, s: State, event: Event, now: int, token: Text)
    ensures
      var t := Apply(env, s, event, now);
      if Gives(env, s, event, now, token) then
        token in t.sessions && t.sessions[token] == now + 8 * 60 * 60 * 1000
      else
        && (token in t.sessions ==>
              token in s.sessions && t.sessions[token] == s.sessions[token] && !Ends(event, token))
        && (token in s.sessions && !Ends(event, token) && now <= s.sessions[token] ==> token in t.sessions)
  {
  }

  /** Event i gives out the session. */
  ghost predicate GivenAt(env: Env, registry: Option<Text>, events: seq<Timed>, i: nat, token: Text)
    requires i < |events|
  {
    Gives(env, Before(env, registry, events, i), events[i].event, events[i].now, token)
  }

  /** From event i on the session has lasted: it was given out there and not ended before event n. */
  ghost predicate LastsFrom(env: Env, registry: Option<Text>, events: seq<Timed>, i: nat, n: nat, token: Text)
    requires i < n <= |events|
  {
    GivenAt(env, registry, events, i, token) && forall j :: i < j < n ==> !Ends(events[j].event, token)
  }

  /** Whatever session there is was given out eight hours before it expires, and has not been ended. */
  lemma {:induction false} SessionWasGiven(
    env: Env, registry: Option<Text>, events: seq<Timed>, n: nat, token: Text) returns (i: nat)
    requires n <= |events| && token in Before(env, registry, events, n).sessions
    ensures i < n && LastsFrom(env, registry, events, i, n, token)
    ensures Before(env, registry, events, n).sessions[token] == events[i].now + 8 * 60 * 60 * 1000
    decreases n
  {
    assert n > 0;
    Growing(env, registry, events, n - 1);
    SessionNext(env, Before(env, registry, events, n - 1), events[n - 1].event, events[n - 1].now, token);
    if GivenAt(env, registry, events, n - 1, token) {
      i := n - 1;
    } else {
      i := SessionWasGiven(env, registry, events, n - 1, token);
    }
  }

  /** A session that was given out and not ended is there until it expires. */
  lemma {:induction false} SessionIsKept(
    env: Env, registry: Option<Text>, events: seq<Timed>, i: nat, n: nat, token: Text, now: int)
    requires i < n <= |events| && InOrder(events, now) && LastsFrom(env, registry, events, i, n, token)
    requires now <= events[i].now + 8 * 60 * 60 * 1000
    ensures
      var sessions := Before(env, registry, events, n).sessions;
      token in sessions && sessions[token] >= events[i].now + 8 * 60 * 60 * 1000
    decreases n
  {
    Growing(env, registry, events, n - 1);
    SessionNext(env, Before(env, registry, events, n - 1), events[n - 1].event, events[n - 1].now, token);
    if i < n - 1 {
      SessionIsKept(env, registry, events, i, n - 1, token, now);
    }
  }

  /**
   A session is valid at a time exactly if it was given out at most eight hours before and neither revoked nor lost in a
   restart since.
   */
  lemma ValidIff(env: Env, registry: Option<Text>, events: seq<Timed>, token: Text, now: int)
    requires InOrder(events, now)
    ensures
      Answers(env, Run(env, Boot(registry), events), Check(token), now) == Valid(true) <==>
        exists i :: 0 <= i < |events| && LastsFrom(env, registry, events, i, |events|, token) &&
                    now <= events[i].now + 8 * 60 * 60 * 1000
  {
    assert events[..|events|] == events;
    if Live(Run(env, Boot(registry), events).sessions, token, now) {
      var i := SessionWasGiven(env, registry, events, |events|, token);
    }
    if i :| 0 <= i < |events| && LastsFrom(env, registry, events, i, |events|, token) &&
            now <= events[i].now + 8 * 60 * 60 * 1000 {
      SessionIsKept(env, registry, events, i, |events|, token, now);
    }
  }

  // ---- challenges ----

  /** The challenge is spent by whoever tries it, replaced by another of its number, or lost with the process. */
  predicate Spends(event: Event, id: Text) {
    (event.Verify? && event.id == id) || (event.Issue? && event.challengeId == id) || event.Restart?
  }

  /** Event i issues the challenge, and nothing has spent it before event n. */
  ghost predicate OpenFrom(events: seq<Timed>, i: nat, n: nat, id: Text, nonceHex: Text)
    requires i < n <= |events|
  {
    events[i].event == Issue(id, nonceHex) && forall j :: i < j < n ==> !Spends(events[j].event, id)
  }

  lemma {:induction false} ChallengeWasIssued(
    env: Env, registry: Option<Text>, events: seq<Timed>, n: nat, id: Text) returns (i: nat)
    requires n <= |events| && id in Before(env, registry, events, n).challenges
    ensures
      var challenge := Before(env, registry, events, n).challenges[id];
      i < n && OpenFrom(events, i, n, id, challenge.nonceHex) &&
      challenge.expiresAt == events[i].now + 2 * 60 * 1000
    decreases n
  {
    assert n > 0;
    Growing(env, registry, events, n - 1);
    if events[n - 1].event.Issue? && events[n - 1].event.challengeId == id {
      i := n - 1;
    } else {
      i := ChallengeWasIssued(env, registry, events, n - 1, id);
    }
  }

  lemma {:induction false} ChallengeIsKept(
    env: Env, registry: Option<Text>, events: seq<Timed>, i: nat, n: nat, id: Text, nonceHex: Text, now: int)
    requires i < n <= |events| && InOrder(events, now) && OpenFrom(events, i, n, id, nonceHex)
    requires now <= events[i].now + 2 * 60 * 1000
    ensures
      var challenges := Before(env, registry, events, n).challenges;
      id in challenges && challenges[id] == Challenge(nonceHex, events[i].now + 2 * 60 * 1000)
    decreases n
  {
    Growing(env, registry, events, n - 1);
    if i < n - 1 {
      ChallengeIsKept(env, registry, events, i, n - 1, id, nonceHex, now);
    }
  }

  /** The challenge was issued at most two minutes before, over this nonce, and is not spent. */
  ghost predicate IsOpen(events: seq<Timed>, id: Text, nonceHex: Text, now: int) {
    exists i :: 0 <= i < |events| && OpenFrom(events, i, |events|, id, nonceHex) && now <= events[i].now + 2 * 60 * 1000
  }

  /**
   A login succeeds exactly if its challenge was issued at most two minutes before and is not spent, the wallet has
   signed something that holds its nonce, and the wallet's key is the operator's or there is no operator yet.
   */
  lemma LoginIff(
    env: Env, registry: Option<Text>, events: seq<Timed>, id: Text, proof: Proof, token: Text, now: int)
    requires InOrder(events, now)
    ensures
      var s := Run(env, Boot(registry), events);
      Answers(env, s, Verify(id, proof, token), now) == Session(Some(token)) <==>
        && (s.operator.Unset? || s.operator == Key(proof.verifyingKey))
        && exists nonceHex :: IsOpen(events, id, nonceHex, now) && Signed(env, nonceHex, proof)
  {
    assert events[..|events|] == events;
    var s := Run(env, Boot(registry), events);
    if Redeems(env, s, id, proof, now) {
      var i := ChallengeWasIssued(env, registry, events, |events|, id);
      assert IsOpen(events, id, s.challenges[id].nonceHex, now);
    }
    if nonceHex :| IsOpen(events, id, nonceHex, now) && Signed(env, nonceHex, proof) {
      var i :| 0 <= i < |events| && OpenFrom(events, i, |events|, id, nonceHex) &&
               now <= events[i].now + 2 * 60 * 1000;
      ChallengeIsKept(env, registry, events, i, |events|, id, nonceHex, now);
    }
  }

  // ---- the operator ----

  ghost predicate GivesAny(env: Env, s: State, event: Event, now: int) {
    event.Verify? && Redeems(env, s, event.id, event.proof, now)
  }

  lemma OperatorNext(env: Env, s: State, event: Event, now: int)
    requires LoadKey(s.registry) == s.operator
    ensures
      Apply(env, s, event, now).operator ==
      if GivesAny(env, s, event, now) then Key(event.proof.verifyingKey) else s.operator
  {
  }

  /** There is no operator exactly as long as the file names none and nobody has logged in. */
  lemma {:induction false} OperatorIs(env: Env, registry: Option<Text>, events: seq<Timed>, n: nat)
    requires n <= |events| && AllFresh(env, Boot(registry), events) && LoadKey(registry).Unset?
    ensures
      Before(env, registry, events, n).operator.Unset? <==>
      forall i :: 0 <= i < n ==> !GivesAny(env, Before(env, registry, events, i), events[i].event, events[i].now)
    decreases n
  {
    if n > 0 {
      OperatorIs(env, registry, events, n - 1);
      Growing(env, registry, events, n - 1);
      PrefixIsFresh(env, Boot(registry), events, n - 1);
      RunKeepsInv(env, Boot(registry), events[..n - 1]);
      OperatorNext(env, Before(env, registry, events, n - 1), events[n - 1].event, events[n - 1].now);
    }
  }

  lemma {:induction false} PrefixIsFresh(env: Env, s: State, events: seq<Timed>, n: nat)
    requires n <= |events| && AllFresh(env, s, events)
    ensures AllFresh(env, s, events[..n])
    decreases n
  {
    if n > 0 {
      var t := Apply(env, s, events[0].event, events[0].now);
      PrefixIsFresh(env, t, events[1..], n - 1);
      assert events[..n][1..] == events[1..][..n - 1];
    }
  }
}
