/**
 Trust on first use of port-authority domains. A resolution fetches a document, which takes time, and only then
 looks at the table; any number of resolutions may be under way at once, for one domain or for many.
 */
module TrustedPorts {
  import opened Wrappers
  import opened Utf16
  import opened DealActions
  import Hex
  import Json
  import Offer

  datatype Port = Port(roleKeyHashHex: Text, firstSeenAt: int, lastSeenAt: int)

  datatype Answer = Resolved(roleKeyHashHex: Text, firstSeen: bool) | BadDocument | TofuViolation

  datatype State = State(
    trusted: map<Text, Port>,
    fetching: map<nat, Text>,              // resolutions that await their document, by domain
    answers: map<nat, (Text, Answer)>,     // resolutions that are over: domain and outcome
    next: nat)

  const INITIAL := State(map[], map[], map[], 0)

  predicate IsHexDigit(u: CodeUnit) {
    Hex.DigitValue(u).Some?
  }

  /** What the document must publish: 64 hexadecimal digits, in either case. */
  predicate IsKeyHash(t: Text) {
    |t| == 64 && forall i :: 0 <= i < |t| ==> IsHexDigit(t[i])
  }

  /** A resolution from the arrival of its document on; None stands for a fetch that failed. */
  function Judge(trusted: map<Text, Port>, domain: Text, published: Option<Text>): Answer {
    if published.None? || !IsKeyHash(published.value) then BadDocument
    else
      var hash := Hex.LowerCase(published.value);
      if domain !in trusted then Resolved(hash, true)
      else if Hex.LowerCase(trusted[domain].roleKeyHashHex) != hash then TofuViolation
      else Resolved(hash, false)
  }

  /** `recordTrustedPort`: a known domain keeps its hash. */
  function Record(trusted: map<Text, Port>, domain: Text, hash: Text, now: int): map<Text, Port> {
    if domain in trusted then trusted[domain := trusted[domain].(lastSeenAt := now)]
    else trusted[domain := Port(hash, now, now)]
  }

  datatype Step =
    | Start(domain: Text)
    | Fetched(call: nat, published: Option<Text>, now: int)
    | Restart

  predicate Enabled(s: State, step: Step) {
    step.Fetched? ==> step.call in s.fetching
  }

  function Finish(s: State, call: nat, published: Option<Text>, now: int): State
    requires call in s.fetching
  {
    var domain := s.fetching[call];
    var answer := Judge(s.trusted, domain, published);
    State(
      if answer.Resolved? then Record(s.trusted, domain, answer.roleKeyHashHex, now) else s.trusted,
      s.fetching - {call}, s.answers[call := (domain, answer)], s.next)
  }

  function Apply(s: State, step: Step): State
    requires Enabled(s, step)
  {
    match step
    case Start(domain) => s.(fetching := s.fetching[s.next := domain], next := s.next + 1)
    case Fetched(call, published, now) => Finish(s, call, published, now)
    case Restart => s.(fetching := map[])
  }

  ghost predicate LowerCased(trusted: map<Text, Port>) {
    forall domain :: domain in trusted ==>
      Hex.LowerCase(trusted[domain].roleKeyHashHex) == trusted[domain].roleKeyHashHex
  }

  /** What was answered is what is trusted. */
  ghost predicate AnswersTrusted(trusted: map<Text, Port>, answers: map<nat, (Text, Answer)>) {
    forall call :: call in answers && answers[call].1.Resolved? ==>
      && answers[call].0 in trusted
      && answers[call].1.roleKeyHashHex == trusted[answers[call].0].roleKeyHashHex
  }

  ghost predicate Inv(s: State) {
    && (forall call :: call in s.fetching ==> call < s.next && call !in s.answers)
    && (forall call :: call in s.answers ==> call < s.next)
    && LowerCased(s.trusted)
    && AnswersTrusted(s.trusted, s.answers)
  }

  /** Domains stay trusted for the hash, and since the time, they were first seen with. */
  ghost predicate Keeps(trusted: map<Text, Port>, later: map<Text, Port>) {
    forall domain :: domain in trusted ==>
      && domain in later
      && later[domain].roleKeyHashHex == trusted[domain].roleKeyHashHex
      && later[domain].firstSeenAt == trusted[domain].firstSeenAt
  }

  lemma {:induction false} LowerCaseTwice(t: Text)
    ensures Hex.LowerCase(Hex.LowerCase(t)) == Hex.LowerCase(t)
  {
    if t != [] {
      var lower := Hex.LowerCase(t);
      assert lower[1..] == Hex.LowerCase(t[1..]);
      LowerCaseTwice(t[1..]);
    }
  }

  lemma RecordKeeps(trusted: map<Text, Port>, domain: Text, hash: Text, now: int)
    requires LowerCased(trusted) && Hex.LowerCase(hash) == hash
    ensures LowerCased(Record(trusted, domain, hash, now)) && Keeps(trusted, Record(trusted, domain, hash, now))
  {
  }

  lemma AnswersStay(
    trusted: map<Text, Port>, later: map<Text, Port>, answers: map<nat, (Text, Answer)>, call: nat, domain: Text,
    answer: Answer)
    requires AnswersTrusted(trusted, answers) && Keeps(trusted, later)
    requires answer.Resolved? ==> domain in later && later[domain].roleKeyHashHex == answer.roleKeyHashHex
    ensures AnswersTrusted(later, answers[call := (domain, answer)])
  {
  }

  lemma FinishKeepsInv(s: State, call: nat, published: Option<Text>, now: int)
    requires Inv(s) && call in s.fetching
    ensures Inv(Finish(s, call, published, now)) && Keeps(s.trusted, Finish(s, call, published, now).trusted)
  {
    var domain := s.fetching[call];
    var answer := Judge(s.trusted, domain, published);
    if answer.Resolved? {
      LowerCaseTwice(published.value);
      RecordKeeps(s.trusted, domain, answer.roleKeyHashHex, now);
      AnswersStay(
        s.trusted, Record(s.trusted, domain, answer.roleKeyHashHex, now), s.answers, call, domain, answer);
    } else {
      AnswersStay(s.trusted, s.trusted, s.answers, call, domain, answer);
    }
  }

  lemma StepKeepsInv(s: State, step: Step)
    requires Inv(s) && Enabled(s, step)
    ensures Inv(Apply(s, step)) && Keeps(s.trusted, Apply(s, step).trusted)
  {
    match step
    case Fetched(call, published, now) => FinishKeepsInv(s, call, published, now);
    case _ =>
  }

  // ---- runs ----

  ghost predicate Run(ss: seq<State>, steps: seq<Step>) {
    && |ss| == |steps| + 1
    && ss[0] == INITIAL
    && forall i {:trigger steps[i]} :: 0 <= i < |steps| ==>
         Enabled(ss[i], steps[i]) && ss[i + 1] == Apply(ss[i], steps[i])
  }

  lemma {:induction false} RunInv(ss: seq<State>, steps: seq<Step>, i: nat)
    requires Run(ss, steps) && i <= |steps|
    ensures Inv(ss[i])
  {
    if i > 0 {
      RunInv(ss, steps, i - 1);
      StepKeepsInv(ss[i - 1], steps[i - 1]);
    }
  }

  /** A trusted hash is never overwritten, across any interleaving and any restart. */
  lemma {:induction false} NeverOverwritten(ss: seq<State>, steps: seq<Step>, i: nat, j: nat)
    requires Run(ss, steps) && i <= j <= |steps|
    ensures Keeps(ss[i].trusted, ss[j].trusted)
    decreases j
  {
    if i < j {
      NeverOverwritten(ss, steps, i, j - 1);
      RunInv(ss, steps, j - 1);
      StepKeepsInv(ss[j - 1], steps[j - 1]);
    }
  }

  /**
   All resolutions of a domain that ever succeed give one hash, the trusted one, although they looked at
   the table at different times and their documents arrived in any order.
   */
  lemma ResolutionsAgree(ss: seq<State>, steps: seq<Step>, i: nat, j: nat, a: nat, b: nat)
    requires Run(ss, steps) && i <= j <= |steps| && a in ss[i].answers && b in ss[j].answers
    requires ss[i].answers[a].0 == ss[j].answers[b].0
    requires ss[i].answers[a].1.Resolved? && ss[j].answers[b].1.Resolved?
    ensures ss[i].answers[a].1.roleKeyHashHex == ss[j].answers[b].1.roleKeyHashHex
    ensures
      var domain := ss[j].answers[b].0;
      domain in ss[j].trusted && ss[j].trusted[domain].roleKeyHashHex == ss[j].answers[b].1.roleKeyHashHex
  {
    RunInv(ss, steps, i);
    RunInv(ss, steps, j);
    NeverOverwritten(ss, steps, i, j);
  }

  /** What a resolution answered is what the domain is trusted for, then and later. */
  lemma AnswerIsTrusted(ss: seq<State>, steps: seq<Step>, i: nat, j: nat, call: nat)
    requires Run(ss, steps) && i <= j <= |steps| && call in ss[i].answers && ss[i].answers[call].1.Resolved?
    ensures
      var domain := ss[i].answers[call].0;
      domain in ss[j].trusted && ss[j].trusted[domain].roleKeyHashHex == ss[i].answers[call].1.roleKeyHashHex
  {
    RunInv(ss, steps, i);
    NeverOverwritten(ss, steps, i, j);
  }

  /** A lock that gets past its checks compared the resolved hash with the one in the terms, and saved that one. */
  lemma LockComparesHashes(
    p: Offer.Platform, e: CoinEncoder, buyer: Agent, proposal: Json.Value, resolvedHex: Text, salt: Hex.Bytes)
    returns (t: Reading)
    requires Json.Legal(proposal) && LockDeal(p, e, buyer, proposal, resolvedHex, salt).Some?
    ensures ReadTerms(p, Offer.Get(proposal, Offer.TERMS)) == Some(t) && resolvedHex == Hex.LowerCase(t.keyHashHex)
    ensures LockDeal(p, e, buyer, proposal, resolvedHex, salt).value.resolvedPortAuthorityKeyHash ==
            Some(Hex.Decode(resolvedHex))
  {
    t := ReadTerms(p, Offer.Get(proposal, Offer.TERMS)).value;
  }

  /**
   Every lock that gets past its checks with what a resolution answered carries terms whose key is, as bytes, the one
   trusted for the domain, and that key is what it saves for the circuit to compare.
   */
  lemma LockedTermsAreTrusted(
    ss: seq<State>, steps: seq<Step>, i: nat, j: nat, call: nat, p: Offer.Platform, e: CoinEncoder, buyer: Agent,
    proposal: Json.Value, salt: Hex.Bytes)
    returns (t: Reading)
    requires Run(ss, steps) && i <= j <= |steps| && call in ss[i].answers && ss[i].answers[call].1.Resolved?
    requires Json.Legal(proposal)
    requires LockDeal(p, e, buyer, proposal, ss[i].answers[call].1.roleKeyHashHex, salt).Some?
    ensures ReadTerms(p, Offer.Get(proposal, Offer.TERMS)) == Some(t)
    ensures
      var domain := ss[i].answers[call].0;
      var locked := LockDeal(p, e, buyer, proposal, ss[i].answers[call].1.roleKeyHashHex, salt).value;
      && domain in ss[j].trusted
      && Hex.Decode(ss[j].trusted[domain].roleKeyHashHex) == Hex.Decode(t.keyHashHex)
      && locked.resolvedPortAuthorityKeyHash == Some(Hex.Decode(t.keyHashHex))
  {
    AnswerIsTrusted(ss, steps, i, j, call);
    t := LockComparesHashes(p, e, buyer, proposal, ss[i].answers[call].1.roleKeyHashHex, salt);
    Hex.DecodeLowerCase(t.keyHashHex);
  }

  // ---- what gets trusted ----

  /** 64 characters, each a decimal digit or a letter from a to f in either case. */
  predicate LooksLikeHash(t: Text) {
    |t| == 64 &&
    forall i :: 0 <= i < |t| ==>
      var u := t[i];
      0x30 <= u <= 0x39 || 0x41 <= u <= 0x46 || 0x61 <= u <= 0x66
  }

  /** A resolution succeeds exactly on a document with such a hash, for a domain new or trusted for just that hash. */
  lemma ResolvedIff(s: State, call: nat, published: Option<Text>, now: int)
    requires Inv(s) && call in s.fetching
    ensures
      var domain, t := s.fetching[call], Finish(s, call, published, now);
      var answer := t.answers[call].1;
      && t.answers[call].0 == domain
      && (answer == BadDocument <==> published.None? || !LooksLikeHash(published.value))
      && (answer.Resolved? <==>
            published.Some? && LooksLikeHash(published.value) &&
            (domain in s.trusted ==> s.trusted[domain].roleKeyHashHex == Hex.LowerCase(published.value)))
      && (answer.Resolved? ==>
            answer == Resolved(Hex.LowerCase(published.value), domain !in s.trusted) &&
            domain in t.trusted && t.trusted[domain].lastSeenAt == now)
      && (!answer.Resolved? ==> t.trusted == s.trusted)
  {
  }

  /** The step is the arrival of the first good document of the domain, with this hash. */
  ghost predicate FirstSeenAt(ss: seq<State>, steps: seq<Step>, h: nat, domain: Text, port: Port)
    requires h < |steps| < |ss|
  {
    && steps[h].Fetched? && steps[h].call in ss[h].fetching && ss[h].fetching[steps[h].call] == domain
    && domain !in ss[h].trusted && steps[h].published.Some? && LooksLikeHash(steps[h].published.value)
    && port.roleKeyHashHex == Hex.LowerCase(steps[h].published.value) && port.firstSeenAt == steps[h].now
  }

  /** A domain is trusted only for what its first good document published, and since then. */
  lemma {:induction false} TrustedAsPublished(ss: seq<State>, steps: seq<Step>, i: nat, domain: Text)
    returns (h: nat)
    requires Run(ss, steps) && i <= |steps| && domain in ss[i].trusted
    ensures h < i && FirstSeenAt(ss, steps, h, domain, ss[i].trusted[domain])
    decreases i
  {
    assert i > 0;
    RunInv(ss, steps, i - 1);
    StepKeepsInv(ss[i - 1], steps[i - 1]);
    if domain in ss[i - 1].trusted {
      h := TrustedAsPublished(ss, steps, i - 1, domain);
    } else {
      h := i - 1;
      if steps[h].Fetched? {
        ResolvedIff(ss[h], steps[h].call, steps[h].published, steps[h].now);
      }
    }
  }

  /** A valid document is refused exactly when the domain is trusted for a different hash, whatever the case. */
  lemma RefusedIffChanged(s: State, call: nat, published: Text, now: int)
    requires Inv(s) && call in s.fetching && IsKeyHash(published)
    ensures
      var domain := s.fetching[call];
      Finish(s, call, Some(published), now).answers[call].1 == TofuViolation <==>
        domain in s.trusted && s.trusted[domain].roleKeyHashHex != Hex.LowerCase(published)
  {
  }

  class TrustTable {
    var trusted: map<Text, Port>

    constructor ()
      ensures trusted == map[]
    {
      trusted := map[];
    }

    function GetTrustedPort(domain: Text): Option<Port>
      reads this
    {
      if domain in trusted then Some(trusted[domain]) else None
    }

    method RecordTrustedPort(domain: Text, hash: Text, now: int)
      modifies this
      ensures trusted == Record(old(trusted), domain, hash, now)
    {
      if domain in trusted {
        trusted := trusted[domain := Port(trusted[domain].roleKeyHashHex, trusted[domain].firstSeenAt, now)];
      } else {
        trusted := trusted[domain := Port(hash, now, now)];
      }
    }

    /** The part of a resolution after its fetch. */
    method Conclude(domain: Text, published: Option<Text>, now: int) returns (answer: Answer)
      modifies this
      ensures answer == Judge(old(trusted), domain, published)
      ensures trusted ==
              if answer.Resolved? then Record(old(trusted), domain, answer.roleKeyHashHex, now) else old(trusted)
    {
      if published.None? || !IsKeyHash(published.value) {
        return BadDocument;
      }
      var roleKeyHashHex := Hex.LowerCase(published.value);
      var existing := GetTrustedPort(domain);
      if existing.Some? && Hex.LowerCase(existing.value.roleKeyHashHex) != roleKeyHashHex {
        return TofuViolation;
      }
      RecordTrustedPort(domain, roleKeyHashHex, now);
      return Resolved(roleKeyHashHex, existing.None?);
    }
  }
}
