/**
 The attestation policy evaluator: a tree of AND, OR and required claims, judged against a bundle of
 attestations that was gathered beforehand. The cryptographic check of one attestation is a parameter.
 */
module Policy {
  import opened Wrappers
  import opened Utf16

  datatype Attestation = Attestation(
    subjectId: Text, claimType: Text, proofRef: Text, issuerSet: seq<Text>, threshold: int, timestamp: int)

  datatype RequiredClaim = RequiredClaim(
    claimType: Text, threshold: Option<int>, requiredIssuers: Option<seq<Text>>)

  datatype Node = Claim(claim: RequiredClaim) | And(nodes: seq<Node>) | Or(nodes: seq<Node>)

  type Verifier = Attestation -> bool

  datatype Reason = NoAttestation(claimType: Text) | NoneSatisfied(candidates: nat, claimType: Text)

  datatype Evaluation = Evaluation(ok: bool, reasons: seq<Reason>)

  // ---- one claim ----

  function Threshold(claim: RequiredClaim): int {
    if claim.threshold.Some? then claim.threshold.value else 1
  }

  /** Enough issuers, none of them unauthorized. */
  predicate IssuersQualify(claim: RequiredClaim, a: Attestation) {
    && |a.issuerSet| >= Threshold(claim)
    && (claim.requiredIssuers.None? || claim.requiredIssuers.value == []
        || forall did :: did in a.issuerSet ==> did in claim.requiredIssuers.value)
  }

  predicate Attests(claim: RequiredClaim, a: Attestation, verify: Verifier) {
    a.claimType == claim.claimType && IssuersQualify(claim, a) && verify(a)
  }

  /** The declarative meaning of a claim. */
  predicate ClaimHolds(claim: RequiredClaim, bundle: seq<Attestation>, verify: Verifier) {
    exists a :: a in bundle && Attests(claim, a, verify)
  }

  function Matching(bundle: seq<Attestation>, claimType: Text): seq<Attestation> {
    if bundle == [] then []
    else (if bundle[0].claimType == claimType then [bundle[0]] else []) + Matching(bundle[1..], claimType)
  }

  function FailureReason(claim: RequiredClaim, bundle: seq<Attestation>): Reason {
    var n := |Matching(bundle, claim.claimType)|;
    if n == 0 then NoAttestation(claim.claimType) else NoneSatisfied(n, claim.claimType)
  }

  lemma {:induction false} MatchingMembers(bundle: seq<Attestation>, claimType: Text)
    ensures forall a :: a in Matching(bundle, claimType) <==> a in bundle && a.claimType == claimType
  {
    if bundle != [] {
      MatchingMembers(bundle[1..], claimType);
      assert forall a :: a in bundle <==> a == bundle[0] || a in bundle[1..];
    }
  }

  /** The attestations of a type, by their places in the bundle. */
  function OfType(bundle: seq<Attestation>, claimType: Text): set<int> {
    set i | 0 <= i < |bundle| && bundle[i].claimType == claimType
  }

  lemma {:induction false} MatchingOneMore(bundle: seq<Attestation>, a: Attestation, claimType: Text)
    ensures
      Matching(bundle + [a], claimType) ==
      Matching(bundle, claimType) + if a.claimType == claimType then [a] else []
  {
    if bundle == [] {
      assert bundle + [a] == [a] && [a][1..] == [];
    } else {
      MatchingOneMore(bundle[1..], a, claimType);
      assert (bundle + [a])[1..] == bundle[1..] + [a];
    }
  }

  lemma OfTypeOneMore(bundle: seq<Attestation>, a: Attestation, claimType: Text)
    ensures
      |OfType(bundle + [a], claimType)| == |OfType(bundle, claimType)| + if a.claimType == claimType then 1 else 0
  {
    var n := |bundle|;
    var more := OfType(bundle, claimType) + if a.claimType == claimType then {n} else {};
    forall i ensures i in OfType(bundle + [a], claimType) <==> i in more {
    }
    assert OfType(bundle + [a], claimType) == more;
    assert n !in OfType(bundle, claimType);
  }

  lemma {:induction false} MatchingSize(bundle: seq<Attestation>, claimType: Text)
    ensures |Matching(bundle, claimType)| == |OfType(bundle, claimType)|
  {
    if bundle != [] {
      var n := |bundle| - 1;
      MatchingSize(bundle[..n], claimType);
      MatchingOneMore(bundle[..n], bundle[n], claimType);
      assert bundle == bundle[..n] + [bundle[n]];
      OfTypeOneMore(bundle[..n], bundle[n], claimType);
    }
  }

  /**
   What a claim asks of an attestation: its type, a valid proof, as many issuers as it names or one, and all of them
   allowed if it allows only some.
   */
  predicate Suffices(claim: RequiredClaim, a: Attestation, verify: Verifier) {
    && a.claimType == claim.claimType
    && (match claim.threshold case Some(n) => |a.issuerSet| >= n case None => |a.issuerSet| >= 1)
    && (match claim.requiredIssuers
        case Some(allowed) => |allowed| > 0 ==> forall k :: 0 <= k < |a.issuerSet| ==> a.issuerSet[k] in allowed
        case None => true)
    && verify(a)
  }

  lemma ClaimAsks(claim: RequiredClaim, bundle: seq<Attestation>, verify: Verifier)
    ensures ClaimHolds(claim, bundle, verify) <==> exists i :: 0 <= i < |bundle| && Suffices(claim, bundle[i], verify)
  {
    forall a ensures Attests(claim, a, verify) <==> Suffices(claim, a, verify) {
    }
    if ClaimHolds(claim, bundle, verify) {
      var a :| a in bundle && Attests(claim, a, verify);
      var i :| 0 <= i < |bundle| && bundle[i] == a;
      assert Suffices(claim, bundle[i], verify);
    }
  }

  /** Why a claim fails: no attestation is of its type, or so many are and none of them will do. */
  lemma FailureSays(claim: RequiredClaim, bundle: seq<Attestation>)
    ensures
      var n := |OfType(bundle, claim.claimType)|;
      && (FailureReason(claim, bundle).NoAttestation? <==> n == 0)
      && FailureReason(claim, bundle).claimType == claim.claimType
      && (n > 0 ==> FailureReason(claim, bundle).candidates == n)
  {
    MatchingSize(bundle, claim.claimType);
  }

  /** The search for a qualifying attestation finds one exactly when the claim holds. */
  method EvaluateClaim(claim: RequiredClaim, bundle: seq<Attestation>, verify: Verifier)
    returns (ok: bool, reason: Option<Reason>)
    ensures ok <==> ClaimHolds(claim, bundle, verify)
    ensures ok <==> exists i :: 0 <= i < |bundle| && Suffices(claim, bundle[i], verify)
    ensures reason == if ok then None else Some(FailureReason(claim, bundle))
  {
    ClaimAsks(claim, bundle, verify);
    var candidates := Matching(bundle, claim.claimType);
    MatchingMembers(bundle, claim.claimType);
    if |candidates| == 0 {
      return false, Some(NoAttestation(claim.claimType));
    }
    var threshold := if claim.threshold.Some? then claim.threshold.value else 1;
    for i := 0 to |candidates|
      invariant forall k :: 0 <= k < i ==> !Attests(claim, candidates[k], verify)
    {
      var attestation := candidates[i];
      if |attestation.issuerSet| < threshold {
        continue;
      }
      if claim.requiredIssuers.Some? && |claim.requiredIssuers.value| > 0 {
        var allowed := set did | did in claim.requiredIssuers.value;
        var hasUnauthorizedIssuer := exists did :: did in attestation.issuerSet && did !in allowed;
        if hasUnauthorizedIssuer {
          continue;
        }
      }
      var valid := verify(attestation);
      if valid {
        assert attestation in bundle;
        return true, None;
      }
    }
    return false, Some(NoneSatisfied(|candidates|, claim.claimType));
  }

  // ---- the tree ----

  function EvaluateNode(node: Node, bundle: seq<Attestation>, verify: Verifier): Evaluation
    decreases node
  {
    match node
    case Claim(claim) =>
      if ClaimHolds(claim, bundle, verify) then Evaluation(true, [])
      else Evaluation(false, [FailureReason(claim, bundle)])
    case And(nodes) =>
      var results := EvaluateNodes(nodes, bundle, verify);
      Evaluation(forall r :: r in results ==> r.ok, AllReasons(results))
    case Or(nodes) =>
      var results := EvaluateNodes(nodes, bundle, verify);
      var ok := exists r :: r in results && r.ok;
      Evaluation(ok, if ok then [] else AllReasons(results))
  }

  function EvaluateNodes(nodes: seq<Node>, bundle: seq<Attestation>, verify: Verifier): (r: seq<Evaluation>)
    ensures |r| == |nodes|
    decreases nodes
  {
    if nodes == [] then []
    else [EvaluateNode(nodes[0], bundle, verify)] + EvaluateNodes(nodes[1..], bundle, verify)
  }

  function AllReasons(results: seq<Evaluation>): seq<Reason> {
    if results == [] then [] else results[0].reasons + AllReasons(results[1..])
  }

  /** The declarative meaning of a policy tree. */
  ghost predicate Holds(node: Node, bundle: seq<Attestation>, verify: Verifier)
    decreases node
  {
    match node
    case Claim(claim) => ClaimHolds(claim, bundle, verify)
    case And(nodes) => forall i :: 0 <= i < |nodes| ==> Holds(nodes[i], bundle, verify)
    case Or(nodes) => exists i :: 0 <= i < |nodes| && Holds(nodes[i], bundle, verify)
  }

  lemma {:induction false} NodesOneByOne(nodes: seq<Node>, bundle: seq<Attestation>, verify: Verifier)
    ensures forall i :: 0 <= i < |nodes| ==>
              EvaluateNodes(nodes, bundle, verify)[i] == EvaluateNode(nodes[i], bundle, verify)
  {
    if nodes != [] {
      NodesOneByOne(nodes[1..], bundle, verify);
    }
  }

  /** The evaluator computes the meaning of the tree. */
  lemma {:induction false} EvaluationIsMeaning(node: Node, bundle: seq<Attestation>, verify: Verifier)
    ensures EvaluateNode(node, bundle, verify).ok <==> Holds(node, bundle, verify)
    decreases node
  {
    if !node.Claim? {
      var results := EvaluateNodes(node.nodes, bundle, verify);
      NodesOneByOne(node.nodes, bundle, verify);
      forall i | 0 <= i < |node.nodes|
        ensures results[i].ok <==> Holds(node.nodes[i], bundle, verify)
      {
        EvaluationIsMeaning(node.nodes[i], bundle, verify);
      }
      forall i | 0 <= i < |results|
        ensures results[i] in results
      {
      }
    }
  }

  // ---- the bundle is a collection, not a list ----

  lemma {:induction false} MatchingKeepsCounts(bundle: seq<Attestation>, claimType: Text)
    ensures forall a :: multiset(Matching(bundle, claimType))[a]
                        == if a.claimType == claimType then multiset(bundle)[a] else 0
  {
    if bundle != [] {
      MatchingKeepsCounts(bundle[1..], claimType);
      assert bundle == [bundle[0]] + bundle[1..];
    }
  }

  lemma MatchingCount(a: seq<Attestation>, b: seq<Attestation>, claimType: Text)
    requires multiset(a) == multiset(b)
    ensures |Matching(a, claimType)| == |Matching(b, claimType)|
  {
    MatchingKeepsCounts(a, claimType);
    MatchingKeepsCounts(b, claimType);
    assert multiset(Matching(a, claimType)) == multiset(Matching(b, claimType));
    assert |multiset(Matching(a, claimType))| == |Matching(a, claimType)|;
  }

  /** Verdict and reasons are the same for every arrangement of the bundle. */
  lemma {:induction false} OrderOfBundleIsIrrelevant(
    node: Node, a: seq<Attestation>, b: seq<Attestation>, verify: Verifier)
    requires multiset(a) == multiset(b)
    ensures EvaluateNode(node, a, verify) == EvaluateNode(node, b, verify)
    decreases node
  {
    if node.Claim? {
      MatchingCount(a, b, node.claim.claimType);
      assert forall x :: x in a <==> x in multiset(a);
      assert forall x :: x in b <==> x in multiset(b);
    } else {
      NodesOneByOne(node.nodes, a, verify);
      NodesOneByOne(node.nodes, b, verify);
      forall i | 0 <= i < |node.nodes| {
        OrderOfBundleIsIrrelevant(node.nodes[i], a, b, verify);
      }
      assert EvaluateNodes(node.nodes, a, verify) == EvaluateNodes(node.nodes, b, verify);
    }
  }

  /** More attestations never turn a satisfied policy into an unsatisfied one. */
  lemma {:induction false} MoreAttestationsNeverHurt(
    node: Node, bundle: seq<Attestation>, more: seq<Attestation>, verify: Verifier)
    requires forall a :: a in bundle ==> a in more
    ensures Holds(node, bundle, verify) ==> Holds(node, more, verify)
    decreases node
  {
    if node.Claim? {
    } else {
      forall i | 0 <= i < |node.nodes| {
        MoreAttestationsNeverHurt(node.nodes[i], bundle, more, verify);
      }
    }
  }

  // ---- reasons ----

  lemma {:induction false} NoReasons(results: seq<Evaluation>)
    ensures AllReasons(results) == [] <==> forall i :: 0 <= i < |results| ==> results[i].reasons == []
  {
    if results != [] {
      NoReasons(results[1..]);
      assert forall i :: 0 < i < |results| ==> results[i] == results[1..][i - 1];
    }
  }

  /** A satisfied policy gives no reasons. */
  lemma {:induction false} SatisfiedGivesNoReasons(node: Node, bundle: seq<Attestation>, verify: Verifier)
    ensures EvaluateNode(node, bundle, verify).ok ==> EvaluateNode(node, bundle, verify).reasons == []
    decreases node
  {
    if node.And? {
      var results := EvaluateNodes(node.nodes, bundle, verify);
      NodesOneByOne(node.nodes, bundle, verify);
      forall i | 0 <= i < |node.nodes| {
        SatisfiedGivesNoReasons(node.nodes[i], bundle, verify);
      }
      if EvaluateNode(node, bundle, verify).ok {
        forall i | 0 <= i < |results|
          ensures results[i].reasons == []
        {
          assert results[i] in results;
        }
        NoReasons(results);
      }
    }
  }

  /** Trees that nothing can satisfy: false even with every claim taken as true. */
  predicate Unsatisfiable(node: Node)
    decreases node
  {
    match node
    case Claim(_) => false
    case And(nodes) => exists i :: 0 <= i < |nodes| && Unsatisfiable(nodes[i])
    case Or(nodes) => forall i :: 0 <= i < |nodes| ==> Unsatisfiable(nodes[i])
  }

  /** An unsatisfied result without reasons comes from an unsatisfiable tree. */
  lemma {:induction false} SilentIsUnsatisfiable(node: Node, bundle: seq<Attestation>, verify: Verifier)
    requires !EvaluateNode(node, bundle, verify).ok && EvaluateNode(node, bundle, verify).reasons == []
    ensures Unsatisfiable(node)
    decreases node
  {
    if !node.Claim? {
      var results := EvaluateNodes(node.nodes, bundle, verify);
      NodesOneByOne(node.nodes, bundle, verify);
      NoReasons(results);
      forall i | 0 <= i < |node.nodes| && !results[i].ok
        ensures Unsatisfiable(node.nodes[i])
      {
        SilentIsUnsatisfiable(node.nodes[i], bundle, verify);
      }
      if node.And? {
        var r :| r in results && !r.ok;
        var i :| 0 <= i < |results| && results[i] == r;
        assert Unsatisfiable(node.nodes[i]);
      } else {
        forall i | 0 <= i < |node.nodes|
          ensures Unsatisfiable(node.nodes[i])
        {
          assert results[i] in results;
        }
      }
    }
  }

  /** One attestation that meets the given claim. */
  function Witness(claim: RequiredClaim): Attestation {
    var issuer := if claim.requiredIssuers.Some? && claim.requiredIssuers.value != []
                  then claim.requiredIssuers.value[0] else [];
    var n := if Threshold(claim) > 0 then Threshold(claim) else 0;
    Attestation([], claim.claimType, [], seq(n, _ => issuer), n, 0)
  }

  /** A bundle with a witness for every claim of the tree. */
  function Witnesses(node: Node): seq<Attestation>
    decreases node
  {
    match node
    case Claim(claim) => [Witness(claim)]
    case And(nodes) => AllWitnesses(nodes)
    case Or(nodes) => AllWitnesses(nodes)
  }

  function AllWitnesses(nodes: seq<Node>): seq<Attestation>
    decreases nodes
  {
    if nodes == [] then [] else Witnesses(nodes[0]) + AllWitnesses(nodes[1..])
  }

  lemma {:induction false} WitnessesOfParts(nodes: seq<Node>)
    ensures forall i, a :: 0 <= i < |nodes| && a in Witnesses(nodes[i]) ==> a in AllWitnesses(nodes)
  {
    if nodes != [] {
      WitnessesOfParts(nodes[1..]);
      forall i, a | 0 <= i < |nodes| && a in Witnesses(nodes[i])
        ensures a in AllWitnesses(nodes)
      {
        if i > 0 {
          assert nodes[i] == nodes[1..][i - 1];
        }
      }
    }
  }

  predicate Always(a: Attestation) {
    true
  }

  /** With all claims witnessed the tree holds unless it is unsatisfiable, and then it is silent. */
  lemma {:induction false} WitnessedTree(node: Node, bundle: seq<Attestation>)
    requires forall a :: a in Witnesses(node) ==> a in bundle
    ensures EvaluateNode(node, bundle, Always).ok <==> !Unsatisfiable(node)
    ensures EvaluateNode(node, bundle, Always).reasons == []
    decreases node
  {
    if node.Claim? {
      assert Witness(node.claim) in Witnesses(node);
      assert Attests(node.claim, Witness(node.claim), Always);
    } else {
      var results := EvaluateNodes(node.nodes, bundle, Always);
      NodesOneByOne(node.nodes, bundle, Always);
      WitnessesOfParts(node.nodes);
      assert Witnesses(node) == AllWitnesses(node.nodes);
      forall i | 0 <= i < |node.nodes|
        ensures results[i].ok <==> !Unsatisfiable(node.nodes[i])
        ensures results[i].reasons == []
        ensures results[i] in results
      {
        WitnessedTree(node.nodes[i], bundle);
      }
      NoReasons(results);
    }
  }

  /**
   Every unsatisfied result carries a reason, for all bundles and verifiers, exactly when the tree is not
   one that nothing can satisfy.
   */
  lemma UnsatisfiedHasReasonIff(node: Node)
    ensures
      (forall bundle, verify ::
         EvaluateNode(node, bundle, verify).ok || EvaluateNode(node, bundle, verify).reasons != [])
      <==> !Unsatisfiable(node)
  {
    if Unsatisfiable(node) {
      WitnessedTree(node, Witnesses(node));
      assert !EvaluateNode(node, Witnesses(node), Always).ok;
    } else {
      forall bundle, verify
        ensures EvaluateNode(node, bundle, verify).ok || EvaluateNode(node, bundle, verify).reasons != []
      {
        if !EvaluateNode(node, bundle, verify).ok && EvaluateNode(node, bundle, verify).reasons == [] {
          SilentIsUnsatisfiable(node, bundle, verify);
        }
      }
    }
  }

  predicate NoEmptyOr(node: Node)
    decreases node
  {
    match node
    case Claim(_) => true
    case And(nodes) => forall i :: 0 <= i < |nodes| ==> NoEmptyOr(nodes[i])
    case Or(nodes) => nodes != [] && forall i :: 0 <= i < |nodes| ==> NoEmptyOr(nodes[i])
  }

  /** A tree without an empty `or` can be satisfied, so it never fails without a reason. */
  lemma {:induction false} NoEmptyOrIsSatisfiable(node: Node)
    requires NoEmptyOr(node)
    ensures !Unsatisfiable(node)
    decreases node
  {
    if !node.Claim? {
      forall i | 0 <= i < |node.nodes|
        ensures !Unsatisfiable(node.nodes[i])
      {
        NoEmptyOrIsSatisfiable(node.nodes[i]);
      }
      if node.Or? {
        assert !Unsatisfiable(node.nodes[0]);
      }
    }
  }

  // ---- the evaluator as it runs ----

  lemma PartsInOrder(nodes: seq<Node>, bundle: seq<Attestation>, verify: Verifier, results: seq<Evaluation>)
    requires |results| == |nodes|
    requires forall i :: 0 <= i < |nodes| ==> results[i] == EvaluateNode(nodes[i], bundle, verify)
    ensures results == EvaluateNodes(nodes, bundle, verify)
  {
    NodesOneByOne(nodes, bundle, verify);
  }

  /** `evaluateNode`, with the loop over the candidates at its leaves. */
  method EvaluateTree(node: Node, bundle: seq<Attestation>, verify: Verifier) returns (e: Evaluation)
    ensures e == EvaluateNode(node, bundle, verify)
    decreases node
  {
    match node
    case Claim(claim) =>
      var ok, reason := EvaluateClaim(claim, bundle, verify);
      return Evaluation(ok, if reason.Some? then [reason.value] else []);
    case And(nodes) =>
      var results := EvaluateParts(nodes, bundle, verify);
      var ok := forall r :: r in results ==> r.ok;
      return Evaluation(ok, AllReasons(results));
    case Or(nodes) =>
      var results := EvaluateParts(nodes, bundle, verify);
      var ok := exists r :: r in results && r.ok;
      return Evaluation(ok, if ok then [] else AllReasons(results));
  }

  method EvaluateParts(nodes: seq<Node>, bundle: seq<Attestation>, verify: Verifier) returns (results: seq<Evaluation>)
    ensures results == EvaluateNodes(nodes, bundle, verify)
    decreases nodes
  {
    results := [];
    for i := 0 to |nodes|
      invariant |results| == i
      invariant forall k :: 0 <= k < i ==> results[k] == EvaluateNode(nodes[k], bundle, verify)
    {
      var e := EvaluateTree(nodes[i], bundle, verify);
      results := results + [e];
    }
    PartsInOrder(nodes, bundle, verify, results);
  }

  /** `evaluatePolicy` decides the declarative meaning of the tree. */
  method EvaluatePolicy(root: Node, bundle: seq<Attestation>, verify: Verifier)
    returns (satisfied: bool, reasons: seq<Reason>)
    ensures satisfied <==> Holds(root, bundle, verify)
    ensures reasons == EvaluateNode(root, bundle, verify).reasons
    ensures satisfied ==> reasons == []
  {
    var e := EvaluateTree(root, bundle, verify);
    EvaluationIsMeaning(root, bundle, verify);
    SatisfiedGivesNoReasons(root, bundle, verify);
    return e.ok, e.reasons;
  }
}
