/**
 The L2 verifier as the program runs it: a process that keeps its keys in memory, its records in a file, and
 works on both between awaits. Each method is one such stretch of a handler, and is the step of the state
 machine in module L2 that carries its name.
 */
module L2Server {
  import opened Wrappers
  import opened Utf16
  import opened DocumentCrypto
  import opened L2
  import opened Suspicion

  /** The positions at which two versions of the file differ. */
  function Changed(before: seq<Record>, after: seq<Record>): set<int>
    requires |after| == |before|
  {
    set i | 0 <= i < |before| && after[i] != before[i]
  }

  /** A sweep leaves the file as it is exactly when no approved record concerns the revocation. */
  lemma AffectedAreMarked(env: Env, r: Revocation, db: seq<Record>)
    ensures Changed(db, Swept(env, r, db)) == {} <==>
              forall i :: 0 <= i < |db| && db[i].status == APPROVED ==> !Concerns(env, r, db[i])
  {
    if Changed(db, Swept(env, r, db)) == {} {
      forall i | 0 <= i < |db| && db[i].status == APPROVED ensures !Concerns(env, r, db[i]) {
        assert i !in Changed(db, Swept(env, r, db));
      }
    }
  }

  class Verifier {
    var authorizedPublicKeys: set<Text>
    var revokedKeys: map<Text, Text>
    var file: seq<Record>
    var queue: seq<Task>
    var holder: Option<Held>
    var verifying: map<nat, Presentation>
    var persisting: map<nat, Revocation>
    var revokedFile: map<Text, Text>
    var writing: map<nat, Write>
    var next: nat
    ghost var known: set<Text>
    ghost var owners: seq<nat>
    ghost var replies: map<nat, Reply>
    ghost var asked: map<nat, Presentation>
    ghost var finished: map<nat, Revocation>

    ghost function View(): State
      reads this
    {
      State(KeyRing(authorizedPublicKeys, revokedKeys, revokedFile, persisting, writing, known),
            file, owners, queue, holder, verifying, replies, asked, finished, next)
    }

    constructor ()
      ensures View() == INITIAL
    {
      authorizedPublicKeys, revokedKeys, file := {}, map[], [];
      queue, holder, verifying, next := [], None, map[], 0;
      persisting, revokedFile, writing, known := map[], map[], map[], {};
      owners, replies, asked, finished := [], map[], map[], map[];
    }

    method Sync(key: Text)
      modifies this
      ensures View() == old(View()).(keys := Synced(old(View()).keys, key))
    {
      authorizedPublicKeys := authorizedPublicKeys + {key};
      known := known + {key};
    }

    /** A new process: it loads the revoked keys, and of its predecessor's work it knows nothing. */
    method Start()
      modifies this
      ensures View() == Restarted(old(View()))
    {
      LoadKeys();
      queue, holder, verifying := [], None, map[];
    }

    method LoadKeys()
      modifies this
      ensures View() == old(View()).(keys := Reloaded(old(View()).keys))
    {
      authorizedPublicKeys := {};
      persisting, writing := map[], map[];
      revokedKeys := revokedFile;
    }

    /** The checks of `/api/verify-and-settle`, in the order the handler makes them. */
    method Check(env: Env, p: Presentation) returns (verdict: Verdict)
      ensures verdict == Judge(env, authorizedPublicKeys, revokedKeys, p)
    {
      if |p.holder| == 0 || |p.proofSystem| == 0 || |p.documentHash| == 0 || |p.documentIdHash| == 0 {
        return Refuse(400);
      }
      if |p.holderPubKeyHash| != 64 || |p.proofBytes| == 0 || |p.ministryPublicKey| == 0 {
        return Refuse(400);
      }
      if p.ministryPublicKey !in authorizedPublicKeys {
        return Refuse(403);
      }
      if p.ministryPublicKey in revokedKeys {
        return Refuse(403);
      }
      if p.hasRawDocument {
        return Refuse(400);
      }
      if env.mode.Sp1? && !IsSp1(p.proofSystem) {
        return Refuse(400);
      }
      if IsSp1(p.proofSystem) {
        return AwaitSp1;
      }
      var combined := CombinedSignatureHash(env.crypto, p.documentHash, p.documentIdHash);
      if !VerifySignatureOverHash(env.crypto, combined, p.proofBytes, p.ministryPublicKey) {
        return Refuse(400);
      }
      return EnterMutex;
    }

    method VerifyAndSettle(env: Env, p: Presentation) returns (job: nat)
      modifies this
      ensures View() == SettleArrives(env, old(View()), p)
      ensures job == old(next)
    {
      job := next;
      var verdict := Check(env, p);
      TakeIn(p, verdict);
    }

    /** The request is refused, awaits its proof, or gets in line. */
    method TakeIn(p: Presentation, verdict: Verdict)
      modifies this
      ensures View() == Route(old(View()), p, verdict)
    {
      asked := asked[next := p];
      match verdict {
        case Refuse(code) => replies := replies[next := Refused(code)];
        case AwaitSp1 => verifying := verifying[next := p];
        case EnterMutex => queue := queue + [Settle(next, p)];
      }
      next := next + 1;
    }

    method ProofVerdict(job: nat, valid: bool)
      requires job in verifying
      modifies this
      ensures View() == Sp1Verified(old(View()), job, valid)
    {
      if valid {
        queue := queue + [Settle(job, verifying[job])];
      } else {
        replies := replies[job := Refused(400)];
      }
      verifying := verifying - {job};
    }

    method EnterExclusive()
      requires holder.None? && queue != []
      modifies this
      ensures View() == Acquire(old(View()))
    {
      holder := Some(Held(queue[0], file));
      queue := queue[1..];
    }

    /** Looks for a record of the same document in the copy of the file. */
    method FindDuplicate(copy: seq<Record>, documentIdHash: Text) returns (found: bool)
      ensures found == HasDuplicate(copy, documentIdHash)
    {
      found := false;
      var i := 0;
      while i < |copy| && !found
        invariant 0 <= i <= |copy|
        invariant found ==> HasDuplicate(copy, documentIdHash)
        invariant !found ==> forall k :: 0 <= k < i ==> copy[k].documentIdHash != documentIdHash
      {
        found := copy[i].documentIdHash == documentIdHash;
        i := i + 1;
      }
    }

    method SettleExclusively(env: Env, now: Text)
      requires holder.Some? && holder.value.task.Settle?
      modifies this
      ensures View() == FinishSettle(env, old(View()), now)
    {
      var Held(Settle(job, p), copy) := holder.value;
      var duplicate := FindDuplicate(copy, p.documentIdHash);
      if duplicate {
        replies := replies[job := Refused(409)];
      } else {
        file := copy + [NewRecord(env, p, now)];
        owners := owners + [job];
        replies := replies[job := Settled(|copy|)];
      }
      holder := None;
    }

    method RevokeKey(key: Text, compromisedAt: Option<Text>, now: Text) returns (known: bool)
      modifies this
      ensures View() == RevokeArrives(old(View()), key, compromisedAt, now)
      ensures known == (key in old(authorizedPublicKeys))
    {
      known := key in authorizedPublicKeys;
      if known {
        var revokedAt := if compromisedAt.Some? then compromisedAt.value else now;
        revokedKeys := revokedKeys[key := revokedAt];
        persisting := persisting[next := Revocation(key, revokedAt)];
        next := next + 1;
      }
    }

    /** `persistRevokedKeys` once the directory is there: the entries are read now and the write begins. */
    method WriteKeys(call: nat)
      requires call in persisting
      modifies this
      ensures View() == old(View()).(keys := BeginsWrite(old(View()).keys, call))
    {
      writing := writing[call := Write(persisting[call], revokedKeys)];
      persisting := persisting - {call};
    }

    method KeysPersisted(call: nat)
      requires call in writing
      modifies this
      ensures View() == RevokePersisted(old(View()), call)
    {
      var Write(revocation, entries) := writing[call];
      revokedFile := entries;
      writing := writing - {call};
      queue := queue + [Sweep(call, revocation)];
    }

    /** Marks the records of a compromised key, one after the other, and counts them. */
    method MarkSuspicious(env: Env, r: Revocation, copy: seq<Record>) returns (swept: seq<Record>, count: nat)
      ensures swept == Swept(env, r, copy)
      ensures forall i :: 0 <= i < |copy| ==>
                swept[i] == if copy[i].status == APPROVED && Concerns(env, r, copy[i])
                            then copy[i].(status := SUSPICIOUS) else copy[i]
      ensures count == |Changed(copy, swept)|
    {
      var keyHash := Sha256Hash(env.crypto, r.key);
      swept, count := copy, 0;
      ghost var marked: set<int> := {};
      var i := 0;
      while i < |copy|
        invariant 0 <= i <= |copy| == |swept|
        invariant forall k :: 0 <= k < i ==> swept[k] == Mark(env, r, copy[k])
        invariant forall k :: i <= k < |copy| ==> swept[k] == copy[k]
        invariant forall k :: k in marked <==> 0 <= k < i && swept[k] != copy[k]
        invariant count == |marked|
      {
        var record := copy[i];
        var affected := record.ministryPublicKeyHash == keyHash && record.status == APPROVED;
        if affected && !Less(record.settledAt, r.revokedAt) {
          swept := swept[i := record.(status := SUSPICIOUS)];
          count := count + 1;
          marked := marked + {i};
        }
        i := i + 1;
      }
      assert marked == Changed(copy, swept);
    }

    method SweepExclusively(env: Env) returns (suspicious: nat)
      requires holder.Some? && holder.value.task.Sweep?
      modifies this
      ensures View() == FinishSweep(env, old(View()))
      ensures old(Exclusive(View())) ==> |file| == |old(file)| && suspicious == |Changed(old(file), file)|
    {
      var Held(Sweep(call, r), copy) := holder.value;
      var swept;
      swept, suspicious := MarkSuspicious(env, r, copy);
      if suspicious > 0 {
        file := swept;
      }
      if suspicious == 0 {
        AffectedAreMarked(env, r, copy);
      }
      finished := finished[call := r];
      holder := None;
    }
  }
}
