# Verified model of UBLP

UBLP joins two trust-minimised workflows: customs clearance, in which a broker, a ministry, an agent and an L2
verifier carry a document from an operator's draft to a settled record, and Incoterms escrow, in which a seller,
a buyer and a port authority move a deposit through a contract. This project models both as state machines whose
steps are the stretches of code between two awaits, together with the codecs they rest on, and proves what holds
in every interleaving.

| modules | what they model |
|---|---|
| Wrappers, Utf16, Hex, Decimal, Json | JavaScript strings as UTF-16 code units, hexadecimal, big-integer text, JSON values, printing and parsing |
| Canonical, DocumentCrypto | canonical JSON; document hashes and signatures over it |
| PrivateState, Csv, Memo, Policy | the tagged store for private state, CSV export, memo framing, the attestation policy evaluator |
| Offer | signed offers and their encrypted delivery |
| L2, L2Server | the L2 verifier: keys, the line at the mutex, settling and revoking; the server object |
| Revoking, Restarts, Suspicion, Evidence, Admission | what revoking achieves, which revocations outlive restarts and which records they touch; what records prove, what let a request through and what turned it away |
| Credentials, ReviewQueue, Ministry, Officers | documents, credentials, presentations; the review queue; Ministry's two tables, and who decided what in them |
| Broker, BrokerServer, Fates | submissions, the operator's handlers and the poller over its snapshots; which event moves a submission where |
| Pipeline, Clearance, Verdicts | the four services together with a lossy network and strangers; what holds over whole runs; whose decisions an end goes back to |
| Journey, Replay | a run in which a submission settles; what becomes of a presentation that is sent again |
| EscrowContract, EscrowTrail, DealState, DealActions, Deals | the contract's circuits, where all on the ledger comes from, private state, the agents' actions, locks and payouts |
| Attempts, Watcher | the buyer's attempts to lock over whole runs; the watcher |
| PendingActions, ActionFates, TrustedPorts, Auth, Sessions | the approval queue and what moves its actions, trust on first use, wallet login and its sessions by their history |

Where the program updates state in place there is a class (`L2Server.Verifier`, `Ministry.Server`,
`ReviewQueue.Queue`, `BrokerServer.Server`, `EscrowContract.Contract`, `Watcher.DealWatcher`,
`PendingActions.ActionQueue`, `TrustedPorts.TrustTable`, `Auth.AuthStore`, `Offer.Inbox`). Each method is proved
equal to a step of the state machine of its module, and the lemmas about runs are lemmas about those steps.

## What is assumed

- SHA-256, UTF-8, the signature scheme, X25519, ChaCha20-Poly1305, the wallet's signature check and
  `persistentCommit` are function parameters. A lemma that needs a law of one of them names it: `KeyPair`,
  `DigestLength`, `Lawful`, `Utf8Lossless`, `Binding`, `BindingProposal`, `KeepsNonce`. Collision resistance is never
  assumed of all byte strings at once; where it matters the lemma speaks of the very inputs at hand
  (`DocumentHashIdentifies`, `Clearance.Unforged`, `Revoking.KeysTold`). `Binding` and `BindingProposal` treat the
  contract's commitments as injective.
- Unforgeability enters in one place, `Clearance.Unforged`: at the moment L2 checks a presentation, a signature
  that verifies under Ministry's key is over the digest of a credential that stands in Ministry's table. That such a
  credential belongs to an item an officer approved is proved, from Ministry's invariant.
- Clocks, random numbers, network replies, fetched documents and status reads are parameters of the steps.
  Challenge numbers do not repeat; SQLite rows are numbered consecutively and statements are atomic.
- The proofs of `SP1` presentations are a nondeterministic verdict; `RevocationIsFinal`, `SuspiciousIffRevoked`,
  `RecordIsProven` and `RecordTraces` are about runs that do not use them; `Admission.RecordIsAdmitted` is about all runs.
- Ministry's framework turns a `holderDid` that is not a string into one, or refuses the request; how is a parameter,
  `Pipeline.Config.coerce`, and what the services then hold is `Credentials.Accepted`.

## Where the code and its descriptions part

- The life cycle in `modules/zk-customs/customs-broker/src/db.ts:7-8` has a status `awaiting_approval`. No handler
  writes it; `Broker.RowsFollowDecisions` proves that it never occurs. The same holds of `approved` in
  `modules/incoterms-escrow/src/server/db.ts:28`.
- `Object.fromEntries` enumerates integer-like keys first, so canonical JSON is not sorted by key throughout. The
  model follows the code; completeness does not depend on the order.
- `modules/zk-customs/l2-verifier-mock/src/index.ts:244-246` compares hash texts, while signatures are over decoded
  bytes, and many texts decode to the same bytes: case is ignored, the boundary between the two hashes may move, and
  text after the last pair of digits is dropped (`DocumentCrypto.TextsOfBytes` says exactly which texts do). So one
  approved document may get two records: `Replay.SecondRecordIffOtherText` builds, for every document that can settle and
  all such texts, the run in which the same signature is presented twice, and the second record is made exactly when the
  text of its identifier hash is not 64 lower-case digits. That test on the request alone restores the promise:
  `Clearance.OneRecordPerDocument` proves one record per document identifier where it holds, and by
  `Clearance.OwnIdTextIffDigestText` it holds exactly of the records that state their document's own identifier hash.
- `modules/zk-customs/l2-verifier-mock/src/index.ts:51-55` writes the revoked keys outside the mutex, so writes may
  overlap, and the one that lands last may have begun before a key was revoked. After a restart such a key is good again
  although its revocation was answered. `Restarts.RevocationLastsIff` gives the exact condition at the moment of the
  call: every write under way then holds the key already. `Restarts.TwoKeysLoseARevocation` builds the failing run from
  the start; the second key it needs comes with `/api/sync` (`:272-279`) after Ministry changed its own.
- The broker's schema (`modules/zk-customs/customs-broker/src/server.ts:86`) says nothing of `holderDid`, Ministry's does
  (`modules/zk-customs/ministry/src/index.ts:226-235`), so what is reviewed there is the submitted document exactly if
  its holder is absent or a string (`Credentials.Accepted`, `Clearance.CredentialProvenance`;
  `Credentials.NumericHolder` is a submission that is not). An empty holder passes
  Ministry's schema but not the one of L2, which answers the agent's presentation with 400
  (`Credentials.IssuedIsAdmitted`).
- Each attempt to lock saves a fresh address salt before its chain call
  (`modules/incoterms-escrow/src/server/actions.ts:364`, `:419`, `:425`). After another attempt the saved salt is no
  longer the committed one, and the buyer's agent cannot release a refund. `Attempts.RefundIffLastOpensLanded` gives the
  exact condition over all runs, `Attempts.SecondAttemptRuns` builds runs in which it fails, and
  `Attempts.CarefulRefundIsAccepted` proves that it suffices to attempt a lock only while the ledger is still in the
  proposed state and no earlier call of the agent's can still land; each half of that guard is needed. With it the
  buyer's watcher is paid (`Watcher.CarefulWatcherIsPaid`), without it it may ask in vain on every tick
  (`Watcher.StrandedWatcherAsksInVain`).
- A lock does not compare the ledger's duration and timeout direction with the signed terms
  (`modules/incoterms-escrow/contracts/Escrow.compact:211-276`). `Deals.LockGuarantees` says which terms it does
  guarantee.
- A registry file of the wrong shape, such as `{}`, is neither a key nor none: nobody can log in
  (`Auth.EmptyObjectBlocks`, `Auth.OtherFilesBlock`), where a file that cannot be parsed is as good as none.
- A private state with a plain object that has a `__u8` or `__bigint` key does not come back from the store
  (`PrivateState.LoadSaveIff`); the states the agents write have none (`DealState.StateSurvives`).
- An unsatisfied policy may give no reason at all, through an `or` without alternatives.
  `Policy.UnsatisfiedHasReasonIff` says exactly which trees always give one.

## Model

| member | source | states |
|---|---|---|
| Canonical.CanonicalJsonIsComplete | shared/src/crypto/documentCrypto.ts:66-77 | two values print the same canonical text exactly when they are the same up to the order of object keys and to members that are absent or undefined, at every depth and for every string |
| Canonical.CanonicalJsonIsFixedPoint | shared/src/crypto/documentCrypto.ts:66-77 | parsing a canonical text by RFC 8259 gives back a value whose canonical text is that text again |
| Json.ParsePrint | shared/src/crypto/documentCrypto.ts:66-77 | the RFC 8259 parser undoes the printer on every value JSON can hold, escapes and lone surrogates included |
| Json.JsonParsePrint | modules/incoterms-escrow/src/server/actions.ts:281-288 | so does `JSON.parse` with its rule for repeated keys, on every value with distinct keys |
| Json.PrintIsWellFormed | modules/incoterms-escrow/src/server/actions.ts:268-269 | printed JSON is well-formed UTF-16 whatever its strings are, so encoding it as UTF-8 loses nothing |
| DocumentCrypto.SignatureSurvivesTransport | shared/src/crypto/documentCrypto.ts:150-207 | a signature over a document verifies on every reordering of it, and the check over the combined hash alone gives the same answer |
| DocumentCrypto.DocumentHashIdentifies | shared/src/crypto/documentCrypto.ts:99-101 | unless the two hashed texts collide, document hashes are equal exactly for documents that are the same |
| DocumentCrypto.SignedTextsIffDigestTexts | shared/src/crypto/documentCrypto.ts:107-113 | hash texts that decode to the signed bytes are the signer's own texts exactly when each is 64 lower-case hexadecimal digits |
| DocumentCrypto.SecondTextIffDigestText | shared/src/crypto/documentCrypto.ts:107-113 | of such texts the second alone is the signer's own exactly when it is 64 lower-case digits, whatever the first is |
| DocumentCrypto.TextsOfBytes | shared/src/crypto/documentCrypto.ts:107-113 | two hash texts stand for given signed bytes exactly when they spell them, cut in two anywhere, in either case, each followed by anything that does not begin with two digits |
| DocumentCrypto.MovedBoundary | shared/src/crypto/documentCrypto.ts:107-113 | every pair of digests has other texts: digits of the second moved to the first, or a tail behind it |
| Hex.DecodesToIffSpells | shared/src/crypto/documentCrypto.ts:107-113 | exactly which texts the lenient reading decodes to given bytes |
| PrivateState.LoadSaveIff | modules/incoterms-escrow/src/server/db.ts:230-260 | a saved state loads as itself exactly when no plain object in it, at any depth, has a `__u8` or `__bigint` key |
| PrivateState.ReservedKeyIsLost | modules/incoterms-escrow/src/server/db.ts:230-246 | the smallest state that does not come back |
| PrivateState.ReviveUndoesEncode | modules/incoterms-escrow/src/server/db.ts:230-246 | the leaves-first reviver undoes the replacer on a tree exactly under the same condition |
| Decimal.ParsePrint | modules/incoterms-escrow/src/server/db.ts:230-246 | `BigInt` of the decimal text of an integer is that integer, negative and unbounded ones included |
| Hex.DecodeEncode | modules/incoterms-escrow/src/server/db.ts:230-246 | hexadecimal text of bytes decodes to the bytes |
| Hex.RoundTripIffLowerHex | shared/src/crypto/documentCrypto.ts:107-113 | a text survives decoding and encoding exactly when it is an even number of lower-case hexadecimal digits |
| Csv.ReadUndoesExport | shared/src/agent-core/transactionLog.ts:124-139 | an RFC 4180 reader with LF record ends recovers the header and every field of every row, null as the empty field |
| Csv.ExportInjective | shared/src/agent-core/transactionLog.ts:128-139 | two logs export to the same text exactly when their rows read the same, field by field |
| Memo.OpensForBothSides | shared/src/crypto/dualRecipientMemo.ts:72-120 | either party recovers the plaintext of a memo with its own private key and the other's public key |
| Memo.DecryptsIff | shared/src/crypto/dualRecipientMemo.ts:102-120 | a memo decrypts exactly if its first byte is the scheme's, it has room for the tag, and the cipher opens what lies between nonce and tag |
| Memo.AddressMemo | modules/incoterms-escrow/src/contract/memo.ts:54-77 | an encrypted address memo has 126 bytes and both parties recover address and salt from it |
| Memo.DecodeEncodeAddress | modules/incoterms-escrow/src/contract/memo.ts:20-45 | the 97-byte layout gives back the address and salt |
| Memo.EncodeDecodeAddressIff | modules/incoterms-escrow/src/contract/memo.ts:20-45 | any 97 bytes decode, and encode back to themselves exactly when the first byte is 0 or 1 |
| Policy.EvaluateClaim | shared/src/attestation/verify.ts:20-61 | the loop with its early exit reports satisfaction exactly when some attestation in the bundle has the type, as many issuers as named or one, all of them allowed, and a valid proof, and the right reason otherwise |
| Policy.ClaimAsks | shared/src/attestation/verify.ts:20-61 | a claim holds exactly when some attestation in the bundle has what it asks for, spelt out |
| Policy.FailureSays | shared/src/attestation/verify.ts:25-60 | the reason tells whether the bundle has no attestation of the type, and otherwise how many |
| Policy.EvaluationIsMeaning | shared/src/attestation/verify.ts:63-99 | the evaluated tree is satisfied exactly when the declarative AND/OR meaning holds |
| Policy.EvaluateTree | shared/src/attestation/verify.ts:63-85 | the recursive evaluator, with the loop over candidates at its leaves, computes the evaluation all lemmas are about, reasons included |
| Policy.EvaluatePolicy | shared/src/attestation/verify.ts:87-99 | the policy is reported satisfied exactly when its declarative meaning holds, and then without reasons |
| Policy.OrderOfBundleIsIrrelevant | shared/src/attestation/verify.ts:20-99 | permuting the bundle changes neither the outcome nor the reasons |
| Policy.MoreAttestationsNeverHurt | shared/src/attestation/verify.ts:63-99 | a satisfied policy stays satisfied when attestations are added |
| Policy.SatisfiedGivesNoReasons | shared/src/attestation/verify.ts:63-85 | a satisfied evaluation has no reasons |
| Policy.UnsatisfiedHasReasonIff | shared/src/attestation/verify.ts:63-85 | every unsatisfied evaluation of a tree gives a reason exactly when the tree can be satisfied at all |
| Policy.NoEmptyOrIsSatisfiable | shared/src/attestation/policy.ts:47-57 | a tree without an empty `or` can be satisfied, so its failures always carry a reason |
| Offer.DeliveryPreservesOffer | modules/incoterms-escrow/src/server/actions.ts:262-298 | receiving what was encrypted for the buyer succeeds for every acceptable offer and yields the signed proposal |
| Offer.Inbox.ReceiveOffer | modules/incoterms-escrow/src/server/actions.ts:281-298 | an offer that passes every check is signed for this buyer and is stored once and whole, a refused one leaves no trace and is answered with the reason of the examination |
| Offer.ReceivesIffSigned | modules/incoterms-escrow/src/server/actions.ts:281-298 | an envelope is taken in exactly if a buyer can open it and it holds a contract's address and an offer signed for that buyer |
| Offer.RefusalIs | modules/incoterms-escrow/src/escrow.ts:129-155 | an offer is accepted exactly if its signature verifies over both digests under its own key, it names this buyer and its amount is positive; and what each other one is refused for |
| Offer.DeliveryRefusedAs | modules/incoterms-escrow/src/server/actions.ts:281-298 | who is told not to be a buyer, that the envelope cannot be opened, or that a part is missing |
| Offer.TransportedProposalIsAccepted | modules/incoterms-escrow/src/escrow.ts:109-155 | a signed proposal is accepted after JSON transport |
| Offer.StoredOfferIsAcceptedAtLock | modules/incoterms-escrow/src/server/db.ts:289-315 | whatever was received, a stored offer read back from its JSON column is accepted again |
| Revoking.RevocationIsFinal | modules/zk-customs/l2-verifier-mock/src/index.ts:185-334 | in every interleaving of synchronous settle and revoke requests, restarts included, once a revocation is answered no record of that key settled at or after its time is approved, then or later, if the file names the key at each restart after the answer |
| Suspicion.SuspiciousIffRevoked | modules/zk-customs/l2-verifier-mock/src/index.ts:297-334 | under the same conditions a record is suspicious exactly when a revocation of its key has been answered whose time is not after the record's |
| Suspicion.SuspicionIsFounded | modules/zk-customs/l2-verifier-mock/src/index.ts:310-324 | in every run whatsoever, a suspicious record has such a revocation |
| Suspicion.AnsweredAsAsked | modules/zk-customs/l2-verifier-mock/src/index.ts:297-306 | every answered revocation was asked for: of a key authorized then, as of the time the request named or, without one, of its arrival |
| L2.StatusesOnlyWorsen | modules/zk-customs/l2-verifier-mock/src/index.ts:243-323 | records are never removed or rewritten but for approved ones becoming suspicious |
| L2.SettledOnce | modules/zk-customs/l2-verifier-mock/src/index.ts:243-266 | at no time, however often the process restarts, do two records share a documentIdHash |
| Evidence.RecordIsProven | modules/zk-customs/l2-verifier-mock/src/index.ts:185-240 | every record made on the development path was presented under a key authorized at some time, without the document, with a signature over the record's two hashes |
| Admission.RecordIsAdmitted | modules/zk-customs/l2-verifier-mock/src/index.ts:169-266 | in every run, SP1 proofs and restarts included, a record was made as approved, states what was presented and the time it was made, and its request had come in order under a key authorized and not revoked then, with a proof that held |
| Admission.RefusalHasReason | modules/zk-customs/l2-verifier-mock/src/index.ts:169-266 | every refusal has its reason: a bad key for 403, a bad request or proof for 400, for 409 a record with the same identifier hash |
| Admission.VerdictIs | modules/zk-customs/l2-verifier-mock/src/index.ts:112-240 | what becomes of a request on arrival, for every request |
| L2.StepKeepsInv | modules/zk-customs/l2-verifier-mock/src/index.ts:169-324 | every step of every handler, and a restart, keeps requests in one place, records owned by the request they answer, and the file unchanged under the mutex holder |
| L2.AnswersStay | modules/zk-customs/l2-verifier-mock/src/index.ts:243-266 | no request is answered twice |
| Revoking.SweepSeals | modules/zk-customs/l2-verifier-mock/src/index.ts:310-323 | the sweep clears its key, and nobody behind it in line can settle under it |
| Restarts.RevocationLastsIff | modules/zk-customs/l2-verifier-mock/src/index.ts:297-306 | in every run, a key being revoked stays revoked from its answer on, whatever follows and however often the process restarts, exactly when every write of the keys under way as the call arrives holds the key |
| Restarts.RevocationOutlivesRestarts | modules/zk-customs/l2-verifier-mock/src/index.ts:297-334 | after the answer to such a revocation no record of its key settled at or after its time is approved, then or later, across any restarts |
| Restarts.RevokedForGoodIffDurable | modules/zk-customs/l2-verifier-mock/src/index.ts:40-55 | in any state a revoked key stays revoked through all that may follow exactly when the file and every write under way name it |
| Restarts.UndurableIsLost | modules/zk-customs/l2-verifier-mock/src/index.ts:40-55 | from any state where they do not, steps lead to a new approved record under the revoked key, made at any time |
| Restarts.TwoKeysLoseARevocation | modules/zk-customs/l2-verifier-mock/src/index.ts:51-55 | from the start there is a run in which two keys are revoked at once, one revocation is answered, lost at a restart, and a record under its key is approved |
| L2Server.Verifier.Sync | modules/zk-customs/l2-verifier-mock/src/index.ts:57-69 | a key read from Ministry joins the authorized ones, and nothing else changes |
| L2Server.Verifier.Check | modules/zk-customs/l2-verifier-mock/src/index.ts:112-240 | the request schema and the checks, in order, come to the verdict of the state machine |
| L2Server.Verifier.VerifyAndSettle | modules/zk-customs/l2-verifier-mock/src/index.ts:169-243 | the handler up to its first await is the state machine's arrival step |
| L2Server.Verifier.ProofVerdict | modules/zk-customs/l2-verifier-mock/src/index.ts:220-243 | an SP1 verdict sends the request to the mutex or answers 400 |
| L2Server.Verifier.EnterExclusive | modules/zk-customs/l2-verifier-mock/src/index.ts:243-244 | the first in line takes the mutex and loads the file |
| L2Server.Verifier.FindDuplicate | modules/zk-customs/l2-verifier-mock/src/index.ts:244-246 | the search finds a record exactly when one has the hash |
| L2Server.Verifier.SettleExclusively | modules/zk-customs/l2-verifier-mock/src/index.ts:243-266 | the exclusive section answers 409 on a duplicate and otherwise appends one approved record |
| L2Server.Verifier.RevokeKey | modules/zk-customs/l2-verifier-mock/src/index.ts:297-306 | an authorized key is revoked at the time given or now; an unknown one changes nothing |
| L2Server.Verifier.KeysPersisted | modules/zk-customs/l2-verifier-mock/src/index.ts:51-55 | a write that lands leaves in the file what was revoked when it began, and its call gets in line for the mutex |
| L2Server.Verifier.WriteKeys | modules/zk-customs/l2-verifier-mock/src/index.ts:51-55 | a write begins with the keys revoked by now |
| L2Server.Verifier.Start | modules/zk-customs/l2-verifier-mock/src/index.ts:339-346 | a new process knows the two files and nothing else |
| L2Server.Verifier.MarkSuspicious | modules/zk-customs/l2-verifier-mock/src/index.ts:311-321 | the loop marks exactly the approved records whose key hash is that of the key and that were settled at or after the time, and counts the positions that changed |
| L2Server.Verifier.SweepExclusively | modules/zk-customs/l2-verifier-mock/src/index.ts:310-324 | the exclusive section saves the swept file when it counted any, and reports how many records of the file changed |
| L2Server.AffectedAreMarked | modules/zk-customs/l2-verifier-mock/src/index.ts:313-322 | a sweep changes nothing exactly when no approved record concerns the revocation, so skipping the save loses nothing |
| Utf16.LessIff | modules/zk-customs/l2-verifier-mock/src/index.ts:314-321 | times are compared as JavaScript compares strings: the first difference decides, and a text comes before its continuations |
| Credentials.StoredDocument | shared/src/agent-core/reviewQueue.ts:62-84 | a request body stored as JSON text is read back as itself |
| Credentials.Accepted | modules/zk-customs/ministry/src/index.ts:226-235 | what Ministry takes in has the submitted document number, and is the submitted document exactly when the schema passes it as it is |
| Credentials.OnlyTheHolderChanges | modules/zk-customs/ministry/src/index.ts:226-235 | a holder that is not a string is replaced by what the framework converts it to, or turns the body away, and no other member changes |
| Credentials.NumericHolder | modules/zk-customs/customs-broker/src/server.ts:86 | a submission with a number for its holder passes the broker's schema and not Ministry's, and is taken in changed or refused |
| Credentials.IssuedVerifies | modules/zk-customs/ministry/src/index.ts:160-194 | every credential Ministry issues passes the agent's signature check |
| Credentials.IssuedIsAdmitted | modules/zk-customs/ublp-agent/src/index.ts:128-228 | the presentation built from an issued credential under the development proof is let in by L2 exactly when the holder is not empty and the key is authorized and not revoked, and which refusal it gets otherwise |
| ReviewQueue.DecisionsAreFinal | shared/src/agent-core/reviewQueue.ts:66-117 | over any requests a decided item stays as it is, and what an item puts up for review never changes |
| ReviewQueue.FirstDecisionWins | shared/src/agent-core/reviewQueue.ts:103-117 | of all decisions on an open item only the first takes effect: its outcome, decider, note and time stand, and the rest of the item is as before |
| ReviewQueue.Queue.CreateReviewItem | shared/src/agent-core/reviewQueue.ts:66-84 | appends one open item under the next number |
| ReviewQueue.Queue.DecideReviewItem | shared/src/agent-core/reviewQueue.ts:103-117 | decides an open item and refuses an unknown or decided one without a change |
| Ministry.TablesAgree | modules/zk-customs/ministry/src/index.ts:236-298 | after any requests each document record has its review item's status, holds a credential exactly when approved, over that item's document, and the signature verifies |
| Ministry.RunKeepsInv | modules/zk-customs/ministry/src/db.ts:44-66 | every sequence of requests keeps the two tables in step and leaves settled records and credentials alone |
| Officers.StandsIffDecided | modules/zk-customs/ministry/src/index.ts:276-298 | over any requests a document is approved and has a credential exactly if an officer approved it while it was open, and is rejected exactly if one rejected it while it was open |
| Officers.DecisionStands | modules/zk-customs/ministry/src/index.ts:160-194 | what an officer decided stands: the credential over the item's document with the date, issuer, holder and signature, or none with the rejection's note |
| Ministry.Server.ReceiveDocument | modules/zk-customs/ministry/src/index.ts:236-250 | queues the document and records it as awaiting approval under the same number |
| Ministry.Server.ApprovePending | modules/zk-customs/ministry/src/index.ts:276-285 | issues the credential for an open item's document as of the date given, and refuses any other |
| Ministry.Server.RejectPending | modules/zk-customs/ministry/src/index.ts:290-298 | rejects an open item, whose record then has no credential, and refuses any other |
| Ministry.Server.UpsertDocumentRecord | modules/zk-customs/ministry/src/db.ts:44-61 | inserts or overwrites one record and no other |
| Broker.SnapshotIsCurrent | modules/zk-customs/customs-broker/src/poller.ts:107-127 | while a tick is suspended and handlers interleave freely, every unprocessed entry of its snapshot is, field by field, still the row it was read from |
| Broker.EachMovesItsOwn | modules/zk-customs/customs-broker/src/server.ts:112-160 | handlers move only draft and sent_to_ministry rows, the poller only later ones |
| Broker.FinalStays | modules/zk-customs/customs-broker/src/poller.ts:57-101 | settled, rejected and failed rows never change again |
| Broker.OnlyALostAnswerSetsBack | modules/zk-customs/customs-broker/src/poller.ts:93-100 | the only step that lowers a status is a lost answer of the agent, from proof_requested to vc_received, on the row the tick waits for |
| Broker.RowsFollowDecisions | modules/zk-customs/customs-broker/src/server.ts:82-160 | each row's status agrees with the operator's decision on its review item, whose payload is its document; awaiting_approval never occurs |
| Fates.EndsIff | modules/zk-customs/customs-broker/src/poller.ts:34-101 | a submission is settled, rejected or failed exactly if the one event for it has come; an undecided answer of Ministry moves nothing |
| Fates.LastMove | modules/zk-customs/customs-broker/src/poller.ts:34-101 | wherever a submission stands, the one event that leads there brought it there, and its answer's reference, credential, presentation, result or error is what the row holds |
| Broker.StepKeepsInv | modules/zk-customs/customs-broker/src/poller.ts:34-132 | every step of handlers and poller, restarts included, keeps tables, pending calls and the tick's snapshot consistent |
| BrokerServer.Server.UpdateSubmission | modules/zk-customs/customs-broker/src/db.ts:116-131 | merges an update into one row, keeping what it leaves out, and ignores an unknown row |
| BrokerServer.Server.CreateSubmission | modules/zk-customs/customs-broker/src/server.ts:90-99 | adds a review item and a draft submission that refers to it |
| BrokerServer.Server.DecideSubmission | modules/zk-customs/customs-broker/src/server.ts:116-122 | answers 404 or 409 without a change, or decides the item and moves the row |
| BrokerServer.Server.ApproveSubmission | modules/zk-customs/customs-broker/src/server.ts:115-123 | the approve handler up to its request, keeping the invariant |
| BrokerServer.Server.MinistryAnsweredApprove | modules/zk-customs/customs-broker/src/server.ts:130-141 | the approve handler from Ministry's answer on: accepted, declined or unreachable |
| BrokerServer.Server.RejectSubmission | modules/zk-customs/customs-broker/src/server.ts:149-159 | the reject handler |
| BrokerServer.Server.StartTick | modules/zk-customs/customs-broker/src/poller.ts:107-111 | a tick starts on a fresh snapshot unless one is in progress |
| BrokerServer.Server.NextEntry | modules/zk-customs/customs-broker/src/poller.ts:111-127 | the loop's next entry is skipped, polled or sent to the agent |
| BrokerServer.Server.MinistryAnsweredPoll | modules/zk-customs/customs-broker/src/poller.ts:43-61 | Ministry's answer rejects the row, sends it on with its credential, or leaves it |
| BrokerServer.Server.AgentAnswered | modules/zk-customs/customs-broker/src/poller.ts:73-100 | the agent's answer settles, rejects, fails or sets back the row |
| BrokerServer.Server.EndLoop | modules/zk-customs/customs-broker/src/poller.ts:111-131 | the first snapshot worked off leads to the second, the second to the end of the tick |
| Pipeline.StepKeepsInv | modules/zk-customs/customs-broker/src/poller.ts:34-132 | every step of broker, Ministry, agent and L2, with any loss of requests or replies and any strangers, keeps what links the four stores |
| Clearance.SettledAtMostOnce | modules/zk-customs/customs-broker/src/poller.ts:66-101 | in every run, restarts of broker and verifier included, at most one submission per documentId ever becomes settled |
| Clearance.SettledHasOneRecord | modules/zk-customs/l2-verifier-mock/src/index.ts:243-266 | each settled submission has exactly one L2 record with the hash of its documentId, and that record states the hash of its document, as Ministry took it in, its holder and Ministry's key |
| Clearance.CredentialProvenance | modules/zk-customs/customs-broker/src/poller.ts:57-60 | whatever the broker's schema lets through, a submission past Ministry holds the credential issued for the review item it refers to, about its document as Ministry took it in, which is the submitted one exactly when its holder is absent or a string, with operator and officer having approved |
| Clearance.RecordTraces | modules/zk-customs/ministry/src/index.ts:276-285 | every L2 record of the development path traces to a review item an officer approved; its hashes are that document's own texts exactly when they are 64 lower-case hexadecimal digits each |
| Verdicts.RecordTracesToOfficer | modules/zk-customs/ministry/src/index.ts:276-285 | the item a record traces to was approved by an officer's request, a step of the run, that found it open |
| Verdicts.RejectedByWhom | modules/zk-customs/customs-broker/src/poller.ts:43-61 | a rejected submission was turned down by the operator as a draft, or refers to an item that an officer's request, a step of the run, rejected |
| Verdicts.SettledByWhom | modules/zk-customs/customs-broker/src/poller.ts:57-101 | a settled submission was approved by the operator and by an officer, each a step of the run, and shows the presentation and the record of a job L2 has settled |
| Clearance.AdmittedIsTraced | modules/zk-customs/l2-verifier-mock/src/index.ts:185-233 | what L2 lets in is over an item an officer approved, if a signature under Ministry's key can only be that of a credential in its table |
| Clearance.IssuedIsApproved | modules/zk-customs/ministry/src/index.ts:276-285 | every credential in Ministry's table is over the document of an item an officer approved |
| Clearance.OneRecordPerDocument | modules/zk-customs/l2-verifier-mock/src/index.ts:243-266 | in every run two records that trace to documents with one identifier are one record, if the text of each identifier hash is 64 lower-case digits |
| Clearance.OwnIdTextIffDigestText | modules/zk-customs/l2-verifier-mock/src/index.ts:244-246 | a record states its document's own identifier hash exactly when that text is 64 lower-case digits |
| Journey.SubmissionSettles | modules/zk-customs/customs-broker/src/poller.ts:34-132 | every submission that Ministry's schema passes and that names a holder has a run, from the draft on, at whose end it is settled and has its one approved record |
| Replay.SecondRecordIffOtherText | modules/zk-customs/l2-verifier-mock/src/index.ts:243-266 | for every settled document, presenting its signature again under any texts of the signed bytes makes a second approved record exactly when the text of the identifier hash is not 64 lower-case digits, and both records trace to the one approved item |
| Replay.OneApprovalTwoRecords | modules/zk-customs/l2-verifier-mock/src/index.ts:243-266 | every document that settles has a run, of steps that all meet the assumptions, that ends with two approved records of its one approval |
| Journey.CarriedIsAdmitted | modules/zk-customs/l2-verifier-mock/src/index.ts:185-240 | Ministry's signature is let in under any texts of the signed bytes, whoever presents it |
| EscrowContract.DepositLeavesOnce | modules/incoterms-escrow/contracts/Escrow.compact:183-347 | whatever anyone calls, the deposit leaves at most once and whole: to the seller if attested, otherwise only at or after the deadline and to the side the terms name; the deadline is anchored to the lock |
| EscrowContract.RunFixes | modules/incoterms-escrow/contracts/Escrow.compact:183-347 | phases only advance, terms are fixed from the proposal, deposit and deadline from the lock, a released escrow never moves |
| EscrowTrail.ConfirmedByAuthority | modules/incoterms-escrow/contracts/Escrow.compact:278-287 | the milestone is confirmed only by a call that carries the secret behind the port authority's key hash |
| EscrowTrail.NothingWithoutTheSecret | modules/incoterms-escrow/contracts/Escrow.compact:278-308 | where no call carries that secret, every payment is made at or after the deadline, to the side the terms name |
| EscrowTrail.DepositIsAsProposed | modules/incoterms-escrow/contracts/Escrow.compact:183-276 | whoever calls what, terms and commitments on the ledger are those of one proposal, and the deposit has the nonce and value it committed to, put there by one lock that named its key hash |
| EscrowTrail.Paid | modules/incoterms-escrow/contracts/Escrow.compact:289-308 | every payment comes from a claim after the confirmation or from a release at or after the deadline without one |
| EscrowTrail.AttestsIff | modules/incoterms-escrow/contracts/Escrow.compact:278-287 | an attestation is accepted from the holder of the secret while the deposit is locked, and changes nothing else |
| EscrowContract.Contract.ProposeTerms | modules/incoterms-escrow/contracts/Escrow.compact:183-209 | the propose circuit accepts exactly in the empty state and writes the terms and commitments |
| EscrowContract.Contract.Lock | modules/incoterms-escrow/contracts/Escrow.compact:211-276 | the lock circuit accepts exactly when all its asserts hold and anchors the deadline |
| EscrowContract.Contract.Attest | modules/incoterms-escrow/contracts/Escrow.compact:278-287 | attests once, with the right key, while locked |
| EscrowContract.Contract.Claim | modules/incoterms-escrow/contracts/Escrow.compact:289-293 | pays the seller once attested |
| EscrowContract.Contract.Release | modules/incoterms-escrow/contracts/Escrow.compact:295-308 | pays the side the terms name, past the deadline and unattested |
| EscrowContract.Contract.PayOut | modules/incoterms-escrow/contracts/Escrow.compact:310-347 | pays exactly when coin and address open their commitments |
| DealState.StateSurvives | modules/incoterms-escrow/src/server/db.ts:248-260 | every private state of a deal survives saving and loading |
| DealActions.SidesAgree | modules/incoterms-escrow/src/server/actions.ts:176-219 | the state the buyer saves for terms the seller signed holds the coin the seller rebuilds, with the seller's salt, amount and port authority |
| DealActions.TermsAreRead | modules/incoterms-escrow/src/server/actions.ts:354-395 | the buyer's reading of the signed terms gives back what the seller put in |
| DealActions.OfferedIsWhatWasAsked | modules/incoterms-escrow/src/server/actions.ts:176-247 | the signed terms, the call to the contract and the order agree: parties, goods, amount, port authority, duration, timeout side, nonce and salts, memo keys |
| DealActions.LocksIffSigned | modules/incoterms-escrow/src/server/actions.ts:335-361 | the buyer locks exactly what is signed for it with readable terms and the trusted key hash |
| DealActions.SignedOfferLocks | modules/incoterms-escrow/src/server/actions.ts:335-395 | a signed offer with a positive amount, as JSON hands it over, passes every check of the buyer's lock |
| Deals.LockIsAccepted | modules/incoterms-escrow/src/server/actions.ts:421-425 | the lock the buyer prepares is accepted by the circuit while the offer stands |
| Deals.BuyerLocks | modules/incoterms-escrow/src/contract/witnesses.ts:138-313 | the witnesses in the buyer's state make just that call |
| Deals.LockedAsOffered | modules/incoterms-escrow/contracts/Escrow.compact:211-276 | from the lock on, whatever strangers call, the ledger holds the offered deal |
| Deals.DepositIsVerified | modules/incoterms-escrow/src/server/actions.ts:705-730 | the seller's independent check of the deposit succeeds from its saved state |
| EscrowTrail.VerifiedIffOwnCoin | modules/incoterms-escrow/src/server/actions.ts:705-730 | the seller's check of a locked deposit says yes exactly if the coin is the one it rebuilds, under its own salt |
| Deals.ClaimIsAccepted | modules/incoterms-escrow/src/server/actions.ts:476-545 | the seller's claim opens the held commitment and is paid to the seller's own address |
| Deals.SellersReleaseIsAccepted | modules/incoterms-escrow/src/server/actions.ts:610-665 | so does the seller's release past the deadline |
| Deals.RefundPaysBuyer | modules/incoterms-escrow/src/server/actions.ts:567-608 | so does the buyer's, for a state saved by the lock that landed |
| Deals.BuyerSaves | modules/incoterms-escrow/src/server/actions.ts:387-419 | the state an attempt at the seller's own terms saves holds the deposit's coin and salt and the buyer's address with the attempt's salt |
| Deals.LockGuarantees | modules/incoterms-escrow/contracts/Escrow.compact:211-276 | whoever proposed, the buyer's lock is accepted exactly when the ledger's proposal has the signed key hash, amount, nonce and salts and the clock fits; duration and timeout direction do not enter |
| Attempts.RunInv | modules/incoterms-escrow/src/server/actions.ts:335-425 | over any attempts, landings, losses, refunds and strangers' calls, the saved state is the last attempt's and the ledger holds what the landed one committed to |
| Attempts.RefundIffLastOpensLanded | modules/incoterms-escrow/src/server/actions.ts:363-425 | in every run the refund the agent prepares is accepted exactly when it is due and the last saving attempt agrees with the landed one in coin, deposit salt, address and address salt |
| Attempts.RefundIffLastAttemptLanded | modules/incoterms-escrow/src/server/actions.ts:363-425 | with salts that do not repeat, exactly when the attempt that landed is the last one that saved |
| Attempts.CarefulRefundIsAccepted | modules/incoterms-escrow/src/server/actions.ts:567-608 | if attempts are made only while the ledger is in the proposed state with no call of the agent's pending, a due refund is always accepted and pays the whole deposit to the buyer's own address |
| Attempts.SecondAttemptRuns | modules/incoterms-escrow/src/server/actions.ts:335-425 | for every signed offer there are runs that end locked with the wrong salt saved, where one attempt breaks either half of that guard and no other attempt breaks it |
| Attempts.StrandedRefund | modules/incoterms-escrow/src/server/actions.ts:567-608 | from there the agent's refund is refused at any time, while the first attempt's state would be paid once due |
| Watcher.ExactlyOneWatcherActs | modules/incoterms-escrow/src/server/dealPolicy.ts:23-47 | on a locked deal that is attested or past its deadline exactly one role acts by exactly one call, and which; otherwise neither; a seller that doubts the deposit never does |
| Watcher.SellersWatcherSucceeds | modules/incoterms-escrow/src/server/watcher.ts:55-80 | the seller's watcher does not doubt an honest deal, and its call on a current status is accepted and pays the seller |
| Watcher.BuyersWatcherSucceeds | modules/incoterms-escrow/src/server/watcher.ts:55-80 | so does the buyer's, from the state of the lock that landed |
| Watcher.BuyerActsIffDue | modules/incoterms-escrow/src/server/dealPolicy.ts:38-47 | where the terms favour the buyer, its watcher asks for a release exactly when the refund is due |
| Watcher.CarefulWatcherIsPaid | modules/incoterms-escrow/src/server/watcher.ts:55-80 | in every run with careful attempts whose lock landed, the buyer's watcher acts exactly when the refund is due, and its call is accepted and pays the whole deposit to the buyer |
| Watcher.StrandedWatcherAsksInVain | modules/incoterms-escrow/src/server/watcher.ts:72-79 | on a stranded deal it asks for a release at every look past the deadline, and each is refused whenever it lands and leaves the deal stranded |
| Watcher.TicksDoNotOverlap | modules/incoterms-escrow/src/server/watcher.ts:35-50 | however the timer fires while a tick awaits, what has been issued is, tick by tick and deal by deal up to the first status that cannot be read, just the calls the policy asks for; at most one call is awaited at a time |
| Watcher.DealWatcher.Tick | modules/incoterms-escrow/src/server/watcher.ts:36-46 | a timer firing starts a tick, or does nothing while one is in progress |
| Watcher.DealWatcher.StatusRead | modules/incoterms-escrow/src/server/watcher.ts:55-73 | a status read leads to the claim or the release the policy asks for, on to the next deal, or to the end of the tick if it threw |
| Watcher.DealWatcher.CallReturned | modules/incoterms-escrow/src/server/watcher.ts:61-80 | a call that came back, in success or failure, leads to the next check |
| PendingActions.OneLockInFlight | modules/incoterms-escrow/src/server/routes.ts:151-168 | in every interleaving a contract has at most one lock that waits for the operator or for the chain |
| PendingActions.NothingGoesTwice | modules/incoterms-escrow/src/server/routes.ts:170-213 | no pending action goes to the chain twice |
| PendingActions.OnlyApprovedGoes | modules/incoterms-escrow/src/server/routes.ts:170-231 | what goes to the chain is what was queued and was never rejected |
| PendingActions.DecidedStays | modules/incoterms-escrow/src/server/db.ts:146-161 | confirmed, rejected and failed actions never change again |
| PendingActions.DismissLeavesNoLock | modules/incoterms-escrow/src/server/routes.ts:266-288 | right after a successful dismiss the offer's contract has no lock that waits for either |
| ActionFates.EndsIff | modules/incoterms-escrow/src/server/routes.ts:170-288 | an action is confirmed or failed exactly if the chain answered so, and rejected exactly if the operator rejected it or dismissed its offer while it waited |
| ActionFates.LastMove | modules/incoterms-escrow/src/server/routes.ts:170-288 | whatever waits no more was moved by the one event for it, and holds the transaction and address that came with it |
| ActionFates.GoesOnApproval | modules/incoterms-escrow/src/server/routes.ts:170-213 | whatever went to the chain the operator approved while it waited |
| ActionFates.OfferFate | modules/incoterms-escrow/src/server/routes.ts:151-168 | an offer is used by the lock queued from it, dismissed by a dismissal that goes through, and moved by nothing else |
| ActionFates.QueuesIff | modules/incoterms-escrow/src/server/routes.ts:138-168 | every proposal is queued, every lock that finds none of its contract in flight is, and nothing else |
| PendingActions.ActionQueue.FindInFlightLock | modules/incoterms-escrow/src/server/db.ts:135-144 | finds the latest lock of a contract that waits for the operator or the chain, or none exactly when there is none |
| PendingActions.ActionQueue.UpdateStatus | modules/incoterms-escrow/src/server/db.ts:146-161 | rewrites one row, keeping transaction and reference unless given new ones |
| PendingActions.ActionQueue.PostProposal | modules/incoterms-escrow/src/server/routes.ts:138-148 | queues a proposal under a placeholder reference |
| PendingActions.ActionQueue.PostLock | modules/incoterms-escrow/src/server/routes.ts:151-168 | refuses while a lock is in flight, otherwise queues one and marks its offer used |
| PendingActions.ActionQueue.PostApprove | modules/incoterms-escrow/src/server/routes.ts:170-178 | answers 404 or 409, or hands out the queued payload once |
| PendingActions.ActionQueue.ChainAnswered | modules/incoterms-escrow/src/server/routes.ts:207-212 | records the outcome; a proposal takes its contract's address |
| PendingActions.ActionQueue.PostReject | modules/incoterms-escrow/src/server/routes.ts:215-231 | rejects only what still awaits approval |
| PendingActions.ActionQueue.PostDismiss | modules/incoterms-escrow/src/server/routes.ts:266-288 | rejects a waiting lock with the offer, and refuses once it is submitted |
| Auth.OneOperator | modules/incoterms-escrow/src/server/auth.ts:103-169 | every session ever given out, across restarts, was signed for by one and the same key over its challenge's nonce, and no challenge gave out two |
| Auth.OperatorStays | modules/incoterms-escrow/src/server/auth.ts:103-120 | once set or blocked, the operator's key never changes |
| Sessions.LoginIff | modules/incoterms-escrow/src/server/auth.ts:123-169 | a login succeeds exactly if its challenge was issued at most two minutes before and is unspent, the wallet signed something that holds its nonce, and the key is the operator's or there is none yet |
| Sessions.ValidIff | modules/incoterms-escrow/src/server/auth.ts:163-190 | a session is valid exactly if it was given out at most eight hours before and neither revoked nor lost in a restart since |
| Sessions.OperatorIs | modules/incoterms-escrow/src/server/auth.ts:140-169 | without a key in the file there is no operator exactly until somebody logs in |
| Auth.SweepsAreInvisible | modules/incoterms-escrow/src/server/auth.ts:171-190 | with a clock that does not run backwards, histories that differ only in sweeps get the same answers |
| Auth.KeyIsReloaded | modules/incoterms-escrow/src/server/auth.ts:108-120 | the registry file names the key it was written with |
| Auth.OtherFilesBlock | modules/incoterms-escrow/src/server/auth.ts:108-169 | with a registry file that parses to anything but null or an object with a text or null for its key, nobody ever gets a session |
| Auth.EmptyObjectBlocks | modules/incoterms-escrow/src/server/auth.ts:108-115 | the file `{}` is one of those |
| Auth.UnsetIff | modules/incoterms-escrow/src/server/auth.ts:108-115 | there is no operator's key exactly if the file is missing, cannot be parsed, or leaves null for it |
| Auth.ReadsPairs | modules/incoterms-escrow/src/server/auth.ts:79-84 | bytes are read pair by pair, behind an optional `0x`, and an odd digit at the end is left out |
| Auth.BytesContains | modules/incoterms-escrow/src/server/auth.ts:86-95 | the nested search finds a needle exactly when it is not empty and occurs |
| Auth.AuthStore.IssueChallenge | modules/incoterms-escrow/src/server/auth.ts:123-129 | stores a challenge for two minutes |
| Auth.AuthStore.VerifyChallenge | modules/incoterms-escrow/src/server/auth.ts:140-169 | gives out a session exactly when the challenge is open, the nonce signed and the key the operator's; the challenge is used up either way |
| Auth.AuthStore.IsSessionValid | modules/incoterms-escrow/src/server/auth.ts:171-179 | answers whether the session is live and forgets an expired one |
| Auth.AuthStore.RevokeSession | modules/incoterms-escrow/src/server/auth.ts:181-183 | forgets one session |
| Auth.AuthStore.SweepExpired | modules/incoterms-escrow/src/server/auth.ts:186-190 | the two loops remove exactly what has expired |
| TrustedPorts.ResolutionsAgree | modules/incoterms-escrow/src/server/portAuthority.ts:32-59 | all resolutions of a domain that ever succeed give the one trusted hash, however they interleave |
| TrustedPorts.NeverOverwritten | modules/incoterms-escrow/src/server/db.ts:214-220 | a trusted hash is never overwritten |
| TrustedPorts.TrustedAsPublished | modules/incoterms-escrow/src/server/portAuthority.ts:23-59 | a domain is trusted only for the 64 hexadecimal digits its first good document published, and since then |
| TrustedPorts.ResolvedIff | modules/incoterms-escrow/src/server/portAuthority.ts:23-59 | a resolution succeeds exactly on a document with such digits for a domain that is new or trusted for just them, and which refusal it gets otherwise |
| TrustedPorts.AnswerIsTrusted | modules/incoterms-escrow/src/server/portAuthority.ts:32-59 | what a resolution answered is what the domain is trusted for, then and later |
| TrustedPorts.LockedTermsAreTrusted | modules/incoterms-escrow/src/server/actions.ts:354-397 | every lock that passes its checks with what a resolution answered carries terms whose key is, as bytes, the one trusted for that domain, and saves that key for the circuit |
| TrustedPorts.RefusedIffChanged | modules/incoterms-escrow/src/server/portAuthority.ts:43-54 | a valid document is refused exactly when the domain is trusted for another hash, whatever the case of its digits |
| TrustedPorts.TrustTable.Conclude | modules/incoterms-escrow/src/server/portAuthority.ts:37-58 | the resolution after its fetch: refuse, or record and answer |
| TrustedPorts.TrustTable.RecordTrustedPort | modules/incoterms-escrow/src/server/db.ts:214-220 | inserts a new domain or refreshes the time of a known one |

## Left out

- Numbers: a JSON number is identified by the text it prints as; the rewriting of other spellings by `JSON.parse` is not modelled.
- `JSON.parse` moves integer-like keys to the front of an object; the parser keeps them in place. Canonical texts and hashes do not depend on it.
- Big integers inside `canonicalJson`, which throw, and `toJSON` methods: no value that reaches it has either.
- Coercion of request bodies by the HTTP framework's schemas other than of `holderDid` (a numeric `documentId` becoming a string at the broker, say), authentication, rate limits and status codes beyond those named.
- Received offers whose `contractAddress` is not a string, or whose signature is not a string: treated as refused; the first would fail later in the database.
- Offer.Inbox.ReceiveOffer: leaves out the receive and update times of a stored offer.
- Policy.EvaluateClaim: candidates are checked one after the other as in the code, but the nodes of a tree are evaluated in order rather than concurrently; the verifier is a function, so the order cannot be seen.
- Revoking.RevocationIsFinal: does not speak of runs with SP1 proofs, where a request admitted before a revocation may settle after it; the same holds of module Restarts. A revocation that a crash leaves unanswered promises nothing.
- Files half written at a crash: a write to the key file or the record file lands whole or not at all.
- The delays and the number of retries of L2's key synchronisation, and the migration of its old revocation file.
- Broker.SnapshotIsCurrent: the order of rows created in the same millisecond is left open, and so is the order among rows when the clock runs backwards.
- Clearance.SettledAtMostOnce: requests are not duplicated by the network on their own; every repetition is a retry of the program or a stranger's request.
- The agent's transaction log, holder signature and `pubKeyHash`: written along the way and read by nobody in the model.
- The transaction log's table and query, and the spreadsheet export.
- EscrowContract.DepositLeavesOnce: the coin tree is the map from places to coins the contract owns; memos on the ledger are opaque bytes and left out of it.
- `resolveMtIndex` and its cache: the place of a coin is a parameter. A wrong place makes a payout fail, never go astray.
- Checks of the formats of identifiers (`did:ublp`, `did:web`) in `proposeDeal`, its defaults for duration and timeout side, and the optional insurance party of the terms.
- Watcher.TicksDoNotOverlap: what the awaited claims and releases do to the ledger is the business of the contract's lemmas, which allow any delay.
- Attempts.RunInv: attempts are at one contract address, whose saved state the others do not touch; the time the buyer claims is a parameter of the landing.
- TrustedPorts: resolving and normalising a `did:web` identifier, and the operator's deletion of a row.
- Auth: failure to write the key file, and type confusion in request bodies.
- Panels, the Odoo module, wallet connectors and deployment scripts: user interface and set-up.
- The EVM connector and the Rust circuit: programs of their own in other languages, which the modelled services reach only through a verdict or not at all.
- The Incoterm policy files: data for the policy evaluator, whose lemmas hold for every tree.
- `simpleAuth.ts` and `evidence/log.ts`: a passphrase check, and pure list helpers that no server of the two workflows calls.
