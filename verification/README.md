# Attachments, sessions and publication in a messenger daemon: a Dafny model

A model of the stateful cores of the messenger: the Double Ratchet session, the lease-counted
ciphertext store, chunked attachment sealing, the crash-safe outbound attachment transaction, the
canonical byte encodings that are signed, and publication windows with the DHT locator. Each core
is modelled as the code does it (same branches, limits and refusals), and the properties its design
rests on are proved for every input, every run or every reachable state.

Check everything with `dafny verify dfyconfig.toml`.

## How the model is built

Pure code is functions on values. Code that works in place is methods and classes, each proved equal
to such a function or to take only steps of a transition system, and the theorems are about those.

| core | what is modelled | where it is proved |
|---|---|---|
| Session | `Ratchet` (values), `RatchetMachine` (the mutable state) | `RatchetReplay` against any sender; `RatchetSchedule`, `RatchetWorld`, `RatchetDelivery`, `RatchetRuns`, `RatchetProtocol` for two honest parties and a hostile network; `RatchetCodec`, `RatchetStorage` for the stored bytes |
| Store | `StoreModel` (the file steps of each call), `StoreMachine` (the loops and the class), `StoreService` (upload, fetch and delete behind signed requests) | `StoreInvariant`, `StoreRefinement`, `StoreAnswers`, `StoreRuns`, `ServiceRuns`, `StoreFaults` |
| Sealing | `Sealing`, `SealingMachine` | `SealingLaws` |
| Emission | `EmitterModel` (every file step), `EmitterCalls` (what each call answers and leaves), `EmitterMachine` (Begin, Append, Commit, restart), `ChunkRecord` | `EmitterInvariant`, `EmitterRuns`, `EmitterCalls`, `EmitterPossible`; `EmissionStored` beside the store |
| Encodings | `Canon` (writer and parser), `CanonReader` (the latching reader), `Grants`, `GrantMachine` | the same files |
| Publication | `Publication`, `Locator` | the same files |
| Client | `AttachmentClient` | the same file: fetching from any service and from an honest one, and sealing, storing, fetching and opening end to end |

Crashes are modelled between file operations: where a call performs several, the model keeps the
disk after each of them. A crash inside an operation is modelled where it leaves something behind
that is read again: in a transaction's directory, and in an object of the store.

A predicate that lemmas mostly pass on to one another is written `var holds := ...; holds`. Dafny
splits a bare conjunction into one obligation a conjunct at every call; named first, it stays one
fact and the proofs stay small.

## What is assumed

- Cryptography is symbolic. Session keys, roots and ciphertexts of the ratchet are terms; a body opens only under the key, header and binding it was sealed with; Diffie-Hellman commutes. The network may drop, repeat, reorder and alter messages and make up ciphertexts of its own, but it cannot seal under a message key of the session: any body it delivers under such a key is one that a party sent (`RatchetDelivery.Deliverable`). `RatchetReplay` does without that assumption.
- A well-formed content digest names its preimage (`Digests`). In `Grants`, where bytes matter, `hash` is any function and only the strings that occur are required not to collide.
- The attachment AEAD is any pair of functions that undo each other and add 16 bytes (`Sealing.Lawful`); its parameters, the filename rule and the media-type rule are parameters. Where a result needs that ciphertexts under different nonces differ it says so (`SealingLaws.NonceBinding`); `SealingLaws.LawsTogether` gives primitives with both laws.
- A signature is identified with the preimage it signs, and a signing key with its public half; in `Grants` and `StoreService` signature checking is any function of key, preimage and signature. The emitter is shown only acknowledgements the storage service has signed (`EmissionStored`). Hex and JSON are taken to be one-to-one.
- A marshalled SHA-256 state names the bytes absorbed; an intent digest and an Event identifier name what they commit to.

## Where code and expectation differ

- `SealNext` refuses a repeated ciphertext digest and `Seal` does not. `SealingLaws.StreamRefinesBatch` proves the two agree exactly when the batch digests are distinct, and `SealingLaws.StreamIsBatch` that they agree on every plaintext when ciphertexts under different nonces differ, since no two chunks share a nonce.
- A transaction begun when the clock reads second zero is written but never read back (`CreatedAtUnix` must not be zero). `EmitterPossible.CreatedInSecondZero` reaches it.
- A crash between the directory Begin makes and its state file leaves a directory no call repairs (`EmitterPossible.DirectoryWithoutState`), and so does a crash inside a write into a directory, which leaves a cut or a temporary file (`EmitterPossible.TornDirectory`, `ChunkRecord.TornRecord`). `EmitterRuns.RunReopens` proves that these and second zero are the only transactions that cannot be read back, `EmitterCalls.BrokenRefuses` that their key and every restart fail from then on. `EmitterMachine.Emitter.Load` says exactly when a restart succeeds.
- A key whose attachment was composed but never queued is lost once its transaction expires: the first Begin after that discards the transaction and is refused (`EmitterCalls.ExpiredAbandons`), and so is every later one (`EmitterCalls.AbandonedRefuses`; `EmitterPossible.AbandonedKey` reaches it). `EmitterCalls.BeginProgresses` says exactly when Begin goes on.
- An upload paused beyond the staging grace loses its staged objects to a collection, and every commit that names one is refused until it is stored again (`StoreFaults.PausedUpload`); but the emitter never goes back behind its recorded progress (`EmitterRuns.ProgressGrows`).
- A crash inside a put leaves an object that does not hash to its name. From then on nothing is stored or collected any more, though every lease is still served (`StoreFaults.CutPutForever`).
- The locator is capped at a day from the start of its bucket. A policy whose half-lifetime exceeds a day therefore has, under a valid delegation and a generation of prekeys of bounded life, seconds at which nothing can be published (`Publication.PublishesExactly`, `Publication.NeverRefusedExactly`), and what is published lasts until the next publication exactly when half the lifetime plus the interval is at most a day (`Publication.CoverageExactly`).
- Fetching in batches of sixteen is not one fetch: a digest repeated in two batches is fetched twice, while one fetch of the list refuses it. `AttachmentClient.BatchedIsSingle` gives the exact condition and `AttachmentClient.RepeatAcrossBatches` a list.
- The skipped-key bound is what can refuse an honest message, and nothing else: `RatchetDelivery.Delivery` is an equivalence.

## Model

| member | source | states |
|---|---|---|
| `RatchetProtocol.HandshakeAgrees` | pkg/e2ee/default_suite.go:74-157 | initiator and responder derive the same root, the initiator's sending chain is the responder's receiving chain, and each holds the other's ratchet public key |
| `RatchetMachine.RatchetState.SkipTo` | pkg/e2ee/default_suite.go:481-499 | the in-place loop sets aside exactly the keys of the specification, or refuses past the bound |
| `RatchetMachine.RatchetState.TakeSkipped` | pkg/e2ee/default_suite.go:501-509 | removes and returns the one key with this identity, and nothing else |
| `RatchetMachine.RatchetState.HasSeen` | pkg/e2ee/default_suite.go:511-518 | true exactly for a remembered digest |
| `RatchetMachine.RatchetState.Remember` | pkg/e2ee/default_suite.go:520-527 | appends, dropping the oldest beyond 1024 |
| `RatchetMachine.RatchetState.AdvanceSending` | pkg/e2ee/default_suite.go:260-285 | the sending turn: new key, new root, counters reset, previous length kept |
| `RatchetMachine.RatchetState.AdvanceReceiving` | pkg/e2ee/default_suite.go:287-312 | the receiving turn, refused for a low-order key |
| `RatchetMachine.SealMessage` | pkg/e2ee/default_suite.go:159-191 | the mutating form computes the specified ciphertext and state |
| `RatchetMachine.OpenMessage` | pkg/e2ee/default_suite.go:193-249 | the mutating form computes the specified plaintext and state, or the same refusal |
| `Ratchet.SkipLoopClosed` | pkg/e2ee/default_suite.go:481-499 | skipping to a message adds one key per missed number and moves the chain that far |
| `RatchetReplay.OpenSpends` | pkg/e2ee/default_suite.go:193-249 | a successful open uses a key that was not spent, and spends it |
| `RatchetReplay.SpentForever` | pkg/e2ee/default_suite.go:159-312 | a spent key stays spent under every later seal, open, refusal, reload and eviction |
| `RatchetReplay.AtMostOnce` | pkg/e2ee/default_suite.go:193-249 | no ciphertext opens twice along one receiver's history, whoever sends, even after its digest is evicted |
| `RatchetReplay.KeyOpensOnce` | pkg/e2ee/default_suite.go:193-249 | no two successful opens of a history use one message key |
| `RatchetProtocol.SealOutcome` | pkg/e2ee/default_suite.go:159-191 | sealing succeeds until the 32-bit counter is exhausted, with the scheduled key and header |
| `RatchetDelivery.OpenAuthentic` | pkg/e2ee/default_suite.go:193-249 | whatever the network delivers, what opens was sent by the peer, unaltered, and not opened before |
| `RatchetDelivery.Delivery` | pkg/e2ee/default_suite.go:193-249 | the first delivery opens to its plaintext if and only if the keys to be set aside keep the list within 1024 |
| `RatchetWorld.ChainsInStep` | pkg/e2ee/default_suite.go:260-312 | the two parties are never more than one chain apart |
| `RatchetProtocol.RunInv` | pkg/e2ee/default_suite.go:74-312 | the epoch invariant holds at every point of every run |
| `RatchetProtocol.RunConserves` | pkg/e2ee/default_suite.go:219-232 | each skipped list holds exactly one correct key for every message sent below the high-water mark and not opened, and nothing else |
| `RatchetProtocol.RunDelivers` | pkg/e2ee/default_suite.go:159-312 | in every run, an unopened message opens to its plaintext exactly when the bound allows |
| `RatchetProtocol.RunOpensOnlySent` | pkg/e2ee/default_suite.go:193-249 | in every run, what opens was sent to this party and opens for the first time |
| `RatchetProtocol.KeysUnique` | pkg/e2ee/default_suite.go:159-191 | no two seals of a run, by either party and across chain resets, use one message key |
| `RatchetCodec.StoreLoad` | pkg/e2ee/default_suite.go:529-668 | every state encodes within the bound and decodes to itself with sorted skipped keys, exactly when the decoder's checks hold |
| `RatchetCodec.LoadStore` | pkg/e2ee/default_suite.go:529-668 | accepted bytes re-encode to themselves if and only if they listed the skipped keys in order |
| `RatchetCodec.EncodeState` | pkg/e2ee/default_suite.go:529-573 | the append loops produce the specified bytes |
| `RatchetCodec.DecodeState` | pkg/e2ee/default_suite.go:575-668 | the reading loops accept and return exactly what the specification does |
| `RatchetCodec.HeaderRoundTrip` | pkg/e2ee/default_suite.go:320-339 | header decoding undoes encoding, refusing bodies shorter than a tag |
| `RatchetCodec.HeaderExact` | pkg/e2ee/default_suite.go:320-339 | an accepted ciphertext is exactly its header's encoding and its body |
| `RatchetStorage.Survives` | pkg/e2ee/default_suite.go:529-668 | a loadable state is stored and read back as itself up to the order of skipped keys |
| `RatchetStorage.RunSurvivesStorage` | pkg/e2ee/default_suite.go:529-668 | none of the decoder's checks ever fires on a state of an honest run |
| `StoreMachine.ValidateBatch` | pkg/attachments/store.go:548-569 | accepts exactly the well-formed batches: bounds, hashes, no repeated digest, total |
| `StoreMachine.NewObjectCost` | pkg/attachments/store.go:655-669 | count and bytes of the objects a batch adds, or a conflict |
| `StoreMachine.Usage` | pkg/attachments/store.go:671-691 | total bytes of all objects, refusing any whose content does not hash to its name |
| `StoreMachine.VerifyLeaseObjects` | pkg/attachments/store.go:641-653 | every chunk present and hash-correct, and the lengths sum exactly |
| `StoreMachine.Store.PutObjects` | pkg/attachments/store.go:208-236 | writes exactly the steps of the specification, or refuses before the first |
| `StoreMachine.Store.CommitOpaque` | pkg/attachments/store.go:238-281 | publishes the lease only over verified objects, idempotently, within quota: result and every disk on the way |
| `StoreMachine.Store.FetchOpaque` | pkg/attachments/store.go:311-358 | returns the asked chunks at their manifest positions, or the specified refusal |
| `StoreMachine.Store.Delete` | pkg/attachments/store.go:379-398 | removes one lease and answers exactly whether it was there, or refuses a malformed name |
| `StoreMachine.Store.Collect` | pkg/attachments/store.go:406-495 | removes all expired leases before the first object, and only unreferenced objects past the grace; reports exactly how many of each and how many bytes |
| `StoreMachine.Store.ClaimAccess` | pkg/attachments/access_replay.go:39-118 | purges expired claims, then files this one, unless the ledger is full or holds it |
| `StoreMachine.Store.AdvanceClock` | pkg/attachments/access_replay.go:120-144 | persists a later watermark, refuses an earlier time |
| `StoreMachine.Store.Authorize` | pkg/attachments/remote_auth.go:421-437 | window check, then watermark, then purge and claim, recorded step by step |
| `StoreInvariant.AfterKeeps` | pkg/attachments/store.go:208-281 | after every single file operation of every call each lease names present, hash-correct objects and every quota holds |
| `StoreInvariant.CollectKeeps` | pkg/attachments/store.go:466-483 | a collection cut anywhere leaves no lease without its objects |
| `StoreInvariant.ClaimAfterKeeps` | pkg/attachments/access_replay.go:39-118 | the ledger never holds more than its maximum, at any step |
| `StoreRefinement.FetchRefines` | pkg/attachments/store.go:311-358 | fetching from the deduplicated store answers as if each manifest held its own copies |
| `StoreRefinement.AfterRefines` | pkg/attachments/store.go:208-495 | every step of every call is a step, or no step, of that private-copies map |
| `StoreRefinement.CollectInvisible` | pkg/attachments/store.go:406-495 | a collection at time t, cut anywhere, changes no fetch answer at any time from t on |
| `StoreAnswers.AnswersRefine` | pkg/attachments/store.go:238-398 | CommitOpaque and Delete answer as functions of the private-copies map and of which contents are uploaded, every refusal included |
| `StoreAnswers.CollectionConserves` | pkg/attachments/store.go:466-483 | the bytes a collection reports are exactly the bytes it frees |
| `StoreRuns.RunInv` | pkg/attachments/store.go:208-495 | the step-wise invariant over every run with crashes |
| `StoreRuns.RunRefines` | pkg/attachments/store.go:208-495 | over every run, each fetch answers as the private-copies map stepped by the calls alone does |
| `StoreAnswers.RunAnswers` | pkg/attachments/store.go:238-398 | over every run, each commit and delete answers from that map and the uploaded contents |
| `StoreRuns.KeepsLease` | pkg/attachments/store.go:379-495 | a move takes a lease away if and only if it deletes it or collects it at or after its expiry |
| `StoreRuns.Durable` | pkg/attachments/store.go:238-358 | once a commit succeeds, a fetch of the manifest returns the exact ciphertexts in place at every later point before expiry, unless the lease is deleted |
| `StoreRuns.ClaimedRefused` | pkg/attachments/remote_auth.go:251-254 | a request on file, or past the watermark, is refused at any clock reading |
| `StoreRuns.AuthorizedOnce` | pkg/attachments/access_replay.go:39-144 | across restarts, purges and clock movement no access request, and no other under its grant, nonce and expiry, is authorised twice |
| `StoreService.Upload` | pkg/attachments/remote_auth.go:362-385 | the answer and the disk left are exactly those of verifying body, grant and request, claiming, putting and committing in that order, stopping at the first refusal; every disk on the way is sound |
| `StoreService.UploadMeans` | pkg/attachments/remote_auth.go:362-385 | an acknowledged upload left the lease stored and its whole manifest fetchable byte for byte until expiry, and says truly whether it is fresh; any other answer changed no lease, and an unauthorised one no object |
| `StoreService.FetchLease` | pkg/attachments/remote_auth.go:387-403 | exactly: body, grant and request verified, request claimed, fetch, and a refusal when the retention is not the granted one |
| `StoreService.DeleteLease` | pkg/attachments/remote_auth.go:405-419 | exactly: grant and request verified, request claimed, then the lease gone and whether it was there |
| `ServiceRuns.AdmittedInForm` | pkg/attachments/remote_auth.go:421-437 | the ledger and the store find every verified request and lease in form |
| `ServiceRuns.AdmittedBatch` | pkg/attachments/remote_auth.go:362-372 | a verified upload is always a well-formed batch to the store |
| `ServiceRuns.OneCallPerSignature` | pkg/attachments/remote_auth.go:60-62 | one capability signature drives at most one call in the life of the store: every call verified under it is of one operation on one object list under one grant, and after one was authorised all are refused |
| `ServiceRuns.UploadedThenFetched` | pkg/attachments/remote_auth.go:362-403 | after an acknowledged upload, whatever calls come between, every later authorised fetch before the expiry returns exactly the granted ciphertexts, unless the lease was deleted or collected after its expiry |
| `StoreFaults.PausedUpload` | pkg/attachments/store.go:430-483 | a staged object past its grace is gone after a collection, and until it is stored again every commit of a lease that names it is refused |
| `StoreFaults.CutPutServes` | pkg/attachments/store.go:693-714 | a put cut inside its write leaves every fetch answer as it was |
| `StoreFaults.CutPutForever` | pkg/attachments/store.go:671-691 | but no object is stored or collected at any later point of any continuation |
| `Sealing.PieceLength` | pkg/attachments/attachments.go:410-416 | every chunk index starts inside the plaintext, so the expected length never underflows and is the piece's own |
| `SealingMachine.Seal` | pkg/attachments/attachments.go:93-155 | the batch loop; its closing check never refuses what its opening checks accept |
| `SealingMachine.OpenAttachment` | pkg/attachments/attachments.go:160-214 | the opening loop computes the specified result |
| `SealingMachine.SealState.Validate` | pkg/attachments/stream.go:148-175 | accepts exactly the valid partial or complete states |
| `SealingMachine.SealState.Next` | pkg/attachments/stream.go:69-109 | seals exactly the next piece, and changes nothing when it refuses |
| `SealingMachine.SealState.MakeReference` | pkg/attachments/stream.go:113-129 | a reference for complete, valid states only |
| `SealingMachine.SealState.Clear` | pkg/attachments/stream.go:136-146 | a cleared state is never valid again |
| `SealingLaws.SealThenOpen` | pkg/attachments/attachments.go:93-214 | whatever Seal accepts opens to itself under a permitting policy |
| `SealingLaws.SealedOpens` | pkg/attachments/attachments.go:160-214 | at every chunk size: the reference is valid exactly within the chunk limit, and Open inverts sealing |
| `SealingLaws.OpenExactly` | pkg/attachments/attachments.go:160-214 | for a sealed reference and any chunk list, Open succeeds exactly on the sealed chunks in order, with the same plaintext |
| `SealingLaws.NoncesDistinct` | pkg/attachments/attachments.go:393-398 | no two chunks of an attachment share a nonce |
| `SealingLaws.FeedExact` | pkg/attachments/stream.go:69-109 | which pieces a stream accepts, stated on the pieces alone, and the chunks it yields |
| `SealingLaws.StreamRefinesBatch` | pkg/attachments/stream.go:69-129 | feeding a plaintext piecewise gives the batch chunks and reference if and only if the batch digests are distinct |
| `SealingLaws.SealedDistinct` | pkg/attachments/attachments.go:393-398 | when ciphertexts under different nonces differ, no two chunks of any attachment share a digest |
| `SealingLaws.StreamIsBatch` | pkg/attachments/stream.go:69-129 | then streaming any plaintext is accepted and gives exactly the batch chunks and reference |
| `SealingLaws.StreamOnlyBatch` | pkg/attachments/stream.go:69-129 | any finished stream is the batch form of the concatenated pieces, and Open gives that back |
| `SealingLaws.SealedBytes` | pkg/attachments/stream.go:177-179 | sealed lengths sum to the plaintext plus one tag a chunk |
| `SealingLaws.GrantedTotalMeetsStore` | pkg/attachmentops/emitter.go:413 | the emitter's granted total meets the store's exact-sum check, and the chunks are an admissible batch |
| `ChunkRecord.RecordRoundTrip` | pkg/attachmentops/emitter.go:913-930 | decoding a chunk file undoes encoding it exactly for records with a bounded hash state and at least a tag |
| `ChunkRecord.RecordExact` | pkg/attachmentops/emitter.go:913-930 | an accepted chunk file is exactly the encoding of its parts |
| `ChunkRecord.TornRecord` | pkg/attachmentops/emitter.go:913-930 | a chunk file cut short does not decode, or decodes to a shorter ciphertext, which the length check refuses |
| `EmitterMachine.Emitter.Begin` | pkg/attachmentops/emitter.go:146-219 | the answer, the world and the index left are exactly those of the specified call, on every branch; Complete only for a composed, acknowledged and queued Event |
| `EmitterMachine.Emitter.LookupQueued` | pkg/dispatch/dispatch.go:534-556 | answers the composed Event exactly when it is of this intent and queued; a composition alone is never completion |
| `EmitterMachine.Emitter.Create` | pkg/attachmentops/emitter.go:208-218 | directory, then state file; the directory goes again when the state cannot be written |
| `EmitterMachine.Emitter.Append` | pkg/attachmentops/emitter.go:224-267 | the answer and world left are exactly those of the specified call: both file operations and one more piece, or a refusal and none |
| `EmitterMachine.Emitter.Commit` | pkg/attachmentops/emitter.go:272-372 | the answer, world and index left are exactly those of the specified call, given the service's reply; Complete only for a queued, acknowledged Event |
| `EmitterMachine.Emitter.Prepare` | pkg/attachmentops/emitter.go:374-440 | saves exactly the two grants of the one lease, and the prepared transaction reads back as itself |
| `EmitterMachine.Emitter.ComposeEvent` | pkg/dispatch/dispatch.go:563-606 | the first composition wins: exactly which compositions Commit goes on with, and what it then answers |
| `EmitterMachine.Emitter.QueueEvent` | pkg/dispatch/dispatch.go:611-614 | queues exactly the composed Event, after a verified acknowledgement |
| `EmitterMachine.Emitter.ReadTransaction` | pkg/attachmentops/emitter.go:523-615 | returns exactly the reconciled, validated transaction, which then reads back as itself |
| `EmitterMachine.Emitter.Load` | pkg/attachmentops/emitter.go:492-521 | a restart succeeds if and only if every directory has a state file from a nonzero second and nothing torn, and no two share an upload identifier; it then indexes each by its own |
| `EmitterMachine.Emitter.Destroy` | pkg/attachmentops/emitter.go:745-756 | removes one transaction and its index entry |
| `EmitterMachine.CheckTransaction` | pkg/attachmentops/emitter.go:617-688 | the validation decides the specified validity: header, intent, chunk files, hash state, upload progress, locator and both persisted grants |
| `EmitterMachine.CheckGrant` | pkg/attachmentops/emitter.go:671-685 | accepts exactly a grant of the endpoint to the storage key, in form, inside its window at the creation time, of the one scope and for the capability's own key |
| `EmitterMachine.VerifyAck` | pkg/attachmentapi/client.go:374-395 | accepts exactly acknowledgements of the granted lease, chunk by chunk |
| `EmitterCalls.BeginCompletes` | pkg/attachmentops/emitter.go:146-219 | Begin reports completion if and only if the composition under its intent is queued and no live or unreadable transaction is on file |
| `EmitterCalls.BeginProgresses` | pkg/attachmentops/emitter.go:146-219 | Begin answers with a transaction if and only if the one on file is legible, of this intent and unexpired, or nothing is composed, nothing but an expired one of this intent is on file, and a new one can be written |
| `EmitterCalls.AppendAccepts` | pkg/attachmentops/emitter.go:224-267 | Append succeeds if and only if the transaction is readable, unprepared and of this identifier, the index is the number of pieces so far, and the piece has the wanted length and a new ciphertext |
| `EmitterCalls.CommitCompletes` | pkg/attachmentops/emitter.go:272-372 | Commit completes if and only if the transaction is readable, unexpired and finished with its declared digest, its keys can be granted, no other kind of composition holds the key, and the service acknowledged the granted lease |
| `EmitterCalls.BeginBroken` | pkg/attachmentops/emitter.go:146-219 | Begin refuses every request while its directory is torn, has no state file or one of second zero, and changes nothing |
| `EmitterCalls.BrokenRefuses` | pkg/attachmentops/emitter.go:492-521 | from such a directory on, at every later point of the run, every Begin of its key is refused and no restart succeeds |
| `EmitterCalls.ExpiredAbandons` | pkg/attachmentops/emitter.go:161-184 | the first Begin after the expiry of a composed, unqueued transaction is refused and leaves its key abandoned |
| `EmitterCalls.AbandonedRefuses` | pkg/attachmentops/emitter.go:174-184 | from then on, at every later point of the run, every Begin of that key is refused and its Event is not queued |
| `EmitterRuns.StepKeeps` | pkg/attachmentops/emitter.go:146-372 | every single file step keeps the emission invariant |
| `EmitterRuns.NeverSubstituted` | pkg/attachmentops/emitter.go:316-328 | no run reaches the branch that reports another composition |
| `EmitterRuns.CompleteIsQueuedAndStored` | pkg/attachmentops/emitter.go:146-372 | in every run Complete is reported only for queued Events, and attachment Events are queued only after a verified acknowledgement of their own manifest, chunks and bytes, retained until the Event expires |
| `EmitterRuns.OneEventPerKey` | pkg/dispatch/dispatch.go:563-614 | one idempotency key never yields two Events, reported or queued, at any two times |
| `EmitterRuns.QueuedOpens` | pkg/attachmentops/emitter.go:272-372 | a queued Event's reference opens, from its chunks and no others, to one plaintext with the declared digest |
| `EmitterPossible.EmissionHappens` | pkg/attachmentops/emitter.go:146-372 | every transaction Begin can write, of any number of chunks, fed pieces of the wanted lengths with distinct ciphertexts and the declared digest, has a run that records every upload but the last, queues its Event, discards the transaction and reports completion, so the safety results are not about idle runs |
| `EmitterPossible.EmissionOfPlaintext` | pkg/attachmentops/emitter.go:146-372 | so, when ciphertexts under different nonces differ, does every plaintext of the declared length and digest |
| `EmitterPossible.DirectoryWithoutState` | pkg/attachmentops/emitter.go:208-216 | for every beginnable request a run with a crash after the directory is made reaches a directory without a state file |
| `EmitterPossible.CreatedInSecondZero` | pkg/attachmentops/emitter.go:205-210 | a Begin at second zero reaches a transaction that is never read back |
| `EmitterPossible.TornDirectory` | pkg/attachmentops/emitter.go:838-872 | from every reachable world a crash inside a write reaches a torn directory |
| `EmitterPossible.AbandonedKey` | pkg/attachmentops/emitter.go:161-184 | every request that can be sealed and composed has a run that abandons its key |
| `EmissionStored.JointRunInv` | pkg/attachmentops/emitter.go:146-372 | over every interleaving of emitter steps and store calls, crashes included, each signed lease is stored unless a call took it away |
| `EmissionStored.LostByMove` | pkg/attachments/store.go:379-495 | a lease is taken away only by a call that deletes it or collects it at or after its expiry |
| `EmissionStored.QueuedRecoverable` | pkg/attachmentops/emitter.go:272-372 | at every point of every such run, a queued Event's manifest can be fetched from the store as it is and opened to the one plaintext with the declared digest, at every time before the Event expires, unless its lease was taken away |
| `EmitterRuns.Reopens` | pkg/attachmentops/emitter.go:523-688 | a reopen succeeds unless the directory is torn or the creation second was zero, and stands for exactly the pieces sealed so far |
| `EmitterRuns.RunReopens` | pkg/attachmentops/emitter.go:555-645 | so at every point of every run, crashes inside a write included: digests match the stored ciphertexts, the hash state is that of the plaintext so far |
| `EmitterRuns.BrokenForever` | pkg/attachmentops/emitter.go:492-615 | no step of any run repairs a torn directory or one without a readable state file |
| `EmitterRuns.AbandonedForever` | pkg/dispatch/dispatch.go:534-614 | no step of any run takes an abandoned key up again |
| `EmitterRuns.ProgressGrows` | pkg/attachmentops/emitter.go:337-362 | while a transaction lasts its recorded upload progress never goes back |
| `EmitterRuns.AppendAtomic` | pkg/attachmentops/emitter.go:224-267 | an Append cut after any of its file operations reopens to exactly the transaction before or after it |
| `EmitterRuns.AppendSaves` | pkg/attachmentops/emitter.go:612-614 | the state a reconciliation writes is the one Append would have written |
| `Canon.ParseUndoesWrite` | internal/canon/reader.go:24-153 | for every schema of supported fields, nested lists included, reading undoes writing with nothing left over |
| `Canon.ParseIsExact` | internal/canon/reader.go:24-153 | every preimage accepted to the end is exactly what the writer emits for the fields read |
| `Canon.WriteInjective` | internal/canon/canon.go:27-87 | equal preimages carry equal fields |
| `Canon.BoolExactly` | internal/canon/canon.go:71-80 | a single byte the reader accepts is a written boolean if and only if it is 0 or 1 |
| `CanonReader.Reader.constructor` | internal/canon/reader.go:24-32 | starts after the domain, or with the error latched |
| `CanonReader.Reader.Take` | internal/canon/reader.go:43-54 | yields the next bytes, or latches and never moves again |
| `CanonReader.Reader.BlobField` | internal/canon/reader.go:86-102 | a bounded length-prefixed field, or latched |
| `CanonReader.Reader.TextField` | internal/canon/reader.go:105-115 | the same, valid UTF-8 only |
| `CanonReader.Reader.Hash32` | internal/canon/reader.go:119-129 | exactly 32 bytes, or latched |
| `CanonReader.Reader.Count` | internal/canon/reader.go:132-142 | a bounded count, zero once an error is latched |
| `CanonReader.Reader.Done` | internal/canon/reader.go:145-153 | true exactly with no error and nothing unread |
| `CanonReader.Decode` | internal/canon/reader.go:11-16 | a caller that ignores every error until Done still decodes exactly the accepted preimages |
| `GrantMachine.ValidateGrant` | pkg/attachments/remote_auth.go:487-524 | the validation loops decide the declarative validity |
| `GrantMachine.GrantCanonicalBytes` | pkg/attachments/remote_auth.go:180-212 | the append loops build the specified preimage for valid grants only |
| `GrantMachine.AdmitUpload` | pkg/attachments/remote_auth.go:287-323 | accepts exactly chunks at their own granted positions, none twice, within the total |
| `GrantMachine.UploadBody` | pkg/attachments/remote_auth.go:287-323 | the upload body preimage, for admissible uploads only |
| `GrantMachine.FetchBody` | pkg/attachments/remote_auth.go:325-351 | the fetch body preimage, for granted distinct digests only |
| `GrantMachine.VerifyGrant` | pkg/attachments/remote_auth.go:147-178 | accepts exactly a valid grant to this storage operator with three separate keys, inside its window, signed by the endpoint |
| `GrantMachine.VerifyAccessRequest` | pkg/attachments/remote_auth.go:236-264 | accepts exactly a request for this grant, operation and body, inside its own and the grant's window, signed by the capability |
| `GrantMachine.Admit` | pkg/attachments/remote_auth.go:421-436 | body, endpoint, grant and request verified together |
| `Grants.GrantInjective` | pkg/attachments/remote_auth.go:180-212 | valid grants with equal canonical bytes agree on every signed field |
| `Grants.RequestInjective` | pkg/attachments/remote_auth.go:266-285 | likewise access requests |
| `Grants.BodiesNeverCoincide` | pkg/attachments/remote_auth.go:539-543 | upload, fetch and delete bodies never coincide, whatever they name |
| `Grants.BodyInjective` | pkg/attachments/remote_auth.go:287-360 | within an operation the body pins manifest, retention and object list |
| `Grants.SignatureCannotCross` | pkg/attachments/remote_auth.go:236-264 | one signed request matches one operation on one object list under one grant, down to the uploaded bytes, whatever the clock and the keys |
| `AttachmentClient.FetchBatched` | pkg/attachmentapi/client.go:270-308 | the batch loop, against a service that may answer anything at each call, and for every list, gives exactly the specified result |
| `AttachmentClient.CheckReply` | pkg/attachmentapi/client.go:300-304 | accepts exactly the asked digests at their granted positions |
| `AttachmentClient.FetchedNames` | pkg/attachmentapi/client.go:270-308 | a fetch that succeeds has one chunk for each digest asked, naming it at its granted position, whatever the service is |
| `AttachmentClient.HonestFetch` | pkg/attachmentapi/client.go:270-308 | against an honest store that lives on between the calls, for every list and any lease: it succeeds if and only if no batch repeats a digest and each digest, when its batch is asked for, is held and at one place in grant and live lease; and then with exactly the chunks the digests name |
| `AttachmentClient.BatchedIsSingle` | pkg/attachmentapi/client.go:279-306 | under the grant of the lease and an unmoving store it differs from one fetch of the list exactly when the list can be served and repeats a digest across batches |
| `AttachmentClient.RepeatAcrossBatches` | pkg/attachmentapi/client.go:279-306 | seventeen digests at second 50, the last again the first: two batches fetch them, one fetch refuses |
| `AttachmentClient.FetchedAlongRun` | pkg/attachmentapi/client.go:270-308 | a client fetching a committed manifest batch by batch while the store runs on gets exactly the stored ciphertexts, unless the lease is deleted or expires |
| `AttachmentClient.StoredAttachmentOpens` | pkg/attachments/remote_auth.go:362-403 | a sealed attachment whose lease was committed is fetched and opened to its plaintext at any later point of any run |
| `AttachmentClient.FetchedAttachmentOpens` | pkg/attachmentapi/client.go:270-308 | and opens them to the sealed plaintext |
| `AttachmentClient.AnyReplyOpens` | pkg/attachments/attachments.go:160-214 | against any service, what a fetch of the whole manifest returns opens exactly when it is the sealed chunks, and then to the sealed plaintext |
| `Publication.WindowsNested` | pkg/directory/generation_publication.go:88-114 | what is published: locator window inside descriptor window inside generation and delegation, covering the publication time, within policy |
| `Publication.PlanExactly` | pkg/directory/generation_publication.go:88-106 | windows are computed exactly inside the generation and before the delegation ends, and the descriptor always covers the time |
| `Publication.PublishesExactly` | pkg/directory/https_publication.go:151-212 | publication succeeds if and only if publisher and delegation are valid and the time is inside the generation and the delegation and less than a day after the descriptor starts |
| `Publication.NeverRefusedExactly` | pkg/directory/locator.go:285-316 | for all valid delegations and bounded generations, no publication inside both is refused if and only if half the lifetime is at most a day |
| `Publication.SameBucket` | pkg/directory/generation_publication.go:92-114 | publications in one bucket have identical windows |
| `Publication.Coverage` | pkg/directory/generation_publication.go:46-114 | what is published stays unexpired until the next publication is due or the generation or delegation ends |
| `Publication.CoverageFails` | pkg/directory/generation_publication.go:92-114 | otherwise, under a valid delegation and a bounded generation, something is published that expires before the next publication is due |
| `Publication.CoverageExactly` | pkg/directory/generation_publication.go:46-114 | coverage holds for every valid delegation, bounded generation and time if and only if half the lifetime plus the interval is at most a day |
| `Publication.ScheduleCovers` | pkg/directory/generation_publication.go:46-114 | along any publication schedule some publication succeeded and is unexpired at every instant |
| `Locator.EncodedWithin` | pkg/directory/locator.go:147-174 | a valid signed locator always fits, so the size refusal is unreachable |
| `Locator.DecodeEncoded` | pkg/directory/locator.go:147-216 | decoding undoes encoding |
| `Locator.EncodeDecoded` | pkg/directory/locator.go:177-216 | accepted bytes re-encode to exactly themselves |
| `Locator.SigningInjective` | pkg/directory/locator.go:124-144 | the signature pins every field but itself |
| `Locator.EncodeLocator` | pkg/directory/locator.go:147-174 | appends the fields in order and emits the specified bytes, for valid locators only |
| `Locator.DecodeLocator` | pkg/directory/locator.go:177-216 | the cursor walk accepts and returns exactly what the specification does |

## Left out

- Crashes inside a write of the store's lease, claim and clock files: each such write happens or does not.
- Real cryptography, JSON, base64, URL, MIME and regular-expression parsing: terms, one-to-one spellings or predicates given as parameters.
- UploadStream's batch loop: it would repeat the batched fetch; the emitter uploads one chunk a call, which is modelled.
- DeleteBodyDigest and DeleteAck as methods: one field; the delete body is part of `Grants.BodyBytes`, the call is `StoreService.DeleteLease`.
- The signed request that accompanies each fetched batch: the batch loop sees the service's answer, authorised or not; what a request authorises is in `Grants` and `StoreService`.
- The prekey windows that publication also checks: they depend on the bundles published, not on the generation's times.
- StoredAck and DeleteAck canonical bytes: the same printer as grants, with nothing new to prove.
- Aliasing of byte slices and the clearing of secrets in memory, beyond `SealState.Clear`: values have no identity here.
- Store opening, generation files, Put, PutOpaque, Held and MissingDigests: thin wrappers over the modelled calls.
- Journal deliveries after they are queued (attempts, settlement, sweeping), the rest of the dispatcher, and the admission gate.
- HTTP, sockets, DNS, the DHT client, chain adapters, permissions, configuration and command-line programs.
- Descriptor binding beyond its times, inbox policy and report signing: single-branch checks.
- EmitterMachine.Emitter.Commit: a grant is its signer, scope, capability key and lease; the upload request is represented by the service's reply.
