# A verified model of the custody service

The service keeps wallets and transaction proposals. A proposal is built by a chain adapter, approved
by signers, signed once two have approved, and broadcast. Each store operation is atomic; the
service calls are not: `CoSign` and `Broadcast` carry a local copy of the proposal from one store
access to the next and may write that copy back, however old, over whatever is stored.

The project models this in layers, and proves each layer against the one below.

- `Types`, `Amounts`, `Setup`, `Store` (module `StoreSpec`), `Chains`, `Signing`: records, amount texts,
  policy, the store operations as functions of the stored data, payload builders, signer guards.
- `Custody`: the service as a step system. One shared world, any number of in-flight calls, each
  with a program counter and a possibly stale snapshot. The schedule, ids, clocks, keys, cancelled
  contexts, and the refusals of a node are step labels, so a run is any list of steps. What the signer
  and the adapters without a node answer is decided by the payload.
- `Evolution`, `Creations`, `Nonces`, `AuditTrail`: the inductive invariant in four parts, and the
  transitive relation `Evolves` that every step obeys. `Runs`, `Guarantees`: what follows for every
  run. `Finality`, `Losses`, `Absorbing`: what late writes can still change, with the exact conditions.
  `Outcomes`: what a row says about how it ended.
  `Witness`, `WrapAround`: runs from the empty system that show the failures.
- `Calls`, `Sequential`: the calls as functions, run one at a time; the audit log replays to the rows.
  `Answers`, `StoreFacts`: what each call and each store operation answers and leaves, error by error.
  `Interleaving`: such runs are runs of the step system.
- `MemoryStores`: the in-memory store as a class over mutable tables, with what `cloneProposal` is for.
  `Service` (module `Services`): the service object over it, method by method.
- `PostgresRaces`, `PostgresAtomicity`: concurrent database transactions with private uncommitted
  rows, blocking unique indexes, row locks and lost commit acknowledgements; every call is atomic at
  its last statement, with one exception that is pinned down. `PostgresHistory`: every run, read as one
  sequential history, is a run of the store specification. `PostgresStores`, `Conversation`: the
  proposal table with its extra columns, and both store objects driven side by side.
- `Metrics`: the printer of metric keys, with two readers as inverses.

Assumed of the outside: a wallet id made by `ids.New` has not been used for a key record before;
Postgres runs at Read Committed, its unique indexes and `FOR UPDATE` locks make a rival wait, and
nothing deletes rows. Hashes, key-to-address functions and signatures are uninterpreted.

Where the code says less than one may expect, the code is modelled as it is:

- Terminal statuses are absorbing under every interleaving exactly where no node may refuse a signed
  transaction (`Witness.AbsorbsIff`). The Bitcoin adapter and the EVM adapter without a node refuse
  nothing on a live context, and there Broadcast and Failed never change and a signed transaction never
  fails (`Absorbing.TerminalStatusAbsorbs`, `Absorbing.SignedNeverFails`). With a node a late write can turn
  Broadcast into Failed and back (`Witness.TerminalStatusIsNotAbsorbing`); `Finality.FinalIff` and
  `Finality.StatusFinalIff` say exactly when a terminal row, or its status, is final.
- A Failed row can lack an approval that was granted, by the signer's own refusal of a malformed fee
  (`Witness.ApprovalIsLost`); no other row can (`Losses.LostOnlyWhenFailed`), and `Losses.LostIff` says
  exactly which rows may still lose one.
- The EVM nonce counter wraps: handed-out nonces repeat exactly past 2^64 builds
  (`Guarantees.NoncesHandedOut`), and then stored proposals can share one (`WrapAround.NoncesCollide`).
- A Postgres idempotent create whose id and key another call commits meanwhile answers "duplicate"
  where the indivisible operation would return the resource (`PostgresAtomicity.DuplicateIsNotAtomic`);
  every other answer is the indivisible operation's. This is a matter of the store interface: through the
  service two calls never propose the same id, unless `ids.New` returns one twice.
- `metricKey` escapes quotes but not backslashes, so reading its text from the left fails exactly on
  values that end in a backslash (`Metrics.ReadKeyLeftIff`); reading from the right never fails
  for keys without quotes (`Metrics.ReadRendered`). With quotes in keys two metrics can collide, through
  an equals sign in a key (`Metrics.KeysCollide`) or, without any, through a value that ends in a
  backslash (`Metrics.KeysCollideWithoutEquals`).

## Model

| member | source | states |
|---|---|---|
| `Evolution.StepOK` | internal/wallet/service.go:246-370 | every step of every call keeps the invariant tying stale snapshots to rows, approvals and signatures, and moves rows only forward |
| `Creations.CreationStepOK` | internal/wallet/service.go:117-243 | every step keeps wallets tied to key records, proposals to their wallets and payloads, idempotency records to resources |
| `Nonces.LedgerStepOK` | internal/chains/evm/evm.go:82-92 | every step keeps the account of which call or row holds which nonce |
| `AuditTrail.TrailStepOK` | internal/wallet/service.go:372-384 | every step keeps each event backed by the approval or signature it reports |
| `Runs.RunOK` | internal/wallet/service.go:117-370 | all four invariants hold in every reachable state |
| `Runs.QuorumHolds` | internal/wallet/service.go:246-370 | a stored transaction that is not Proposed has approvals of two distinct, named signers, all in the allowlist when that is not empty, despite stale overwrites |
| `Runs.SnapshotsAreBehind` | internal/wallet/service.go:246-370 | a call's copy has the stored identity and, unless the row failed, only approvals the row has |
| `Runs.ApprovedOnce` | internal/store/memory.go:188-215 | once a signer's approval of a transaction is accepted, no later one of the same signer is, even if the row lost it |
| `Runs.StatusMovesForward` | internal/wallet/service.go:246-370 | rank never decreases, identity and payload never change, a Signed row is frozen while Signed |
| `Runs.NothingIsForgotten` | internal/store/memory.go:247-258 | the log is append-only; wallets, idempotency and key records are permanent |
| `Runs.OnePayload` | internal/wallet/service.go:306-335 | all submissions of one transaction, by any calls at any times, carry the same payload |
| `Runs.SubmittedWasMarked` | internal/wallet/service.go:268-335 | what is submitted was stored by a winning MarkTransactionSigned of the same run |
| `Runs.MarkedOnce` | internal/store/memory.go:218-244 | MarkTransactionSigned wins at most once per transaction, whatever signatures callers hold |
| `Runs.ReportedOnce` | internal/wallet/service.go:256-300 | no two events of a run report the same approval or the same signing |
| `Runs.ReportsAreReal` | internal/wallet/service.go:256-300 | every event reporting an approval or a signing, the newest included, reports one that happened |
| `Finality.StepMoves` | internal/wallet/service.go:246-370 | what any step can do to a row and to the calls able to write it: nothing, seal it, or write a copy some call held |
| `Finality.FinalIff` | internal/wallet/service.go:246-370 | a terminal row keeps its value in every continuation if and only if no in-flight call can still write it: none is loaded, submitted, failing, or bound to ask for a signature that is never made |
| `Finality.StatusFinalIff` | internal/wallet/service.go:246-370 | a Broadcast status is final if and only if no call can still fail the row (its adapter may refuse, it is failing, or its payload is unsignable), a Failed status if and only if no call has loaded or submitted it |
| `Absorbing.StatusTells` | internal/signing/demo.go:106-236 | in every reachable state a Failed row is unsignable or its adapter may refuse, and a Signed or Broadcast row is signable |
| `Absorbing.TerminalStatusAbsorbs` | internal/chains/bitcoin/bitcoin.go:80-92 | a terminal row of a chain whose adapter cannot refuse keeps its status in every continuation of every interleaving |
| `Absorbing.SignedNeverFails` | internal/wallet/service.go:306-335 | a signed transaction of such a chain never fails |
| `Outcomes.BroadcastHasHash` | internal/wallet/service.go:319-335 | in every reachable state a Broadcast row is signed and carries the hash of its own signed transaction |
| `Outcomes.FailureHasCause` | internal/wallet/service.go:362-370 | in every reachable state a Failed row's error is a text with which a node refused in that run, or says what the signer could not read or encode of the request |
| `Witness.AbsorbsIff` | internal/chains/evm/evm.go:107-140 | for every deployment with EVM and two allowed signers: all terminal statuses are absorbing if and only if no node may refuse |
| `Witness.TerminalStatusIsNotAbsorbing` | internal/chains/evm/evm.go:107-136 | with a node that may refuse, a run from the empty system on an EVM row in which each terminal status overwrites the other |
| `Losses.LostOnlyWhenFailed` | internal/wallet/service.go:246-370 | a row has exactly the granted approvals unless it is Failed; then it still has two, of at least three granted |
| `Losses.LostIff` | internal/wallet/service.go:246-370 | for every row of every reachable state: a granted approval gets lost in some continuation if and only if one is lost already, a call able to fail the row holds fewer than were granted, or the row is Proposed and enough signers are left to overtake a call that will fail |
| `Losses.LostIffClosed` | internal/wallet/service.go:246-370 | past Proposed the condition is about in-flight calls alone |
| `Witness.ApprovalIsLost` | internal/wallet/service.go:268-281 | a run from the empty system that ends Failed without an approval that was granted, for any three allowed signers: the signer refuses an EVM fee that is no number |
| `Guarantees.KeyInjective` | internal/store/memory.go:350-352 | scope and key are recovered from their join, for NUL-free scopes and any key |
| `Guarantees.CreateWalletResolves` | internal/store/memory.go:62-86 | in reachable states an idempotent wallet create never finds a dangling record, and answers with the asked chain |
| `Guarantees.ProposeResolves` | internal/store/memory.go:125-149 | likewise for proposals: the answer belongs to the wallet asked for |
| `Guarantees.SameKeySameWallet` | internal/wallet/service.go:139-157 | after a key is used, every later use answers with that very wallet |
| `Guarantees.SameKeySameProposal` | internal/wallet/service.go:215-230 | after a key is used, every later use answers with that proposal's current row |
| `Guarantees.WalletHasKey` | internal/signing/demo.go:77-103 | every stored wallet has a signer key of its chain, with that key's address and public key; EVM wallets share a configured key |
| `Guarantees.PolicyAcceptsIff` | internal/wallet/service.go:394-414 | a text passes the amount policy if and only if it denotes a positive number within the cap and, for Bitcoin, within int64 |
| `Guarantees.SignatureIsFaithful` | internal/signing/demo.go:106-236 | any stored signature uses the key of the payload's `from` address and carries the requested destination, nonce, fees, data or inputs, and a positive amount within the cap |
| `Guarantees.SignerRefusesIff` | internal/signing/demo.go:106-236 | at quorum the signer refuses exactly a malformed EVM fee or call data, or a payload that cryptography or the encoder refuses; its quorum, key-material and value refusals are unreachable |
| `Guarantees.NoncesConserved` | internal/chains/evm/evm.go:82-92 | per address, stored plus in-flight plus discarded nonces equal the builds, and the counter is that number modulo 2^64 |
| `Guarantees.NoncesDistinct` | internal/chains/evm/evm.go:198-205 | up to 2^64 builds, stored proposals of one address have distinct nonces, even across wallets |
| `Guarantees.NoncesHandedOut` | internal/chains/evm/evm.go:198-205 | the nonces handed out for an address are 0, 1, 2 and so on modulo 2^64, discarded ones included, and two coincide if and only if there were more than 2^64 |
| `WrapAround.NoncesCollide` | internal/chains/evm/evm.go:198-205 | a run, for every deployment with EVM, in which two stored proposals, under ids such as `ids.New` makes, share address and nonce |
| `Amounts.ParseDenotes` | internal/wallet/service.go:394-414 | a text parses as a number if and only if it is a fitting sign, leading zeros and that number's digits |
| `Sequential.ReplayReconstructs` | internal/wallet/service.go:231-350 | replaying a transaction's events gives its status and approvers, and the events have the one shape its row allows |
| `Sequential.AtMostTwoAndOne` | internal/wallet/service.go:246-350 | at most two CoSigns and one Broadcast succeed, the Broadcast only after both |
| `Sequential.CallSpendsBudget` | internal/wallet/service.go:246-370 | each call leaves a row alone or spends its decreasing budget; terminal rows are absorbing |
| `Interleaving.SequentialIsRun` | internal/wallet/service.go:117-370 | every sequential history is a run of the step system with nothing in flight |
| `Answers.CoSignRefuses` | internal/wallet/service.go:246-257 | each refusal exactly: no signer, not in a non-empty allowlist, no such transaction, not Proposed, approved already; none changes anything |
| `Answers.FirstCoSign` | internal/wallet/service.go:254-302 | a first approval is stored and logged, the row stays Proposed, and the call answers with the stored row |
| `Answers.QuorumCoSign` | internal/wallet/service.go:268-302 | the second approval signs the row, or fails it with the signer's words; rows, events, times and answer stated field by field |
| `Answers.CoSignCancelled` | internal/wallet/service.go:254-302 | however far the context lasts, the approval stays, an answered row is the stored row with all its events, and otherwise the call reports the ended context and stores no more |
| `Answers.BroadcastRefuses` | internal/wallet/service.go:306-317 | each refusal before the adapter exactly: no such transaction, not signed, no adapter |
| `Answers.BroadcastAnswers` | internal/wallet/service.go:318-350 | the row becomes Broadcast with the hash, or Failed with the node's words, and is the call's answer; events and times stated |
| `Answers.BroadcastAnswersStored` | internal/wallet/service.go:332-350 | whatever becomes of the context, an answered row is the stored row with the hash of what was signed |
| `Answers.BroadcastCancelled` | internal/wallet/service.go:318-350 | what is recorded and answered when the context ends after the adapter was asked, or after the row was written |
| `Answers.CreateWalletRefuses` | internal/wallet/service.go:117-120 | a chain is refused as unsupported if and only if it has no adapter |
| `Answers.CreateWalletStores` | internal/wallet/service.go:122-169 | a fresh key, or none, stores exactly one wallet, its key record, its idempotency record and its event, and answers with it |
| `Answers.CreateWalletCancelled` | internal/wallet/service.go:122-169 | a context that ends on the way leaves nothing, then the key record, then the wallet without its event |
| `Answers.CreateWalletReplays` | internal/wallet/service.go:144-157 | from any reachable state on, a used key answers with the wallet it was used for and stores nothing |
| `Answers.CreateWalletAnswersStored` | internal/wallet/service.go:117-169 | an answered wallet is stored, under its id, and of the asked chain |
| `Answers.ProposeRefuses` | internal/wallet/service.go:172-185 | unknown wallets and amounts outside the policy are refused, exactly |
| `Answers.ProposeStores` | internal/wallet/service.go:186-243 | what the adapter builds is what is stored and answered, field by field, with its record and event; a refused build stores nothing |
| `Answers.ProposeCancelled` | internal/wallet/service.go:186-243 | a context that ends on the way leaves nothing, then a spent nonce, then the row without its event |
| `Answers.ProposeReplays` | internal/wallet/service.go:215-230 | from any reachable state on, a used key answers with the current row of the proposal it was used for and stores nothing |
| `Answers.ProposeAnswersStored` | internal/wallet/service.go:172-243 | an answered proposal is the stored row, of the asked wallet |
| `Services.Service.CoSign` | internal/wallet/service.go:246-303 | on the object graph, does and returns what `Calls.CoSign` says, on every early return |
| `Services.Service.Broadcast` | internal/wallet/service.go:306-350 | likewise `Calls.Broadcast` |
| `Services.Service.CreateWallet` | internal/wallet/service.go:117-169 | likewise `Calls.CreateWallet` |
| `Services.Service.ProposeTransaction` | internal/wallet/service.go:172-243 | likewise `Calls.Propose` |
| `Services.Serve` | internal/wallet/service.go:102-370 | any list of calls on a new service leaves the world `Calls.After` describes |
| `StoreFacts.AddApprovalTells` | internal/store/memory.go:188-215 | the three refusals exactly; otherwise one more approval, which dates the row, and nothing else changes |
| `StoreFacts.MarkSignedTells` | internal/store/memory.go:218-244 | wins exactly on a Proposed row; the winner's update time is the latest of the old one and all approvals, or the clock |
| `StoreFacts.UpdateTells` | internal/store/memory.go:170-185 | replaces an existing row by exactly what is passed |
| `StoreFacts.CreateWalletOnceTells` | internal/store/memory.go:62-86 | a used key answers with the wallet its record names; a fresh one stores wallet and record together |
| `StoreFacts.CreateTransactionOnceTells` | internal/store/memory.go:125-149 | likewise for proposals |
| `MemoryStores.CloneProposal` | internal/store/memory.go:323-341 | a copy stands for the same proposal with tables of its own |
| `MemoryStores.MemoryStore.CreateWalletIdempotently` | internal/store/memory.go:62-86 | refines the store specification, error cases included |
| `MemoryStores.MemoryStore.CreateTransactionIdempotently` | internal/store/memory.go:125-149 | refines the store specification; the returned copy shares no table with the store |
| `MemoryStores.MemoryStore.AddApproval` | internal/store/memory.go:188-215 | refines the store specification through the in-place table write, leaving all other rows and copies alone |
| `MemoryStores.MemoryStore.MarkTransactionSigned` | internal/store/memory.go:218-244 | compare-and-set on Proposed; the winner's update time is the latest of the old one and all approvals |
| `MemoryStores.MemoryStore.ListAuditEvents` | internal/store/memory.go:261-285 | exactly the first `limit` entries of the reversed, filtered log, the limit normalised to 100 outside 1..200 |
| `MemoryStores.NewestTells` | internal/store/memory.go:261-285 | the listing position by position: newest first, only the asked resource, at most as many as asked or 100, nothing skipped but what is older than a full listing |
| `MemoryStores.SnapshotsStay` | internal/store/memory.go:107-244 | over any sequence of calls, by any callers with any records, live or cancelled, every copy held before or handed out on the way shares no table with the store and never changes |
| `Chains.EvmAdapter.BuildTransaction` | internal/chains/evm/evm.go:53-104 | the stepwise payload is the one `Build` gives; a refused request takes no nonce |
| `Chains.EvmAcceptsIff` | internal/chains/evm/evm.go:53-104 | an EVM request is built if and only if its fields are usable and its amount text denotes a positive number; the payload is stated field by field, and the address's counter moves by one and no other |
| `Chains.BitcoinAcceptsIff` | internal/chains/bitcoin/bitcoin.go:36-77 | a Bitcoin request is built if and only if its fields are usable and its amount denotes a positive int64; the payload is stated field by field, and no counter moves |
| `Signing.DemoQuorumBackend.SignTransaction` | internal/signing/demo.go:106-157 | what `Sign` says, on a live context; a signature only at quorum and with the wallet's own key |
| `Signing.CallDataIff` | internal/signing/demo.go:208-211 | call data decodes to bytes if and only if the text is their hexadecimal, in either case, with or without the 0x prefix |
| `PostgresRaces.RunKeeps` | internal/store/postgres.go:90-343 | hence every interleaving of any number of calls |
| `PostgresRaces.AllOrNothing` | internal/store/postgres.go:90-215 | a call has committed both its row and its key, or nothing |
| `PostgresRaces.OneCreator` | internal/store/postgres.go:90-215 | of the calls racing on one scope and key at most one commits anything |
| `PostgresRaces.RaceOutcome` | internal/store/postgres.go:431-447 | the zero-value and not-found returns are unreachable; a resource is returned as new exactly by the call that committed; a duplicate answer means somebody else stored a row under the call's id |
| `PostgresRaces.SameWinner` | internal/store/postgres.go:90-215 | every successful caller of one key gets the winner's resource id, wallets down to the last field |
| `PostgresRaces.StatusColumnAgrees` | internal/store/postgres.go:263-343 | in every interleaving the status column equals the status in the document, though AddApproval leaves that column out |
| `PostgresAtomicity.FinishIsAtomic` | internal/store/postgres.go:90-343 | the step that finishes a call does all of its work and returns what the indivisible operation returns; a duplicate answer does so if and only if the key is not committed yet |
| `PostgresAtomicity.Linearizable` | internal/store/postgres.go:90-343 | every finished call of every run took effect in one step of that run, in that sense |
| `PostgresAtomicity.DuplicateIsNotAtomic` | internal/store/postgres.go:103-117 | a run in which a call answers duplicate although the indivisible create would at none of its statements |
| `PostgresHistory.EveryRunIsAStoreRun` | internal/store/postgres.go:90-343 | whatever the interleaving, the database shows what the store specification holds after the operations that took effect, in the order of their commits |
| `PostgresHistory.EveryAnswerIsTheStores` | internal/store/postgres.go:90-343 | every successful call was answered what the store specification answers at the call's place in that history |
| `PostgresAtomicity.WalletCreateAgrees` | internal/store/postgres.go:90-131 | the indivisible create agrees with the in-memory store, key pairs against joined strings |
| `PostgresAtomicity.ProposalCreateAgrees` | internal/store/postgres.go:170-215 | likewise for proposals |
| `PostgresAtomicity.ApproveAgrees` | internal/store/postgres.go:263-302 | the row-locked approval agrees with the in-memory store, refusals included |
| `PostgresAtomicity.MarkAgrees` | internal/store/postgres.go:305-343 | likewise MarkTransactionSigned, stamped with the clock |
| `PostgresStores.PostgresStore.AddApproval` | internal/store/postgres.go:263-302 | never writes the status column, which still equals the document's status |
| `PostgresStores.PostgresStore.MarkTransactionSigned` | internal/store/postgres.go:305-343 | compare-and-set on Proposed, writing column and document together |
| `PostgresStores.PostgresStore.CreateTransactionIdempotently` | internal/store/postgres.go:170-215 | uncontended, refines the store specification under every commit outcome, key pairs against joined keys |
| `Conversation.Converse` | internal/store/postgres.go:153-343 | any list of operations put to a MemoryStore and a PostgresStore gets the same answers and leaves both alike, up to update times |
| `Metrics.MetricKey` | internal/observability/metrics.go:78-95 | whatever order the map yields its keys in, the rendering of the ascending listing |
| `Metrics.LessIff` | internal/observability/metrics.go:87-87 | the order of keys: the first different character decides, and a prefix comes first |
| `Metrics.PrintsAsExposition` | internal/observability/metrics.go:89-94 | the printed form, with its quotes, commas and braces |
| `Metrics.SampleKeySuffixes` | internal/observability/metrics.go:97-103 | the suffix joins the name and leaves the labels alone |
| `Metrics.ReadRendered` | internal/observability/metrics.go:78-95 | name and labels are read back from the key, for all label values, names without an opening brace and keys without quotes |
| `Metrics.RenderInjective` | internal/observability/metrics.go:78-95 | under those conditions two metrics have the same key if and only if they are the same metric |
| `Metrics.ReadKeyLeftIff` | internal/observability/metrics.go:78-95 | for keys without equals signs a left-to-right reader recovers name and labels if and only if no value ends in a backslash |
| `Metrics.RenderInjectiveLeft` | internal/observability/metrics.go:78-95 | keys without equals signs and no value ending in a backslash are a second sufficient condition, whatever quotes the keys hold |
| `Metrics.KeysCollide` | internal/observability/metrics.go:78-95 | with quotes and equals signs in a key, two different label sets share a key, under every name |
| `Metrics.KeysCollideWithoutEquals` | internal/observability/metrics.go:78-95 | so they do without any equals sign, when a value ends in a backslash: the second condition is needed |
| `Metrics.ReadSampleKey` | internal/observability/metrics.go:97-103 | a sample key reads as the suffixed name with the same labels |
| `Metrics.CountAll` | internal/observability/metrics.go:29-33 | after any increments each metric's counter holds the number of its own increments, up to the 2^53 where a float64 stops counting |

## Left out

- HTTP routing, JSON decoding, the API key check, configuration, startup and tracing: plumbing.
- ECDSA, SHA-256, ASN.1, address derivation and transaction encoding: uninterpreted; a signed text is
  modelled as what it encodes, and `DemoQuorumBackend` signing as the outcome of its guards.
- How `HexToAddress` crops or pads a destination text: the signed transaction keeps the text.
- What a node reports when a payload is built (`populateFromRPC`): of a node only its refusals are
  modelled, and payloads are built as if it reported the configured chain, the counter's nonce and no tip.
- Cryptography and the transaction encoder refuse by payload: `Setup.Config.refuses` is left abstract, and so
  is the hash of a submitted transaction.
- The payload and UTXO slices, which `cloneProposal` shares and nothing writes, are values.
- JSON texts: payloads are records. The `type` and `created_at` fields of payloads, audit ids,
  audit metadata and the `Signature` id are not modelled.
- `SaveIdempotency` and `GetIdempotency`: outside the `Store` interface, never called by the service.
- `NewChainRegistry`: the registry is two flags of the configuration.
- Process restart with Postgres: the signer's keys are lost, so its agreement holds within one process.
- SQL text, pgx, migrations, the pool, and Postgres's audit and wallet listing queries.
- JSONB normalisation and timestamp rounding.
- `ObserveDuration` sums and `WritePrometheus` output beyond its keys; the custody counters' call sites.
- Guarantees.KeyInjective: needs NUL-free scopes; all scopes the service makes are NUL-free.
- Guarantees.SameKeySameProposal: the row may have moved on, so it names the current row, not the first one.
- Metrics.RenderInjective: names hold no opening brace and keys no quotes; `Metrics.RenderInjectiveLeft` and
  the two collisions say what happens otherwise.
- Conversation.Converse: acknowledged operations only; a commit that is lost or aborted has no in-memory
  counterpart and is covered method by method in `PostgresStore`.
- PostgresHistory.EveryAnswerIsTheStores: successful calls only; what a refused or failed call was told is
  covered by `PostgresAtomicity.FinishIsAtomic`.
- Services.Service.CoSign: runs alone on the object graph; interleaved calls are the step system's subject.
