# IronLedger: a verified model

IronLedger is a double-entry ledger. Commands post balanced journal entries through an
idempotent pipeline; each commit also writes outbox rows; a relay publishes those rows; projectors
fold the published events into read models; a reconciler compares both with the journal. This
project models those parts in Dafny and proves how they agree over every run.

`dafny verify dfyconfig.toml` checks everything. There are no assumptions inside the proofs; what is
taken for granted about the world is a parameter or an enabling condition:

- identifiers (UUIDs) drawn for a command collide with nothing drawn before;
- clock readings, broker replies and the order of steps are inputs, chosen arbitrarily;
- SHA-256 and JSON printing are functions passed in, injective where a lemma says so;
- PostgreSQL excludes other transactions from an account row taken `FOR UPDATE`, and from a
  `(scope, key)` or account-name index entry, until the end of the transaction; it sees the committed
  state plus its own writes, and a rollback leaves nothing but drawn sequence values; a
  pending insert makes another insert of the same primary key wait, and a committed one makes it
  fail.

## Layout

| file | contents |
|---|---|
| `Sequences`, `Order`, `Amounts`, `Journal`, `Balances` | sequences, checked `i128` amounts, ordered traversal, postings and entries, balance tables and sums over them |
| `Store`, `MemoryLedger` | the store as a value, and the in-memory adapter as a class proved against it |
| `Guard`, `Flow`, `Service` | the pre-check, the transaction flows, `post_entry` for one caller |
| `Invariants`, `Leases`, `Relay` | what every store operation keeps, the lease machine, one relay tick |
| `Projection`, `Replay`, `Coverage` | per-consumer tables, projector and batched replay, the read-model invariant |
| `Reconciler`, `Recovery` | rebuild, snapshots and comparison; reset, replay and reconciliation together |
| `RequestLog`, `System`, `Safety` | what clients see, the interleaved system, its invariant |
| `Theorems`, `Requests`, `Retries`, `RelayRuns` | what holds in every run: books and read models; requests; what a repeated request is told; the relay |
| `CommandProgress`, `TickProgress`, `Races` | commands, account openings and relay ticks that nobody disturbs get through; a run that refuses a retry |
| `Reorder`, `History` | entries added up in another order; the order PostgreSQL reads them in |
| `Startup`, `ReplayProgress` | a replay process running beside the live system; left alone it ends |
| `Transactions`, `TransactionProgress`, `Visibility` | PostgreSQL transactions interleaved statement by statement; that they get through; reading their outbox by cursor |
| `ById`, `IdOrder` | outbox rows in id order against commit order |
| `PgReplay`, `Overtaken` | a replay process beside open transactions, and a run in which it loses an entry |
| `ProjectionTxns`, `ProjectionProgress` | `apply_journal` transactions of several tasks interleaved statement by statement; that they get through |
| `Canonical`, `Money` | request fingerprints; decimal parsing and printing |

`System` is one step machine holding any number of command handlers suspended at their awaits
(lookup, account load, each balance read, commit, re-read), purges, relay ticks that may crash or
lose an acknowledgement at any point, a broker that may deliver any accepted event any number of
times in any order, and consumers that may also replay any outbox row at any time. A step that is
not possible leaves the state alone, so every theorem ranges over all action sequences.

What the machines must never do is matched by what they do when nothing is in the way. Each of them
has a progress theorem from arbitrary states: `CommandPosts`, `AccountOpens` and `TickSettles` for
`System`, `StatementsCommit` for `Transactions`, `StatementsApply` for `ProjectionTxns`, `ReplayEnds` for
`Startup`. Beside other tasks, `PostEndsExactly` and `PutEndsExactly` say what alone ends a transaction early.

## Where the code decides

- `parse_decimal` is documented as truncating the fraction to the scale
  (crates/domain/src/money.rs:26-27); the code refuses excess precision, and so does `ParseDecimal`.
- The in-memory `create` keeps its idempotency record on a name conflict
  (crates/ledger/src/memory.rs:208-220); the PostgreSQL adapter rolls it back
  (crates/storage-postgres/src/store.rs:259-267). The model rolls back.
- The in-memory projection store keeps partial balances after an overflow and does not key them by
  consumer (crates/projector/src/memory.rs:68-75, 114-120); the port asks for one transaction per
  event (crates/projector/src/port.rs:57-59) and PostgreSQL provides it. The model follows the port.
- The guard nets postings per account and asset, the commit checks every running balance:
  `NettingHidesAnOverdraft` shows an entry the guard accepts and the commit refuses,
  `AcceptanceSuffices` says when that cannot happen, `ApplyAllExact` gives the commit's exact rule.
- A guard refusal because the net deltas overflow does not imply that the commit would fail
  (`OverflowRefusalCanBeSpurious`); every other guard refusal does (`RefusalIsJustified`), and
  `AdmissibleIsAccepted` is the exact condition.
- A handler that lost the race for its key may still be refused by its own guard reads, made after
  the winner moved the balance: `RetryRefused` is such a run from the initial state, and
  `LateTwinRefused` gives the exact condition. Agreement is therefore stated for successful answers,
  and errors are shown to have no effect.
- The balance table is the history in commit order. PostgreSQL reads the history by `created_at`
  (crates/storage-postgres/src/history.rs:28-43), which is set before the commit, so the reconciler can
  add the same entries in another order. `RebuildInAnyOrder` says exactly when that succeeds and that it
  then gives the same table; `TurnoverSuffices` and `EveryOrderRebuilds` give the condition that can be
  checked without knowing the order; `ReadOrderCanOverflow` is a reachable ledger whose history, read by
  `created_at` and id, overflows.
- PostgreSQL draws outbox ids before commit, so a replay by cursor can pass a row that is not visible
  yet. `FinishedReplayMisses` says exactly which rows a finished replay has not visited,
  `FinishedReplayCompletes` when there are none, and `ReplayLosesAnEntry` is a run in which there is one
  and the read model differs from the ledger. `FinishedReplayIsComplete` holds where ids are drawn at
  commit, as in the in-memory store. What is lost is lost to that replay only: ids on one account are in
  commit order, so a rebuild in id order adds up in every reachable state (`IdOrderIsSound`).
- `tx.commit()` can fail after the server has committed
  (crates/storage-postgres/src/store.rs:376). A handler then reports an error although its request was
  accepted: `LostReplyStillCounts`. Every other error means that nothing changed
  (`FailedHandlerWroteNothing`), and a retry finds the answer as long as no sweep of old keys has passed the
  record's creation time (`RetryIsReplayed`, `RecentRetryIsReplayed`).
- Replay visits each later event once and in order, for every batch size, exactly when those events stand
  in ascending cursor order (`ReplayComplete`); `OutOfOrderIsSkipped` shows one skipped and one repeated.

## Model

| member | source | states |
|---|---|---|
| Theorems.EffectivelyOnce | crates/storage-postgres/src/projection.rs:30-113 | In every state of every run, each consumer's balances are the sum of postings over exactly the journal events it has processed; once it has processed all of them no cell differs from the ledger. |
| Theorems.ReplayCatchesUp | services/projector-service/src/main.rs:39-59 | In every reachable state a replay of the durable log that meets no overflow brings any consumer into agreement with the ledger, whatever it had processed before. |
| Requests.ConcurrentIdempotency | crates/ledger/src/service.rs:451-514 | For any interleaving of handlers and purges: every reported success is in a log where successes for a key not separated by a purge of it carry the same fingerprint and response, each key is accepted at most once plus once per purge that removed its record, and accepted transactions are exactly the journal, in order. |
| Requests.FailedHandlerWroteNothing | crates/ledger/src/service.rs:451-514 | Over every run: a handler that ended in an error other than a lost reply changed nothing at any of its steps. |
| Requests.LostReplyStillCounts | crates/storage-postgres/src/store.rs:371-377 | A commit whose reply is lost leaves store and request log as if it had been heard. |
| Requests.RetryIsReplayed | crates/ledger/src/service.rs:464-466 | In every reachable state a retry of an accepted request whose record no purge removed gets the recorded response, whether or not its first reply was heard. |
| Retries.DuplicateIsAnswered | crates/ledger/src/service.rs:507-513 | A handler, posting or opening, that finds its key used at the commit changes nothing; when it reads the record again, after any steps of others, it gets the recorded response as a replay, a conflict for another payload, or the report that the record vanished; unless a sweep reached it, the record is the one that won. |
| Retries.LoserRereads | crates/ledger/src/service.rs:507-513 | A write under a key in use leaves store and log as they are and sends its handler to the second look-up. |
| Retries.LookupAnswers | crates/ledger/src/idempotency.rs:111-124 | A look-up answers by the record alone: its response for the same fingerprint and kind, logged as a replay, a conflict for another fingerprint, a decoding error for another kind; without a record the first look-up goes on and the second reports it. |
| Retries.RecentRetryIsReplayed | crates/ledger/src/memory.rs:330-337 | A request accepted at or after every cutoff swept since is still replayed to whoever sends it again, heard or unheard the first time. |
| Retries.StepKeepsRecord | crates/ledger/src/memory.rs:330-337 | A step of the system removes a record iff it is a sweep whose cutoff lies after the record's creation; otherwise the record is unchanged. |
| Requests.WriterEnds | crates/ledger/src/service.rs:507-514 | Over every run: a handler one of whose steps changed the store ends in success or with a lost reply. |
| Requests.OnlyAcceptanceWrites | crates/ledger/src/service.rs:507-514 | The only handler step that changes the store is the one that is logged as accepted for an unused key and ends its handler in a fresh success, unless the reply is lost. |
| Requests.LateTwinRefused | crates/ledger/src/service.rs:558-581 | After its twin committed, a retry of the same request is refused by its own guard read exactly when the account is protected, the request draws on it and the balance does not cover both. |
| Races.RetryRefused | crates/ledger/src/service.rs:451-514 | A run from the initial state in which one request sent twice under one key ends in success for one handler and in InsufficientBalance for the other. |
| CommandProgress.CommandPosts | crates/ledger/src/service.rs:451-514 | In any state, a new command whose deltas fit and whose running balances the store admits, run through all its awaits without interference, stores exactly its commit, answers with its response and is logged as accepted. |
| CommandProgress.AccountOpens | crates/ledger/src/service.rs:108-161 | In any state, opening an account without interference stores account, events and record and answers with the account if no account has that name, and otherwise is a conflict that changes nothing. |
| CommandProgress.NameLost | crates/storage-postgres/src/store.rs:259-267 | An opening that finds its name taken only at the write ends in the conflict and changes nothing. |
| CommandProgress.NamesStayUnique | crates/ledger/src/memory.rs:203-224 | However openings race, no two accounts of a reachable state share a name. |
| Theorems.AuthoritativeIsClean | crates/reconciler/src/reconciler.rs:25-63 | In every reachable state rebuilding the balances from history in commit order does not overflow and gives the balance table exactly. |
| History.RebuildInAnyOrder | crates/storage-postgres/src/history.rs:28-43 | In every reachable state, for any order in which the entries are read: rebuilding succeeds iff no running balance of that order overflows, and then gives the balance table itself. |
| History.AnyOrderWithinTurnover | crates/reconciler/src/reconciler.rs:25-39 | In every reachable state whose cells have a representable turnover, every reading order rebuilds the balance table. |
| Reorder.TurnoverSuffices | crates/reconciler/src/reconciler.rs:25-39 | If in every cell all postings in and all postings out each sum to a representable amount, any order adds up. |
| Reorder.EveryOrderRebuilds | crates/reconciler/src/reconciler.rs:25-39 | For entries that touch each cell at most once, every order adds up iff each cell's turnover is representable. |
| History.ReadOrderCanOverflow | crates/storage-postgres/src/history.rs:28-43 | A reachable ledger that rebuilds in commit order and overflows in the order by created_at and id. |
| Theorems.OutboxMirrorsJournal | crates/ledger/src/memory.rs:48-72 | In every reachable state outbox ids strictly increase, event ids are unique, and the journal events in id order are the committed entries in order. |
| Theorems.MoneyIsConserved | crates/domain/src/flow.rs:8-20 | In every reachable state of the concurrent system each asset sums to zero, no NonNegative account is negative, and the AllowNegative side is at most zero. |
| RelayRuns.PublishedMeansAccepted | crates/event-bus/src/relay.rs:74-107 | With crashes and errors at any point of any number of ticks, a row marked published was accepted by the broker, and the broker holds only outbox events. |
| Requests.SuccessesAreLogged | crates/ledger/src/service.rs:464-514 | In every run, each handler that ended in success has its answer in the request log. |
| Safety.SystemInvariant | crates/ledger/src/service.rs:451-514 | The joint invariant of books, identifiers, request log, relay and projections holds after every action sequence. |
| Safety.DoKeepsInv | crates/ledger/src/service.rs:451-514 | Each single action of the system keeps that invariant. |
| Safety.SubmitKeepsInv | crates/ledger/src/memory.rs:263-282 | A successful commit by one of many handlers keeps it: entries, records, outbox, log and read models move together. |
| Safety.MarkKeepsRelay | crates/event-bus/src/relay.rs:97-106 | Marking a tick's ids published marks only rows whose event the broker has. |
| RequestLog.Agreement | crates/ledger/src/memory.rs:74-81 | Two successes for a key with no purge of it between them agree, and the later one is a replay. |
| RequestLog.OncePerPurge | crates/ledger/src/memory.rs:330-337 | Acceptances of a key equal the purges that removed its record plus one if a record is there. |
| Transactions.Serialisable | crates/storage-postgres/src/store.rs:112-230 | Commits and account openings interleaved statement by statement under row, key and name locks, with purges and relay bookkeeping in between, leave the committed state of the serial run in commit order, every transaction of which succeeds there; only outbox ids and bookkeeping may differ. |
| Transactions.CommitUndisturbs | crates/storage-postgres/src/store.rs:344-378 | A commit elsewhere never invalidates what an open transaction has read or written: no lost update, also for balance rows that did not exist, and no account name taken twice. |
| Transactions.WritesCommute | crates/storage-postgres/src/store.rs:112-230 | Writes under disjoint account locks commute. |
| Transactions.CommitMatchesSerial | crates/storage-postgres/src/store.rs:236-272 | A complete transaction, posting or opening, does to the committed state what the atomic operation does. |
| Transactions.InterleavedBooksAreSound | crates/storage-postgres/src/store.rs:344-378 | The interleaved adapter keeps history, conservation and policy, and its journal events in commit order are the journal. |
| TransactionProgress.StatementsCommit | crates/storage-postgres/src/store.rs:344-378 | From any state, the statements of a transaction nobody blocks, posting or opening, lead to exactly the state of the one-at-a-time store, row ids included, whether it commits, is a duplicate or is refused; it enters the history iff it committed. |
| TransactionProgress.SerialIsReachable | crates/storage-postgres/src/store.rs:344-378 | The converse of serialisability: every history whose transactions succeed in turn is the history of a run and leads to exactly its serial state. |
| TransactionProgress.PostEndsExactly | crates/storage-postgres/src/store.rs:112-230 | Beside other open transactions, a posting that may proceed ends its transaction iff the store refuses it after the transaction's earlier postings. |
| Visibility.LateRows | crates/storage-postgres/src/projection.rs:186-215 | Of the rows that become visible after a state, those whose id the sequence had passed are exactly those an open transaction had drawn. |
| Visibility.SafeExactly | crates/storage-postgres/src/projection.rs:186-215 | A cursor loses nothing in any continuation iff no open transaction has drawn an id at or behind it. |
| Overtaken.EntryHeldBack | crates/storage-postgres/src/store.rs:344-378 | A run of two postings on disjoint accounts after which row 2 is visible while the entry of row 1 is still held back. |
| Overtaken.ReplayLosesAnEntry | services/projector-service/src/main.rs:39-59 | A run in which the replay finishes with a visible journal row unprocessed and the read model different from the ledger. |
| PgReplay.FinishedReplayMisses | crates/storage-postgres/src/projection.rs:186-215 | A replay beside open transactions and live deliveries: when it has finished, a row visible at its last fetch is unvisited iff some fetch carried the cursor past it while an open transaction held it back; what was visited is processed. |
| PgReplay.FinishedReplayCompletes | services/projector-service/src/main.rs:39-59 | It is complete iff no fetch left such a row behind, and then, with no commit since, the read model is the ledger. |
| PgReplay.PgIsReadable | crates/storage-postgres/src/projection.rs:186-215 | In every reachable state of the database the outbox in id order is a log from which a fresh consumer rebuilds the balances. |
| IdOrder.IdOrderIsSound | crates/storage-postgres/src/store.rs:87-110 | In every reachable state row ids and event ids are unique, entries on one account stand in id order, and the outbox read in id order adds up to the balance table without overflow. |
| ById.IdOrderRebuilds | crates/storage-postgres/src/projection.rs:186-215 | Sorting rows by id keeps the table they rebuild, if on each account ids are in commit order. |
| Invariants.AlwaysSound | crates/ledger/src/memory.rs:263-282 | Every state reachable by commits, account openings, purges and relay bookkeeping has sound books and a sound outbox. |
| Invariants.ConservationAndPolicy | crates/domain/src/journal.rs:149-165 | In each of them assets sum to zero, protected rows are non-negative, and AllowNegative balances are the exact negative of the rest. |
| Invariants.CommitAtomic | crates/ledger/src/memory.rs:263-282 | `Committed` iff the key is unused and the postings are admissible; then one entry, one record, its events, and each balance moved by exactly the entry's net delta; any other outcome changes nothing. |
| Invariants.PostingKeepsBooks | crates/ledger/src/memory.rs:83-126 | A balanced entry that applies keeps history refinement, conservation and policy. |
| Invariants.RecordFresh | crates/ledger/src/memory.rs:48-72 | Fresh events are appended in order under consecutive new ids. |
| Invariants.RecordOnce | crates/ledger/src/memory.rs:48-72 | Recording any events: every id is there afterwards and none twice, an event already present is skipped, new rows have consecutive ids, and nothing else changes. |
| Invariants.CreateKeepsSound | crates/storage-postgres/src/store.rs:236-272 | Opening an account keeps books and outbox sound. |
| Store.ApplyAllExact | crates/ledger/src/memory.rs:83-126 | An entry applies iff each posting's account exists, is active, and every running balance fits and respects the policy; then every row moves by the net delta. |
| Store.ApplyAllBlames | crates/ledger/src/memory.rs:83-126 | A refusal names the first posting that is not admitted, by missing account, status, overflow or shortfall in that order, with the balance that posting met. |
| Store.PurgeExact | crates/ledger/src/memory.rs:330-337 | After a purge a key has its record, unchanged, iff it had one created at or after the cutoff; no other table changes. |
| MemoryLedger.InMemoryLedger.RecordEvents | crates/ledger/src/memory.rs:48-72 | The loop appends exactly the events not yet present, with the next ids. |
| MemoryLedger.InMemoryLedger.InsertIdempotency | crates/ledger/src/memory.rs:74-81 | First writer wins; a duplicate leaves the records alone. |
| MemoryLedger.InMemoryLedger.ApplyPostings | crates/ledger/src/memory.rs:83-126 | The in-place loop succeeds with, or fails with the error of, the posting-by-posting specification; a failure leaves the postings before it and at most one new zero row. |
| MemoryLedger.InMemoryLedger.Commit | crates/ledger/src/memory.rs:263-282 | Insert, apply, restore on error, append: the new state and result are those of the atomic specification. |
| MemoryLedger.InMemoryLedger.Create | crates/storage-postgres/src/store.rs:236-272 | Opening an account, all or nothing, with the roll-back on a taken name. |
| MemoryLedger.InMemoryLedger.PurgeCreatedBefore | crates/ledger/src/memory.rs:330-337 | Keeps exactly the records created at or after the cutoff, unchanged, and returns how many went. |
| MemoryLedger.InMemoryLedger.Claim | crates/ledger/src/memory.rs:342-363 | The scan returns and leases exactly the specified rows. |
| MemoryLedger.InMemoryLedger.MarkPublished | crates/ledger/src/memory.rs:365-377 | Marks the unpublished rows with the given ids and counts them. |
| MemoryLedger.InMemoryLedger.MarkFailed | crates/ledger/src/memory.rs:379-387 | One more attempt, the error, and no lease, on the first row with that id. |
| MemoryLedger.InMemoryLedger.Stats | crates/ledger/src/memory.rs:389-414 | Pending plus published is the row count, in-flight and retrying rows are pending ones, and the age is that of the oldest pending row. |
| MemoryLedger.InMemoryLedger.BalanceSnapshot | crates/ledger/src/memory.rs:458-466 | Every row of the balance table once, ordered by account and asset. |
| Leases.ClaimExact | crates/ledger/src/memory.rs:342-363 | `claim` returns claimable rows only, in id order, at most `limit`, passing over one only if `limit` earlier ones were taken; the leased rows are the returned rows. |
| Leases.LeaseExcludes | crates/ledger/src/memory.rs:342-387 | A claimed row is not handed out again in any continuation before its lease ends unless its failure was reported. |
| Leases.PublishedIsFinal | crates/ledger/src/memory.rs:342-377 | A published row keeps its timestamp and is never claimed again, in any run. |
| Leases.RowsPersist | crates/ledger/src/memory.rs:342-387 | No run loses a row, changes its id or event, or unpublishes it. |
| RelayRuns.LeasesComeFromClaims | crates/ledger/src/memory.rs:342-363 | In every reachable state of the system each lease was set by a claim of that run on that row and ends when that claim said. |
| RelayRuns.NoRowStranded | crates/event-bus/src/relay.rs:74-107 | After any run, with crashes anywhere, a tick started once every lease granted in it has ended, asking for as many rows as there are, receives every unpublished row. |
| TickProgress.TickSettles | crates/event-bus/src/relay.rs:74-107 | In any state of the system, a tick taken step by step without interruption settles every row of its batch by the broker's replies, leaves all others alone, sends the broker the batch without the rejected messages, and is over. |
| Relay.Tick | crates/event-bus/src/relay.rs:74-107 | An uninterrupted tick marks exactly its acknowledged rows, gives every other claimed row back with one more attempt, leaves the rest alone, sends the batch in id order, and returns the growth in published rows. |
| Relay.TickLeavesNothingStuck | crates/event-bus/src/relay.rs:85-106 | After a tick each claimed row is published for good or claimable at any time. |
| Relay.PublishBatch | crates/event-bus/src/relay.rs:84-96 | The publishing loop settles the batch row by row and collects the acknowledged ids. |
| Guard.GuardPostings | crates/ledger/src/service.rs:521-584 | Accepts iff net deltas fit, accounts are usable and no protected row goes negative; a refusal is that of the first of these checks that fails and names its least offending account or cell with its figures. |
| Guard.AdmissibleIsAccepted | crates/ledger/src/service.rs:521-584 | An entry the commit would take passes the guard iff its own running net deltas fit. |
| Guard.RefusalIsJustified | crates/ledger/src/service.rs:542-581 | A refusal other than delta overflow means the commit would fail in the same state. |
| Guard.AcceptanceSuffices | crates/ledger/src/service.rs:558-581 | An accepted entry with distinct cells applies exactly when no balance overflows. |
| Guard.NettingHidesAnOverdraft | crates/ledger/src/service.rs:558-581 | With a repeated cell the guard accepts what the commit refuses, and leg order decides. |
| Guard.OverflowRefusalCanBeSpurious | crates/ledger/src/service.rs:522-528 | In a reachable state, a balanced entry the guard refuses for overflow and the commit would take. |
| Service.PostEntry | crates/ledger/src/service.rs:451-514 | Without interference: a used key is answered from its record as a replay, a changed payload conflicts, errors change nothing, a command that builds is refused only with the guard's or the store's reason, and a new command posts iff it builds, its net deltas fit and it is admissible, moving the store by exactly that commit, whose entry, record and answer carry the transaction id, description and time of the command. |
| Service.Build | crates/ledger/src/service.rs:165-377 | A command becomes an entry iff it is well posed and its texts fit; the entry has the given id, key and time, is balanced, carries what was asked and the annotated description; exactly an adjustment adds an audit event. |
| Service.DistinctExactly | crates/ledger/src/service.rs:293-357 | The checks on assets and accounts of trades and adjustments hold iff the entry touches no cell twice. |
| Service.Annotate | crates/ledger/src/service.rs:598-609 | A trimmed, non-empty reference of at most 256 bytes is appended to the description, a longer one is refused. |
| Service.CheckAudit | crates/domain/src/audit.rs:23-49 | An adjustment needs an actor, a reason, and a reason of at most 1024 bytes; which of them is missing decides the error. |
| Service.ByteLengthExact | crates/ledger/src/service.rs:598-609 | The length that limits texts is the number of bytes of their UTF-8 encoding. |
| Service.Prepare | crates/ledger/src/service.rs:471-505 | The commit handed to the store carries the entry and then the extra payloads as its events, under fresh ids, and the matching record. |
| Service.RawPostings | crates/ledger/src/service.rs:171-178 | A submission's legs become postings one for one unless some amount is zero. |
| Journal.ValidateBalanced | crates/domain/src/journal.rs:149-165 | Ok iff at least two postings, every running per-asset sum fits and every asset sums to zero; otherwise the precise error, naming the least unbalanced asset. |
| Journal.AssetTotals | crates/domain/src/journal.rs:134-145 | The exact per-asset sums, or overflow iff some running sum does not fit. |
| Journal.MakeEntry | crates/domain/src/journal.rs:112-131 | An entry is built iff its postings are balanced. |
| Order.TextLtExact | crates/domain/src/journal.rs:156-163 | The order in which assets are compared: at the first difference the smaller character, or the shorter text. |
| Flow.FlowTotal | crates/domain/src/flow.rs:32-43 | Every builder succeeds on exactly the positive amounts up to the largest, and always balances, aliased accounts included. |
| Flow.FlowMoves | crates/domain/src/flow.rs:82-395 | Net effect of every flow cell by cell: giver to receiver and nothing else, base against quote for a trade; suspense accounts stay flat. |
| Flow.IntoEntry | crates/domain/src/flow.rs:82-106 | The entry of a flow, built in place for a mirrored deposit, has exactly the specified postings and is balanced. |
| Flow.RejectionUndoesRequest | crates/domain/src/flow.rs:251-266 | After a committed withdrawal request the matching rejection commits, and every balance is as before. |
| Flow.CompletionSettlesRequest | crates/domain/src/flow.rs:303-358 | A committed request and completion move exactly the amount from available to the hot wallet. |
| Flow.CompletionCommits | crates/domain/src/flow.rs:303-358 | Right after its request a completion commits iff its key is unused and clearing account and hot wallet are usable with room for the amount. |
| Flow.CompletionAdmissible | crates/ledger/src/memory.rs:83-126 | In any state a completion on distinct accounts is admissible iff the locked account covers it and the other two can take it. |
| Projection.ProjectEffect | crates/storage-postgres/src/projection.rs:30-113 | When an event is applied, a duplicate, ignored or refused, what it then adds, and that no other consumer notices. |
| Projection.FeedTwice | crates/projector/src/projector.rs:108-152 | Repeating a completed replay changes nothing and applies nothing. |
| Projection.ResetThenReplay | crates/projector/src/projector.rs:155-158 | Reset and replay give what a fresh consumer would hold and leave every other consumer as it was. |
| Projection.ResetEffect | crates/storage-postgres/src/projection.rs:162-182 | A reset empties the consumer's balances, dedup rows and positions and leaves those of every other consumer. |
| Projection.AddRowsView | crates/storage-postgres/src/projection.rs:55-109 | Row updates keyed by consumer are plain accumulation on that consumer's view. |
| ProjectionTxns.ProjectionSerialisable | crates/storage-postgres/src/projection.rs:30-113 | However the transactions of any number of tasks interleave statement by statement, the tables are those of applying the committed events one after another, and each of them applies then. |
| ProjectionTxns.OverlappingTasksAddOnce | services/projector-service/src/main.rs:39-59 | Live consumer and replay overlapping on one consumer: each event is added once, and the read model stays the sum over exactly the processed events. |
| ProjectionTxns.CommitUndisturbs | crates/storage-postgres/src/projection.rs:55-109 | A commit elsewhere changes nothing an open transaction has read or written, also for rows that were absent. |
| ProjectionProgress.StatementsApply | crates/storage-postgres/src/projection.rs:30-113 | From any tables, the statements of one event nobody blocks lead to exactly what `apply_journal` makes of them, applied, duplicate or overflow; nothing is left open, and the history records the event iff it was applied. |
| ProjectionProgress.SerialIsReachable | crates/storage-postgres/src/projection.rs:30-113 | The converse of serialisability: every list of events that apply in turn is the history of a run with exactly its serial tables. |
| ProjectionProgress.PutEndsExactly | crates/storage-postgres/src/projection.rs:68-109 | Beside other tasks, a write that may proceed ends its transaction iff the sum overflows or the row, absent when read, has been committed since. |
| Replay.ProjectionStore.Apply | crates/storage-postgres/src/projection.rs:30-113 | The dedup row and the balance updates happen together or not at all. |
| Replay.ProjectionStore.Reset | crates/storage-postgres/src/projection.rs:162-182 | Removes exactly the consumer's rows from all three tables. |
| Replay.ProjectionStore.ProjectionSnapshot | crates/storage-postgres/src/history.rs:85-112 | Every row of the consumer's read model once, ordered by account and asset. |
| Replay.Projector.ApplyEvent | crates/projector/src/projector.rs:57-82 | Journal events go to the store, others are ignored. |
| Replay.Projector.ApplySourced | crates/projector/src/projector.rs:85-105 | The position is recorded for applied and duplicate events only. |
| Replay.Projector.ReplayLog | crates/projector/src/projector.rs:108-152 | Terminates on every log and batch size; scanned is applied plus duplicates plus ignored; visits exactly the batches of `Visited`, up to the first failure; with a positive batch size and later events in ascending order that is each of them once, in order. |
| Replay.ReplayComplete | crates/projector/src/projector.rs:108-152 | Replay visits exactly the later events, once each and in order, for every positive batch size iff they stand in ascending cursor order. |
| Replay.AfterShrinks | crates/projector/src/memory.rs:125-138 | Passing an event's cursor leaves strictly fewer events to fetch, whatever the log order. |
| Replay.AfterSplit | crates/projector/src/memory.rs:125-138 | When the later events ascend, continuing after any of them leaves exactly the rest: batches tile the work. |
| Replay.OutOfOrderIsSkipped | crates/projector/src/memory.rs:125-138 | On a log out of order a replay in single steps never visits one event, and one in steps of two visits another twice. |
| Coverage.DeliveryKeepsSound | crates/projector/src/projector.rs:57-82 | Delivering any logged event to any consumer, any number of times, keeps every read model equal to the sum over its processed events. |
| Coverage.CompleteConsumerAgrees | crates/reconciler/src/reconciler.rs:66-85 | A consumer that processed every journal event holds the authoritative balances. |
| Coverage.FreshFeed | crates/projector/src/projector.rs:108-152 | A consumer fed from nothing in log order accumulates exactly the journal, without overflow or duplicates if the journal itself does not overflow. |
| Recovery.Rebuild | crates/projector/src/projector.rs:108-158 | Reset and replay of a log that adds up to the ledger, in memory or PostgreSQL's in id order, always succeeds, for any batch size, applies each entry once, ends with the ledger's balances and touches no other consumer. |
| Startup.FinishedReplayIsComplete | crates/projector/src/projector.rs:108-152 | Where ids are drawn at commit: a batched replay as a process interleaved with commits, relay, live deliveries and purges has, once finished, processed every journal event in the outbox at its last fetch, hence all that were there at its start; with no commit since, the read model is the ledger. |
| Startup.ApplyIsSystemStep | crates/projector/src/projector.rs:108-152 | Each application of that process is one step of the system on some outbox row. |
| ReplayProgress.ReplayEnds | crates/projector/src/projector.rs:108-152 | From any state, a replay process left alone ends after finitely many steps: finished with everything the batched loop visits applied, or broken with the error of that loop. |
| Recovery.SoundIsReadable | crates/ledger/src/memory.rs:48-72 | The outbox of a sound in-memory ledger, as it stands, is such a log. |
| Recovery.ReplayBesideConsumer | services/projector-service/src/main.rs:39-59 | In any run, a consumer that has handled every journal event, by replay or live delivery in any mix, mirrors the ledger. |
| Recovery.ProcessedStays | crates/storage-postgres/src/projection.rs:30-113 | What a consumer has processed stays processed through any run without its reset. |
| Recovery.ReconcileView | crates/reconciler/src/reconciler.rs:41-85 | On a sound ledger, for any listing of any table: reconciliation never overflows, is clean iff that table is the ledger's, and otherwise reports exactly the differing cells with the ledger's figure and the table's. |
| Recovery.ReconcileAuthoritative | crates/reconciler/src/reconciler.rs:41-63 | The snapshot of a sound ledger's own balance table is always clean. |
| Recovery.ReconcileProjection | crates/reconciler/src/reconciler.rs:66-85 | The snapshot of a consumer's read model is clean iff the read model mirrors the ledger. |
| Reconciler.Rebuild | crates/reconciler/src/reconciler.rs:25-39 | The nested loop is the checked sum of all postings in insertion order, or its first overflow. |
| Reconciler.CompareMaps | crates/reconciler/src/reconciler.rs:88-117 | For arbitrary inputs, exactly the differing cells, once each, in ascending order, with both figures. |
| Reconciler.ObservedExact | crates/reconciler/src/reconciler.rs:93-99 | Reading a listing of a table back gives the table, in whatever order it lists the rows. |
| Reconciler.ObservedLast | crates/reconciler/src/reconciler.rs:93-99 | For any snapshot a cell is observed iff some record names it, with the amount of the last one. |
| Reconciler.Reconcile | crates/reconciler/src/reconciler.rs:41-85 | Overflow iff the history overflows; otherwise exactly the cells at which the snapshot differs from the net of the whole history, ascending, with both figures. |
| Canonical.Canonicalize | crates/ledger/src/idempotency.rs:62-76 | The result is sorted at every depth and means the same value. |
| Canonical.SortedUnique | crates/ledger/src/idempotency.rs:62-76 | A value has only one form sorted at every depth. |
| Canonical.CanonicalDecidesMeaning | crates/ledger/src/idempotency.rs:51-60 | Two payloads have the same canonical form iff they mean the same. |
| Canonical.CanonicalIdempotent | crates/ledger/src/idempotency.rs:62-76 | A canonical form is its own canonical form, and the only one. |
| Canonical.ReorderedMeansSame | crates/ledger/src/idempotency.rs:51-56 | For well-formed values: one is a reordering of the other's keys, at any depth, iff both mean the same. |
| Canonical.ReorderKeepsCanonical | crates/ledger/src/idempotency.rs:58-76 | Reordering keys at any depth never changes the canonical form, and every other change does. |
| Canonical.PermutedIsReordered | crates/ledger/src/idempotency.rs:51-56 | Permuting the fields of an object is such a reordering. |
| Canonical.FrameInjective | crates/ledger/src/idempotency.rs:22-30 | Scope, NUL and text are recoverable when the scopes, or the texts, hold no NUL. |
| Canonical.FrameAmbiguous | crates/ledger/src/idempotency.rs:25-28 | With NUL in a scope and in a text two different pairs share a frame; printed JSON, which escapes NUL, never gets there. |
| Canonical.Compute | crates/ledger/src/idempotency.rs:22-30 | The digest is the hash of the frame of the payload's canonical text. |
| Canonical.FingerprintExact | crates/ledger/src/idempotency.rs:18-30 | Fingerprints agree iff scope and meaning agree, whether the scopes or the printed texts are the ones without NUL. |
| Money.ParseDecimal | crates/domain/src/money.rs:28-99 | Ok iff the trimmed text is a signed decimal with at most `scale` fractional digits and magnitude at most i128::MAX; then the exact scaled value, never i128::MIN; otherwise overflow or a format error. |
| Money.Convert | crates/domain/src/money.rs:73-98 | The checked multiplication, padding and sum give the exact value or overflow. |
| Money.PadFraction | crates/domain/src/money.rs:79-82 | The loop pads to the scale and thereby scales the fraction's value. |
| Money.SpelledIsUnique | crates/domain/src/money.rs:33-71 | A valid decimal is the only one its text spells. |
| Money.SpelledRenders | crates/domain/src/money.rs:33-71 | What a text spells renders back to that text. |
| Money.Pow10Fits | crates/domain/src/asset.rs:29-33 | The multiplier of every scale up to 18 fits, so it never overflows. |
| Money.TrailingZeroIsNeutral | crates/domain/src/money.rs:79-82 | A further fractional zero within the scale does not change the value. |
| Money.ParseDisplayed | crates/domain/src/money.rs:28-99 | Round trip: any amount printed at any scale, signed and with white space around it, parses back to that amount; i128::MIN alone is an overflow. |
| Money.NumeralPrinted | crates/domain/src/money.rs:74-89 | Reading the decimal digits of a number, taken by division and remainder, gives the number. |
| Money.DigitsOfNumeral | crates/domain/src/money.rs:74-89 | Printing the value of a digit string at its length gives the string, leading zeros included. |

## Left out

- gRPC, HTTP, protobuf, authentication, command line and service start-up: transport around the modelled core.
- Kafka producer and consumer, dead-letter routing and offset commits: the broker is the list of events it accepted, delivered arbitrarily.
- SQL text, row decoding and migrations; a store call that fails is a step that changes nothing, except for a lost reply to a write.
- A `reset` of a consumer racing with an open `apply_journal` transaction of that consumer.
- SHA-256, JSON printing, UUID generation and the wall clock: parameters, as described above.
- Metrics, tracing, error texts, page clamping, list queries and health checks: easy, branch-local facts.
- Account kind, tracing ids, audit fields, topic and partition keys, timestamps of status changes: carried along by the code and read by nothing modelled here.
- Trimming and length of account names, and validation of asset codes and idempotency keys: in `System` any such refusal is a `Refuse` step.
- `seed_account` beyond the initial accounts: overwriting a policy later breaks the invariants by construction.
- Integer widths of row ids, cursors, attempts and counters (`i64`, `u64`, `u32`) and overflow of lease durations: unbounded in the model; amounts are exact `i128`.
- PostgreSQL `claim` with `SKIP LOCKED` and its strict comparison at the instant a lease ends: the in-memory rule is modelled.
- Full linearizability of `post_entry`: false, as `RetryRefused` shows.
- Liveness under arbitrary schedules (that a relay or replay keeps being scheduled, that no two transactions deadlock), retry back-off and the endless `run` loop: progress is proved for tasks that nothing blocks.
