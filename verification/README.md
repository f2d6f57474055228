# Verified model of the wallet transfer store

This project models the money path of a peer-to-peer wallet service written in Go over PostgreSQL, and proves
what the service says about itself: money moves exactly once, is conserved, never goes negative, and
concurrent transfers do not deadlock. `dafny verify dfyconfig.toml` checks the whole of it.

## How the service is modelled

**The protocol.** `Protocol` is a labelled step relation. A state is the five committed tables and, for each
call, its program point, its transaction (claimed unique key, row locks, uncommitted writes, balances read,
savepoint, row counts of the debit and the credit) and the result its closure has stored. There are four
calls: `Transfer`, `Mint`, `UpsertUser` and `GetOrCreateWallet`. Each statement is one step, so any number of
calls interleave between statements, and any statement may fail, with a code that `inTx` retries or without.
A commit has four outcomes: acknowledged, landed but reported as an error, refused with an error the client
cannot tell from that, and refused with a transient code. A run is a sequence of labels, and every result
below is for all runs.

**The environment** is PostgreSQL at READ COMMITTED: committed rows are visible; row locks conflict as in the
table of section 13.3.2 of the PostgreSQL manual; a unique index makes an insert wait for an uncommitted rival
with the same key and fail once the rival has committed; `now()` is fixed for a transaction; a transient code
means that the transaction did nothing. An `ON CONFLICT DO UPDATE` that finds its row takes the strongest lock
mode on it, because it assigns a uniquely indexed column.

**Wallet ids** are text to the service and values to the server. `Config.parse` is the server's reading of a text
and `Config.canon` the text it prints; several texts may name one wallet. `Lawful` asks only that printing and
reading go together and that an id contains no `|`. Safety is proved for arbitrary request text.

**The layers.** `Invariant` says what each call knows at each program point; `Preservation`, `Landing` and
`CommitStep` prove that every step keeps it. `Bank` is an atomic bank that serves one order at a time, and
`Refinement` proves that every run is one of its sequential runs. `Guarantees`, `Audit`, `Drain`, `Progress`
and `Termination` draw the service's promises from these; `Witness` and `Setup` show which of its design
choices the promises need. `Client` is the Go code as the imperative program it is, run against tables that
others change between any two of its statements; its answers are tied to the same guarantees. `Verdict` says what a
transfer or a mint must answer as a function of the tables it finds; undisturbed (no failure from outside, no other
call live), the client gives exactly that answer, and `Instances` runs any such call to it from any reachable state. `Dating` follows the clock over a run. `Retry` is
`inTx` alone, against an adversary. `Gate` is the check in front of the store. `Ring` and `LogStream` are the
log buffer and its live tail.

## Where the code and its comments differ

The model follows the code.

- The comment at internal/store/transfer.go:34-36 says that ascending id order rules out cycles. The order is taken
  on the request's text (internal/store/transfer.go:114-117) and the locks on the server's rows. Two texts are free of
  deadlock among otherwise orderly transfers if and only if they sort the way the server's own texts of the two
  wallets do (`Setup.OrderlyIsDeadlockFree`); any request that does not can deadlock the shipped code
  (`Setup.SpellingReachesDeadlock`, and `Setup.SampleDeadlocks` for ids read without regard to case).
- The balances map is keyed by the text the server returns and read with the request's text
  (internal/store/transfer.go:124-142). A source wallet in another spelling reads as zero, so an affordable
  transfer is declined (`Instances.SpellingDeclines`). A decided transfer succeeds if and only if the source is spelled
  as the server spells it and holds the amount (`Guarantees.DecisionHoldsAtCommit`).
- The first answer echoes the request's text and a replay prints the server's. They are the same document if and
  only if both ids were spelled as the server spells them (`Guarantees.ReplayIsTheFirstAnswer`); `Instances.SpellingDeclines`
  reaches two that differ.
- The comment at internal/store/transfer.go:182 speaks of FOR UPDATE; the statement above it, rightly, says FOR NO
  KEY UPDATE.
- `CheckInvariants` scans sums into int64. It answers if and only if the total minted fits; when it
  answers, everything holds (`Audit.AuditAlwaysHolds`). `Instances.AuditCanFail` reaches tables where it cannot.
- `Ring.Write` sends after it has released its lock, so a send can meet a channel that a cancel has closed in between
  (`LogStream.SendMayMeetAClosedChannel`). A run is free of that if and only if no viewer leaves while a send to it is
  still to come (`LogStream.CarefulIsExactlySafe`).
- The message at internal/api/handlers.go:138-139 limits a key to 255 characters; the code counts bytes
  (`Gate.BytesNotCharacters`).
- The gate refuses equal wallet texts (internal/api/handlers.go:144-146), the schema equal wallets. Two spellings of one
  wallet pass the gate and end in a CHECK violation, which the handler answers as an internal error
  (`Instances.OneWalletPassesTheGate`). An admitted transfer ends in a CHECK violation only for such a pair, and its 404
  and 422 branches after the store (internal/api/handlers.go:209-215) are never taken (`Gate.AdmittedErrors`).

## Model

| member | source | states |
|---|---|---|
| Text.LessIsIrreflexive | internal/store/transfer.go:114-117 | The order in which wallets are locked is strict |
| Text.LessIsTransitive | internal/store/transfer.go:114-117 | The lock order is transitive, so chains of waits cannot return |
| Text.LessIsTotal | internal/store/transfer.go:114-117 | Any two different ids are ordered, so two transfers agree on which row comes first |
| Text.LessIsByFirstDifference | internal/store/transfer.go:114-117 | The comparison of ids: at the first difference the second goes on or has the greater character |
| Text.DigitsStandForTheNumber | internal/store/store.go:108-111 | The amount's digits read back as the amount |
| Text.FingerprintReads | internal/store/store.go:108-111 | The hashed text in full: v1, the two ids and the signed decimal amount, between bars |
| Text.FingerprintIsInjective | internal/store/store.go:104-111 | Two requests whose ids have no separator have equal fingerprints if and only if source text, destination text and amount are equal |
| Text.SeparatorsInIdsCollide | internal/store/store.go:108-111 | Without that condition on ids, two different requests share a fingerprint |
| Protocol.ConflictsByStrength | internal/store/transfer.go:38-48 | Which row locks conflict: those whose strengths, one to four, add up to five or more |
| Landing.SettleIsSound | internal/store/transfer.go:157-196 | Committing a debit, a credit, their two ledger rows and a succeeded row keeps every table constraint, double entry, and each balance equal to its own history |
| Landing.DeclineIsSound | internal/store/transfer.go:141-155 | Committing a declined row keeps all of that with no ledger row |
| Landing.EndowIsSound | internal/store/wallet.go:97-125 | Committing a mint row with its balance update keeps all of that |
| Landing.NewUserIsSound | internal/store/schema.sql:13-18 | Inserting a user under an unused token keeps all of that |
| Landing.NewWalletIsSound | internal/store/schema.sql:25-33 | Inserting an empty wallet for a user that has none keeps all of that |
| Preservation.LookupReadsTheBalance | internal/store/transfer.go:124-142 | Under both row locks, the Go map lookup yields the committed source balance for canonical text and zero for any other |
| Preservation.LockWalletKeeps | internal/store/transfer.go:113-139 | A row lock keeps the call's invariant: what was read is the committed balance, for this and the earlier lock |
| Preservation.DecideKeeps | internal/store/transfer.go:141-155 | The branch taken is the one the committed balances call for |
| Preservation.DebitKeeps | internal/store/transfer.go:161-163 | The conditional debit matches its row, and what it writes is the committed balance less the amount |
| Preservation.CreditKeeps | internal/store/transfer.go:164-166 | The credit matches its row and writes the committed balance plus the amount, or fails for overflow with nothing kept |
| Preservation.FundKeeps | internal/store/wallet.go:115-122 | A mint's update writes the committed balance plus the amount, or fails with nothing kept |
| Preservation.MoveKeepsApart | internal/store/transfer.go:18-48 | No step of one call gives two live transactions the same key or conflicting row locks |
| Preservation.QuietMoveKeeps | internal/store/transfer.go:75-214 | Every step of every call that does not commit keeps that call's invariant |
| CommitStep.CommitIsSound | internal/store/schema.sql:13-104 | Whatever a call has written when it reaches its commit, the tables after it satisfy every constraint |
| CommitStep.ApplyUndisturbs | internal/store/transfer.go:26-55 | A commit takes no key and changes no row that another live transaction has claimed or locked |
| CommitStep.CommitOutcome | internal/store/transfer.go:209-214 | The answer stored before commit, completion time included, is what the committed row says |
| CommitStep.StepKeeps | internal/store/transfer.go:75-214 | Every step of any call keeps the whole invariant |
| CommitStep.ReachableKeeps | internal/store/transfer.go:62-239 | The invariant holds in every state of every run |
| History.RunRemembers | internal/store/schema.sql:27-49 | Along any run committed rows stay: users, owners and transfers unchanged, ledger and mints extended, finished calls finished as they were |
| Refinement.TransferServed | internal/store/transfer.go:141-214 | Committing a transfer is the atomic bank serving that payment, and the stored answer is the bank's |
| Refinement.MintServed | internal/store/wallet.go:90-130 | Committing a mint, applied or repeated, is the atomic bank serving that gift |
| Refinement.UserServed | internal/store/wallet.go:28-37 | Committing a user upsert is the bank registering that token |
| Refinement.WalletServed | internal/store/wallet.go:47-56 | Committing a wallet upsert is the bank opening that account, with the same created flag |
| Refinement.ReplayServed | internal/store/transfer.go:216-227 | Reading the winner's row is the bank refusing or repeating a used key |
| Refinement.StepServes | internal/store/transfer.go:75-227 | A serving step takes the bank the tables show to the bank they show next, with the answer returned |
| Refinement.StepIsSilent | internal/store/transfer.go:75-207 | Every other step changes no table and gives no answer |
| Refinement.RunLinearizes | internal/store/transfer.go:11-239 | Every run is a sequential run of the bank: same tables, each call served at most once, every answer the bank's |
| Refinement.TraceExtends | internal/store/transfer.go:62-239 | What has been served never changes as a run goes on |
| Refinement.RealTimeOrder | internal/store/transfer.go:62-239 | A call answered before another arrived is served before it |
| Guarantees.CommittedTransfer | internal/store/transfer.go:79-214 | A committed transfer is terminal, was asked by its author's call, which was told so or is uncertain, gives insufficient_funds as its reason exactly when declined, and owns exactly its debit and credit rows, or none if declined |
| Guarantees.OneTransferPerKey | internal/store/schema.sql:56-56 | Each requester and key has at most one committed transfer |
| Guarantees.TransferAnswer | internal/store/transfer.go:209-227 | Every document returned is the table's row, for this call's wallets, amount, key and meaning |
| Guarantees.SameMeaning | internal/store/store.go:104-111 | A stored fingerprint equals a request's if and only if the stored row was written for the same ids and amount, letter by letter |
| Guarantees.OneFreshAnswer | internal/store/transfer.go:79-106 | Among all calls with one key, at most one is told that it did the work |
| Guarantees.ReplayIsTheFirstAnswer | internal/store/transfer.go:209-227 | A replay is the first answer in every field, up to the spelling of the ids, and identical exactly for canonical ids |
| Guarantees.ReplaysAgree | internal/store/transfer.go:216-227 | All replays of a key return one document |
| Guarantees.LoserFindsTheWinner | internal/store/transfer.go:91-101 | Whoever loses the race for a key finds a committed, terminal row; not-found cannot happen |
| Guarantees.ReplayDecides | internal/store/transfer.go:216-227 | A reused key replays the stored document if the request is the same, and is a conflict otherwise |
| Guarantees.ErrorLeavesNothing | internal/store/store.go:169-187 | An error other than an uncertain commit leaves no row, no ledger entry, no key and no lock of the call |
| Guarantees.RunningCallIsInvisible | internal/store/transfer.go:157-207 | However much of its batch has run, an uncommitted call has no effect on any table |
| Guarantees.BackstopsNeverFire | internal/store/transfer.go:175-188 | The debit is never lost, and a CHECK fires only on requests the schema forbids outright |
| Guarantees.LostDebitMovesNothing | internal/store/transfer.go:175-188 | In any state at all, a debit that matches no row ends the call in an error with no table touched, though the credit and the ledger rows have run |
| Guarantees.DecisionHoldsAtCommit | internal/store/transfer.go:113-155 | At commit the status is succeeded if and only if the source is canonical and its committed balance covers the amount |
| Guarantees.AnswersAreFinal | internal/store/transfer.go:91-101 | An answer never changes afterwards, and neither does any committed row: users, owners, transfers, ledger entries and mints stay, and only balances move |
| Guarantees.MintAnswer | internal/store/wallet.go:97-130 | A mint is answered with its wallet's row, and told it was applied if and only if its own row is in the table |
| Guarantees.OneFreshMint | internal/store/wallet.go:74-80 | Of all mints with one key, at most one adds money |
| Guarantees.OneUserPerToken | internal/store/wallet.go:22-37 | All calls with one token are answered with one user |
| Guarantees.OneWalletPerUser | internal/store/wallet.go:39-56 | All calls of one user are answered with one wallet, its owner and its date, and at most one is told it was created |
| Guarantees.SomeoneCreatedIt | internal/store/wallet.go:39-56 | The wallet's creator is a call of the same user, and was told that it created it unless its own commit was uncertain |
| Guarantees.UpsertsTryOnce | internal/store/wallet.go:28-56 | The upserts are tried once, and fail only for the database's own reasons |
| Dating.RowsAreDated | internal/store/transfer.go:86-89 | Over any run, every committed transfer and wallet bears the clock of its author's last begun transaction, answered or not |
| Dating.DocumentsAreDated | internal/store/transfer.go:209-227 | A first answer is dated, and completed, at the clock of its call's last begun transaction; a replay at that of the call that did the work |
| Dating.WalletsAreDated | internal/store/wallet.go:47-56 | A wallet's document is dated by the last transaction its creator began |
| Audit.LedgerNetsToZero | internal/store/schema.sql:73-78 | Double entry makes the whole ledger sum to zero |
| Audit.Conserved | internal/store/transfer.go:300-303 | Balances each explained by their own history add up to the total minted |
| Audit.EveryBalanceIsExplained | internal/store/transfer.go:158-173 | In every reachable state each balance is exactly its mints plus its ledger deltas, and a non-negative int64 |
| Audit.AuditAlwaysHolds | internal/store/transfer.go:308-333 | The audit of any committed state reports that all invariants hold, and fails to answer exactly when more than an int64 was minted |
| Audit.ReportReadsTheTables | internal/store/transfer.go:308-333 | Of any tables, sound or not: no answer exactly when a sum does not fit an int64, and otherwise all hold exactly when balances total what was minted, the ledger nets to zero, no balance is negative and no row is pending |
| Audit.AuditCounts | internal/store/transfer.go:311-324 | The counts of a committed state: every wallet, each transfer succeeded or declined, two ledger rows to each success |
| Audit.OverflowNeedsTooMuchMoney | internal/store/transfer.go:164-166 | A transfer step overflows only if more than an int64 has already been minted |
| Audit.NoTransferOverflows | internal/store/transfer.go:157-173 | While the total minted fits an int64, no transfer of any run fails for overflow |
| Progress.EdgeClimbs | internal/store/transfer.go:32-50 | Every wait, on a key or on a row lock of any call, is for a call further along a fixed order |
| Progress.NoDeadlock | internal/store/transfer.go:32-50 | No chain of waits in any reachable state returns to its start, as long as each request's texts sort the way the server's texts of its wallets do |
| Progress.TidyIsOrderly | internal/store/transfer.go:114-117 | Ids spelled as the server spells them are always in that order |
| Termination.UnblockedGoesOn | internal/store/transfer.go:75-227 | A live call that waits for nobody has an enabled step of its own |
| Termination.SomeCallGoesOn | internal/store/transfer.go:32-50 | While some call is live and requests are orderly, some call can run a statement of its own |
| Termination.StepSpends | internal/store/store.go:144-190 | Every step other than a new call, retries included, lowers a measure |
| Termination.RunsAreBounded | internal/store/store.go:144-190 | Without new calls a run is no longer than a bound known from its first state |
| Termination.EveryCallFinishes | internal/store/transfer.go:32-50 | Any finite set of calls with orderly requests finishes under every scheduler that goes on while something can |
| Drain.TransferCommitEffect | internal/store/transfer.go:141-173 | What a transfer's commit does to one given wallet's balance and to its rows |
| Drain.ExactlyTheFundable | internal/store/transfer.go:141-173 | From balance B, n competing transfers of a give exactly min(n, B / a) successes, the rest declined, and B less what was paid |
| Witness.ForUpdateDeadlocks | internal/store/transfer.go:38-48 | With FOR UPDATE, any two opposite transfers deadlock on their foreign-key locks, sorted or not: each waits for the other and neither can run any statement |
| Witness.OppositeOrdersDeadlock | internal/store/transfer.go:34-36 | With NO KEY UPDATE, any two transfers that lock the same two rows in opposite orders deadlock |
| Witness.UnsortedDeadlocks | internal/store/transfer.go:113-117 | Without the swap of lo and hi, A to B against B to A deadlocks |
| Witness.SpellingDeadlocks | internal/store/transfer.go:113-117 | The shipped section deadlocks two opposite requests whenever their texts both ascend or both descend |
| Setup.ForUpdateReachesDeadlock | internal/store/transfer.go:38-48 | For any two distinct wallets that deadlock is reached from empty tables |
| Setup.UnsortedReachesDeadlock | internal/store/transfer.go:34-36 | For any two distinct wallets the unsorted deadlock is reached from empty tables |
| Setup.SpellingReachesDeadlock | internal/store/transfer.go:113-122 | So is the spelling deadlock, for any two texts that sort otherwise than the server's texts of their wallets |
| Setup.OrderlyIsDeadlockFree | internal/store/transfer.go:113-122 | Two texts can take part in no deadlock among otherwise orderly calls if and only if they sort as the server's texts do |
| Setup.SampleDeadlocks | internal/store/transfer.go:113-122 | A server that reads ids without regard to case is such an environment |
| Retry.OneLastAttempt | internal/store/store.go:151-190 | Any behaviour of the environment settles an inTx call at exactly one attempt |
| Retry.Store.InTx | internal/store/store.go:144-190 | At most one body commits, exactly one on success, none when attempts run out; the captured result is the committed attempt's; codes 40P01 and 40001 are retried and no other, in at most five attempts and four callbacks that name the code before; what ends the call is the last attempt's own error |
| Retry.TransienceIsByCode | internal/store/store.go:136-142 | An attempt is followed by another exactly when its first error has code 40P01 or 40001 |
| Retry.Store.Body | internal/store/transfer.go:75-77 | An attempt's result is never left over from an earlier one |
| Gate.CreateTransfer | internal/api/handlers.go:131-180 | Admission if and only if the body parses and is well formed, both lookups succeed, the source is the caller's and both wallets exist; otherwise exactly the status and the code that say which failed; the request admitted is the body's, field by field, for the user |
| Gate.SpacesByCode | internal/api/handlers.go:135-135 | Which characters count as white space |
| Gate.WidthIsUtf8 | internal/api/handlers.go:138-138 | A character counts as many bytes as its UTF-8 encoding, which reads back |
| Gate.BytesNotCharacters | internal/api/handlers.go:138-140 | A key of 128 two-byte characters is refused, though it is shorter than 255 characters |
| Gate.AdmittedErrors | internal/api/handlers.go:131-240 | A transfer that came in through the API never ends in a missing wallet, equal texts or a missing row; it violates a CHECK only if its two texts name one wallet, and then it gets no document |
| Gate.OwnersAreForEver | internal/store/wallet.go:47-56 | A wallet seen in any earlier state still exists with the same owner |
| Gate.OnlyOwnersPay | internal/api/handlers.go:155-196 | Every transfer committed through the API was requested by the owner of its source, though the check ran earlier on stale reads |
| Gate.PaidAsAsked | internal/api/handlers.go:190-196 | And it is the transfer asked for: requester, key, wallets and amount are those of the body that passed the gate |
| Verdict.StepIsDue | internal/store/transfer.go:75-214 | Whatever statement a call runs next, in any company, it fails, decides or replays only as the tables at that moment call for |
| Verdict.CommittingIsDue | internal/store/transfer.go:141-214 | A transfer ready to commit holds exactly the answer due on the committed tables |
| Verdict.ReadBackIsDue | internal/store/wallet.go:124-130 | A mint's last read yields exactly the answer due: applied or repeated, the wallet's row with the right balance, or no such wallet |
| Verdict.ReplayIsDue | internal/store/transfer.go:216-227 | The comparison with the stored row gives the replay or the conflict that is due |
| Verdict.AloneGoesOn | internal/store/transfer.go:75-214 | A call that runs alone never waits, and changes no table until it commits |
| Verdict.TransientGoesRound | internal/store/store.go:169-189 | A transient failure of a statement or a commit changes no table and begins the next attempt, up to the fifth; any other failure ends the call |
| Verdict.AcceptableIsDecided | internal/store/transfer.go:62-239 | What is due to an acceptable request is a fresh decision on the balances; to a used key, a replay or a conflict |
| Instances.RunsUndisturbed | internal/store/transfer.go:62-239 | From any reachable state with nobody else at work, a transfer or a mint can arrive and run to exactly the answer and the change of tables that are due |
| Instances.RecoversFromTransient | internal/store/store.go:144-190 | Wherever a call is aborted with a transient error before its fifth attempt, it can still run to the answer and the effect that were due |
| Instances.CommitTakesEffect | internal/store/transfer.go:141-214 | A commit changes the tables by exactly what the answer says: two balances, two ledger rows and the row, or only the row, or one mint |
| Instances.SpellingDeclines | internal/store/transfer.go:124-142 | For any second spelling of a wallet that can pay: a reachable decline of what the server's spelling would have moved, and a replay unlike the first answer |
| Instances.SampleDeclines | internal/store/transfer.go:124-142 | A server that reads ids without regard to case is such an environment |
| Instances.OneWalletPassesTheGate | internal/api/handlers.go:144-180 | For any wallet with a second spelling: a run through the gate that ends in a CHECK violation |
| Instances.SampleOneWalletPassesTheGate | internal/api/handlers.go:144-180 | A server that reads ids without regard to case is such an environment |
| Instances.AuditCanFail | internal/store/transfer.go:308-333 | For any two wallets, reachable tables whose total the audit cannot read |
| Client.Session.Transfer | internal/store/transfer.go:62-239 | The imperative call, with others running between any two statements: a document is the committed row for this request, fresh or replayed; an error other than an uncertain commit leaves no trace; undisturbed, the answer is exactly the one due on the tables it found, so an acceptable request is decided on its balances and a used key replayed or refused |
| Client.Session.InTx | internal/store/store.go:151-190 | The loop around the transfer body returns success only with the result of the attempt that committed, and when undisturbed ends in its first attempt with exactly the answer that is due |
| Client.Session.Body | internal/store/transfer.go:75-214 | The closure's variables at its end are the answer the protocol has stored, or its error is the protocol's |
| Client.Session.Claim | internal/store/transfer.go:79-106 | Insert and foreign-key checks, with the lost race signalled by the captured flag |
| Client.Session.CheckReferences | internal/store/transfer.go:38-42 | All foreign-key rows are locked in some order, or the attempt fails |
| Client.Session.LockBoth | internal/store/transfer.go:113-139 | The map filled in the loop is what the two locked reads returned, in the lock order of the texts |
| Client.Session.Settle | internal/store/transfer.go:141-214 | The document is declined, with nothing but the transfer row written, exactly when the map lookup is short of the amount; otherwise it is succeeded, with both balances and both ledger rows written |
| Client.Session.Move | internal/store/transfer.go:157-212 | After the four batch statements the document built from the client's variables is the one the protocol stored, and what awaits commit is exactly the debit, the credit, their ledger rows and the succeeded row |
| Client.Session.ReadWinner | internal/store/transfer.go:216-227 | After a lost race the stored row is found, and compared by fingerprint |
| Client.Session.Mint | internal/store/wallet.go:81-136 | The imperative mint: applied is reported if and only if this call's row is in the table; an error other than an uncertain commit leaves no trace; undisturbed, the answer is exactly the one due on the tables it found: for a wallet that exists and can hold the amount, applied if and only if the key was unused, with the balance that follows |
| Client.Session.MintBody | internal/store/wallet.go:87-130 | A body that reports applied holds its mint row and the raised balance; one that does not has found its key committed and holds no write at all |
| Ring.WrapsToIndex | internal/obs/log.go:123-123 | Under Go's truncating remainder, adding the size and taking it again yields the index of a negative position |
| Ring.SlotsDiffer | internal/obs/log.go:92-97 | Lines less than a buffer length apart never share a slot |
| Ring.Ring.constructor | internal/obs/log.go:76-85 | A new ring retains nothing, and has at least one slot |
| Ring.Ring.Write | internal/obs/log.go:88-111 | The history grows by the line, and each subscriber of that moment is offered it once or drops it |
| Ring.Ring.Store | internal/obs/log.go:92-97 | The locked section keeps the buffer equal to the last lines written |
| Ring.Ring.Snapshot | internal/obs/log.go:114-128 | Exactly the last lines ever written, oldest first: as many as asked for, or all that are kept if none or too many are asked for; every index in range |
| Ring.Ring.Subscribe | internal/obs/log.go:131-135 | A new, empty, open channel joins the subscribers |
| Ring.Ring.Cancel | internal/obs/log.go:137-144 | Closes once, however often it is called, and only its own channel |
| LogStream.Stream | internal/api/server.go:164-207 | The data lines written are the valid snapshot lines and then the lines received before the stream ends |
| LogStream.SignalDecides | internal/api/server.go:191-206 | A line is printed and the stream goes on, a heartbeat leaves it as it is, a closed channel or a disconnected viewer ends it |
| LogStream.ReplayPrintsTheSnapshot | internal/api/server.go:177-182 | The replayed part is the text of the valid retained positions |
| LogStream.StepKeeps | internal/obs/log.go:92-109 | Every step of writer and viewers keeps each viewer's lines increasing and accounted for |
| LogStream.ViewersSeeASubsequence | internal/api/server.go:177-206 | A viewer sees lines in order and none twice, first exactly the valid ones among the last 100 that the ring kept; those between snapshot and subscription are never shown, every later one is shown, queued, about to be sent, or was dropped by a send that met a full channel |
| LogStream.ScreenShowsTheHistory | internal/api/server.go:177-206 | What the handler prints of the snapshot it was given and of the lines it received is the history's text at the shown positions |
| LogStream.CarelessLeavePanics | internal/obs/log.go:137-143 | Leaving while a send is still to come makes that send, enabled at once, meet a closed channel |
| LogStream.CarefulIsExactlySafe | internal/obs/log.go:98-143 | No point of a run has a send on a closed channel done or due, if and only if no viewer left while a send to it was still to come |
| LogStream.SendMayMeetAClosedChannel | internal/obs/log.go:98-109 | A send to a channel closed in between is reachable |

## Left out

- PostgreSQL's internals (row versions, lock queues, the deadlock timer): the environment above is assumed. A lock queue's fairness is not modelled; progress is proved for any choice among enabled steps.
- Overflow and CHECK of an update are evaluated once its row lock is granted.
- Generated ids: a row's id is the number of the call that inserted it, so ids are fresh by construction and the version-4 format is not modelled.
- SHA-256: taken as collision-free, so fingerprints and token hashes are kept as their pre-images.
- The balance in the answer of a repeated mint: it is a plain read that may be older than the commit, so the bank's answer to a repeated gift carries no balance.
- `UpsertUser` and `GetOrCreateWallet` as imperative client methods: each is a single statement, modelled as steps of the protocol.
- Calls are values in the protocol's state, not objects; `Client.Session` carries the captured variables as fields. Aliasing between the transaction handle and the pool is not modelled.
- Where `Client.Session` reads a query result, it takes it from the call's record in the state, which holds what that statement returned.
- Cancellation and backoff between attempts appear in `Retry`; in the protocol they are failures of the next statement.
- `GetTransfer`, `Migrate`, the table indexes that are not unique, `updated_at` columns and the order of ledger ids beyond insertion order.
- How a body is parsed, and the messages that go with a rejection; the mint handler's admin gate.
- Unserialized log writers: the live tail is modelled with one writer at a time, as the log handler provides.
- HTTP routing, JSON, bearer parsing, correlation ids, metrics, configuration, shutdown, dashboards, scripts and deployment files: no property across functions.
