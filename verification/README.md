# Verified model of the AI-credit wallet server

This project models the parts of the server in which money and receipts have to stay right under
retries, several workers and late provider answers, and proves what they promise, or exactly when they
keep the promise.

- **Wallet, rows and ledger** (`Wallet`, `WalletBooks`, `WalletLedger`, `WalletOutcomes`, `WalletBreaks`,
  `WalletStore`). Every write to `Wallet`, `WalletLedger` and the status, amounts or stored result of an
  `AiRequest` row is a `Call`: image operations, images, videos with their managed tasks, chat and
  vision, music, the sweep, grants and new wallets. `Effect` decides it, with the two constraints of the
  database that can refuse it: the columns of a wallet are never negative, and a request has one
  `AiBillingSettlement`. `Database` performs it in place on the tables and is proved to do what `Effect`
  decides. The books say, for every user and row: `reservedCredits` is the sum of the estimates of the
  open rows, the available balance is the opening balance plus all non-CHARGE ledger amounts (less what
  settled chats took beyond their reservations, for which the code writes no row of its own), the newest
  `balanceAfter` is the balance, the amounts of a request are what its status says, and the three columns
  together change only by grants (music settlement, which does not raise `lifetimeConsumed`, is accounted
  for by its negative CHARGE rows). Not every `Call` keeps them: `WalletBooks.Exact` says what the caller
  of each has to get right, and the books survive a call if and only if it is exact. `WalletOutcomes`
  says of each, on the tables alone, exactly when it commits and which row, columns and ledger rows it
  changes then. `WalletLedger` proves what holds of every run, exact or not: the newest `balanceAfter` is
  the balance, the ledger explains the balance until a chat takes more than it reserved, and consumption
  covers what was charged.
- **The image-operation receipt protocol** (`Journals`, `OperationProtocol`, `OperationSafety`,
  `OperationHistory`, `OperationMetadata`, `OperationRefunds`, `OperationProgress`). Any number of
  submitters and refreshers, each with its own possibly stale journal, run one database call or one
  provider answer at a time between the transactions of everybody else, with arbitrary answers, lost
  connections and crashes. The proof is rely/guarantee: every step moves the row only in allowed ways,
  and what a thread knows survives every allowed move. The theorems are about whole runs; those of
  `OperationProgress` say what a thread gets done in them when nobody interferes for a few steps.
- **Music requests** (`MusicProtocol`, `MusicProgress`), the same way.
- **Waiting for an accepted image task** (`ImagePolling`): bounded retries, a deadline, a grace period
  and the identity of the task, with a clock advanced by reads and waits.
- **The model catalog** (`Catalog`): each administrator transaction as a method on the tables, with the
  default-route, review and alias invariants.
- **Bounded metadata** (`TaskMetadata`, `MetadataExtraction`), **the stale-request sweep** (`StaleRecovery`) over
  **keyset pages** (`Keyset`), **usage statistics** (`UsageScan`), **scoping of video payloads**
  (`VideoTaskPayload`), **token pricing** (`ChatPricing`), **the reference store** (`ReferenceStore`) and
  **the fallback stream opener** (`StreamOpener`). `JsonValues` holds the JSON values they read.

Credits are whole millionths, times are milliseconds, a request row's id is its position in creation
order, and the ids of catalog rows are numbers ordered as their texts are. Values the model does not
compute are parameters: provider answers, clock readings, random numbers and freshly generated ids, the
text classifiers of the metadata filter, the alias normalisation, URL checks, and the result of
`calculateSnapshotCharge`, which is a property of the snapshot.

Where something is not true of the code the exact condition is proved instead:

- `releaseImageCredits`, `releaseVideo`, `settleImageCredits`, `settleVideo` and the two music
  transactions act on an amount their caller passes. `WalletBooks.CallKeepsBooks` shows that the books
  survive if and only if that amount is right for the row (the stored estimate for a release, at most it
  for an image settlement, all of it for a video or music settlement) or is refused by the database, because
  the wallet does not hold so much reserved or the request has been billed. In
  `WalletBreaks.ReleasedWithOldEstimate` a release carries an estimate from before a new reservation and
  takes the difference from the hold of another request, for which then no settlement in full and no
  release commits.
- The two writes of the video path that set PROCESSING look only at the id of the row
  (src/modules/ai/image-service.ts:8631-8642 and 9225-9228). They keep the books if and only if the row is
  still open, or has an estimate of 0 and owes nothing. `WalletBreaks.LateMarkAfterSweep` and
  `LateMarkAfterSettlement` show that the books fail for every row with an estimate when the sweep or a
  settlement commits between the read of such a poll and its write. In `ReopenedByLatePoll` and
  `SettledTwiceByLatePoll` the settlement that follows consumes the hold of another request of the user.
- `settleCredits` takes a chat charge beyond the reservation from the available balance without a ledger
  row for the difference (src/modules/ai/service.ts:1326-1341). `WalletLedger.LedgerAloneIff` shows that in
  any run, with right amounts or wrong ones, the non-CHARGE amounts alone explain the balance of a user at
  every moment if and only if no chat settlement of that user takes more than its row's estimate and is paid,
  `LedgerAloneWithoutChat` that they do in every run of images, videos, operations and music, and
  `WalletBreaks.ChatBeyondReservation` is a run in which they do not. The newest `balanceAfter` stays the
  balance in every run (`RunKeepsNewest`).
- An image settlement above its estimate (src/modules/ai/image-service.ts:5929-5960) raises
  `lifetimeConsumed` by more than it takes. `WalletLedger.WealthIsAccountedIff` shows that what a user has and
  has spent is what grants have added and music has taken, at every moment of a run, if and only if no image
  settlement of that user does so.
- A settlement replaces the stored journal by the settling thread's own, without the merge of `saveJournal`
  (src/modules/ai/image-operation-service.ts:200-216 and 282-339). `OperationHistory.SuccessKeepsIff` shows
  that a SUCCEEDED receipt keeps the context keys and actions that were stored if and only if the journal of
  the settling thread has them. `ActionsMerged` and `ActionsDropped` are the two steps by which it loses them:
  the thread's save merges the stored actions into the row, and its settlement, which goes on from its own
  reading, drops them.
- Only a definite rejection or a terminal failure is to refund an operation
  (src/modules/ai/image-operation-wallet.ts:117). A cancelled, stale or failed agent task with the same client
  id releases the reservation, too, whatever the operation's task is doing (src/modules/ai/service.ts:1415-1425,
  src/modules/ai/task-service.ts:95, src/worker.ts:63 and 172): `OperationSafety.ReleasedByClientId`.
  `OperationRefunds.RefundIsEarned` shows that every other refund comes after the provider has rejected the
  request or failed its task, `RefundsAreEarnedIff` that the promise holds in a run if and only if every such
  release that finds the receipt open comes after it, too, and `UnearnedRefund` is a run in which it does not.
- `reserveVideo` reuses any FAILED row of its client id, a failed receipt among them
  (src/modules/ai/image-service.ts:8085-8112): `OperationSafety.TakenOverByVideo`. The receipt theorems say
  until when they hold: exactly until such a takeover (`OperationHistory.ReceiptIsWriteOnce`, `OutcomeIsFinal`).
  A music thread that is still running then settles over the video; `MusicProtocol.LateMusicSettlement` says
  when the books fail.
- A charge need not grow with the number of input tokens when the extended tier is cheaper.
  `ChatPricing.MonotoneIff` gives the five comparisons of rates that decide it; an extended tier that
  dominates the standard one satisfies them, and `ChatPricing.CheaperExtendedTier` is a price that does not.
- A freshly created reference is not always readable: `ReferenceStore.Store.Create` shows that it is
  exactly when it fits the cap by itself, and `ReferenceStore.OversizedReference` is one that does not.
- Mapping a discovery disables its route without repairing default routes.
  `Catalog.MappingKeepsDefaults` shows that this is harmless exactly when no model has that route as its
  default, which is why the invariant also says that a discovery under review names no mapped route;
  `Catalog.MappedDefault` is a catalog on which it does harm.
- A synchronisation writes a route before its discovery. `Catalog.SyncWindow` shows that between the two
  the review invariant holds exactly when no discovery under review names the new route, and
  `Catalog.SyncWindowTrace` makes the new route a default and then maps such a discovery to another model: the
  model is left with a disabled default of another one, as `Catalog.MappingKeepsDefaults` predicts.

## Model

| member | source | states |
|---|---|---|
| `WalletBooks.CallKeepsBooks` | src/modules/ai/image-operation-wallet.ts:19-146 | every call keeps the books if and only if it is exact: a passed release, video or music amount is the stored estimate or more than the wallet holds reserved, a passed image charge is at most the estimate, a chat charge beyond it is for a chat row or cannot be paid, an unguarded PROCESSING write finds its row open or worth nothing, and a second bill is refused anyway; all other calls need nothing |
| `WalletBooks.RunKeepsBooks` | src/modules/ai/image-operation-wallet.ts:36-51 | over every sequence of exact calls, unguarded status writes and new wallets included: reserved equals the open estimates, available equals opening plus non-CHARGE amounts less the chat charges beyond their reservations, the newest balanceAfter is the balance |
| `WalletBooks.RunInBooksIff` | src/modules/ai/image-operation-wallet.ts:36-51 | a run is in books at every moment if and only if each of its calls was exact in the state it came to |
| `WalletBooks.ChangeKeepsBooks` | src/modules/ai/image-operation-wallet.ts:102-113 | a committed change keeps the books exactly when its wallet increments, its ledger lines and its row agree |
| `WalletBooks.RefusedByDatabase` | prisma/migrations/20260716000000_init/migration.sql:35-38 | where every wallet holds what its open rows hold, the constraints refuse nothing but a passed amount beyond the hold, a second bill, and the refund of more than was consumed: no release or settlement that takes its amounts from its row |
| `WalletLedger.RefusedAmounts` | src/modules/ai/image-service.ts:8191-8252 | where consumption covers the charges, too, the refund of a settled video is not among them |
| `WalletLedger.RunSpends` | src/modules/ai/image-service.ts:5955-5987 | in every run, exact or not, in which music settles music rows, `lifetimeConsumed` covers what the settled requests of the user, other than music, were charged |
| `WalletBooks.RunNeverOverdraws` | prisma/migrations/20260716000000_init/migration.sql:35-38 | the premise of the two refusal results: every state a run reaches, exact or not, satisfies the table constraint of each wallet |
| `WalletLedger.OnlyGrantsChangeWealth` | src/modules/ai/image-operation-wallet.ts:91-105 | in every call, exact or not, available + reserved + lifetimeConsumed of a user changes by what a grant adds, less what a music settlement takes, plus what an image settlement charges above its estimate |
| `WalletLedger.WealthIsAccountedIff` | src/modules/ai/image-service.ts:5881-5987 | the three columns of a user are what grants have added and music has taken, at every moment of any run, if and only if no image settlement of that user charges more than its estimate |
| `WalletLedger.LedgerAloneIff` | src/modules/ai/service.ts:1326-1341 | in any run, exact or not, the non-CHARGE ledger amounts explain the balance of a user at every moment if and only if no chat settlement finds an open row of that user, charges more than it had estimated and is paid |
| `WalletLedger.LedgerAloneWithoutChat` | src/modules/ai/image-operation-wallet.ts:47-51 | they do in every run without chat settlements |
| `WalletLedger.RunKeepsNewest` | src/modules/ai/image-operation-wallet.ts:102-113 | in every run, exact or not, the newest balanceAfter of a user is the available balance |
| `WalletBooks.FreshBooks` | src/modules/ai/image-operation-wallet.ts:47-51 | wallets with openings that are not negative, without requests and ledger, satisfy the books |
| `WalletBooks.SettlementBalanced` | src/modules/ai/image-service.ts:5881-5987 | a settlement that commits is balanced if and only if it charges at most the estimate (image), all of it (video, music), and always for operations and managed video tasks, which check their charge, and for chat rows |
| `WalletBooks.PassedReleaseBalanced` | src/modules/ai/image-service.ts:5989-6024 | a release of a passed amount is balanced if and only if the amount is the stored estimate |
| `WalletBreaks.LateMarkAfterSweep` | src/modules/ai/image-service.ts:9225-9228 | for every open video row with an estimate: after the sweep has released it, the PROCESSING write of a status poll breaks the books |
| `WalletBreaks.LateMarkAfterSettlement` | src/modules/ai/image-service.ts:9225-9228 | the same after a settlement |
| `WalletBreaks.ReopenedByLatePoll` | src/modules/ai/image-service.ts:9225-9251 | two clips, a sweep, a late mark and a settlement: the user has the estimate back, the settlement has consumed the hold of the other clip, and that one is stuck: no settlement in full and no release, refund or sweep of it commits |
| `WalletBreaks.SettledTwiceByLatePoll` | src/modules/ai/image-service.ts:9225-9251 | the same with a settlement instead of the sweep: one video is charged twice, out of the hold of the other, which is stuck |
| `WalletBreaks.ReleasedWithOldEstimate` | src/modules/ai/image-service.ts:5989-6024 | a swept picture is reserved again with a smaller estimate, and the late release of its first executor takes the difference from the hold of another request, which is stuck |
| `WalletBreaks.BrokenRuns` | src/modules/ai/image-service.ts:9225-9251 | in these three runs from fresh wallets the books fail |
| `WalletBreaks.StuckBreaksBooks` | prisma/migrations/20260716000000_init/migration.sql:35-38 | in books no open request is stuck: a request none of whose settlements in full, releases, refunds and sweeps commits, by any path |
| `WalletBreaks.ExcessIsRefused` | prisma/migrations/20260716000000_init/migration.sql:35-38 | a release of more than the wallet holds reserved is refused and changes nothing |
| `WalletBreaks.ChatBeyondReservation` | src/modules/ai/service.ts:1326-1341 | a chat without reservation, charged 3: the books hold and the ledger alone does not explain the balance |
| `Wallet.Effect` | src/modules/ai/image-operation-wallet.ts:19-146 | every transaction either commits a change that fits the tables (unique request key, existing wallet, no negative column) or leaves them alone; what it commits is `WalletOutcomes.CallOutcome` |
| `WalletOutcomes.SettlementOutcome` | src/modules/ai/image-operation-wallet.ts:64-115 | a settlement commits if and only if its row is open, its path accepts the price, it is not billed yet and the wallet holds it; then the row is SUCCEEDED and charged the price of its path (of one result for an operation, of the delivered tasks for a managed video, otherwise the passed one), that is consumed but for music, and the rest of the reservation is back, with the ledger rows that say so |
| `WalletOutcomes.ReleaseOutcome` | src/modules/ai/image-operation-wallet.ts:118-146 | a release, refund, rejection or sweep commits if and only if there is an open row, or a charged settled video, and the wallet holds the amount; then the row is FAILED or REFUNDED and exactly that amount is back, with one ledger row |
| `WalletOutcomes.ReservationOutcome` | src/modules/ai/image-service.ts:5713-5880 | a reservation commits if and only if its key is unused, or its failed row may start over, and the balance pays; then the row is new, or renewed, with the estimate held; a success is replayed only where the path says so |
| `WalletOutcomes.WriteOutcome` | src/modules/ai/image-service.ts:6182-6252 | a status or result write commits if and only if its row is as it wants it, and changes the status and result of that row and nothing else |
| `WalletOutcomes.GrantOutcome` | src/modules/admin/service.ts:560-585 | a grant adds its amount with one ledger row; a wallet is opened empty and once |
| `WalletOutcomes.CallOutcome` | src/modules/ai/image-operation-wallet.ts:19-146 | all of this for every transaction; the in-place methods of `WalletStore.Database` have it in their contracts |
| `WalletStore.Database.UpdateWallet` | prisma/migrations/20260716000000_init/migration.sql:35-38 | increments are applied as a whole, or refused when there is no wallet or a column would become negative |
| `WalletStore.Database.Commit` | src/modules/ai/image-operation-wallet.ts:88-114 | the row, its wallet and its ledger rows are written together, or nothing is |
| `WalletStore.Database.ReserveOperation` | src/modules/ai/image-operation-wallet.ts:19-61 | the in-place transaction does exactly what `Effect` decides for it, and the books of the tables survive it if and only if the call is exact, as for every method of `Database` |
| `WalletStore.Database.SettleOperation` | src/modules/ai/image-operation-wallet.ts:64-115 | the same for settlement: it charges the price of one result and gives the rest back, with its rollbacks and its one bill |
| `WalletStore.Database.ReleaseOperation` | src/modules/ai/image-operation-wallet.ts:118-146 | the same for the refund of a failed operation |
| `WalletStore.Database.SaveJournal` | src/modules/ai/image-operation-service.ts:207-212 | the compare-and-set writes only over exactly the journal that was read, on an open row |
| `WalletStore.Database.ClaimRefresh` | src/modules/ai/image-operation-service.ts:482-490 | the refresh claim, likewise |
| `WalletStore.Database.ReserveImage` | src/modules/ai/image-service.ts:5713-5880 | reservation with replay of a success and reuse of a failed row that is no operation receipt |
| `WalletStore.Database.SettleImage` | src/modules/ai/image-service.ts:5881-5987 | settlement with the unused part of the estimate released |
| `WalletStore.Database.ReleaseImage` | src/modules/ai/image-service.ts:5989-6024 | release of the passed amount |
| `WalletStore.Database.ReserveVideo` | src/modules/ai/image-service.ts:8062-8131 | video reservation and reuse of a failed row |
| `WalletStore.Database.SettleVideo` | src/modules/ai/image-service.ts:8133-8174 | settlement that takes the charge out of the reservation; the stored result stays when none is passed |
| `WalletStore.Database.ReleaseVideo` | src/modules/ai/image-service.ts:8176-8189 | release of the passed amount |
| `WalletStore.Database.RefundVideo` | src/modules/ai/image-service.ts:8191-8252 | refund of a settled video, release of an open one, nothing twice |
| `WalletStore.Database.Sweep` | src/modules/ai/request-recovery.ts:88-140 | the sweeper's conditional claim and release of one candidate |
| `WalletStore.Database.ReserveMusic` | src/modules/ai/music-service.ts:87-100 | music reservation, refused for any used request key |
| `WalletStore.Database.KeepMusicReceipt` | src/modules/ai/music-service.ts:117-118 | the receipt is stored on an open row only |
| `WalletStore.Database.SettleMusic` | src/modules/ai/music-service.ts:40-52 | settlement without lifetimeConsumed and with a negative CHARGE row |
| `WalletStore.Database.RejectMusic` | src/modules/ai/music-service.ts:108-114 | release after a definite rejection |
| `WalletStore.Database.MarkImage` | src/modules/ai/image-service.ts:6182-6197 | sets an open image row of its user PROCESSING and touches no other row |
| `WalletStore.Database.RememberImageTask` | src/modules/ai/image-service.ts:6199-6252 | stores the task identity on a PROCESSING row of its user only |
| `WalletStore.Database.RetainImageRecovery` | src/modules/ai/image-service.ts:6857-6882 | keeps an open row open for recovery, and what it has stored |
| `WalletStore.Database.MarkVideo` | src/modules/ai/image-service.ts:8631-8642 | sets any row PROCESSING by its id, whatever its status; the books survive exactly when it was open or worth nothing |
| `WalletStore.Database.KeepVideoResult` | src/modules/ai/image-service.ts:8656-8665 | writes the result of any row by its id and leaves its status |
| `WalletStore.Database.SubmitVideoTask` | src/modules/ai/video-task-service.ts:51-73 | moves a RESERVED row to PROCESSING, once |
| `WalletStore.Database.SettleVideoTasks` | src/modules/ai/video-task-service.ts:90-235 | one outcome for an open row whose tasks are all terminal: release of the estimate, or a charge of at most it with ledger rows for positive amounts only |
| `WalletStore.Database.ReserveChat` | src/modules/ai/service.ts:1177-1261 | chat reservation, refused for any used request key |
| `WalletStore.Database.SettleChat` | src/modules/ai/service.ts:1271-1378 | settlement of an open row; a charge beyond the estimate needs the balance to pay it, or everything is rolled back |
| `WalletStore.Database.ReleaseChat` | src/modules/ai/service.ts:1380-1413 | release of the stored estimate of an open row |
| `WalletStore.Database.OpenWallet` | src/modules/auth/email-auth.ts:247-251 | a wallet is created empty, once |
| `OperationHistory.ReceiptIsWriteOnce` | src/modules/ai/image-operation-service.ts:191-216 | between any two moments of any run at which the row is a receipt: a stored task id is never replaced or erased, fingerprint, provider, route, model, receipt key, operation and speed never change, a terminal row is frozen, an open journal loses no context key and no actions; and it stays a receipt if and only if no video request under the same id takes it over |
| `OperationHistory.OutcomeNeedsStoredReceipt` | src/modules/ai/image-operation-service.ts:281-288 | a SUCCEEDED receipt was open at an earlier moment of the run with the very task id it settled with already stored |
| `OperationHistory.AtMostOnePost` | src/modules/ai/image-operation-service.ts:379-446 | at most one generation request per (user, clientRequestId), over all retries, races, releases, takeovers, faults and crashes, and none before its reservation |
| `OperationHistory.RetryShowsOwnParameters` | src/modules/ai/image-operation-service.ts:379-384 | a submission is only ever shown a receipt with its own fingerprint |
| `OperationHistory.SuccessKeepsIff` | src/modules/ai/image-operation-service.ts:282-339 | a receipt becomes SUCCEEDED only by the settlement of a thread, and then it keeps the stored context keys, metadata and actions if and only if the journal of that thread has them |
| `OperationHistory.ActionsMerged` | src/modules/ai/image-operation-service.ts:200-213 | a save over a receipt with actions leaves actions in it, also when the saved journal has none |
| `OperationHistory.ActionsDropped` | src/modules/ai/image-operation-service.ts:282-339 | the thread of such a save goes on from its own journal, and its settlement leaves the receipt without actions |
| `OperationHistory.OneTerminalOutcome` | src/modules/ai/image-operation-wallet.ts:63-146 | the ledger lines of a receipt are its reservation and at most one outcome; a terminal receipt's amounts sum to zero; the estimate is what its tariff quotes, and a SUCCEEDED receipt was charged the price of one result, in the row and in the journal |
| `OperationHistory.OutcomeIsFinal` | src/modules/ai/request-recovery.ts:82-104 | after the outcome, settles, releases, sweeps and retries change neither the row nor its ledger lines: for ever after a success, and after a failure exactly until a video request takes the row over |
| `OperationHistory.RunBalanced` | src/modules/ai/image-operation-service.ts:375-526 | all interleavings of the operation threads keep the wallet books |
| `OperationRefunds.ThreadRefundIsEarned` | src/modules/ai/image-operation-wallet.ts:117-146 | a thread that fails the open receipt was told before that its request is rejected, and no task is stored, or that the stored task has failed |
| `OperationRefunds.RefundIsEarned` | src/modules/ai/service.ts:1380-1425 | a step that fails an open receipt comes after some thread was told so, or is a release by client id |
| `OperationRefunds.RefundsAreEarnedIff` | src/modules/ai/service.ts:1415-1425 | every refund of a run comes after such an answer if and only if every release by client id does that finds the receipt open and its estimate held |
| `OperationRefunds.UnearnedRefund` | src/modules/ai/service.ts:1415-1425 | from every database in which the key is unused and the wallet pays: a run in which the release comes before anything was sent |
| `OperationRefunds.StepReasons` | src/modules/ai/image-operation-service.ts:447-464 | a thread turns towards a refund only at an answer that says so |
| `OperationProgress.FailedTaskIsRefunded` | src/modules/ai/image-operation-service.ts:282-288 | in every run: a thread that asks about an open receipt, is told that its task has failed, and takes the next steps alone, refunds it: after four steps the row is FAILED with that task, available up and reserved down by the estimate, with one RELEASE row |
| `OperationProgress.RejectionIsRefunded` | src/modules/ai/image-operation-service.ts:447-456 | the same after a definite rejection of the generation request, in three steps, when no task is stored |
| `OperationProgress.DeliveryIsCharged` | src/modules/ai/image-operation-service.ts:289-339 | the same after a success whose result could be fetched, in five steps: SUCCEEDED with that task, that delivery and its measured dimensions, charged the price of one result, the rest of the estimate back |
| `OperationProgress.UnfinishedIsShown` | src/modules/ai/image-operation-service.ts:279-289 | a task that is neither finished nor failed is stored with its state and shown, and its hold stays |
| `OperationProgress.UnclearAnswerKeepsHold` | src/modules/ai/image-operation-service.ts:447-470 | a request or reading without a clear answer keeps the hold and the stored task, the receipt says uncertain, and a refresh is due again when its claim said |
| `OperationProgress.LostAnswerKeepsHold` | src/modules/ai/image-operation-service.ts:447-470 | so does a connection that is lost before or after the request or reading took effect |
| `OperationProgress.SaveIsRepeated` | src/modules/ai/image-operation-service.ts:191-213 | a save that another thread has overtaken reads again and is merged into what that has stored |
| `OperationProgress.TroubleKeepsHold` | src/modules/ai/image-operation-service.ts:236-340 | so does everything that goes wrong after the answer: a result that cannot be read, a price that is more than the hold, a connection lost before a save, the charge or the refund takes effect |
| `OperationProgress.LostSettlementIsShown` | src/modules/ai/image-operation-service.ts:464-464 | a connection lost after the charge took effect charges nothing more; the stored success is shown |
| `OperationProgress.SavesThreeTimes` | src/modules/ai/image-operation-service.ts:194-213 | every save has three attempts |
| `OperationProgress.OvertakenShowsReceipt` | src/modules/ai/image-operation-service.ts:191-216 | a thread that has come too late, with a claim, a save, or the refund of a rejection after a task was accepted, changes nothing and shows what is stored |
| `OperationProgress.ReceiptIsShown` | src/modules/ai/image-operation-service.ts:336-340 | in the end the stored receipt is shown |
| `OperationProgress.UnrecognisedKeepsHold` | src/modules/ai/image-operation-service.ts:243-262 | so does an answer that does not prove which task it speaks of |
| `OperationProgress.UnusableResultKeepsHold` | src/modules/ai/image-operation-service.ts:293-330 | a success whose result cannot be used is not charged and keeps its task |
| `OperationProgress.SubmissionIsSent` | src/modules/ai/image-operation-service.ts:433-446 | a submission under an unused key that the balance pays reserves the quoted price, stores its receipt and sends one request |
| `OperationProgress.RetryIsAnswered` | src/modules/ai/image-operation-service.ts:379-384 | a retry is answered from the row in one step and without a request: with its receipt, as failed if the row is, and with nothing if the fingerprint differs |
| `OperationProgress.RefreshAsksWhenDue` | src/modules/ai/image-operation-service.ts:474-526 | a refresh of an open receipt claims its read window and asks if and only if the journal has not ended and is due |
| `OperationMetadata.StoredMetadataIsSound` | src/modules/ai/image-operation-service.ts:255-279 | at every moment of every run the metadata of a stored receipt is a fixed point of the projection, names the stored task id, and agrees with the submitted operation and speed |
| `OperationMetadata.ShownMetadataIsSound` | src/modules/ai/image-operation-service.ts:191-216 | the same projection and task id for every journal a submission or refresh is shown |
| `OperationSafety.KnowledgeIsStable` | src/modules/ai/image-operation-service.ts:191-216 | whatever a thread knows about the row survives every allowed move of the others |
| `OperationSafety.SaveMovesWell` | src/modules/ai/image-operation-service.ts:191-216 | saving a stale journal over the prior one keeps the receipt's origin, its task id and its knowledge |
| `OperationSafety.ThreadMovesWell` | src/modules/ai/image-operation-service.ts:236-340 | every database write of every thread moves the row only as allowed |
| `OperationSafety.ForeignTouches` | src/modules/ai/image-service.ts:5741-5757 | of all transactions of other entry points only the release by client id and a video takeover touch an operation receipt, and none turns a row into one |
| `OperationSafety.ForeignKeepsJournal` | src/modules/ai/service.ts:1380-1413 | none of them writes a journal |
| `OperationSafety.ForeignMovesWell` | src/modules/ai/service.ts:1415-1425 | each of them moves the row only as allowed, with its ledger lines in order |
| `OperationSafety.ReleasedByClientId` | src/modules/ai/service.ts:1415-1425 | an agent task of the same client id releases an open receipt whatever its task is doing, and the settlement of that task is skipped |
| `OperationSafety.TakenOverByVideo` | src/modules/ai/image-service.ts:8085-8112 | a video request that may reuse failed rows, and that the balance pays, takes over a failed receipt, and there is no journal any more |
| `OperationSafety.AcceptedIsNeverRefused` | src/modules/ai/image-operation-wallet.ts:77-84 | once a thread has stored the task id, its settlement and its refund cannot be refused for a changed receipt |
| `OperationSafety.RefundCannotEraseReceipt` | src/modules/ai/image-operation-wallet.ts:125-131 | the refund of a rejected POST changes nothing when a concurrent GET has stored a task id |
| `OperationSafety.NextKeepsOrder` | src/modules/ai/image-operation-service.ts:375-510 | the inductive invariant over the row, its ledger lines, every thread's knowledge and the requests sent |
| `Journals.MergeGrows` | src/modules/ai/image-operation-service.ts:200-206 | the merged journal keeps every context key and a non-empty action list, and takes origin, task id and the keys it has from the writer |
| `Journals.TaskEnvelopeIdentified` | src/modules/ai/image-operation-service.ts:162-179 | an accepted envelope names a usable task id, and the expected one when one is expected |
| `Journals.InterpretIdentified` | src/modules/ai/image-operation-service.ts:240-280 | an answer only ever leads to a journal of the same receipt with a task id, the known one when one is known |
| `Journals.InterpretAgrees` | src/modules/ai/image-operation-service.ts:255-279 | it agrees with the submitted operation, speed and parent, names the accepted task, and inherits the parent's context |
| `Journals.AcceptedIff` | src/modules/ai/image-operation-service.ts:236-262 | an answer is accepted if and only if it names its task and states no other operation, speed, parent or model than was submitted |
| `Journals.RecognisedNext` | src/modules/ai/image-operation-service.ts:276-279 | and then the journal has that task, the state that was read and the next read time |
| `Journals.TaskEnvelopeIff` | src/modules/ai/image-operation-service.ts:167-179 | the record that counts is the answer itself if it names a task, or else the first of its four wrapped records that names the expected one |
| `MusicProtocol.AtMostOneMusicPost` | src/modules/ai/music-service.ts:68-105 | at most one generation request per music request over every run, releases by client id and video takeovers included, and a settled row charged what it reserved unless it was taken over |
| `MusicProtocol.MusicOutcome` | src/modules/ai/music-service.ts:20-53 | a settled music request that was not taken over held its receipt while open at an earlier moment and has not changed since |
| `MusicProtocol.MusicRunBalanced` | src/modules/ai/music-service.ts:87-114 | the amounts music passes are exact in every run until a takeover, so the books are kept; from then on its calls have to be exact themselves |
| `MusicProtocol.MusicRunSpends` | src/modules/ai/music-service.ts:58-71 | over every run, takeovers included, music settles music rows only, so that consumption covers the charges, and no refund of a settled video is refused |
| `MusicProtocol.LateMusicSettlement` | src/modules/ai/music-service.ts:40-52 | the settlement of an overtaken music thread breaks the books if and only if the row holds another amount and the wallet holds as much as the music cost |
| `MusicProtocol.MusicThreadMoves` | src/modules/ai/music-service.ts:20-120 | each call of a music thread moves the row as allowed and passes the reserved amount |
| `MusicProgress.RejectionGivesBack` | src/modules/ai/music-service.ts:103-116 | in every run: a sending thread that is definitely rejected, and takes the next step alone, gives the reservation back: the row is FAILED, available up and reserved down by the estimate, with one RELEASE row |
| `MusicProgress.UncertainKeepsHold` | src/modules/ai/music-service.ts:104-107 | an uncertain answer changes nothing and is not asked again |
| `MusicProgress.GenerationIsCharged` | src/modules/ai/music-service.ts:117-122 | a generated result whose tracks are all stored is charged: SUCCEEDED, reserved down by the charge, one negative CHARGE row |
| `MusicProgress.RecoveryIsCharged` | src/modules/ai/music-service.ts:58-74 | a recovery or retry finishes a stored receipt the same way, without another request |
| `MusicProgress.StoredTracksAreCharged` | src/modules/ai/music-service.ts:20-52 | however many tracks there are |
| `MusicProgress.UnstoredTrackWaits` | src/modules/ai/music-service.ts:34-37 | a track that could not be stored leaves the request open with its receipt |
| `MusicProgress.MusicIsSent` | src/modules/ai/music-service.ts:87-102 | a submission under an unused key that the balance pays reserves what its snapshot quotes and sends one request |
| `MetadataExtraction.ExtractedIsLast` | src/modules/ai/image-task-metadata.ts:76-93 | something is extracted if and only if the task id is admissible and the answer is a record of that task or of none; each property is the last statement, in reading order, among the records that do not lie under another task, or absent if none states it |
| `MetadataExtraction.RowStates` | src/modules/ai/image-task-metadata.ts:45-52 | a record states a property if and only if it has it, under either spelling, within its length and admissible |
| `MetadataExtraction.RowListsActions` | src/modules/ai/image-task-metadata.ts:53-55 | its actions are those of `actions`, or else of `buttons`, of 32 entries |
| `MetadataExtraction.ActionStates` | src/modules/ai/image-task-metadata.ts:56-68 | an entry is an action if and only if it names itself, under one of three keys, and its operation |
| `MetadataExtraction.ActionsAreFirst` | src/modules/ai/image-task-metadata.ts:55-68 | the first of each id is listed, and nothing else |
| `MetadataExtraction.ActionsGrow` | src/modules/ai/image-task-metadata.ts:55-68 | in the order of the entries |
| `TaskMetadata.CollectActions` | src/modules/ai/image-task-metadata.ts:44-58 | the loop keeps the first occurrence of each recognised action among the first 32 candidates |
| `TaskMetadata.StoredValueFixedPoint` | src/modules/ai/image-task-metadata.ts:84-88 | storing and projecting metadata gives it back if and only if it has at most 32 actions, distinct ids and admissible texts |
| `TaskMetadata.ExtractedIsFixedPoint` | src/modules/ai/image-task-metadata.ts:68-82 | everything extracted for an accepted task carries its id and survives storage |
| `TaskMetadata.MergedIsFixedPoint` | src/modules/ai/image-task-metadata.ts:90-98 | merging stored values gives a stored value of the earlier task that lacks nothing the earlier one knew (actions, operation, speed, modal, parent, expiry) and repeats everything a newer one of that task states |
| `TaskMetadata.ActionsRoundTrip` | src/modules/ai/image-task-metadata.ts:44-58 | reading stored actions gives the same list |
| `StaleRecovery.RecoverStaleRequests` | src/modules/ai/request-recovery.ts:36-158 | over a fixed queue the sweep attempts exactly the first batch of candidates without an operation tariff, each once, in order, and reports how many it released; where every wallet holds what its open rows hold, as it does in books, that is all of them, and each ends up FAILED; if the batch is not full, and the wallets cover the open rows, no stale row without an operation tariff is left open |
| `StaleRecovery.HeldOperationsStayOpen` | src/modules/ai/request-recovery.ts:82-84 | a held operation is never claimed, however many pages such rows fill |
| `StaleRecovery.SweepReleasesAll` | src/modules/ai/request-recovery.ts:88-140 | where every wallet holds what its open rows hold, every attempted candidate that is still as the query saw it ends up FAILED |
| `StaleRecovery.EligibleDistinct` | src/modules/ai/request-recovery.ts:42-62 | no row is attempted twice |
| `StaleRecovery.AllReleased` | src/modules/ai/request-recovery.ts:88-140 | and every attempt is counted as recovered |
| `StaleRecovery.SweepOutcome` | src/modules/ai/request-recovery.ts:88-140 | the release of a candidate that is still as the query saw it is refused exactly when its wallet holds less than the estimate |
| `StaleRecovery.StaleIff` | src/modules/ai/request-recovery.ts:88-140 | the query selects exactly what the release transaction does not skip |
| `StaleRecovery.StaleIsEligible` | src/modules/ai/request-recovery.ts:42-86 | every stale row without an operation tariff is a candidate |
| `StaleRecovery.HeldTariffs` | src/modules/ai/request-recovery.ts:82-84 | the tariff of every operation holds its reservation, and no video and no image without such a tariff is held |
| `StaleRecovery.SweepKeepsBooks` | src/modules/ai/request-recovery.ts:123-139 | the whole sweep keeps the wallet books |
| `StaleRecovery.FetchCandidates` | src/modules/ai/request-recovery.ts:42-62 | the next page is the next rows of the queue |
| `Keyset.PageContinues` | src/modules/admin/usage-diagnostics.ts:38-52 | in an ordered table a page continues exactly where the rows before the cursor ended |
| `ImagePolling.RetryRead` | src/modules/ai/image-task-retry.ts:108-143 | ends by the deadline, at most the allowed attempts, each retry only after a transient failure and after its backoff or hint; it gives up exactly for a thrown failure, a hopeless error, the last attempt, a wait that does not fit, or a deadline that has passed |
| `ImagePolling.Session.Observe` | src/modules/ai/image-task-retry.ts:178-205 | refuses exactly answers of another task and terminal, invalid or uncertain ones; otherwise the known task id stays and the deadline never moves later |
| `ImagePolling.Session.Acquire` | src/modules/ai/image-task-retry.ts:209-215 | downloads the current, observed snapshot exactly when it names images or assets, within the effective deadline |
| `ImagePolling.Session.ReadCompletedResult` | src/modules/ai/image-task-retry.ts:218-230 | reads the result URL exactly when the current state is completed and the URL is known |
| `ImagePolling.Session.PollUntilDeadline` | src/modules/ai/image-task-retry.ts:237-260 | at most 500 turns, each after the wait the last observation asked for and of at most 20 reads; it ends with images, or for what a read or its answer failed with, or after 500 turns, or when the next wait does not fit before the deadline; nothing observed is left undone |
| `ImagePolling.Session.Poll` | src/modules/ai/image-task-retry.ts:161-261 | ends by the deadline and within the grace period of the first completed state, after at most 15 + 500·20 reads, with non-empty images or a terminal-failure or recovery-required error; it fails only for what a read or an answer failed with, for want of a status URL, after 500 turns, or when the next wait does not fit |
| `ImagePolling.DeliveredFromOwnTask` | src/modules/ai/image-task-retry.ts:178-215 | delivered images were downloaded from an observed snapshot of this session's task in no terminal state |
| `ImagePolling.OneTaskPerSession` | src/modules/ai/image-task-retry.ts:179-182 | a known task id never changes within a session |
| `ImagePolling.ResultAfterCompletion` | src/modules/ai/image-task-retry.ts:218-223 | every read of a result URL comes after an observed completed state |
| `Catalog.LeavingKeepsDefaults` | src/modules/ai/model-admin.ts:95-121 | disabling, unmapping or moving a route and repairing its old model's default keeps every default route enabled and owned |
| `Catalog.BestIsUnique` | src/modules/ai/model-admin.ts:78-93 | the order (priority, id) determines one replacement |
| `Catalog.MappingKeepsDefaults` | src/modules/ai/model-admin.ts:764-789 | mapping a route without repair keeps the defaults if and only if no model has it as its default |
| `Catalog.MappedDefault` | src/modules/ai/model-admin.ts:764-789 | a catalog on which mapping an enabled default route leaves a disabled default |
| `Catalog.MappingKeepsRouting` | src/modules/ai/model-admin.ts:764-820 | mapping a discovery under review keeps all routing invariants |
| `Catalog.DeletedChannelKeeps` | src/modules/providers/service.ts:347-348 | deleting a channel keeps all routing invariants |
| `Catalog.SyncWindow` | src/modules/ai/upstream-sync.ts:281-495 | after the route and before the discovery of a synchronisation is written, the review invariant holds if and only if no discovery under review names the new route |
| `Catalog.SyncWindowTrace` | src/modules/ai/upstream-sync.ts:378-447 | the new route is enabled and made a default between the two writes, and mapping the discovery still under review takes it away, disabled |
| `Catalog.Tables.CreateChannel` | src/modules/providers/service.ts:157-199 | a new channel keeps every invariant |
| `Catalog.Tables.BestEnabledRouteId` | src/modules/ai/model-admin.ts:78-93 | the enabled route of the model with the least (priority, id) other than the excluded one, or none |
| `Catalog.Tables.RepairDefaultRoute` | src/modules/ai/model-admin.ts:95-121 | replaces a default that left by the best remaining route and changes nothing else |
| `Catalog.Tables.UpdateModel` | src/modules/ai/model-admin.ts:241-329 | sets exactly the named properties, a default only to an enabled route of the model; refuses unknown keys and stale stamps |
| `Catalog.Tables.UpdateRoute` | src/modules/ai/model-admin.ts:331-485 | never enables an unmapped route; disabling repairs the default |
| `Catalog.Tables.UpdateRouteGeneratedAlias` | src/modules/ai/model-admin.ts:520-571 | the route's alias follows it or goes, manual aliases and other names are untouched; exactly when it conflicts |
| `Catalog.Tables.Remap` | src/modules/ai/model-admin.ts:573-644 | moves a route with its alias, default and discovery, or changes nothing; keeps every invariant |
| `Catalog.Tables.Unmap` | src/modules/ai/model-admin.ts:646-740 | detaches and disables a route, repairs the default and puts its discovery back in review; keeps every invariant |
| `Catalog.Tables.MapDiscovery` | src/modules/ai/model-admin.ts:742-831 | maps a discovery if and only if it is under review, the administrator's modality, or else the suggested one, is the model's, and no alias kept by hand is in the way; its route is disabled; keeps every invariant |
| `Catalog.Tables.CreateModelFromDiscovery` | src/modules/ai/model-admin.ts:854-922 | creates a draft model and maps its discovery under the same conditions and an unused key, or changes nothing |
| `Catalog.Tables.CreateAlias` | src/modules/ai/model-admin.ts:928-968 | one alias per (modality, key), of the model's modality |
| `Catalog.Tables.DeleteAlias` | src/modules/ai/model-admin.ts:970-997 | deletes only aliases no route mapping maintains |
| `Catalog.Tables.DeleteModel` | src/modules/ai/model-admin.ts:188-239 | deletes exactly hidden, disabled, unused drafts without routes |
| `Catalog.Tables.SyncUpstreamModel` | src/modules/ai/upstream-sync.ts:281-495 | a known route is stamped, and its discovery suggested if it is unmapped; an unknown one is created, disabled, for a confirmed model and its discovery mapped; otherwise the discovery is suggested; keeps every invariant |
| `Catalog.Tables.IgnoreDiscovery` | src/modules/ai/model-admin.ts:924-926 | sets a discovery aside and keeps every invariant |
| `Catalog.Tables.OverrideModality` | src/modules/ai/model-admin.ts:499-518 | only a discovery under review takes a modality override, which then decides what it may be mapped to |
| `VideoTaskPayload.SelectedPayload` | src/modules/ai/image-service.ts:5099-5167 | the selected payload is the first record of the requested task in the order of the search, and so a narrowest one, holds no record bound only to another one within the depth bound, and is a fixed point of pruning |
| `VideoTaskPayload.FindsIffEligible` | src/modules/ai/image-service.ts:5131-5157 | the search finds something if and only if an eligible record lies within the depth bound |
| `VideoTaskPayload.SparedIsKept` | src/modules/ai/image-service.ts:5099-5129 | pruning takes nothing else away: what lies in no record of another task is still there, at the same depth |
| `VideoTaskPayload.PruneKeepsOwn` | src/modules/ai/image-service.ts:5099-5129 | a payload without records of other tasks is not changed at all |
| `VideoTaskPayload.IdsOfRecord` | src/modules/ai/image-service.ts:5064-5123 | which ids a record names and which it is bound to: a plain `id` binds only beside a state |
| `VideoTaskPayload.MismatchedIff` | src/modules/ai/image-service.ts:5099-5123 | a record belongs to another task exactly when it is bound to some task and not to the requested one |
| `VideoTaskPayload.TrimStrips` | src/modules/ai/image-service.ts:5159-5167 | trimming takes only spaces, from the two ends |
| `VideoTaskPayload.TrimmedEnds` | src/modules/ai/image-service.ts:5159-5167 | and all of them |
| `VideoTaskPayload.PruneIdempotent` | src/modules/ai/image-service.ts:5099-5129 | pruning is idempotent on every payload |
| `VideoTaskPayload.PrunedIsScoped` | src/modules/ai/image-service.ts:5099-5129 | no record within the bound of a pruned value is bound only to another task |
| `VideoTaskPayload.PrunedFrom` | src/modules/ai/image-service.ts:5099-5129 | whatever lies in a pruned value is the pruning of something at the same depth of the original |
| `UsageScan.ScanTable` | src/modules/admin/usage-diagnostics.ts:37-65 | every matching row is fed exactly once, in order, or the scan refuses, exactly at the limit |
| `UsageScan.GetUsageMetrics` | src/modules/admin/usage-diagnostics.ts:31-102 | never truncated statistics: the totals of a modality are those of its samples counted one by one, and there is one line for each model fed, under the name of its first sample, with the numbers of that model counted one by one |
| `UsageScan.EveryRowCounts` | src/modules/admin/usage-diagnostics.ts:53-60 | each matching row adds exactly one sample |
| `UsageScan.SampleOfWanted` | src/modules/admin/usage-diagnostics.ts:46-60 | which modality, model, name and duration a matching row adds |
| `UsageScan.CountGrows` | src/modules/admin/usage-diagnostics-core.ts:46-65 | a sample with a duration counts once with it, one without counts as missing, and no other counter moves |
| `UsageScan.RoundedIsNearest` | src/modules/admin/usage-diagnostics-core.ts:28-32 | the reported average is the nearest whole number, and absent exactly without samples |
| `UsageScan.Collector.Add` | src/modules/admin/usage-diagnostics-core.ts:46-65 | keeps every counter equal to a one-by-one count, and the totals equal to the sum over the models |
| `UsageScan.Collector.Result` | src/modules/admin/usage-diagnostics-core.ts:66-73 | reports those counts |
| `UsageScan.AverageBetween` | src/modules/admin/usage-diagnostics-core.ts:28-32 | a rounded average lies between any bounds of its samples |
| `UsageScan.ListedAverageBetween` | src/modules/admin/usage-diagnostics-core.ts:66-73 | the average on a reported line lies between any bounds of the samples of that model |
| `UsageScan.RangeCoversDays` | src/modules/admin/usage-diagnostics-core.ts:5-12 | the window is exactly the asked number of UTC+8 days up to now |
| `ChatPricing.FormatDenotes` | src/modules/ai/chat-pricing.ts:292-297 | the charge text denotes exactly numerator / 10^6, with six digits |
| `ChatPricing.ChargeIsExact` | src/modules/ai/chat-pricing.ts:304-335 | each token is charged once at its tier's rate, nothing is rounded away |
| `ChatPricing.CalculateCharge` | src/modules/ai/chat-pricing.ts:311-314 | the cached tokens are those reported, up to all of the input, and the rest is normal; the tier is the extended one exactly above the threshold, and the rates are its |
| `ChatPricing.ReportedCharge` | src/modules/ai/chat-pricing.ts:311-332 | the charge text is what the reported tokens cost at the reported rates |
| `ChatPricing.CachingNeverCostsMore` | src/modules/ai/chat-pricing.ts:311-318 | more cached tokens never cost more if and only if the clamp hides them or the cached rate is at most the input rate |
| `ChatPricing.MonotoneIff` | src/modules/ai/chat-pricing.ts:309-318 | the charge is monotone in the input tokens, across tier and clamp, if and only if five comparisons of rates hold |
| `ChatPricing.DominatingCrossesUpward` | src/modules/ai/chat-pricing.ts:309-310 | an extended tier that dominates the standard one satisfies them |
| `ChatPricing.CheaperExtendedTier` | src/modules/ai/chat-pricing.ts:309-318 | a price with a cheaper extended tier, for which 101 input tokens cost less than 100 |
| `ReferenceStore.Store.Prune` | src/modules/ai/reference-store.ts:31-41 | leaves nothing expired, stays within the cap, keeps the byte counter, and evicts the shortest oldest-first prefix |
| `ReferenceStore.Store.Create` | src/modules/ai/reference-store.ts:43-58 | the store stays within the cap; the new reference is readable exactly when it fits by itself |
| `ReferenceStore.Store.Get` | src/modules/ai/reference-store.ts:60-68 | an expired reference is never returned |
| `ReferenceStore.Store.Remove` | src/modules/ai/reference-store.ts:24-29 | removes that reference and exactly its bytes |
| `ReferenceStore.EvictsOldest` | src/modules/ai/reference-store.ts:36-40 | nothing kept is older than anything evicted, and nothing goes when all fits |
| `ReferenceStore.NewestSurvives` | src/modules/ai/reference-store.ts:31-41 | the newest reference is evicted only when it alone exceeds the cap |
| `ReferenceStore.OversizedReference` | src/modules/ai/reference-store.ts:36-41 | a reference larger than the cap is evicted as it is created |
| `StreamOpener.Opener.Admit` | src/modules/ai/image-result-fallback-core.ts:190-192 | refuses exactly at the limit; the counter is the number of unclosed sources |
| `StreamOpener.Opener.Close` | src/modules/ai/image-result-fallback-core.ts:197-204 | gives a slot back once |
| `StreamOpener.Opener.OnResponse` | src/modules/ai/image-result-fallback-core.ts:206-240 | follows at most three redirects and refuses exactly bad redirects, other statuses, announced sizes above the limit and empty answers |
| `StreamOpener.Opener.ReadPrefix` | src/modules/ai/image-result-fallback-core.ts:241-252 | keeps the prefix within the limit and starts a stream exactly on an image |
| `StreamOpener.Opener.Replay` | src/modules/ai/image-result-fallback-core.ts:260 | the prefix is yielded as it was read |
| `StreamOpener.Opener.Pull` | src/modules/ai/image-result-fallback-core.ts:261-271 | at most maxBytes are yielded, and a stream that ends well has the announced length |

## Left out

- Membership quota in reservations and releases, the contents of `AiBillingSettlement` rows, failure
  diagnostics and video-task rows: they move no wallet column.
- The width of the Decimal(24, 6) columns: amounts are unbounded.
- Redemption, membership and administrator credits: one grant transaction, after the creation of the
  wallet where they make one.
- Weak isolation inside the default-isolation transactions of `src/modules/ai/image-service.ts`: each
  transaction is one atomic step.
- The in-process `refreshes` map of `getWalletImageOperation`: the protocol allows any number of
  concurrent refreshers, which is more than the map does.
- Calls of other paths that name the row of an operation or music request by its id: excluded from the
  protocol runs while it is one (`OperationProtocol.Foreign`, `MusicProtocol.MusicForeign`), because each
  of these paths got the id from its own reservation or checked the capability; included in the wallet
  books. The release by client id and the video takeover do neither and are included in the runs.
- Agent tasks themselves: their cancellation, failure and staleness are the release by client id at any
  moment.
- Validation, route resolution and parent checks of `submitWalletImageOperation` before its reservation:
  they make no write.
- Rows that enter or leave the sweep's queue or the usage tables while they are paged, and database
  errors inside one sweep transaction.
- The classification of error texts, `Date.parse`, URL resolution, request bodies and the mapping of
  provider states: parameters.
- Waits that last longer than asked, and reads that ignore their timeout: the polling bounds assume neither.
- Catalog.Tables.SyncUpstreamModel: one atomic step, although the source writes the route and the
  discovery separately; `Catalog.SyncWindow` and `Catalog.SyncWindowTrace` say what can happen in
  between.
- Catalog.Tables.UpdateRoute: the checks of adapters, execution and capabilities are one parameter,
  because they read only the request and the configuration of the route.
- Suggested prices, cost history, operation logs, adapters and capabilities of the other catalog
  transactions, and everything of `createProvider` but the channel it adds.
- The order in which usage statistics list their models, and cursors of the error list.
- Floating-point division in `Math.round(total / samples)`: rounding is exact for totals below 2^53, as
  those of a 30-day window are.
- Validation of pricing texts and the per-request and fallback charges of `src/modules/ai/chat-pricing.ts`.
- Receipts, encryption, MIME detection and pruning of files in
  `src/modules/ai/image-result-fallback-core.ts`, and the URL returned for a reference.
- HTTP, DNS, object storage, authentication and schemas.
