/** The tables the transactions update in place. Each method is one `$transaction` (or one single
    update) and does to the tables what `Wallet.Effect` decides for them: it writes the row, moves the
    wallet, records the ledger rows, and takes the row back when the database refuses. */
module WalletStore {
  import opened JsonValues
  import opened Journals
  import opened Wallet
  import opened WalletBooks
  import opened WalletOutcomes

  /** What the contract of every method adds to its effect. */
  lemma Audited(s: State, call: Call)
    ensures forall opening :: Books(s, opening) ==> (Books(After(s, call), opening) <==> Exact(s, call))
    ensures Solvent(s) ==> DidItsPart(s, After(s, call), Effect(s, call).outcome, call)
  {
    hide Books, Exact, Effect, DidItsPart;
    if Solvent(s) {
      CallOutcome(s, call);
    }
    forall opening | Books(s, opening)
      ensures Books(After(s, call), opening) <==> Exact(s, call)
    {
      CallKeepsBooks(s, opening, call);
    }
  }

  class Database {
    var purses: map<string, Purse>
    var rows: seq<Row>
    var ledger: seq<Entry>

    constructor (purses: map<string, Purse>)
      ensures View() == State(purses, [], [])
    {
      this.purses := purses;
      rows, ledger := [], [];
    }

    ghost function View(): State
      reads this
    {
      State(purses, rows, ledger)
    }

    /** The tables moved from the old state to the one the transaction decides, it did its part exactly
        when it could, and if they were in books, they still are exactly when the call was exact. */
    twostate predicate Performed(call: Call, outcome: Outcome)
      reads this
    {
      && outcome == Effect(old(View()), call).outcome && View() == After(old(View()), call)
      && (Solvent(old(View())) ==> DidItsPart(old(View()), View(), outcome, call))
      && forall opening :: Books(old(View()), opening) ==> (Books(View(), opening) <==> Exact(old(View()), call))
    }

    /** Decided and committed as one step. */
    twostate predicate Committed(verdict: Verdict, outcome: Outcome)
      requires Fits(old(View()), verdict.change)
      reads this
    {
      outcome == verdict.outcome && View() == Apply(old(View()), verdict.change)
    }

    // ---- what the transactions share -----------------------------------------------------------

    /** `wallet.update` with increments, refused without a wallet or by the table constraint. */
    method UpdateWallet(user: string, money: Money) returns (outcome: Outcome, balance: int)
      modifies this`purses
      ensures outcome == if user !in old(purses) then Refused("record_not_found")
                         else if NonNegative(Adjust(old(purses[user]), money)) then Done
                         else Refused("constraint")
      ensures outcome != Done ==> purses == old(purses)
      ensures outcome == Done ==> purses == old(purses)[user := Adjust(old(purses[user]), money)]
      ensures outcome == Done ==> balance == purses[user].available
    {
      balance := 0;
      if user !in purses {
        return Refused("record_not_found"), balance;
      }
      var available := purses[user].available + money.available;
      var reserved := purses[user].reserved + money.reserved;
      var consumed := purses[user].consumed + money.consumed;
      if available < 0 || reserved < 0 || consumed < 0 {
        return Refused("constraint"), balance;
      }
      purses := purses[user := Purse(available, reserved, consumed)];
      outcome, balance := Done, available;
    }

    /** `walletLedger.create`, once for each line. */
    method AppendLedger(user: string, request: Option<nat>, lines: seq<Line>, balance: int)
      modifies this`ledger
      ensures ledger == old(ledger) + Posted(user, request, lines, balance)
    {
      for i := 0 to |lines|
        invariant ledger == old(ledger) + Posted(user, request, lines[..i], balance)
      {
        assert lines[..i + 1][..i] == lines[..i];
        ledger := ledger + [Entry(user, request, lines[i], balance)];
      }
      assert lines[..|lines|] == lines;
    }

    /** Writes a row together with its wallet, or leaves everything as it was. */
    method Commit(id: nat, row: Row, money: Money) returns (outcome: Outcome)
      requires id <= |rows|
      requires id < |rows| ==> row.user == rows[id].user && row.client == rows[id].client
      requires id == |rows| ==> Find(rows, row.user, row.client).None?
      modifies this
      ensures Committed(Wallet.Commit(old(View()), id, row, money), outcome)
    {
      var before, balance := rows, 0;
      rows := if id == |rows| then rows + [row] else rows[id := row];
      outcome, balance := UpdateWallet(row.user, money);
      if outcome != Done {
        rows := before;
        return;
      }
      AppendLedger(row.user, Some(id), money.lines, balance);
    }

    /** A settlement creates the `AiBillingSettlement` of its request first. */
    method Settle(id: nat, row: Row, money: Money, bills: bool) returns (outcome: Outcome)
      requires id < |rows| && row.user == rows[id].user && row.client == rows[id].client
      modifies this
      ensures Committed(Wallet.Settle(old(View()), id, row, money, bills), outcome)
    {
      if bills && row.billed {
        return Refused("constraint");
      }
      outcome := Commit(id, row.(billed := row.billed || bills), money);
    }

    /** The conditional decrement of a reservation, then the row. */
    method Reserve(id: nat, row: Row) returns (outcome: Outcome)
      requires id <= |rows|
      requires id < |rows| ==> row.user == rows[id].user && row.client == rows[id].client
      requires id == |rows| ==> Find(rows, row.user, row.client).None?
      modifies this
      ensures Committed(if row.user in old(purses) && old(purses[row.user]).available >= row.estimated
                        then Wallet.Commit(old(View()), id, row, Holding(row.estimated))
                        else Refuse("insufficient_credits"), outcome)
    {
      if row.user !in purses || purses[row.user].available < row.estimated {
        return Refused("insufficient_credits");
      }
      outcome := Commit(id, row, Holding(row.estimated));
    }

    /** An open row of this user, or of anybody. */
    predicate IsOpen(user: Option<string>, id: nat)
      reads this`rows
    {
      id < |rows| && (user.None? || rows[id].user == user.value) && Active(rows[id])
    }

    /** A failed row starts over with a new estimate. */
    function Renewed(id: nat, pricing: Option<Snapshot>, estimate: nat): Row
      requires id < |rows|
      reads this`rows
    {
      var row := rows[id];
      row.(status := RESERVED, estimated := estimate, charged := 0, stored := Nothing, completed := false,
           snapshot := if pricing.Some? then pricing else row.snapshot)
    }

    // ---- image operations ----------------------------------------------------------------------

    method ReserveOperation(user: string, client: string, snapshot: Snapshot, journal: Journal, now: int)
        returns (outcome: Outcome)
      modifies this
      ensures Performed(Call.ReserveOperation(user, client, snapshot, journal, now), outcome)
    {
      Audited(View(), Call.ReserveOperation(user, client, snapshot, journal, now));
      if !OperationSnapshot(snapshot) {
        return Refused("image_operation_price_missing");
      }
      if !SameRequest(journal.origin.identity, snapshot) {
        return Refused("image_operation_price_mismatch");
      }
      if Find(rows, user, client).Some? {
        return Skipped;
      }
      var row := NewRow(user, client, IMAGE, RESERVED, Some(snapshot), snapshot.quoted, Operation(journal), now);
      outcome := Reserve(|rows|, row);
    }

    method SettleOperation(user: string, id: nat, final: Journal) returns (outcome: Outcome)
      modifies this
      ensures Performed(Call.SettleOperation(user, id, final), outcome)
    {
      Audited(View(), Call.SettleOperation(user, id, final));
      if !IsOpen(Some(user), id) || rows[id].capability != IMAGE {
        return Skipped;
      }
      var request := rows[id];
      if request.snapshot.None? || request.snapshot.value.schemaVersion != 1
         || !OperationSnapshot(request.snapshot.value) {
        return Refused("image_operation_price_missing");
      }
      var snapshot := request.snapshot.value;
      if !request.stored.Operation? {
        return Refused("image_operation_identity_mismatch");
      }
      var current := request.stored.journal;
      if current.taskId.None? || current.taskId != final.taskId || current.origin.identity != final.origin.identity
         || !SameRequest(final.origin.identity, snapshot) {
        return Refused("image_operation_identity_mismatch");
      }
      var charged := snapshot.single;
      if charged > request.estimated {
        return Refused("image_operation_price_mismatch");
      }
      var receipt := Operation(final.(charged := charged));
      outcome := Settle(id, Finished(request, SUCCEEDED, charged, receipt), Charging(request.estimated, charged), true);
    }

    method ReleaseOperation(user: string, id: nat, failed: Journal) returns (outcome: Outcome)
      modifies this
      ensures Performed(Call.ReleaseOperation(user, id, failed), outcome)
    {
      Audited(View(), Call.ReleaseOperation(user, id, failed));
      if !IsOpen(Some(user), id) || rows[id].capability != IMAGE {
        return Skipped;
      }
      var request := rows[id];
      if !request.stored.Operation? || request.stored.journal.taskId != failed.taskId
         || request.stored.journal.origin.identity != failed.origin.identity {
        return Refused("image_operation_identity_mismatch");
      }
      outcome := Commit(id, Finished(request, FAILED, 0, Operation(failed)), Releasing(request.estimated));
    }

    /** The compare-and-set of `saveJournal`. */
    method SaveJournal(user: string, id: nat, expected: Stored, journal: Journal) returns (outcome: Outcome)
      modifies this
      ensures Performed(Call.SaveJournal(user, id, expected, journal), outcome)
    {
      Audited(View(), Call.SaveJournal(user, id, expected, journal));
      if !IsOpen(Some(user), id) || rows[id].stored != expected {
        return Skipped;
      }
      rows := rows[id := rows[id].(status := PROCESSING, stored := Operation(journal))];
      outcome := Done;
    }

    /** The compare-and-set with which `refreshOperation` reserves its read window. */
    method ClaimRefresh(user: string, id: nat, expected: Stored, journal: Journal) returns (outcome: Outcome)
      modifies this
      ensures Performed(Call.ClaimRefresh(user, id, expected, journal), outcome)
    {
      Audited(View(), Call.ClaimRefresh(user, id, expected, journal));
      if !IsOpen(Some(user), id) || rows[id].stored != expected {
        return Skipped;
      }
      rows := rows[id := rows[id].(stored := Operation(journal))];
      outcome := Done;
    }

    // ---- images --------------------------------------------------------------------------------

    method ReserveImage(user: string, client: string, pricing: Option<Snapshot>, estimate: nat, replayable: bool,
                        now: int) returns (outcome: Outcome)
      modifies this
      ensures Performed(Call.ReserveImage(user, client, pricing, estimate, replayable, now), outcome)
    {
      Audited(View(), Call.ReserveImage(user, client, pricing, estimate, replayable, now));
      var existing := Find(rows, user, client);
      if existing.None? {
        outcome := Reserve(|rows|, NewRow(user, client, IMAGE, RESERVED, pricing, estimate, Nothing, now));
        return;
      }
      var id, request := existing.value, rows[existing.value];
      if request.status == SUCCEEDED && replayable {
        return Skipped;
      }
      var operationReceipt := Tariffed(pricing) || Tariffed(request.snapshot) || request.stored.Operation?;
      if request.status != FAILED || operationReceipt || request.capability != IMAGE {
        return Refused("duplicate_request");
      }
      outcome := Reserve(id, Renewed(id, pricing, estimate));
    }

    method SettleImage(user: string, id: nat, charged: nat, bills: bool) returns (outcome: Outcome)
      modifies this
      ensures Performed(Call.SettleImage(user, id, charged, bills), outcome)
    {
      Audited(View(), Call.SettleImage(user, id, charged, bills));
      if !IsOpen(Some(user), id) {
        return Skipped;
      }
      var money := Charging(rows[id].estimated, charged);
      outcome := Settle(id, Finished(rows[id], SUCCEEDED, charged, Media), money, bills);
    }

    method ReleaseImage(user: string, id: nat, amount: nat) returns (outcome: Outcome)
      modifies this
      ensures Performed(Call.ReleaseImage(user, id, amount), outcome)
    {
      Audited(View(), Call.ReleaseImage(user, id, amount));
      if !IsOpen(Some(user), id) {
        return Skipped;
      }
      outcome := Commit(id, rows[id].(status := FAILED, completed := true), Releasing(amount));
    }

    /** `markImageRequestProcessing` */
    method MarkImage(user: string, id: nat) returns (outcome: Outcome)
      modifies this
      ensures Performed(Call.MarkImage(user, id), outcome)
    {
      Audited(View(), Call.MarkImage(user, id));
      if !IsOpen(Some(user), id) {
        return Skipped;
      }
      rows := rows[id := rows[id].(status := PROCESSING)];
      outcome := Done;
    }

    /** `rememberImageTaskIdentity` */
    method RememberImageTask(user: string, id: nat) returns (outcome: Outcome)
      modifies this
      ensures Performed(Call.RememberImageTask(user, id), outcome)
    {
      Audited(View(), Call.RememberImageTask(user, id));
      if !IsOpen(Some(user), id) || rows[id].status != PROCESSING {
        return Skipped;
      }
      rows := rows[id := rows[id].(stored := Media)];
      outcome := Done;
    }

    /** `retainImageRetryRecovery` */
    method RetainImageRecovery(user: string, id: nat) returns (outcome: Outcome)
      modifies this
      ensures Performed(Call.RetainImageRecovery(user, id), outcome)
    {
      Audited(View(), Call.RetainImageRecovery(user, id));
      if !IsOpen(Some(user), id) {
        return Skipped;
      }
      var previous := rows[id].stored;
      rows := rows[id := rows[id].(status := PROCESSING, stored := if previous == Nothing then Media else previous)];
      outcome := Done;
    }

    // ---- videos --------------------------------------------------------------------------------

    method ReserveVideo(user: string, client: string, pricing: Option<Snapshot>, estimate: nat, reuseFailed: bool,
                        now: int) returns (outcome: Outcome)
      modifies this
      ensures Performed(Call.ReserveVideo(user, client, pricing, estimate, reuseFailed, now), outcome)
    {
      Audited(View(), Call.ReserveVideo(user, client, pricing, estimate, reuseFailed, now));
      var existing := Find(rows, user, client);
      if existing.None? {
        outcome := Reserve(|rows|, NewRow(user, client, VIDEO, RESERVED, pricing, estimate, Nothing, now));
      } else if reuseFailed && rows[existing.value].status == FAILED {
        outcome := Reserve(existing.value, Renewed(existing.value, pricing, estimate));
      } else {
        outcome := Refused("duplicate_request");
      }
    }

    method SettleVideo(user: string, id: nat, charged: nat, delivers: bool, bills: bool)
        returns (outcome: Outcome)
      modifies this
      ensures Performed(Call.SettleVideo(user, id, charged, delivers, bills), outcome)
    {
      Audited(View(), Call.SettleVideo(user, id, charged, delivers, bills));
      if !IsOpen(Some(user), id) {
        return Skipped;
      }
      var stored := if delivers then Media else rows[id].stored;
      outcome := Settle(id, Finished(rows[id], SUCCEEDED, charged, stored), ChargingReserved(charged), bills);
    }

    method ReleaseVideo(user: string, id: nat, amount: nat) returns (outcome: Outcome)
      modifies this
      ensures Performed(Call.ReleaseVideo(user, id, amount), outcome)
    {
      Audited(View(), Call.ReleaseVideo(user, id, amount));
      if !IsOpen(Some(user), id) {
        return Skipped;
      }
      outcome := Commit(id, rows[id].(status := FAILED, completed := true), Releasing(amount));
    }

    method RefundVideo(user: string, client: string) returns (outcome: Outcome)
      modifies this
      ensures Performed(Call.RefundVideo(user, client), outcome)
    {
      Audited(View(), Call.RefundVideo(user, client));
      var existing := Find(rows, user, client);
      if existing.None? {
        return Skipped;
      }
      var id, request := existing.value, rows[existing.value];
      if request.capability != VIDEO || request.status == REFUNDED {
        return Skipped;
      }
      if request.status == SUCCEEDED {
        if request.charged <= 0 {
          return Skipped;
        }
        outcome := Commit(id, request.(status := REFUNDED, completed := true), Refunding(request.charged));
        return;
      }
      if !Active(request) {
        return Skipped;
      }
      outcome := Commit(id, request.(status := FAILED, completed := true), Releasing(request.estimated));
    }

    /** `aiRequest.update` by id alone, with status PROCESSING. */
    method MarkVideo(id: nat) returns (outcome: Outcome)
      modifies this
      ensures Performed(Call.MarkVideo(id), outcome)
    {
      Audited(View(), Call.MarkVideo(id));
      if id >= |rows| {
        return Refused("record_not_found");
      }
      rows := rows[id := rows[id].(status := PROCESSING, stored := Media)];
      outcome := Done;
    }

    /** `aiRequest.update` by id alone, with the result only. */
    method KeepVideoResult(id: nat) returns (outcome: Outcome)
      modifies this
      ensures Performed(Call.KeepVideoResult(id), outcome)
    {
      Audited(View(), Call.KeepVideoResult(id));
      if id >= |rows| {
        return Refused("record_not_found");
      }
      rows := rows[id := rows[id].(stored := Media)];
      outcome := Done;
    }

    /** The request part of `recordVideoTaskSubmission`. */
    method SubmitVideoTask(id: nat) returns (outcome: Outcome)
      modifies this
      ensures Performed(Call.SubmitVideoTask(id), outcome)
    {
      Audited(View(), Call.SubmitVideoTask(id));
      if id >= |rows| || rows[id].status != RESERVED {
        return Skipped;
      }
      rows := rows[id := rows[id].(status := PROCESSING)];
      outcome := Done;
    }

    /** `settleVideoRequestIfTerminal` once all tasks are terminal. */
    method SettleVideoTasks(id: nat, delivered: bool, quoted: nat) returns (outcome: Outcome)
      modifies this
      ensures Performed(Call.SettleVideoTasks(id, delivered, quoted), outcome)
    {
      Audited(View(), Call.SettleVideoTasks(id, delivered, quoted));
      if !IsOpen(None, id) {
        return Skipped;
      }
      var request := rows[id];
      if !delivered {
        outcome := Commit(id, Finished(request, FAILED, request.charged, Media), Releasing(request.estimated));
        return;
      }
      var charged := if request.snapshot.Some? then quoted else request.estimated;
      if charged > request.estimated {
        return Refused("final_video_charge_exceeds_estimate");
      }
      var money := ChargingTasks(request.estimated, charged);
      outcome := Settle(id, Finished(request, SUCCEEDED, charged, Media), money, request.snapshot.Some?);
    }

    /** The release transaction of the sweeper for one candidate. */
    method Sweep(id: nat, estimate: nat, staleBefore: int) returns (outcome: Outcome)
      modifies this
      ensures Performed(Call.Sweep(id, estimate, staleBefore), outcome)
    {
      Audited(View(), Call.Sweep(id, estimate, staleBefore));
      if !IsOpen(None, id) || !(rows[id].capability == IMAGE || rows[id].capability == VIDEO)
         || rows[id].createdAt >= staleBefore || rows[id].completed || rows[id].estimated != estimate {
        return Skipped;
      }
      outcome := Commit(id, rows[id].(status := FAILED, completed := true), Releasing(estimate));
    }

    // ---- music ---------------------------------------------------------------------------------

    method ReserveMusic(user: string, client: string, snapshot: Snapshot, now: int) returns (outcome: Outcome)
      modifies this
      ensures Performed(Call.ReserveMusic(user, client, snapshot, now), outcome)
    {
      Audited(View(), Call.ReserveMusic(user, client, snapshot, now));
      if Find(rows, user, client).Some? {
        return Refused("duplicate_request");
      }
      var row := NewRow(user, client, AUDIO, PROCESSING, Some(snapshot), snapshot.quoted, Nothing, now);
      outcome := Reserve(|rows|, row);
    }

    method KeepMusicReceipt(id: nat) returns (outcome: Outcome)
      modifies this
      ensures Performed(Call.KeepMusicReceipt(id), outcome)
    {
      Audited(View(), Call.KeepMusicReceipt(id));
      if id >= |rows| || rows[id].status != PROCESSING {
        return Skipped;
      }
      rows := rows[id := rows[id].(stored := MusicReceipt)];
      outcome := Done;
    }

    method SettleMusic(id: nat, credits: nat) returns (outcome: Outcome)
      modifies this
      ensures Performed(Call.SettleMusic(id, credits), outcome)
    {
      Audited(View(), Call.SettleMusic(id, credits));
      if id >= |rows| || rows[id].status != PROCESSING {
        return Skipped;
      }
      outcome := Settle(id, Finished(rows[id], SUCCEEDED, credits, Media), ChargingMusic(credits), true);
    }

    method RejectMusic(id: nat, credits: nat) returns (outcome: Outcome)
      modifies this
      ensures Performed(Call.RejectMusic(id, credits), outcome)
    {
      Audited(View(), Call.RejectMusic(id, credits));
      if id >= |rows| || rows[id].status != PROCESSING {
        return Skipped;
      }
      outcome := Commit(id, Finished(rows[id], FAILED, rows[id].charged, Nothing), Releasing(credits));
    }

    // ---- chat, grants and wallets --------------------------------------------------------------

    /** `reserveCredits` of the chat and vision requests. */
    method ReserveChat(user: string, client: string, pricing: Option<Snapshot>, estimate: nat, now: int)
        returns (outcome: Outcome)
      modifies this
      ensures Performed(Call.ReserveChat(user, client, pricing, estimate, now), outcome)
    {
      Audited(View(), Call.ReserveChat(user, client, pricing, estimate, now));
      if Find(rows, user, client).Some? {
        return Refused("duplicate_request");
      }
      outcome := Reserve(|rows|, NewRow(user, client, OTHER, RESERVED, pricing, estimate, Nothing, now));
    }

    /** `settleCredits`: a charge beyond the reservation is debited when the wallet can pay it. */
    method SettleChat(user: string, id: nat, charged: nat, bills: bool) returns (outcome: Outcome)
      modifies this
      ensures Performed(Call.SettleChat(user, id, charged, bills), outcome)
    {
      Audited(View(), Call.SettleChat(user, id, charged, bills));
      if !IsOpen(Some(user), id) {
        return Skipped;
      }
      var request := rows[id];
      var settled := Finished(request, SUCCEEDED, charged, if bills then Media else request.stored);
      if charged <= request.estimated {
        outcome := Settle(id, settled, Charging(request.estimated, charged), bills);
      } else if user in purses && purses[user].available >= charged - request.estimated {
        outcome := Settle(id, settled, ChargingExtra(request.estimated, charged), bills);
      } else {
        outcome := Refused("insufficient_credits");
      }
    }

    /** `releaseCredits` */
    method ReleaseChat(user: string, id: nat) returns (outcome: Outcome)
      modifies this
      ensures Performed(Call.ReleaseChat(user, id), outcome)
    {
      Audited(View(), Call.ReleaseChat(user, id));
      if !IsOpen(Some(user), id) {
        return Skipped;
      }
      outcome := Commit(id, rows[id].(status := FAILED, completed := true), Releasing(rows[id].estimated));
    }

    /** A wallet is created empty, once per user. */
    method OpenWallet(user: string) returns (outcome: Outcome)
      modifies this
      ensures Performed(Call.OpenWallet(user), outcome)
    {
      Audited(View(), Call.OpenWallet(user));
      if user in purses {
        return Skipped;
      }
      purses := purses[user := Purse(0, 0, 0)];
      outcome := Done;
    }

    method Grant(user: string, amount: nat) returns (outcome: Outcome)
      modifies this
      ensures Performed(Call.Grant(user, amount), outcome)
    {
      Audited(View(), Call.Grant(user, amount));
      var balance;
      outcome, balance := UpdateWallet(user, Granting(amount));
      if outcome == Done {
        AppendLedger(user, None, Granting(amount).lines, balance);
      }
    }
  }
}
