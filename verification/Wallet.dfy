/** Wallets, request rows and the append-only ledger, and every transaction that moves them
    (src/modules/ai/image-operation-wallet.ts, image-service.ts, video-task-service.ts, music-service.ts,
    service.ts, request-recovery.ts), with the constraints of the database that can refuse it
    (prisma/migrations/20260716000000_init/migration.sql, 20260907120000_unified_ai_model_catalog).
    Credits are whole millionths; a table is the sequence of its rows in creation order and a row's
    id is its position. A transaction is a `Call`; `Effect` decides it and `Apply` commits it. */
module Wallet {
  import opened JsonValues
  import opened Journals

  datatype Status = PENDING | RESERVED | PROCESSING | SUCCEEDED | FAILED | REFUNDED
  datatype Capability = IMAGE | VIDEO | AUDIO | OTHER

  /** A pricing snapshot. `quoted` is what `calculateSnapshotCharge(snapshot)` yields and `single`
      what it yields for one generated result: the calculation is a function of the snapshot. */
  datatype Snapshot = Snapshot(
    schemaVersion: int, modality: string, operation: Option<string>, speed: Option<string>,
    unitCredits: Option<string>, quoted: nat, single: nat)

  /** Estimates and charges are never negative (`AiRequest_nonnegative_credits`); `billed` says that
      there is an `AiBillingSettlement` for the request. */
  datatype Row = Row(
    user: string, client: string, capability: Capability, status: Status,
    snapshot: Option<Snapshot>, estimated: nat, charged: nat, stored: Stored,
    createdAt: int, completed: bool, billed: bool)

  datatype Purse = Purse(available: int, reserved: int, consumed: int)

  datatype Kind = GRANT | RESERVE | CHARGE | RELEASE | REFUND
  datatype Line = Line(kind: Kind, amount: int)
  datatype Entry = Entry(user: string, request: Option<nat>, line: Line, balanceAfter: int)

  datatype State = State(purses: map<string, Purse>, rows: seq<Row>, ledger: seq<Entry>)

  function NewRow(user: string, client: string, capability: Capability, status: Status, snapshot: Option<Snapshot>,
                  estimated: nat, stored: Stored, now: int): Row {
    Row(user, client, capability, status, snapshot, estimated, 0, stored, now, false, false)
  }

  predicate Active(row: Row) {
    row.status == RESERVED || row.status == PROCESSING
  }

  /** The unique index on (userId, clientRequestId). */
  function Find(rows: seq<Row>, user: string, client: string): (id: Option<nat>)
    ensures id.Some? ==> id.value < |rows| && rows[id.value].user == user && rows[id.value].client == client
    ensures id.None? ==> forall i :: 0 <= i < |rows| ==> rows[i].user != user || rows[i].client != client
  {
    if rows == [] then None
    else
      var n := |rows| - 1;
      var earlier := Find(rows[..n], user, client);
      if earlier.Some? then earlier
      else if rows[n].user == user && rows[n].client == client then Some(n)
      else None
  }

  // ---- committing a change -------------------------------------------------------------------

  /** Increments of the three purse columns, with the ledger rows that record them. */
  datatype Money = Money(available: int, reserved: int, consumed: int, lines: seq<Line>)

  /** `Keep` commits nothing; `Put` creates or replaces one row; `Credit` is a grant; `NewPurse`
      creates an empty wallet. */
  datatype Change =
    | Keep
    | Put(id: nat, row: Row, money: Option<Money>)
    | Credit(user: string, amount: nat)
    | NewPurse(user: string)

  function Adjust(purse: Purse, money: Money): Purse {
    Purse(purse.available + money.available, purse.reserved + money.reserved, purse.consumed + money.consumed)
  }

  /** `Wallet_nonnegative_credits` */
  predicate NonNegative(purse: Purse) {
    purse.available >= 0 && purse.reserved >= 0 && purse.consumed >= 0
  }

  /** There is a wallet, and the table constraint admits what the increments make of it. */
  predicate Takes(s: State, user: string, money: Money) {
    user in s.purses && NonNegative(Adjust(s.purses[user], money))
  }

  predicate Fits(s: State, change: Change) {
    match change
    case Keep => true
    case Put(id, row, money) =>
      && id <= |s.rows|
      && (id < |s.rows| ==> row.user == s.rows[id].user && row.client == s.rows[id].client)
      && (id == |s.rows| ==> Find(s.rows, row.user, row.client).None?)
      && (money.Some? ==> Takes(s, row.user, money.value))
    case Credit(user, amount) => Takes(s, user, Granting(amount))
    case NewPurse(user) => user !in s.purses
  }

  /** The ledger rows of one transaction all carry the balance it leaves. */
  function Posted(user: string, request: Option<nat>, lines: seq<Line>, balance: int): seq<Entry> {
    if lines == [] then []
    else Posted(user, request, lines[..|lines| - 1], balance) + [Entry(user, request, lines[|lines| - 1], balance)]
  }

  function Written(rows: seq<Row>, id: nat, row: Row): seq<Row>
    requires id <= |rows|
  {
    if id == |rows| then rows + [row] else rows[id := row]
  }

  function Paid(s: State, user: string, request: Option<nat>, money: Money): State
    requires user in s.purses
  {
    var purse := Adjust(s.purses[user], money);
    s.(purses := s.purses[user := purse],
       ledger := s.ledger + Posted(user, request, money.lines, purse.available))
  }

  function Granting(amount: nat): Money {
    Money(amount, 0, 0, [Line(GRANT, amount)])
  }

  function Apply(s: State, change: Change): State
    requires Fits(s, change)
  {
    match change
    case Keep => s
    case Put(id, row, money) =>
      var written := s.(rows := Written(s.rows, id, row));
      if money.Some? then Paid(written, row.user, Some(id), money.value) else written
    case Credit(user, amount) => Paid(s, user, None, Granting(amount))
    case NewPurse(user) => s.(purses := s.purses[user := Purse(0, 0, 0)])
  }

  // ---- the transactions ----------------------------------------------------------------------

  /** `Done` committed; `Skipped` returned without writing; `Refused` threw and rolled back. */
  datatype Outcome = Done | Skipped | Refused(code: string)

  datatype Verdict = Verdict(outcome: Outcome, change: Change)

  datatype Call =
    | ReserveOperation(user: string, client: string, snapshot: Snapshot, journal: Journal, now: int)
    | SettleOperation(user: string, id: nat, journal: Journal)
    | ReleaseOperation(user: string, id: nat, journal: Journal)
    | SaveJournal(user: string, id: nat, expected: Stored, journal: Journal)
    | ClaimRefresh(user: string, id: nat, expected: Stored, journal: Journal)
    | ReserveImage(user: string, client: string, pricing: Option<Snapshot>, estimate: nat, replayable: bool, now: int)
    | SettleImage(user: string, id: nat, charged: nat, bills: bool)
    | ReleaseImage(user: string, id: nat, amount: nat)
    | ReserveVideo(user: string, client: string, pricing: Option<Snapshot>, estimate: nat, reuseFailed: bool, now: int)
    | SettleVideo(user: string, id: nat, charged: nat, delivers: bool, bills: bool)
    | ReleaseVideo(user: string, id: nat, amount: nat)
    | RefundVideo(user: string, client: string)
    | Sweep(id: nat, estimate: nat, staleBefore: int)
    | ReserveMusic(user: string, client: string, snapshot: Snapshot, now: int)
    | KeepMusicReceipt(id: nat)
    | SettleMusic(id: nat, credits: nat)
    | RejectMusic(id: nat, credits: nat)
    | MarkImage(user: string, id: nat)
    | RememberImageTask(user: string, id: nat)
    | RetainImageRecovery(user: string, id: nat)
    | MarkVideo(id: nat)
    | KeepVideoResult(id: nat)
    | SubmitVideoTask(id: nat)
    | SettleVideoTasks(id: nat, delivered: bool, quoted: nat)
    | ReserveChat(user: string, client: string, pricing: Option<Snapshot>, estimate: nat, now: int)
    | SettleChat(user: string, id: nat, charged: nat, bills: bool)
    | ReleaseChat(user: string, id: nat)
    | Grant(user: string, amount: nat)
    | OpenWallet(user: string)

  const OPERATIONS := {"imagine", "blend", "describe", "shorten", "uploads", "upscale", "upscale_creative",
    "upscale_subtle", "upscale_subtile", "variation", "high_variation", "low_variation",
    "reroll", "zoom", "custom_zoom", "pan", "inpaint", "modal"}
  const SPEEDS := {"fast", "relax", "turbo"}

  predicate OperationSnapshot(s: Snapshot) {
    && s.modality == "image"
    && s.operation.Some? && s.operation.value in OPERATIONS
    && s.speed.Some? && s.speed.value in SPEEDS
    && s.unitCredits.Some?
  }

  /** The journal's request is the one that was priced. */
  predicate SameRequest(identity: Identity, s: Snapshot)
    requires OperationSnapshot(s)
  {
    identity.operation == s.operation.value && identity.speed == s.speed.value
  }

  /** `hasImageOperationTariff`: the sweeper leaves such a reservation alone. */
  predicate Held(snapshot: Option<Snapshot>) {
    && snapshot.Some?
    && snapshot.value.modality == "image"
    && snapshot.value.operation.Some? && snapshot.value.speed.Some? && snapshot.value.unitCredits.Some?
  }

  predicate Tariffed(snapshot: Option<Snapshot>) {
    snapshot.Some? && snapshot.value.unitCredits.Some?
  }

  function Holding(estimate: int): Money {
    Money(-estimate, estimate, 0, [Line(RESERVE, -estimate)])
  }

  function Releasing(amount: int): Money {
    Money(amount, -amount, 0, [Line(RELEASE, amount)])
  }

  /** Settlement with the unused part of the reservation given back. */
  function Charging(estimated: int, charged: int): Money {
    if charged < estimated
    then Money(estimated - charged, -estimated, charged, [Line(CHARGE, charged), Line(RELEASE, estimated - charged)])
    else Money(0, -estimated, charged, [Line(CHARGE, charged)])
  }

  /** `settleVideo` takes the charge itself out of the reservation. */
  function ChargingReserved(charged: int): Money {
    Money(0, -charged, charged, [Line(CHARGE, charged)])
  }

  function Refunding(amount: int): Money {
    Money(amount, 0, -amount, [Line(REFUND, amount)])
  }

  function Positive(kind: Kind, amount: int): seq<Line> {
    if amount > 0 then [Line(kind, amount)] else []
  }

  /** `settleVideoRequestIfTerminal` writes no ledger row for nothing. */
  function ChargingTasks(estimated: int, charged: int): Money {
    Money(estimated - charged, -estimated, charged, Positive(CHARGE, charged) + Positive(RELEASE, estimated - charged))
  }

  /** A chat charge beyond the reservation is taken from the available balance without a ledger row
      of its own. */
  function ChargingExtra(estimated: int, charged: int): Money {
    Money(estimated - charged, -estimated, charged, [Line(CHARGE, charged)])
  }

  /** Music settlement leaves `lifetimeConsumed` alone and records the charge as a negative amount. */
  function ChargingMusic(credits: int): Money {
    Money(0, -credits, 0, [Line(CHARGE, -credits)])
  }

  /** What every decided transaction satisfies: it can be committed, and only success commits. */
  predicate Decided(s: State, verdict: Verdict) {
    Fits(s, verdict.change) && (verdict.change != Keep ==> verdict.outcome == Done)
  }

  function Refuse(code: string): Verdict {
    Verdict(Refused(code), Keep)
  }

  const Skip := Verdict(Skipped, Keep)

  /** Commits a row write with its wallet update, or rolls back when the wallet is missing or the table
      constraint refuses the update. */
  function Commit(s: State, id: nat, row: Row, money: Money): (verdict: Verdict)
    requires id <= |s.rows|
    requires id < |s.rows| ==> row.user == s.rows[id].user && row.client == s.rows[id].client
    requires id == |s.rows| ==> Find(s.rows, row.user, row.client).None?
    ensures Decided(s, verdict)
  {
    if row.user !in s.purses then Refuse("record_not_found")
    else if !Takes(s, row.user, money) then Refuse("constraint")
    else Verdict(Done, Put(id, row, Some(money)))
  }

  /** A settlement that bills creates the one `AiBillingSettlement` its request may have. */
  function Settle(s: State, id: nat, row: Row, money: Money, bills: bool): (verdict: Verdict)
    requires id < |s.rows| && row.user == s.rows[id].user && row.client == s.rows[id].client
    ensures Decided(s, verdict)
  {
    if bills && row.billed then Refuse("constraint") else Commit(s, id, row.(billed := row.billed || bills), money)
  }

  function Finished(row: Row, status: Status, charged: nat, stored: Stored): Row {
    row.(status := status, charged := charged, stored := stored, completed := true)
  }

  /** A reservation that found no row to reuse, on a wallet that can pay for it. */
  function Create(s: State, row: Row): (verdict: Verdict)
    requires Find(s.rows, row.user, row.client).None?
    ensures Decided(s, verdict)
  {
    if row.user in s.purses && s.purses[row.user].available >= row.estimated
    then Commit(s, |s.rows|, row, Holding(row.estimated))
    else Refuse("insufficient_credits")
  }

  function Reopen(s: State, id: nat, pricing: Option<Snapshot>, estimate: nat): (verdict: Verdict)
    requires id < |s.rows|
    ensures Decided(s, verdict)
  {
    var row := s.rows[id];
    if row.user in s.purses && s.purses[row.user].available >= estimate
    then Commit(s, id, row.(status := RESERVED, estimated := estimate, charged := 0, stored := Nothing,
                            snapshot := if pricing.Some? then pricing else row.snapshot, completed := false),
                Holding(estimate))
    else Refuse("insufficient_credits")
  }

  function ReserveOperationEffect(s: State, user: string, client: string, snapshot: Snapshot, journal: Journal,
                                  now: int): (verdict: Verdict)
    ensures Decided(s, verdict)
  {
    if !OperationSnapshot(snapshot) then Refuse("image_operation_price_missing")
    else if !SameRequest(journal.origin.identity, snapshot) then Refuse("image_operation_price_mismatch")
    else if Find(s.rows, user, client).Some? then Skip
    else Create(s, NewRow(user, client, IMAGE, RESERVED, Some(snapshot), snapshot.quoted, Operation(journal), now))
  }

  predicate OperationOpen(s: State, user: string, id: nat) {
    id < |s.rows| && s.rows[id].user == user && s.rows[id].capability == IMAGE && Active(s.rows[id])
  }

  function SettleOperationEffect(s: State, user: string, id: nat, final: Journal): (verdict: Verdict)
    ensures Decided(s, verdict)
  {
    if !OperationOpen(s, user, id) then Skip
    else
      var row := s.rows[id];
      if row.snapshot.None? || row.snapshot.value.schemaVersion != 1 || !OperationSnapshot(row.snapshot.value)
      then Refuse("image_operation_price_missing")
      else if !row.stored.Operation? || row.stored.journal.taskId.None? || row.stored.journal.taskId != final.taskId
           || row.stored.journal.origin.identity != final.origin.identity
           || !SameRequest(final.origin.identity, row.snapshot.value)
      then Refuse("image_operation_identity_mismatch")
      else if row.snapshot.value.single > row.estimated then Refuse("image_operation_price_mismatch")
      else
        var charged := row.snapshot.value.single;
        var receipt := Operation(final.(charged := charged));
        Settle(s, id, Finished(row, SUCCEEDED, charged, receipt), Charging(row.estimated, charged), true)
  }

  function ReleaseOperationEffect(s: State, user: string, id: nat, failed: Journal): (verdict: Verdict)
    ensures Decided(s, verdict)
  {
    if !OperationOpen(s, user, id) then Skip
    else
      var row := s.rows[id];
      if !row.stored.Operation? || row.stored.journal.taskId != failed.taskId
         || row.stored.journal.origin.identity != failed.origin.identity
      then Refuse("image_operation_identity_mismatch")
      else Commit(s, id, Finished(row, FAILED, 0, Operation(failed)), Releasing(row.estimated))
  }

  /** One conditional update: the row is still open and still holds exactly what was read. */
  predicate Unchanged(s: State, user: string, id: nat, expected: Stored) {
    id < |s.rows| && s.rows[id].user == user && Active(s.rows[id]) && s.rows[id].stored == expected
  }

  function ReserveImageEffect(s: State, user: string, client: string, pricing: Option<Snapshot>, estimate: nat,
                              replayable: bool, now: int): (verdict: Verdict)
    ensures Decided(s, verdict)
  {
    match Find(s.rows, user, client)
    case None => Create(s, NewRow(user, client, IMAGE, RESERVED, pricing, estimate, Nothing, now))
    case Some(id) =>
      var row := s.rows[id];
      var operationReceipt := Tariffed(pricing) || Tariffed(row.snapshot) || row.stored.Operation?;
      if row.status == SUCCEEDED && replayable then Skip
      else if row.status == FAILED && !operationReceipt && row.capability == IMAGE then Reopen(s, id, pricing, estimate)
      else Refuse("duplicate_request")
  }

  function SettleImageEffect(s: State, user: string, id: nat, charged: nat, bills: bool): (verdict: Verdict)
    ensures Decided(s, verdict)
  {
    if id < |s.rows| && s.rows[id].user == user && Active(s.rows[id])
    then Settle(s, id, Finished(s.rows[id], SUCCEEDED, charged, Media), Charging(s.rows[id].estimated, charged), bills)
    else Skip
  }

  /** `releaseImageCredits` and `releaseVideo`: the amount is the caller's. */
  function ReleaseEffect(s: State, user: string, id: nat, amount: nat): (verdict: Verdict)
    ensures Decided(s, verdict)
  {
    if id < |s.rows| && s.rows[id].user == user && Active(s.rows[id])
    then Commit(s, id, s.rows[id].(status := FAILED, completed := true), Releasing(amount))
    else Skip
  }

  function ReserveVideoEffect(s: State, user: string, client: string, pricing: Option<Snapshot>, estimate: nat,
                              reuseFailed: bool, now: int): (verdict: Verdict)
    ensures Decided(s, verdict)
  {
    match Find(s.rows, user, client)
    case None => Create(s, NewRow(user, client, VIDEO, RESERVED, pricing, estimate, Nothing, now))
    case Some(id) =>
      if reuseFailed && s.rows[id].status == FAILED then Reopen(s, id, pricing, estimate)
      else Refuse("duplicate_request")
  }

  /** The stored result stays when the caller passes none. */
  function SettleVideoEffect(s: State, user: string, id: nat, charged: nat, delivers: bool, bills: bool)
      : (verdict: Verdict)
    ensures Decided(s, verdict)
  {
    if id < |s.rows| && s.rows[id].user == user && Active(s.rows[id])
    then
      var stored := if delivers then Media else s.rows[id].stored;
      Settle(s, id, Finished(s.rows[id], SUCCEEDED, charged, stored), ChargingReserved(charged), bills)
    else Skip
  }

  // ---- writes that move no credits -----------------------------------------------------------

  /** `markImageRequestProcessing` and `retainImageRetryRecovery`: guarded by the status. The
      recovery note joins whatever result there is. */
  function MarkImageEffect(s: State, user: string, id: nat, noted: bool): (verdict: Verdict)
    ensures Decided(s, verdict)
  {
    if id < |s.rows| && s.rows[id].user == user && Active(s.rows[id])
    then
      var stored := if noted && s.rows[id].stored == Nothing then Media else s.rows[id].stored;
      Verdict(Done, Put(id, s.rows[id].(status := PROCESSING, stored := stored), None))
    else Skip
  }

  function RememberImageTaskEffect(s: State, user: string, id: nat): (verdict: Verdict)
    ensures Decided(s, verdict)
  {
    if id < |s.rows| && s.rows[id].user == user && s.rows[id].status == PROCESSING
    then Verdict(Done, Put(id, s.rows[id].(stored := Media), None))
    else Skip
  }

  /** The two `aiRequest.update` calls of the older video path that set PROCESSING look at nothing
      but the id. */
  function MarkVideoEffect(s: State, id: nat): (verdict: Verdict)
    ensures Decided(s, verdict)
  {
    if id < |s.rows| then Verdict(Done, Put(id, s.rows[id].(status := PROCESSING, stored := Media), None))
    else Refuse("record_not_found")
  }

  /** The two that write the result alone. */
  function KeepVideoResultEffect(s: State, id: nat): (verdict: Verdict)
    ensures Decided(s, verdict)
  {
    if id < |s.rows| then Verdict(Done, Put(id, s.rows[id].(stored := Media), None)) else Refuse("record_not_found")
  }

  // ---- managed video tasks and chat ----------------------------------------------------------

  function SubmitVideoTaskEffect(s: State, id: nat): (verdict: Verdict)
    ensures Decided(s, verdict)
  {
    if id < |s.rows| && s.rows[id].status == RESERVED
    then Verdict(Done, Put(id, s.rows[id].(status := PROCESSING), None))
    else Skip
  }

  /** Called when every task of the request is terminal; `quoted` is the charge for those delivered. */
  function SettleVideoTasksEffect(s: State, id: nat, delivered: bool, quoted: nat): (verdict: Verdict)
    ensures Decided(s, verdict)
  {
    if id >= |s.rows| || !Active(s.rows[id]) then Skip
    else
      var row := s.rows[id];
      var charged := if row.snapshot.Some? then quoted else row.estimated;
      if !delivered then Commit(s, id, Finished(row, FAILED, row.charged, Media), Releasing(row.estimated))
      else if charged > row.estimated then Refuse("final_video_charge_exceeds_estimate")
      else
        Settle(s, id, Finished(row, SUCCEEDED, charged, Media), ChargingTasks(row.estimated, charged),
               row.snapshot.Some?)
  }

  function ReserveChatEffect(s: State, user: string, client: string, pricing: Option<Snapshot>, estimate: nat,
                             now: int): (verdict: Verdict)
    ensures Decided(s, verdict)
  {
    if Find(s.rows, user, client).Some? then Refuse("duplicate_request")
    else Create(s, NewRow(user, client, OTHER, RESERVED, pricing, estimate, Nothing, now))
  }

  function SettleChatEffect(s: State, user: string, id: nat, charged: nat, bills: bool): (verdict: Verdict)
    ensures Decided(s, verdict)
  {
    if id >= |s.rows| || s.rows[id].user != user || !Active(s.rows[id]) then Skip
    else
      var row := s.rows[id];
      var settled := Finished(row, SUCCEEDED, charged, if bills then Media else row.stored);
      if charged <= row.estimated then Settle(s, id, settled, Charging(row.estimated, charged), bills)
      else if user in s.purses && s.purses[user].available >= charged - row.estimated
      then Settle(s, id, settled, ChargingExtra(row.estimated, charged), bills)
      else Refuse("insufficient_credits")
  }

  function ReleaseChatEffect(s: State, user: string, id: nat): (verdict: Verdict)
    ensures Decided(s, verdict)
  {
    if id < |s.rows| && s.rows[id].user == user && Active(s.rows[id])
    then Commit(s, id, s.rows[id].(status := FAILED, completed := true), Releasing(s.rows[id].estimated))
    else Skip
  }

  function RefundVideoEffect(s: State, user: string, client: string): (verdict: Verdict)
    ensures Decided(s, verdict)
  {
    match Find(s.rows, user, client)
    case None => Skip
    case Some(id) =>
      var row := s.rows[id];
      if row.capability != VIDEO || row.status == REFUNDED then Skip
      else if row.status == SUCCEEDED then
        if row.charged <= 0 then Skip
        else Commit(s, id, row.(status := REFUNDED, completed := true), Refunding(row.charged))
      else if !Active(row) then Skip
      else Commit(s, id, row.(status := FAILED, completed := true), Releasing(row.estimated))
  }

  /** The release transaction of the sweeper, for a candidate it selected earlier. */
  function SweepEffect(s: State, id: nat, estimate: nat, staleBefore: int): (verdict: Verdict)
    ensures Decided(s, verdict)
  {
    if id < |s.rows| && (s.rows[id].capability == IMAGE || s.rows[id].capability == VIDEO) && Active(s.rows[id])
       && s.rows[id].createdAt < staleBefore && !s.rows[id].completed && s.rows[id].estimated == estimate
    then Commit(s, id, s.rows[id].(status := FAILED, completed := true), Releasing(estimate))
    else Skip
  }

  function ReserveMusicEffect(s: State, user: string, client: string, snapshot: Snapshot, now: int): (verdict: Verdict)
    ensures Decided(s, verdict)
  {
    if Find(s.rows, user, client).Some? then Refuse("duplicate_request")
    else Create(s, NewRow(user, client, AUDIO, PROCESSING, Some(snapshot), snapshot.quoted, Nothing, now))
  }

  function SettleMusicEffect(s: State, id: nat, credits: nat): (verdict: Verdict)
    ensures Decided(s, verdict)
  {
    if id < |s.rows| && s.rows[id].status == PROCESSING
    then Settle(s, id, Finished(s.rows[id], SUCCEEDED, credits, Media), ChargingMusic(credits), true)
    else Skip
  }

  function RejectMusicEffect(s: State, id: nat, credits: nat): (verdict: Verdict)
    ensures Decided(s, verdict)
  {
    if id < |s.rows| && s.rows[id].status == PROCESSING
    then Commit(s, id, Finished(s.rows[id], FAILED, s.rows[id].charged, Nothing), Releasing(credits))
    else Skip
  }

  function Effect(s: State, call: Call): (verdict: Verdict)
    ensures Decided(s, verdict)
  {
    match call
    case ReserveOperation(user, client, snapshot, journal, now) =>
      ReserveOperationEffect(s, user, client, snapshot, journal, now)
    case SettleOperation(user, id, journal) => SettleOperationEffect(s, user, id, journal)
    case ReleaseOperation(user, id, journal) => ReleaseOperationEffect(s, user, id, journal)
    case SaveJournal(user, id, expected, journal) =>
      if Unchanged(s, user, id, expected)
      then Verdict(Done, Put(id, s.rows[id].(status := PROCESSING, stored := Operation(journal)), None)) else Skip
    case ClaimRefresh(user, id, expected, journal) =>
      if Unchanged(s, user, id, expected)
      then Verdict(Done, Put(id, s.rows[id].(stored := Operation(journal)), None)) else Skip
    case ReserveImage(user, client, pricing, estimate, replayable, now) =>
      ReserveImageEffect(s, user, client, pricing, estimate, replayable, now)
    case SettleImage(user, id, charged, bills) => SettleImageEffect(s, user, id, charged, bills)
    case ReleaseImage(user, id, amount) => ReleaseEffect(s, user, id, amount)
    case ReserveVideo(user, client, pricing, estimate, reuseFailed, now) =>
      ReserveVideoEffect(s, user, client, pricing, estimate, reuseFailed, now)
    case SettleVideo(user, id, charged, delivers, bills) => SettleVideoEffect(s, user, id, charged, delivers, bills)
    case ReleaseVideo(user, id, amount) => ReleaseEffect(s, user, id, amount)
    case RefundVideo(user, client) => RefundVideoEffect(s, user, client)
    case Sweep(id, estimate, staleBefore) => SweepEffect(s, id, estimate, staleBefore)
    case ReserveMusic(user, client, snapshot, now) => ReserveMusicEffect(s, user, client, snapshot, now)
    case KeepMusicReceipt(id) =>
      if id < |s.rows| && s.rows[id].status == PROCESSING
      then Verdict(Done, Put(id, s.rows[id].(stored := MusicReceipt), None)) else Skip
    case SettleMusic(id, credits) => SettleMusicEffect(s, id, credits)
    case RejectMusic(id, credits) => RejectMusicEffect(s, id, credits)
    case MarkImage(user, id) => MarkImageEffect(s, user, id, false)
    case RememberImageTask(user, id) => RememberImageTaskEffect(s, user, id)
    case RetainImageRecovery(user, id) => MarkImageEffect(s, user, id, true)
    case MarkVideo(id) => MarkVideoEffect(s, id)
    case KeepVideoResult(id) => KeepVideoResultEffect(s, id)
    case SubmitVideoTask(id) => SubmitVideoTaskEffect(s, id)
    case SettleVideoTasks(id, delivered, quoted) => SettleVideoTasksEffect(s, id, delivered, quoted)
    case ReserveChat(user, client, pricing, estimate, now) => ReserveChatEffect(s, user, client, pricing, estimate, now)
    case SettleChat(user, id, charged, bills) => SettleChatEffect(s, user, id, charged, bills)
    case ReleaseChat(user, id) => ReleaseChatEffect(s, user, id)
    case Grant(user, amount) =>
      if user !in s.purses then Refuse("record_not_found")
      else if !Takes(s, user, Granting(amount)) then Refuse("constraint")
      else Verdict(Done, Credit(user, amount))
    case OpenWallet(user) => if user in s.purses then Skip else Verdict(Done, NewPurse(user))
  }

  function After(s: State, call: Call): State {
    Apply(s, Effect(s, call).change)
  }
}
