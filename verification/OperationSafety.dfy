/** What every interleaving of `OperationProtocol` keeps. Each step of a thread, and each foreign
    transaction, moves the row only as `RowMoves` allows (the guarantee); what a thread knows about
    the row survives every such move of the others (the rely). */
module OperationSafety {
  import opened JsonValues
  import opened TaskMetadata
  import opened Journals
  import opened Wallet
  import opened WalletBooks
  import opened OperationProtocol

  // ---- how an operation row may move ---------------------------------------------------------

  function StoredJournal(row: Option<Row>): Journal
    requires IsOperation(row)
  {
    row.value.stored.journal
  }

  /** Kept between any two moments of one operation row: its origin and tariff never change, a
      stored task id is never replaced, a terminal row is frozen, and while it is open its journal
      only learns. */
  ghost predicate Later(x: Row, y: Row)
    requires x.stored.Operation?
  {
    && y.stored.Operation?
    && x.user == y.user && x.client == y.client && x.capability == y.capability
    && x.snapshot == y.snapshot && x.estimated == y.estimated
    && x.stored.journal.origin == y.stored.journal.origin
    && (x.stored.journal.taskId.Some? ==> y.stored.journal.taskId == x.stored.journal.taskId)
    && (!Active(x) ==> y == x)
    && (Active(x) && Active(y) ==> Grows(x.stored.journal, y.stored.journal))
  }

  /** Kept by one step: an open row closes with the task id it already had, and succeeds only when
      it had one. */
  ghost predicate Closes(x: Row, y: Row)
    requires x.stored.Operation? && y.stored.Operation?
  {
    Active(x) && !Active(y) ==>
      && (y.status == SUCCEEDED || y.status == FAILED)
      && y.stored.journal.taskId == x.stored.journal.taskId
      && (y.status == SUCCEEDED ==> x.stored.journal.taskId.Some?)
  }

  /** A video request under the same id takes a failed row over: it is no receipt any more. */
  predicate TakenOver(x: Row, y: Row) {
    x.status == FAILED && y.status == RESERVED && y.stored == Nothing
  }

  ghost predicate RowMoves(x: Option<Row>, y: Option<Row>) {
    && (x.Some? ==> y.Some?)
    && (x.Some? && IsOperation(y) ==> IsOperation(x))
    && (x.None? && IsOperation(y) ==> Active(y.value))
    && (IsOperation(x) && IsOperation(y) ==> Later(x.value, y.value) && Closes(x.value, y.value))
    && (IsOperation(x) && !IsOperation(y) ==> TakenOver(x.value, y.value))
  }

  lemma LaterTransitive(x: Row, y: Row, z: Row)
    requires x.stored.Operation? && Later(x, y) && Later(y, z)
    ensures Later(x, z)
  {
  }

  // ---- what a thread knows -------------------------------------------------------------------

  /** The journal is of the receipt in the row, as long as there is one. */
  predicate Mine(j: Journal, row: Option<Row>) {
    row.Some? && (IsOperation(row) ==> j.origin == StoredJournal(row).origin)
  }

  /** The journal names a task and the row has stored that very task. */
  predicate Accepted(j: Journal, row: Option<Row>) {
    Mine(j, row) && j.taskId.Some? && (IsOperation(row) ==> StoredJournal(row).taskId == j.taskId)
  }

  predicate CallerKnows(caller: Caller, row: Option<Row>) {
    Mine(caller.base, row) && (caller.Submitter? ==> caller.base.taskId.None?)
  }

  predicate GoalKnows(caller: Caller, journal: Journal, goal: Goal, row: Option<Row>) {
    match goal
    case ThenPost => caller.Submitter?
    case ThenStop(_) => true
    case ThenJudge(next) =>
      Mine(next, row) && next.origin == caller.base.origin && next.taskId.Some? && journal.taskId == next.taskId
  }

  predicate SaverKnows(caller: Caller, journal: Journal, goal: Goal, row: Option<Row>) {
    && CallerKnows(caller, row) && Mine(journal, row) && journal.origin == caller.base.origin
    && GoalKnows(caller, journal, goal, row)
  }

  predicate ShownIsAsked(asked: Option<string>, shown: Option<Journal>) {
    asked.Some? && shown.Some? ==> shown.value.origin.identity.fingerprint == asked.value
  }

  predicate Knows(pc: Pc, row: Option<Row>) {
    match pc
    case Looking(base, _) => base.taskId.None?
    case Reserving(base, _) => base.taskId.None?
    case Posting(base) => Mine(base, row) && base.taskId.None?
    case Opening => true
    case Claiming(base) => Mine(base, row)
    case Fetching(base) => Mine(base, row)
    case SaveReading(caller, journal, _, goal) => SaverKnows(caller, journal, goal, row)
    case SaveWriting(caller, journal, _, goal, prior) =>
      SaverKnows(caller, journal, goal, row) && (prior.taskId.Some? ==> prior.taskId == journal.taskId)
    case SaveLost(caller, journal, goal) => SaverKnows(caller, journal, goal, row)
    case Collecting(caller, next) =>
      CallerKnows(caller, row) && Accepted(next, row) && next.origin == caller.base.origin
    case Settling(caller, final) =>
      CallerKnows(caller, row) && Accepted(final, row) && final.origin == caller.base.origin
    case Refunding(caller, failed, rejection) =>
      && CallerKnows(caller, row) && failed.origin == caller.base.origin
      && (if rejection then caller.Submitter? && Mine(failed, row) && failed.taskId.None? else Accepted(failed, row))
    case Recovering(caller, _) => CallerKnows(caller, row)
    case Showing(caller, fallback, _) => CallerKnows(caller, row) && fallback.origin == caller.base.origin
    case Exited(asked, shown) => ShownIsAsked(asked, shown)
  }

  /** Rely: knowledge survives whatever the row does meanwhile. */
  lemma KnowledgeIsStable(pc: Pc, x: Option<Row>, y: Option<Row>)
    requires Knows(pc, x) && RowMoves(x, y)
    ensures Knows(pc, y)
  {
  }

  // ---- the row and its ledger lines ----------------------------------------------------------

  predicate UniqueKeys(rows: seq<Row>) {
    forall i, j :: 0 <= i < j < |rows| ==> rows[i].user != rows[j].user || rows[i].client != rows[j].client
  }

  /** An operation row was created by `reserveOperationCredits` and has not been recycled: it holds what
      its tariff quotes, and a settled one was charged the price of one result. */
  predicate Genuine(row: Row) {
    row.stored.Operation? ==>
      && row.capability == IMAGE
      && row.snapshot.Some? && OperationSnapshot(row.snapshot.value)
      && row.stored.journal.origin.identity.operation == row.snapshot.value.operation.value
      && row.stored.journal.origin.identity.speed == row.snapshot.value.speed.value
      && (Active(row) || row.status == SUCCEEDED || row.status == FAILED)
      && row.estimated == row.snapshot.value.quoted
      && (row.status == SUCCEEDED ==>
            && row.stored.journal.taskId.Some?
            && row.charged == row.snapshot.value.single == row.stored.journal.charged && row.charged <= row.estimated)
  }

  /** All ledger lines of one request, oldest first. */
  function LinesOf(ledger: seq<Entry>, id: nat): seq<Line> {
    if ledger == [] then []
    else
      var last := ledger[|ledger| - 1];
      LinesOf(ledger[..|ledger| - 1], id) + if last.request == Some(id) then [last.line] else []
  }

  /** One reservation, then at most one outcome. */
  function ExpectedLines(row: Row): seq<Line> {
    Holding(row.estimated).lines
    + if row.status == SUCCEEDED then Charging(row.estimated, row.charged).lines
      else if row.status == FAILED then Releasing(row.estimated).lines
      else []
  }

  lemma {:induction false} LinesOfPosted(ledger: seq<Entry>, user: string, request: Option<nat>, lines: seq<Line>,
                                         balance: int, id: nat)
    ensures LinesOf(ledger + Posted(user, request, lines, balance), id)
         == LinesOf(ledger, id) + if request == Some(id) then lines else []
  {
    var posted := Posted(user, request, lines, balance);
    if lines == [] {
      assert ledger + posted == ledger;
    } else {
      var n := |lines| - 1;
      LinesOfPosted(ledger, user, request, lines[..n], balance, id);
      assert (ledger + posted)[..|ledger + posted| - 1] == ledger + Posted(user, request, lines[..n], balance);
      assert lines == lines[..n] + [lines[n]];
    }
  }

  lemma {:induction false} NoLines(ledger: seq<Entry>, id: nat)
    requires forall e :: e in ledger ==> e.request != Some(id)
    ensures LinesOf(ledger, id) == []
  {
    if ledger != [] {
      NoLines(ledger[..|ledger| - 1], id);
    }
  }

  /** The lines one change adds. */
  function AddedLines(change: Change, id: nat): seq<Line> {
    if change.Put? && change.id == id && change.money.Some? then change.money.value.lines else []
  }

  lemma LinesAfter(s: State, change: Change, id: nat)
    requires Fits(s, change)
    ensures LinesOf(Apply(s, change).ledger, id) == LinesOf(s.ledger, id) + AddedLines(change, id)
  {
    match change
    case Keep =>
    case NewPurse(_) =>
    case Credit(user, amount) =>
      var balance := Adjust(s.purses[user], Granting(amount)).available;
      LinesOfPosted(s.ledger, user, None, Granting(amount).lines, balance, id);
    case Put(written, row, money) =>
      if money.Some? {
        LinesOfPosted(s.ledger, row.user, Some(written), money.value.lines,
                      Adjust(s.purses[row.user], money.value).available, id);
      }
  }

  // ---- where a change lands ------------------------------------------------------------------

  lemma {:induction false} FindUnique(rows: seq<Row>, id: nat)
    requires UniqueKeys(rows) && id < |rows|
    ensures Find(rows, rows[id].user, rows[id].client) == Some(id)
  {
  }

  predicate Touches(k: Key, change: Change) {
    change.Put? && change.row.user == k.user && change.row.client == k.client
  }

  lemma OwnRowAfter(s: State, k: Key, change: Change)
    requires UniqueKeys(s.rows) && Fits(s, change)
    ensures UniqueKeys(Apply(s, change).rows)
    ensures OwnRow(Apply(s, change), k) == if Touches(k, change) then Some(change.row) else OwnRow(s, k)
    ensures Touches(k, change) ==> OwnId(s, k) == if change.id < |s.rows| then Some(change.id) else None
    ensures OwnId(Apply(s, change), k) == if Touches(k, change) then Some(change.id) else OwnId(s, k)
  {
    var after := Apply(s, change);
    if change.Put? {
      assert after.rows == Written(s.rows, change.id, change.row);
      assert UniqueKeys(after.rows);
      if Touches(k, change) {
        FindUnique(after.rows, change.id);
        if change.id < |s.rows| {
          FindUnique(s.rows, change.id);
        }
      } else if OwnId(s, k).Some? {
        FindUnique(after.rows, OwnId(s, k).value);
      }
    }
  }

  /** Everything a step does to this key's row: nothing, or one allowed move that also keeps the
      row genuine and its ledger lines in order. */
  ghost predicate MovesWell(x: Option<Row>, change: Change, y: Option<Row>) {
    && RowMoves(x, y)
    && (y.Some? ==> Genuine(y.value))
    && (IsOperation(x) && IsOperation(y) && change.Put? && y == Some(change.row) ==>
          ExpectedLines(y.value) == ExpectedLines(x.value) + AddedLines(change, change.id))
    && (x.None? && IsOperation(y) && change.Put? ==> ExpectedLines(y.value) == AddedLines(change, change.id))
  }

  ghost predicate RowInOrder(s: State, k: Key) {
    && UniqueKeys(s.rows)
    && (forall e :: e in s.ledger ==> e.request.Some? ==> e.request.value < |s.rows|)
    && (OwnRow(s, k).Some? ==> Genuine(OwnRow(s, k).value))
    && (IsOperation(OwnRow(s, k)) ==> LinesOf(s.ledger, OwnId(s, k).value) == ExpectedLines(OwnRow(s, k).value))
  }

  lemma EntriesAfter(s: State, change: Change)
    requires Fits(s, change)
    requires forall e :: e in s.ledger ==> e.request.Some? ==> e.request.value < |s.rows|
    ensures forall e :: e in Apply(s, change).ledger ==> e.request.Some? ==> e.request.value < |Apply(s, change).rows|
  {
    match change
    case Keep =>
    case NewPurse(_) =>
    case Credit(user, amount) => PaidTotals(s, user, None, Granting(amount));
    case Put(id, row, money) =>
      if money.Some? {
        PaidTotals(s.(rows := Written(s.rows, id, row)), row.user, Some(id), money.value);
      }
  }

  /** A well-behaved change leaves the row of this key and its lines in order. */
  lemma MoveKeepsOrder(s: State, k: Key, change: Change)
    requires RowInOrder(s, k) && Fits(s, change)
    requires MovesWell(OwnRow(s, k), change, OwnRow(Apply(s, change), k))
    ensures RowInOrder(Apply(s, change), k)
  {
    hide Genuine, ExpectedLines;
    OwnRowAfter(s, k, change);
    EntriesAfter(s, change);
    var id := OwnId(Apply(s, change), k);
    if IsOperation(OwnRow(Apply(s, change), k)) {
      LinesAfter(s, change, id.value);
      if Touches(k, change) {
        if change.id == |s.rows| {
          NoLines(s.ledger, id.value);
        }
      }
    }
  }

  // ---- guarantee: the calls a thread makes ---------------------------------------------------

  lemma ReservationEffect(s: State, k: Key, snapshot: Snapshot, base: Journal, now: int)
    ensures var verdict := Effect(s, ReserveOperation(k.user, k.client, snapshot, base, now));
            if verdict.outcome == Done then
              && OwnRow(s, k).None? && OperationSnapshot(snapshot) && SameRequest(base.origin.identity, snapshot)
              && verdict.change == Put(|s.rows|, NewRow(k.user, k.client, IMAGE, RESERVED, Some(snapshot),
                                                        snapshot.quoted, Operation(base), now),
                                       Some(Holding(snapshot.quoted)))
            else verdict.change == Keep
  {
  }

  lemma ReserveMovesWell(s: State, k: Key, snapshot: Snapshot, base: Journal, now: int)
    requires RowInOrder(s, k)
    ensures var call := ReserveOperation(k.user, k.client, snapshot, base, now);
            && MovesWell(OwnRow(s, k), Effect(s, call).change, OwnRow(After(s, call), k))
            && (Effect(s, call).outcome == Done ==> OwnRow(s, k).None? && Mine(base, OwnRow(After(s, call), k)))
  {
    hide Effect, LinesOf, OperationSnapshot;
    ReservationEffect(s, k, snapshot, base, now);
    OwnRowAfter(s, k, Effect(s, ReserveOperation(k.user, k.client, snapshot, base, now)).change);
  }

  lemma SaveMovesWell(s: State, k: Key, prior: Journal, journal: Journal)
    requires RowInOrder(s, k) && Mine(journal, OwnRow(s, k))
    requires prior.taskId.Some? ==> prior.taskId == journal.taskId
    ensures var merged := MergeJournal(prior, journal);
            var call := SaveJournal(k.user, OwnId(s, k).value, Operation(prior), merged);
            && MovesWell(OwnRow(s, k), Effect(s, call).change, OwnRow(After(s, call), k))
            && (Effect(s, call).outcome == Done ==>
                  && Mine(merged, OwnRow(After(s, call), k))
                  && (journal.taskId.Some? ==> Accepted(merged, OwnRow(After(s, call), k))))
  {
    var call := SaveJournal(k.user, OwnId(s, k).value, Operation(prior), MergeJournal(prior, journal));
    MergeGrows(prior, journal);
    OwnRowAfter(s, k, Effect(s, call).change);
  }

  lemma ClaimMovesWell(s: State, k: Key, base: Journal, nextRefreshAt: int)
    requires RowInOrder(s, k) && Mine(base, OwnRow(s, k))
    ensures var call := ClaimRefresh(k.user, OwnId(s, k).value, Operation(base), base.(nextRefreshAt := nextRefreshAt));
            MovesWell(OwnRow(s, k), Effect(s, call).change, OwnRow(After(s, call), k))
  {
    var call := ClaimRefresh(k.user, OwnId(s, k).value, Operation(base), base.(nextRefreshAt := nextRefreshAt));
    OwnRowAfter(s, k, Effect(s, call).change);
  }

  lemma SettleMovesWell(s: State, k: Key, final: Journal)
    requires RowInOrder(s, k) && Mine(final, OwnRow(s, k))
    ensures var call := SettleOperation(k.user, OwnId(s, k).value, final);
            MovesWell(OwnRow(s, k), Effect(s, call).change, OwnRow(After(s, call), k))
  {
    OwnRowAfter(s, k, SettleOperationEffect(s, k.user, OwnId(s, k).value, final).change);
  }

  lemma ReleaseMovesWell(s: State, k: Key, failed: Journal)
    requires RowInOrder(s, k) && Mine(failed, OwnRow(s, k))
    ensures var call := ReleaseOperation(k.user, OwnId(s, k).value, failed);
            MovesWell(OwnRow(s, k), Effect(s, call).change, OwnRow(After(s, call), k))
  {
    OwnRowAfter(s, k, ReleaseOperationEffect(s, k.user, OwnId(s, k).value, failed).change);
  }

  /** Once the accepted task id is stored, neither the settlement nor the refund that follows from
      it can be refused for a changed receipt: only the refund of a rejected POST can. */
  lemma AcceptedIsNeverRefused(s: State, k: Key, j: Journal)
    requires RowInOrder(s, k) && IsOperation(OwnRow(s, k)) && Accepted(j, OwnRow(s, k))
    ensures var mismatch := Refused("image_operation_identity_mismatch");
            && Effect(s, SettleOperation(k.user, OwnId(s, k).value, j)).outcome != mismatch
            && Effect(s, ReleaseOperation(k.user, OwnId(s, k).value, j)).outcome != mismatch
  {
  }

  /** A refund that names no task leaves a stored receipt alone. */
  lemma RefundCannotEraseReceipt(s: State, k: Key, failed: Journal)
    requires IsOperation(OwnRow(s, k)) && failed.taskId.None? && StoredJournal(OwnRow(s, k)).taskId.Some?
    ensures After(s, ReleaseOperation(k.user, OwnId(s, k).value, failed)) == s
  {
  }

  lemma ThreadMovesWell(p: Policy, k: Key, s: State, pc: Pc, c: Choice)
    requires RowInOrder(s, k) && Knows(pc, OwnRow(s, k))
    ensures var call := Advance(p, k, s, pc, c).call;
            call.Some? ==> MovesWell(OwnRow(s, k), Effect(s, call.value).change, OwnRow(After(s, call.value), k))
  {
    hide MovesWell, Effect, After;
    match pc
    case Reserving(base, snapshot) => ReserveMovesWell(s, k, snapshot, base, c.now);
    case Claiming(base) => ClaimMovesWell(s, k, base, c.now + 5000);
    case SaveWriting(_, journal, _, _, prior) => SaveMovesWell(s, k, prior, journal);
    case Settling(_, final) => SettleMovesWell(s, k, final);
    case Refunding(_, failed, _) => ReleaseMovesWell(s, k, failed);
    case _ =>
  }

  // ---- what a thread knows after its own step ------------------------------------------------

  lemma AfterSaveKnows(caller: Caller, goal: Goal, updated: bool, journal: Journal, saved: Journal, row: Option<Row>)
    requires CallerKnows(caller, row) && GoalKnows(caller, journal, goal, row)
    requires saved.origin == caller.base.origin
    requires updated && journal.taskId.Some? && IsOperation(row) ==> StoredJournal(row).taskId == journal.taskId
    ensures Knows(AfterSave(caller, goal, updated, saved), row)
  {
  }

  lemma ProcessKnows(p: Policy, caller: Caller, journal: Journal, reading: Reading, row: Option<Row>)
    requires CallerKnows(caller, row) && Mine(journal, row) && journal.origin == caller.base.origin
    ensures Knows(Process(p, caller, journal, reading), row)
  {
    InterpretIdentified(p, journal, reading);
  }

  lemma RecoverKnows(caller: Caller, rejected: bool, row: Option<Row>)
    requires CallerKnows(caller, row)
    ensures Knows(Recover(caller, rejected, row), row)
  {
  }

  lemma ExistingKnows(row: Option<Row>, fingerprint: string)
    ensures Knows(Existing(row, fingerprint), row)
  {
  }

  lemma ThrownKnows(pc: Pc, row: Option<Row>)
    requires Knows(pc, row)
    ensures Knows(Thrown(pc), row)
  {
  }

  lemma ReadingKnows(p: Policy, k: Key, s: State, pc: Pc, c: Choice)
    requires Knows(pc, OwnRow(s, k)) && Advance(p, k, s, pc, c).call.None?
    ensures Knows(Advance(p, k, s, pc, c).next, OwnRow(s, k))
  {
    var row := OwnRow(s, k);
    match pc
    case Looking(base, _) => ExistingKnows(row, base.origin.identity.fingerprint);
    case Posting(base) =>
      if c.answer.Response? {
        ProcessKnows(p, Submitter(base, true), base, c.answer.reading, row);
      }
    case Opening =>
    case Fetching(base) =>
      if c.answer.Response? {
        ProcessKnows(p, Refresher(base), base, c.answer.reading, row);
      }
    case SaveReading(caller, journal, _, goal) =>
      AfterSaveKnows(caller, goal, false, journal, journal, row);
      if RowJournal(row).Some? {
        AfterSaveKnows(caller, goal, false, journal, RowJournal(row).value, row);
      }
    case SaveLost(caller, journal, goal) =>
      AfterSaveKnows(caller, goal, false, journal, OrElse(RowJournal(row), journal), row);
    case Recovering(caller, rejected) => RecoverKnows(caller, rejected, row);
    case _ =>
  }

  lemma SavedKnows(k: Key, s: State, caller: Caller, journal: Journal, goal: Goal, prior: Journal)
    requires RowInOrder(s, k) && Knows(SaveWriting(caller, journal, 0, goal, prior), OwnRow(s, k))
    requires Effect(s, SaveJournal(k.user, OwnId(s, k).value, Operation(prior), MergeJournal(prior, journal))).outcome
             == Done
    ensures var merged := MergeJournal(prior, journal);
            var call := SaveJournal(k.user, OwnId(s, k).value, Operation(prior), merged);
            Knows(AfterSave(caller, goal, true, merged), OwnRow(After(s, call), k))
  {
    hide Effect, After;
    var merged := MergeJournal(prior, journal);
    var call := SaveJournal(k.user, OwnId(s, k).value, Operation(prior), merged);
    SaveMovesWell(s, k, prior, journal);
    KnowledgeIsStable(SaveWriting(caller, journal, 0, goal, prior), OwnRow(s, k), OwnRow(After(s, call), k));
    AfterSaveKnows(caller, goal, true, journal, merged, OwnRow(After(s, call), k));
  }

  lemma ReservedKnows(p: Policy, k: Key, s: State, pc: Pc, c: Choice)
    requires RowInOrder(s, k) && Knows(pc, OwnRow(s, k)) && pc.Reserving?
    ensures Knows(Advance(p, k, s, pc, c).next, OwnRow(After(s, Advance(p, k, s, pc, c).call.value), k))
  {
    hide Effect, After, RowInOrder, Genuine, ExpectedLines, AddedLines;
    var act := Advance(p, k, s, pc, c);
    ReserveMovesWell(s, k, pc.snapshot, pc.base, c.now);
    if !Effect(s, act.call.value).outcome.Done? {
      ExistingKnows(OwnRow(s, k), pc.base.origin.identity.fingerprint);
      KnowledgeIsStable(act.next, OwnRow(s, k), OwnRow(After(s, act.call.value), k));
    }
  }

  /** After a write that was not the save of a journal or the reservation, the thread still knows
      what it knew before it, and its next step needs nothing more. */
  lemma OtherWriteKnows(p: Policy, k: Key, s: State, pc: Pc, c: Choice)
    requires Knows(pc, OwnRow(s, k)) && (pc.Claiming? || pc.Settling? || pc.Refunding?)
    ensures Knows(Advance(p, k, s, pc, c).next, OwnRow(s, k))
  {
    hide Effect;
  }

  lemma WritingKnows(p: Policy, k: Key, s: State, pc: Pc, c: Choice)
    requires RowInOrder(s, k) && Knows(pc, OwnRow(s, k)) && Advance(p, k, s, pc, c).call.Some?
    ensures Knows(Advance(p, k, s, pc, c).next, OwnRow(After(s, Advance(p, k, s, pc, c).call.value), k))
  {
    hide Effect, After, RowInOrder, Genuine, ExpectedLines, AddedLines;
    var act := Advance(p, k, s, pc, c);
    if pc.Reserving? {
      ReservedKnows(p, k, s, pc, c);
    } else if pc.SaveWriting? && Effect(s, act.call.value).outcome.Done? {
      SavedKnows(k, s, pc.caller, pc.journal, pc.goal, pc.prior);
    } else {
      ThreadMovesWell(p, k, s, pc, c);
      if !pc.SaveWriting? {
        OtherWriteKnows(p, k, s, pc, c);
      }
      KnowledgeIsStable(act.next, OwnRow(s, k), OwnRow(After(s, act.call.value), k));
    }
  }

  // ---- guarantee: everybody else's transactions ----------------------------------------------

  lemma NamedRowIsWritten(s: State, call: Call)
    requires NamesRow(call) || call.ReleaseChat? || (OperationCall(call) && !call.ReserveOperation?)
    requires Effect(s, call).change.Put?
    ensures Effect(s, call).change.id == call.id < |s.rows|
  {
  }

  /** What a call leaves of a row it names: never a receipt that was none before. */
  lemma NamedRowEffect(s: State, call: Call)
    requires NamesRow(call) && Effect(s, call).change.Put?
    ensures Effect(s, call).change.row.stored.Operation? ==> s.rows[call.id].stored.Operation?
  {
    NamedRowIsWritten(s, call);
  }

  lemma NamedRowIsElsewhere(k: Key, s: State, call: Call)
    requires NamesRow(call) || call.ReleaseChat? || (OperationCall(call) && !call.ReserveOperation?)
    requires UniqueKeys(s.rows) && OwnId(s, k) != Some(call.id)
    ensures !Touches(k, Effect(s, call).change)
  {
    hide Effect;
    if Effect(s, call).change.Put? {
      NamedRowIsWritten(s, call);
    }
    OwnRowAfter(s, k, Effect(s, call).change);
  }

  lemma OnlyDoneTouches(s: State, call: Call)
    requires Effect(s, call).change.Put?
    ensures Effect(s, call).outcome == Done
  {
  }

  /** A call that names a user and a client can only touch the row of that very key. */
  predicate NamesKey(call: Call) {
    call.ReserveOperation? || call.ReserveImage? || call.ReserveVideo? || call.RefundVideo? || call.ReserveMusic?
    || call.ReserveChat?
  }

  lemma NamedKeyIsTouched(k: Key, s: State, call: Call)
    requires NamesKey(call) && Touches(k, Effect(s, call).change)
    ensures call.user == k.user && call.client == k.client
  {
  }

  /** What such a call leaves in the row of its key. */
  lemma NamedKeyEffect(s: State, call: Call)
    requires NamesKey(call) && Effect(s, call).change.Put?
    ensures var existing, row := Find(s.rows, call.user, call.client), Effect(s, call).change.row;
            && (call.ReserveOperation? || call.ReserveMusic? || call.ReserveChat? ==> existing.None?)
            && (existing.None? && !call.ReserveOperation? ==> !row.stored.Operation?)
            && (existing.None? && !call.ReserveMusic? ==> row.capability != AUDIO)
            && (existing.Some? ==>
                  && row.capability == s.rows[existing.value].capability
                  && (call.ReserveImage? ==> !s.rows[existing.value].stored.Operation? && row.capability == IMAGE)
                  && (call.ReserveVideo? ==> call.reuseFailed && TakenOver(s.rows[existing.value], row))
                  && (call.RefundVideo? ==> row.capability == VIDEO)
                  && (row.stored == Nothing || row.stored == s.rows[existing.value].stored))
  {
  }

  lemma SweptRow(k: Key, s: State, call: Call)
    requires UniqueKeys(s.rows) && call.Sweep? && Touches(k, Effect(s, call).change)
    ensures call.id < |s.rows| && OwnRow(s, k) == Some(s.rows[call.id])
    ensures Effect(s, call).change.row.stored == s.rows[call.id].stored
    ensures Effect(s, call).change.row.capability == s.rows[call.id].capability != AUDIO
  {
  }

  /** The calls of other entry points that touch an operation receipt of this key: the release by
      client id, and a video request that takes over a failed row. */
  predicate ReachesReceipt(k: Key, s: State, call: Call) {
    || (call.ReleaseChat? && OwnId(s, k) == Some(call.id))
    || (call.ReserveVideo? && call.user == k.user && call.client == k.client && call.reuseFailed)
  }

  /** No other foreign transaction changes an operation row of this key, and none at all turns
      another row of this key into one. */
  lemma ForeignTouches(k: Key, s: State, call: Call)
    requires RowInOrder(s, k) && Foreign(k, s, call)
    ensures IsOperation(OwnRow(s, k)) && Touches(k, Effect(s, call).change) ==> ReachesReceipt(k, s, call)
    ensures Touches(k, Effect(s, call).change) && Effect(s, call).change.row.stored.Operation? ==>
              IsOperation(OwnRow(s, k))
  {
    hide Effect;
    OwnRowAfter(s, k, Effect(s, call).change);
    if Touches(k, Effect(s, call).change) {
      if NamesRow(call) {
        NamedRowIsWritten(s, call);
        NamedRowEffect(s, call);
      } else if call.ReleaseChat? {
        NamedRowIsWritten(s, call);
        ReleasedRow(s, call);
      } else if OperationCall(call) && !call.ReserveOperation? {
        NamedRowIsElsewhere(k, s, call);
      } else if NamesKey(call) {
        NamedKeyIsTouched(k, s, call);
        NamedKeyEffect(s, call);
      } else if call.Sweep? {
        SweptRow(k, s, call);
      } else {
        WalletTouchesNothing(s, call);
      }
    }
  }

  /** None of them writes a journal. */
  lemma ForeignKeepsJournal(k: Key, s: State, call: Call)
    requires RowInOrder(s, k) && Foreign(k, s, call)
    ensures var change := Effect(s, call).change;
            Touches(k, change) && change.row.stored.Operation? ==>
              IsOperation(OwnRow(s, k)) && change.row.stored == OwnRow(s, k).value.stored
  {
    hide Effect, Foreign;
    ForeignTouches(k, s, call);
    OwnRowAfter(s, k, Effect(s, call).change);
    if Touches(k, Effect(s, call).change) {
      if call.ReleaseChat? {
        ReleasedRow(s, call);
      } else if call.ReserveVideo? {
        NamedKeyEffect(s, call);
      }
    }
  }

  /** The release by client id closes an open row with its journal as it was, whatever its task is
      doing, and releases the estimate. */
  lemma ReleasedRow(s: State, call: Call)
    requires call.ReleaseChat? && Effect(s, call).change.Put?
    ensures call.id < |s.rows| && Active(s.rows[call.id])
    ensures var change := Effect(s, call).change;
            && change.id == call.id && change.row == s.rows[call.id].(status := FAILED, completed := true)
            && change.money == Some(Wallet.Releasing(s.rows[call.id].estimated))
  {
  }

  lemma WalletTouchesNothing(s: State, call: Call)
    requires call.Grant? || call.OpenWallet?
    ensures !Effect(s, call).change.Put?
  {
  }

  /** A change of another row. */
  lemma ElsewhereMovesWell(x: Option<Row>, change: Change)
    requires x.Some? ==> Genuine(x.value)
    requires change.Put? ==> x != Some(change.row)
    ensures MovesWell(x, change, x)
  {
  }

  /** A change of a row that is no receipt, or of a receipt that a video request takes over. */
  lemma PlainMovesWell(x: Option<Row>, change: Change)
    requires change.Put? && !change.row.stored.Operation?
    requires IsOperation(x) ==> TakenOver(x.value, change.row)
    ensures MovesWell(x, change, Some(change.row))
  {
  }

  lemma ForeignMovesWell(k: Key, s: State, call: Call)
    requires RowInOrder(s, k) && Foreign(k, s, call)
    ensures MovesWell(OwnRow(s, k), Effect(s, call).change, OwnRow(After(s, call), k))
  {
    hide Effect, MovesWell, ExpectedLines, Genuine, AddedLines, UniqueKeys, Foreign;
    var (x, change) := (OwnRow(s, k), Effect(s, call).change);
    ForeignTouches(k, s, call);
    OwnRowAfter(s, k, change);
    if !Touches(k, change) {
      ElsewhereMovesWell(x, change);
    } else if IsOperation(x) && call.ReleaseChat? {
      ReleasedRow(s, call);
      ReleasedMovesWell(s.rows[call.id], change);
    } else {
      if IsOperation(x) {
        NamedKeyEffect(s, call);
      }
      PlainMovesWell(x, change);
    }
  }

  lemma ReleasedMovesWell(row: Row, change: Change)
    requires row.stored.Operation? && Genuine(row) && Active(row) && change.Put?
    requires change.row == row.(status := FAILED, completed := true)
    requires change.money == Some(Wallet.Releasing(row.estimated))
    ensures MovesWell(Some(row), change, Some(change.row))
  {
  }

  /** A cancelled or failed agent task of the same client id: the operation's reservation is released
      and its receipt FAILED while its task may be running, and the settlement of that task is skipped. */
  lemma ReleasedByClientId(k: Key, s: State, j: Journal)
    requires RowInOrder(s, k) && IsOperation(OwnRow(s, k)) && Active(OwnRow(s, k).value)
    requires Takes(s, k.user, Wallet.Releasing(OwnRow(s, k).value.estimated))
    ensures var id := OwnId(s, k).value;
            var call := ReleaseChat(k.user, id);
            && Foreign(k, s, call) && Effect(s, call).outcome == Done
            && OwnRow(After(s, call), k) == Some(s.rows[id].(status := FAILED, completed := true))
            && Effect(After(s, call), SettleOperation(k.user, id, j)) == Skip
            && Effect(After(s, call), ReleaseOperation(k.user, id, j)) == Skip
  {
    var call := ReleaseChat(k.user, OwnId(s, k).value);
    OwnRowAfter(s, k, Effect(s, call).change);
  }

  /** A video request with the client id of a failed receipt takes the row over: the receipt is gone. */
  lemma TakenOverByVideo(k: Key, s: State, pricing: Option<Snapshot>, estimate: nat, now: int)
    requires RowInOrder(s, k) && IsOperation(OwnRow(s, k))
    requires TakesOver(k, s, ReserveVideo(k.user, k.client, pricing, estimate, true, now))
    ensures var call := ReserveVideo(k.user, k.client, pricing, estimate, true, now);
            && Foreign(k, s, call) && Effect(s, call).outcome == Done
            && OwnRow(After(s, call), k).Some? && RowJournal(OwnRow(After(s, call), k)).None?
  {
    var call := ReserveVideo(k.user, k.client, pricing, estimate, true, now);
    OwnRowAfter(s, k, Effect(s, call).change);
  }

  /** A video request under this client id may reuse a failed row and finds one, and the balance pays. */
  predicate TakesOver(k: Key, s: State, call: Call) {
    && call.ReserveVideo? && call.user == k.user && call.client == k.client && call.reuseFailed
    && OwnRow(s, k).Some? && OwnRow(s, k).value.status == FAILED
    && Takes(s, k.user, Holding(call.estimate)) && s.purses[k.user].available >= call.estimate
  }

  lemma TakeoverWritten(k: Key, s: State, call: Call)
    requires call.ReserveVideo? && call.user == k.user && call.client == k.client && OwnRow(s, k).Some?
    ensures var change := Effect(s, call).change;
            if TakesOver(k, s, call) then change.Put? && Touches(k, change) && !change.row.stored.Operation?
            else change == Keep
  {
  }

  // ---- at most one POST ----------------------------------------------------------------------

  /** The thread created the reservation and has not sent its generation request yet. */
  predicate BeforePost(pc: Pc) {
    || pc.Posting?
    || ((pc.SaveReading? || pc.SaveWriting? || pc.SaveLost?) && pc.goal == ThenPost)
  }

  ghost predicate PostsInOrder(k: Key, w: World) {
    && w.posts <= 1
    && (forall a, b :: a in w.threads && b in w.threads && BeforePost(w.threads[a]) && BeforePost(w.threads[b]) ==>
        a == b)
    && (forall a :: a in w.threads && BeforePost(w.threads[a]) ==> w.posts == 0)
    && (OwnRow(w.db, k).None? ==> w.posts == 0)
  }

  /** The reservation is the only step that leads to the state before the POST, and it finds no row. */
  lemma ReservingTowardsPost(p: Policy, k: Key, s: State, pc: Pc, c: Choice)
    requires RowInOrder(s, k) && pc.Reserving?
    ensures var act := Advance(p, k, s, pc, c); !act.posted && (BeforePost(act.next) ==> OwnRow(s, k).None?)
  {
    hide Effect, RowJournal, Genuine, ExpectedLines, AddedLines, RowMoves, After, MergeJournal, UniqueKeys, LinesOf;
    ReserveMovesWell(s, k, pc.snapshot, pc.base, c.now);
  }

  lemma PostingTowardsPost(p: Policy, k: Key, s: State, pc: Pc, c: Choice)
    requires pc.Posting?
    ensures var act := Advance(p, k, s, pc, c); act.posted && !BeforePost(act.next)
  {
    hide Interpret, Find;
  }

  /** The saves pass their goal on. */
  lemma SavingTowardsPost(p: Policy, k: Key, s: State, pc: Pc, c: Choice)
    requires pc.SaveReading? || pc.SaveWriting? || pc.SaveLost?
    ensures var act := Advance(p, k, s, pc, c); !act.posted && (BeforePost(act.next) ==> BeforePost(pc))
  {
    hide Effect, RowJournal, Find, MergeJournal, OrElse;
  }

  lemma ReadingTowardsPost(p: Policy, k: Key, s: State, pc: Pc, c: Choice)
    requires pc.Looking? || pc.Opening? || pc.Fetching? || pc.Collecting? || pc.Recovering? || pc.Showing? || pc.Exited?
    ensures var act := Advance(p, k, s, pc, c); !act.posted && !BeforePost(act.next)
  {
    hide Interpret, RowJournal, Find, OrElse, WithDimensions;
  }

  lemma WritingTowardsPost(p: Policy, k: Key, s: State, pc: Pc, c: Choice)
    requires pc.Claiming? || pc.Settling? || pc.Refunding?
    ensures var act := Advance(p, k, s, pc, c); !act.posted && !BeforePost(act.next)
  {
    hide Effect, Find;
  }

  lemma ThrownTowardsPost(pc: Pc)
    ensures !BeforePost(Thrown(pc)) || BeforePost(pc)
    ensures pc.Posting? ==> !BeforePost(Thrown(pc))
  {
  }

  lemma StepTowardsPost(p: Policy, k: Key, s: State, pc: Pc, c: Choice)
    requires RowInOrder(s, k)
    ensures var act := Step(p, k, s, pc, c);
            && (act.posted ==> pc.Posting? && !BeforePost(act.next))
            && (BeforePost(act.next) && !BeforePost(pc) ==> OwnRow(s, k).None?)
  {
    hide Advance, Thrown, OwnRow, RowInOrder;
    ThrownTowardsPost(pc);
    if pc.Reserving? {
      ReservingTowardsPost(p, k, s, pc, c);
    } else if pc.Posting? {
      PostingTowardsPost(p, k, s, pc, c);
    } else if pc.SaveReading? || pc.SaveWriting? || pc.SaveLost? {
      SavingTowardsPost(p, k, s, pc, c);
    } else if pc.Claiming? || pc.Settling? || pc.Refunding? {
      WritingTowardsPost(p, k, s, pc, c);
    } else {
      ReadingTowardsPost(p, k, s, pc, c);
    }
  }

  // ---- the whole world -----------------------------------------------------------------------

  ghost predicate WorldInOrder(k: Key, w: World) {
    && RowInOrder(w.db, k)
    && (forall t :: t in w.threads ==> Knows(w.threads[t], OwnRow(w.db, k)))
    && PostsInOrder(k, w)
  }

  /** Any database in which this key is still unused, and no threads yet. */
  ghost predicate Initial(k: Key, w: World) {
    RowInOrder(w.db, k) && OwnRow(w.db, k).None? && w.threads == map[] && w.posts == 0
  }

  lemma InitialInOrder(k: Key, w: World)
    requires Initial(k, w)
    ensures WorldInOrder(k, w)
  {
  }

  lemma RunMoves(p: Policy, k: Key, s: State, pc: Pc, c: Choice)
    requires RowInOrder(s, k) && Knows(pc, OwnRow(s, k))
    ensures var act := Step(p, k, s, pc, c);
            && RowMoves(OwnRow(s, k), OwnRow(Committed(s, act.call), k))
            && RowInOrder(Committed(s, act.call), k)
            && Knows(act.next, OwnRow(Committed(s, act.call), k))
  {
    hide Advance, Effect, RowInOrder, Genuine, ExpectedLines, AddedLines, Knows, RowMoves;
    var own := Advance(p, k, s, pc, c);
    var act := Step(p, k, s, pc, c);
    SamePlace(OwnRow(s, k));
    if own.call.Some? {
      ThreadMovesWell(p, k, s, pc, c);
      MoveKeepsOrder(s, k, Effect(s, own.call.value).change);
      WritingKnows(p, k, s, pc, c);
      KnowledgeIsStable(pc, OwnRow(s, k), OwnRow(After(s, own.call.value), k));
      ThrownKnows(pc, OwnRow(After(s, own.call.value), k));
    } else {
      ReadingKnows(p, k, s, pc, c);
    }
    ThrownKnows(pc, OwnRow(s, k));
  }

  lemma SamePlace(x: Option<Row>)
    ensures RowMoves(x, x)
  {
  }

  /** Every action of every thread and every foreign transaction moves the row as allowed. */
  lemma NextMoves(p: Policy, k: Key, w: World, a: Event)
    requires WorldInOrder(k, w) && Allowed(k, w, a)
    ensures RowMoves(OwnRow(w.db, k), OwnRow(Next(p, k, w, a).db, k))
    ensures RowInOrder(Next(p, k, w, a).db, k)
  {
    hide Step, Effect, Foreign, Genuine, ExpectedLines, AddedLines, Knows, RowMoves;
    SamePlace(OwnRow(w.db, k));
    match a
    case Run(thread, choice) => RunMoves(p, k, w.db, w.threads[thread], choice);
    case Elsewhere(call) =>
      ForeignMovesWell(k, w.db, call);
      MoveKeepsOrder(w.db, k, Effect(w.db, call).change);
    case _ =>
  }

  lemma NextKeepsKnowledge(p: Policy, k: Key, w: World, a: Event)
    requires WorldInOrder(k, w) && Allowed(k, w, a)
    ensures var after := Next(p, k, w, a);
            forall t :: t in after.threads ==> Knows(after.threads[t], OwnRow(after.db, k))
  {
    hide Step, Effect, Foreign, RowMoves, RowInOrder, PostsInOrder;
    var after := Next(p, k, w, a);
    NextMoves(p, k, w, a);
    forall t | t in after.threads
      ensures Knows(after.threads[t], OwnRow(after.db, k))
    {
      if a.Run? && a.thread == t {
        RunMoves(p, k, w.db, w.threads[t], a.choice);
      } else if t in w.threads {
        KnowledgeIsStable(w.threads[t], OwnRow(w.db, k), OwnRow(after.db, k));
      }
    }
  }

  lemma NextKeepsPosts(p: Policy, k: Key, w: World, a: Event)
    requires WorldInOrder(k, w) && Allowed(k, w, a)
    ensures PostsInOrder(k, Next(p, k, w, a))
  {
    hide Step, Effect, Foreign, RowInOrder, Later, Closes;
    NextMoves(p, k, w, a);
    if a.Run? {
      StepTowardsPost(p, k, w.db, w.threads[a.thread], a.choice);
    }
  }

  lemma NextKeepsOrder(p: Policy, k: Key, w: World, a: Event)
    requires WorldInOrder(k, w) && Allowed(k, w, a)
    ensures WorldInOrder(k, Next(p, k, w, a))
  {
    hide Next, Allowed, RowInOrder, PostsInOrder;
    NextMoves(p, k, w, a);
    NextKeepsKnowledge(p, k, w, a);
    NextKeepsPosts(p, k, w, a);
  }
}
