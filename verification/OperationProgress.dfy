/** What the threads of an image operation do about an answer when they are left alone: over every run
    of `OperationProtocol`, from any moment at which the receipt is open, and as long as no connection
    is lost and nobody interferes, a failed task and a rejected request are refunded, a delivered
    success is charged its price, and anything unclear keeps the hold and the task
    (src/modules/ai/image-operation-service.ts, image-operation-wallet.ts). */
module OperationProgress {
  import opened JsonValues
  import opened TaskMetadata
  import opened Journals
  import opened Wallet
  import opened WalletBooks
  import opened WalletOutcomes
  import opened OperationProtocol
  import opened OperationSafety
  import opened OperationHistory

  // ---- one thread alone ----------------------------------------------------------------------

  /** From the n-th moment to the m-th this thread alone takes steps, and none of them is lost. */
  predicate Alone(events: seq<Event>, t: nat, n: nat, m: nat) {
    && m <= |events|
    && forall i :: n <= i < m ==> events[i].Run? && events[i].thread == t && events[i].choice.fault == NoFault
  }

  function PcAt(worlds: seq<World>, t: nat, i: nat): Option<Pc>
    requires i < |worlds|
  {
    if t in worlds[i].threads then Some(worlds[i].threads[t]) else None
  }

  lemma OwnStep(p: Policy, k: Key, worlds: seq<World>, events: seq<Event>, t: nat, n: nat, m: nat, i: nat)
    requires IsRun(p, k, worlds, events) && Alone(events, t, n, m) && n <= i < m
    requires |worlds| == |events| + 1 && PcAt(worlds, t, i).Some?
    ensures var act := Advance(p, k, worlds[i].db, PcAt(worlds, t, i).value, events[i].choice);
            && worlds[i + 1].db == Committed(worlds[i].db, act.call) && PcAt(worlds, t, i + 1) == Some(act.next)
            && worlds[i + 1].posts == worlds[i].posts + if act.posted then 1 else 0
  {
    hide Advance, Initial, Effect;
  }

  lemma AloneLength(events: seq<Event>, t: nat, n: nat, m: nat)
    requires Alone(events, t, n, m)
    ensures m <= |events| && forall i :: n <= i < m ==> events[i].Run? && events[i].choice.fault == NoFault
  {
  }

  /** The receipt is open. */
  predicate IsOpen(k: Key, w: World) {
    IsOperation(OwnRow(w.db, k)) && Active(OwnRow(w.db, k).value)
  }

  lemma ReadsOpen(row: Option<Row>)
    requires IsOperation(row) && Active(row.value)
    ensures RowJournal(row) == Some(StoredJournal(row))
  {
  }

  /** The wallets and the ledger are as they were, and the receipt is still the one in its place. */
  predicate Untouched(k: Key, w: World, after: World) {
    after.db.purses == w.db.purses && after.db.ledger == w.db.ledger && OwnId(after.db, k) == OwnId(w.db, k)
  }

  lemma UniqueIn(k: Key, w: World)
    requires WorldInOrder(k, w)
    ensures UniqueKeys(w.db.rows)
  {
  }

  /** A save over the journal that is stored: two steps, and the receipt has the merged journal. */
  lemma SaveAlone(p: Policy, k: Key, worlds: seq<World>, events: seq<Event>, t: nat, n: nat, m: nat, i: nat,
                  caller: Caller, journal: Journal, left: nat, goal: Goal)
    requires IsRun(p, k, worlds, events) && Alone(events, t, n, m) && n <= i && i + 2 <= m
    requires |worlds| == |events| + 1 && m <= |events|
    requires PcAt(worlds, t, i) == Some(SaveReading(caller, journal, left, goal)) && IsOpen(k, worlds[i])
    requires StoredJournal(RowAt(k, worlds, i)).taskId in {None, journal.taskId}
    ensures var merged := MergeJournal(StoredJournal(RowAt(k, worlds, i)), journal);
            && RowAt(k, worlds, i + 2)
               == Some(RowAt(k, worlds, i).value.(status := PROCESSING, stored := Operation(merged)))
            && PcAt(worlds, t, i + 2) == Some(AfterSave(caller, goal, true, merged))
    ensures Untouched(k, worlds[i], worlds[i + 2]) && worlds[i + 2].posts == worlds[i].posts
  {
    hide Effect, IsRun, Alone, MergeJournal, RowJournal, AfterSave, WorldInOrder;
    var row := RowAt(k, worlds, i);
    var prior := StoredJournal(row);
    RunInOrder(p, k, worlds, events, i);
    UniqueIn(k, worlds[i]);
    OwnStep(p, k, worlds, events, t, n, m, i);
    ReadsOpen(row);
    assert PcAt(worlds, t, i + 1) == Some(SaveWriting(caller, journal, left, goal, prior));
    OwnStep(p, k, worlds, events, t, n, m, i + 1);
    SaveIsWritten(k, worlds[i].db, prior, MergeJournal(prior, journal));
  }

  lemma SaveIsWritten(k: Key, s: State, prior: Journal, merged: Journal)
    requires UniqueKeys(s.rows) && IsOperation(OwnRow(s, k)) && Active(OwnRow(s, k).value)
    requires StoredJournal(OwnRow(s, k)) == prior
    ensures var call := SaveJournal(k.user, OwnId(s, k).value, Operation(prior), merged);
            var after := After(s, call);
            && Effect(s, call).outcome == Done
            && OwnRow(after, k) == Some(OwnRow(s, k).value.(status := PROCESSING, stored := Operation(merged)))
            && after.purses == s.purses && after.ledger == s.ledger && OwnId(after, k) == OwnId(s, k)
  {
    var call := SaveJournal(k.user, OwnId(s, k).value, Operation(prior), merged);
    OwnRowAfter(s, k, Effect(s, call).change);
  }

  // ---- refunds -------------------------------------------------------------------------------

  /** The receipt is FAILED, and its user has the whole estimate back, with one RELEASE row. */
  ghost predicate Refunded(k: Key, s: State, after: State)
    requires IsOperation(OwnRow(s, k))
  {
    var row := OwnRow(s, k).value;
    && IsOperation(OwnRow(after, k)) && OwnId(after, k) == OwnId(s, k)
    && OwnRow(after, k).value.status == FAILED && OwnRow(after, k).value.charged == 0
    && SameOffer(row, OwnRow(after, k).value)
    && Moved(s, after, k.user, row.estimated, -(row.estimated as int), 0)
    && WalletOutcomes.Recorded(s, after, k.user, OwnId(s, k).value, [Line(RELEASE, row.estimated)])
  }

  /** The wallet holds the estimate of the open receipt. */
  predicate HoldsEstimate(k: Key, w: World)
    requires OwnRow(w.db, k).Some?
  {
    Holds(w.db, k.user, 0, OwnRow(w.db, k).value.estimated, 0)
  }

  lemma ReleaseIsWritten(k: Key, s: State, failed: Journal)
    requires UniqueKeys(s.rows) && Solvent(s) && IsOperation(OwnRow(s, k)) && Active(OwnRow(s, k).value)
    requires OwnRow(s, k).value.capability == IMAGE && Holds(s, k.user, 0, OwnRow(s, k).value.estimated, 0)
    requires StoredJournal(OwnRow(s, k)).taskId == failed.taskId
    requires StoredJournal(OwnRow(s, k)).origin.identity == failed.origin.identity
    ensures var (call, row) := (ReleaseOperation(k.user, OwnId(s, k).value, failed), OwnRow(s, k).value);
            var after := After(s, call);
            && Effect(s, call).outcome == Done
            && OwnRow(after, k) == Some(Finished(row, FAILED, 0, Operation(failed))) && OwnId(after, k) == OwnId(s, k)
            && Moved(s, after, k.user, row.estimated, -(row.estimated as int), 0)
            && WalletOutcomes.Recorded(s, after, k.user, OwnId(s, k).value, [Line(RELEASE, row.estimated)])
  {
    hide Moved, WalletOutcomes.Recorded;
    var call := ReleaseOperation(k.user, OwnId(s, k).value, failed);
    var change := Effect(s, call).change;
    PutMoves(s, change.id, change.row, change.money.value);
    OwnRowAfter(s, k, change);
  }

  /** The thread that asked about the receipt, by its generation request or by a later reading. */
  predicate Asks(pc: Option<Pc>) {
    pc.Some? && (pc.value.Posting? || pc.value.Fetching?)
  }

  /** It is told about this task: the answer is recognised, and no other task is stored. */
  ghost predicate Told(p: Policy, k: Key, worlds: seq<World>, events: seq<Event>, t: nat, n: nat, taskId: string)
    requires n < |worlds| && n < |events| && Asks(PcAt(worlds, t, n)) && IsOpen(k, worlds[n]) && events[n].Run?
  {
    && events[n].choice.answer.Response?
    && Recognised(p, PcAt(worlds, t, n).value.base, events[n].choice.answer.reading, taskId)
    && StoredJournal(RowAt(k, worlds, n)).taskId in {None, Some(taskId)}
  }

  function CallerOf(pc: Pc): Caller
    requires pc.Posting? || pc.Fetching?
  {
    match pc
    case Posting(base) => Submitter(base, true)
    case Fetching(base) => Refresher(base)
  }

  /** A recognised answer is stored first: after three steps the receipt has the task, and the thread
      judges what it was told. */
  lemma AnswerIsStored(p: Policy, k: Key, worlds: seq<World>, events: seq<Event>, t: nat, n: nat, taskId: string)
      returns (next: Journal)
    requires IsRun(p, k, worlds, events) && n + 3 <= |events| && Alone(events, t, n, n + 3)
    requires n < |worlds| && Asks(PcAt(worlds, t, n)) && IsOpen(k, worlds[n])
    requires Told(p, k, worlds, events, t, n, taskId)
    ensures |worlds| == |events| + 1
    ensures next.taskId == Some(taskId) && next.status == events[n].choice.answer.reading.state
    ensures next.origin == PcAt(worlds, t, n).value.base.origin == StoredJournal(RowAt(k, worlds, n)).origin
    ensures IsOpen(k, worlds[n + 3]) && Untouched(k, worlds[n], worlds[n + 3])
    ensures var stored := StoredJournal(RowAt(k, worlds, n + 3));
            && RowAt(k, worlds, n + 3)
               == Some(RowAt(k, worlds, n).value.(status := PROCESSING, stored := Operation(stored)))
            && stored.taskId == Some(taskId) && stored.origin == next.origin
            && stored.status == (if next.status == Success then Running else next.status)
            && PcAt(worlds, t, n + 3)
               == Some(AfterSave(CallerOf(PcAt(worlds, t, n).value), ThenJudge(next), true, stored))
  {
    hide Effect, IsRun, Alone, Interpret, Recognised, MergeJournal, AfterSave, WorldInOrder;
    RunLength(p, k, worlds, events);
    AloneLength(events, t, n, n + 3);
    var (pc, reading) := (PcAt(worlds, t, n).value, events[n].choice.answer.reading);
    RunInOrder(p, k, worlds, events, n);
    AskerKnows(k, worlds[n], t);
    RecognisedNext(p, pc.base, reading, taskId);
    next := Interpret(p, pc.base, reading).value;
    OwnStep(p, k, worlds, events, t, n, n + 3, n);
    var journal := if next.status == Success then next.(status := Running) else next;
    SaveAlone(p, k, worlds, events, t, n, n + 3, n + 1, CallerOf(pc), journal, ATTEMPTS, ThenJudge(next));
    MergeKeeps(StoredJournal(RowAt(k, worlds, n)), journal);
  }

  lemma AskerKnows(k: Key, w: World, t: nat)
    requires WorldInOrder(k, w) && t in w.threads && Asks(Some(w.threads[t])) && IsOpen(k, w)
    ensures w.threads[t].base.origin == StoredJournal(OwnRow(w.db, k)).origin && UniqueKeys(w.db.rows)
    ensures OwnRow(w.db, k).value.capability == IMAGE
  {
    assert Knows(w.threads[t], OwnRow(w.db, k));
  }

  lemma MergeKeeps(prior: Journal, journal: Journal)
    ensures var merged := MergeJournal(prior, journal);
            && merged.origin == journal.origin && merged.taskId == journal.taskId && merged.status == journal.status
            && merged.errorCode == journal.errorCode && merged.delivery == journal.delivery
            && merged.nextRefreshAt == journal.nextRefreshAt
  {
    hide Merge;
  }

  /** A task that has failed is refunded: four steps after the answer the receipt is FAILED with its task,
      and the user has the whole estimate back. */
  lemma FailedTaskIsRefunded(p: Policy, k: Key, worlds: seq<World>, events: seq<Event>, t: nat, n: nat,
                             taskId: string)
    requires IsRun(p, k, worlds, events) && n + 4 <= |events| && Alone(events, t, n, n + 4)
    requires n < |worlds| && Asks(PcAt(worlds, t, n)) && IsOpen(k, worlds[n])
    requires Told(p, k, worlds, events, t, n, taskId)
    requires events[n].choice.answer.reading.state in {Failed, Canceled, ClientDisconnected}
    requires Solvent(worlds[n].db) && HoldsEstimate(k, worlds[n])
    ensures n + 4 < |worlds| && Refunded(k, worlds[n].db, worlds[n + 4].db)
    ensures StoredJournal(RowAt(k, worlds, n + 4)).taskId == Some(taskId) && ShowsNext(worlds, t, n + 4)
  {
    hide Effect, IsRun, Alone, Told, Moved, WalletOutcomes.Recorded, WorldInOrder, IsOpen, Refunded, Genuine;
    RunLength(p, k, worlds, events);
    AloneShorter(events, t, n, n + 4, n + 3);
    RunInOrder(p, k, worlds, events, n);
    AskerKnows(k, worlds[n], t);
    var next := AnswerIsStored(p, k, worlds, events, t, n, taskId);
    OwnStep(p, k, worlds, events, t, n, n + 4, n + 3);
    RunInOrder(p, k, worlds, events, n + 3);
    UniqueIn(k, worlds[n + 3]);
    RefundFollows(k, worlds[n], worlds[n + 3], next.(errorCode := Some("image_operation_failed"), charged := 0));
  }

  /** What is left to do is to show the receipt. */
  predicate ShowsNext(worlds: seq<World>, t: nat, n: nat) {
    n < |worlds| && PcAt(worlds, t, n).Some? && PcAt(worlds, t, n).value.Showing?
  }

  lemma AloneShorter(events: seq<Event>, t: nat, n: nat, m: nat, l: nat)
    requires Alone(events, t, n, m) && l <= m
    ensures Alone(events, t, n, l)
  {
  }

  /** The refund of a receipt whose task is the failed one, saved just now. */
  lemma RefundFollows(k: Key, w: World, saved: World, failed: Journal)
    requires IsOpen(k, w) && IsOpen(k, saved) && Untouched(k, w, saved) && UniqueKeys(saved.db.rows)
    requires SameOffer(OwnRow(w.db, k).value, OwnRow(saved.db, k).value)
    requires OwnRow(w.db, k).value.capability == IMAGE && Solvent(w.db) && HoldsEstimate(k, w)
    requires StoredJournal(OwnRow(saved.db, k)).taskId == failed.taskId
    requires StoredJournal(OwnRow(saved.db, k)).origin == failed.origin
    ensures var call := ReleaseOperation(k.user, OwnId(saved.db, k).value, failed);
            && Effect(saved.db, call).outcome == Done
            && Refunded(k, w.db, After(saved.db, call))
            && StoredJournal(OwnRow(After(saved.db, call), k)) == failed
  {
    hide Effect, Moved, WalletOutcomes.Recorded;
    ReleaseIsWritten(k, saved.db, failed);
    MovedBefore(w.db, saved.db, After(saved.db, ReleaseOperation(k.user, OwnId(saved.db, k).value, failed)), k.user,
                OwnId(w.db, k).value, OwnRow(w.db, k).value.estimated);
  }

  lemma MovedBefore(s: State, t: State, after: State, user: string, id: nat, amount: nat)
    requires t.purses == s.purses && t.ledger == s.ledger
    requires Moved(t, after, user, amount, -(amount as int), 0)
    requires WalletOutcomes.Recorded(t, after, user, id, [Line(RELEASE, amount)])
    ensures Moved(s, after, user, amount, -(amount as int), 0)
    ensures WalletOutcomes.Recorded(s, after, user, id, [Line(RELEASE, amount)])
  {
  }

  /** A rejected generation request is refunded: three steps after the answer, when no task is stored. */
  lemma RejectionIsRefunded(p: Policy, k: Key, worlds: seq<World>, events: seq<Event>, t: nat, n: nat, status: int)
    requires IsRun(p, k, worlds, events) && n + 3 <= |events| && Alone(events, t, n, n + 3)
    requires n < |worlds| && PcAt(worlds, t, n).Some? && PcAt(worlds, t, n).value.Posting? && IsOpen(k, worlds[n])
    requires events[n].choice.answer == HttpError(Some(status)) && status in {400, 401, 403, 404, 422}
    requires StoredJournal(RowAt(k, worlds, n)).taskId.None?
    requires Solvent(worlds[n].db) && HoldsEstimate(k, worlds[n])
    ensures n + 3 < |worlds| && Refunded(k, worlds[n].db, worlds[n + 3].db)
    ensures var journal := StoredJournal(RowAt(k, worlds, n + 3));
            journal.status == Failed && journal.errorCode == Some("image_operation_rejected")
    ensures ShowsNext(worlds, t, n + 3)
  {
    hide Effect, IsRun, Alone, WorldInOrder, Refunded, RowJournal, Advance;
    RunLength(p, k, worlds, events);
    RunInOrder(p, k, worlds, events, n);
    AskerKnows(k, worlds[n], t);
    AskerNamesNothing(k, worlds[n], t);
    ReadsOpen(RowAt(k, worlds, n));
    var base := PcAt(worlds, t, n).value.base;
    var failed := base.(status := Failed, errorCode := Some("image_operation_rejected"));
    AloneLength(events, t, n, n + 3);
    OwnStep(p, k, worlds, events, t, n, n + 3, n);
    RejectedSteps(p, k, worlds[n].db, base, events[n].choice, status);
    OwnStep(p, k, worlds, events, t, n, n + 3, n + 1);
    RejectedSteps(p, k, worlds[n].db, base, events[n + 1].choice, status);
    OwnStep(p, k, worlds, events, t, n, n + 3, n + 2);
    RejectedSteps(p, k, worlds[n].db, base, events[n + 2].choice, status);
    RefundFollows(k, worlds[n], worlds[n + 2], failed);
  }

  lemma RejectedSteps(p: Policy, k: Key, s: State, base: Journal, c: Choice, status: int)
    requires status in {400, 401, 403, 404, 422}
    requires OwnRow(s, k).Some? && RowJournal(OwnRow(s, k)).Some? && RowJournal(OwnRow(s, k)).value.taskId.None?
    ensures c.answer == HttpError(Some(status)) ==>
              Advance(p, k, s, Posting(base), c) == Act(None, Recovering(Submitter(base, false), true), true)
    ensures var failed := base.(status := Failed, errorCode := Some("image_operation_rejected"));
            && Advance(p, k, s, Recovering(Submitter(base, false), true), c)
               == Act(None, Refunding(Submitter(base, false), failed, true), false)
            && var (act, call) := (Advance(p, k, s, Refunding(Submitter(base, false), failed, true), c),
                                   ReleaseOperation(k.user, OwnId(s, k).value, failed));
            && act.call == Some(call) && (Effect(s, call).outcome == Done ==> act.next.Showing?)
  {
    hide Effect, RowJournal, Find;
  }

  lemma AskerNamesNothing(k: Key, w: World, t: nat)
    requires WorldInOrder(k, w) && t in w.threads && w.threads[t].Posting?
    ensures w.threads[t].base.taskId.None?
  {
    assert Knows(w.threads[t], OwnRow(w.db, k));
  }

  // ---- charges -------------------------------------------------------------------------------

  /** The receipt is SUCCEEDED and charged the price of one result; its user has the rest of the estimate
      back, and the charge is consumed. */
  ghost predicate ChargedOnce(k: Key, s: State, after: State)
    requires IsOperation(OwnRow(s, k)) && OwnRow(s, k).value.snapshot.Some?
  {
    var (row, id) := (OwnRow(s, k).value, OwnId(s, k).value);
    var price := row.snapshot.value.single;
    && IsOperation(OwnRow(after, k)) && OwnId(after, k) == OwnId(s, k)
    && OwnRow(after, k).value.status == SUCCEEDED && OwnRow(after, k).value.charged == price
    && SameOffer(row, OwnRow(after, k).value)
    && Moved(s, after, k.user, row.estimated - price, -(row.estimated as int), price)
    && WalletOutcomes.Recorded(s, after, k.user, id,
                               if price < row.estimated
                               then [Line(CHARGE, price), Line(RELEASE, row.estimated - price)]
                               else [Line(CHARGE, price)])
  }

  /** Nothing stands in the way of the settlement: a price within the hold, not billed before. */
  predicate Chargeable(k: Key, w: World)
    requires IsOperation(OwnRow(w.db, k))
  {
    var row := OwnRow(w.db, k).value;
    && row.snapshot.Some? && row.snapshot.value.schemaVersion == 1 && row.snapshot.value.single <= row.estimated
    && !row.billed
  }

  lemma SettlementIsWritten(k: Key, s: State, final: Journal)
    requires UniqueKeys(s.rows) && Solvent(s) && IsOperation(OwnRow(s, k)) && Active(OwnRow(s, k).value)
    requires Genuine(OwnRow(s, k).value) && Holds(s, k.user, 0, OwnRow(s, k).value.estimated, 0)
    requires Chargeable(k, World(s, map[], 0))
    requires StoredJournal(OwnRow(s, k)).taskId == final.taskId && final.taskId.Some?
    requires StoredJournal(OwnRow(s, k)).origin == final.origin
    ensures var (call, row) := (SettleOperation(k.user, OwnId(s, k).value, final), OwnRow(s, k).value);
            && Effect(s, call).outcome == Done && ChargedOnce(k, s, After(s, call))
            && StoredJournal(OwnRow(After(s, call), k)) == final.(charged := row.snapshot.value.single)
  {
    hide Moved, WalletOutcomes.Recorded;
    var call := SettleOperation(k.user, OwnId(s, k).value, final);
    var change := Effect(s, call).change;
    PutMoves(s, change.id, change.row, change.money.value);
    OwnRowAfter(s, k, change);
  }

  /** A delivered success is charged: five steps after the answer, when its result could be fetched, the
      receipt is SUCCEEDED with its task and its delivery, at the price of one result. */
  lemma DeliveryIsCharged(p: Policy, k: Key, worlds: seq<World>, events: seq<Event>, t: nat, n: nat, taskId: string)
    requires IsRun(p, k, worlds, events) && n + 5 <= |events| && Alone(events, t, n, n + 5)
    requires n < |worlds| && Asks(PcAt(worlds, t, n)) && IsOpen(k, worlds[n])
    requires Told(p, k, worlds, events, t, n, taskId)
    requires events[n].choice.answer.reading.state == Success && events[n + 3].choice.content.Delivered?
    requires Solvent(worlds[n].db) && HoldsEstimate(k, worlds[n]) && Chargeable(k, worlds[n])
    ensures n + 5 < |worlds| && ChargedOnce(k, worlds[n].db, worlds[n + 5].db)
    ensures var journal := StoredJournal(RowAt(k, worlds, n + 5));
            && journal.taskId == Some(taskId) && journal.status == Success
            && journal.delivery == events[n + 3].choice.content.delivery
            && journal.charged == RowAt(k, worlds, n).value.snapshot.value.single
            && NotesDimensions(journal, events[n + 3].choice.content.dimensions)
    ensures ShowsNext(worlds, t, n + 5)
  {
    hide Effect, IsRun, Alone, Told, WorldInOrder, ChargedOnce, Genuine, WithDimensions, Advance;
    RunLength(p, k, worlds, events);
    AloneShorter(events, t, n, n + 5, n + 3);
    var next := AnswerIsStored(p, k, worlds, events, t, n, taskId);
    AloneLength(events, t, n, n + 5);
    CollectingNext(CallerOf(PcAt(worlds, t, n).value), next, StoredJournal(RowAt(k, worlds, n + 3)));
    CollectedIsCharged(p, k, worlds, events, t, n, n + 5, n + 3, CallerOf(PcAt(worlds, t, n).value), next);
    ChargedBefore(k, worlds[n].db, worlds[n + 3].db, worlds[n + 5].db);
  }

  lemma CollectingNext(caller: Caller, next: Journal, stored: Journal)
    requires next.status == Success
    ensures AfterSave(caller, ThenJudge(next), true, stored) == Collecting(caller, next)
  {
  }

  /** From the result to the charge: two steps. */
  lemma CollectedIsCharged(p: Policy, k: Key, worlds: seq<World>, events: seq<Event>, t: nat, n: nat, m: nat, i: nat,
                           caller: Caller, next: Journal)
    requires IsRun(p, k, worlds, events) && Alone(events, t, n, m) && n <= i && i + 2 <= m <= |events|
    requires |worlds| == |events| + 1 && PcAt(worlds, t, i) == Some(Collecting(caller, next)) && IsOpen(k, worlds[i])
    requires StoredJournal(RowAt(k, worlds, i)).taskId == next.taskId && next.taskId.Some?
    requires StoredJournal(RowAt(k, worlds, i)).origin == next.origin
    requires events[i].Run? && events[i].choice.content.Delivered?
    requires Solvent(worlds[i].db) && HoldsEstimate(k, worlds[i]) && Chargeable(k, worlds[i])
    ensures ChargedOnce(k, worlds[i].db, worlds[i + 2].db)
    ensures var journal := StoredJournal(RowAt(k, worlds, i + 2));
            && journal.taskId == next.taskId && journal.status == next.status
            && journal.delivery == events[i].choice.content.delivery
            && journal.charged == RowAt(k, worlds, i).value.snapshot.value.single
            && NotesDimensions(journal, events[i].choice.content.dimensions)
    ensures ShowsNext(worlds, t, i + 2)
  {
    hide Effect, IsRun, Alone, WorldInOrder, Genuine, WithDimensions, Advance, Moved, WalletOutcomes.Recorded;
    AloneLength(events, t, n, m);
    RunInOrder(p, k, worlds, events, i);
    OrderedReceipt(k, worlds[i]);
    var content := events[i].choice.content;
    DimensionsKeep(next, content.dimensions);
    var final := WithDimensions(next, content.dimensions).(delivery := content.delivery);
    OwnStep(p, k, worlds, events, t, n, m, i);
    CollectingStep(p, k, worlds[i].db, caller, next, events[i].choice);
    OwnStep(p, k, worlds, events, t, n, m, i + 1);
    SettlingCalls(p, k, worlds[i].db, caller, final, events[i + 1].choice);
    SettlementIsWritten(k, worlds[i].db, final);
  }

  lemma CollectingStep(p: Policy, k: Key, s: State, caller: Caller, next: Journal, c: Choice)
    requires c.content.Delivered?
    ensures Advance(p, k, s, Collecting(caller, next), c)
         == Act(None,
                Pc.Settling(caller, WithDimensions(next, c.content.dimensions).(delivery := c.content.delivery)), false)
  {
    hide WithDimensions;
  }

  lemma SettlingCalls(p: Policy, k: Key, s: State, caller: Caller, final: Journal, c: Choice)
    requires OwnRow(s, k).Some?
    ensures var (act, call) := (Advance(p, k, s, Pc.Settling(caller, final), c),
                                SettleOperation(k.user, OwnId(s, k).value, final));
            act.call == Some(call) && (Effect(s, call).outcome == Done ==> act.next.Showing?)
  {
    hide Effect;
  }

  lemma OrderedReceipt(k: Key, w: World)
    requires WorldInOrder(k, w) && OwnRow(w.db, k).Some?
    ensures UniqueKeys(w.db.rows) && Genuine(OwnRow(w.db, k).value)
  {
  }

  lemma DimensionsKeep(j: Journal, dimensions: Option<string>)
    ensures var with := WithDimensions(j, dimensions);
            && with.taskId == j.taskId && with.origin == j.origin && with.status == j.status
            && with.errorCode == j.errorCode && with.charged == j.charged && NotesDimensions(with, dimensions)
            && ("originalImageDimensions" in ContextOf(j) ==>
                  "originalImageDimensions" in ContextOf(with)
                  && ContextOf(with)["originalImageDimensions"] == ContextOf(j)["originalImageDimensions"])
  {
  }

  /** The measured size is in the context; it is the original size, too, unless that is known. */
  predicate NotesDimensions(j: Journal, dimensions: Option<string>) {
    dimensions.Some? ==>
      && "imageDimensions" in ContextOf(j) && ContextOf(j)["imageDimensions"] == dimensions.value
      && "originalImageDimensions" in ContextOf(j)
  }

  lemma ChargedBefore(k: Key, s: State, t: State, after: State)
    requires IsOperation(OwnRow(s, k)) && IsOperation(OwnRow(t, k)) && OwnRow(t, k).value.snapshot.Some?
    requires t.purses == s.purses && t.ledger == s.ledger && OwnId(t, k) == OwnId(s, k)
    requires SameOffer(OwnRow(s, k).value, OwnRow(t, k).value) && ChargedOnce(k, t, after)
    ensures ChargedOnce(k, s, after)
  {
    hide Find;
  }

  // ---- everything else keeps the hold --------------------------------------------------------

  /** The receipt is open and holds what it held; nobody's credits have moved. */
  ghost predicate StillHeld(k: Key, s: State, after: State)
    requires OwnRow(s, k).Some?
  {
    && IsOperation(OwnRow(after, k)) && Active(OwnRow(after, k).value) && OwnId(after, k) == OwnId(s, k)
    && SameOffer(OwnRow(s, k).value, OwnRow(after, k).value)
    && after.purses == s.purses && after.ledger == s.ledger
  }

  /** A task that is neither finished nor failed stays held, and the thread shows what it was told. */
  lemma UnfinishedIsShown(p: Policy, k: Key, worlds: seq<World>, events: seq<Event>, t: nat, n: nat, taskId: string)
    requires IsRun(p, k, worlds, events) && n + 3 <= |events| && Alone(events, t, n, n + 3)
    requires n < |worlds| && Asks(PcAt(worlds, t, n)) && IsOpen(k, worlds[n])
    requires Told(p, k, worlds, events, t, n, taskId)
    requires events[n].choice.answer.reading.state in {Queued, Dispatching, Running, Paused, OpStatus.Uncertain}
    ensures n + 3 < |worlds| && StillHeld(k, worlds[n].db, worlds[n + 3].db)
    ensures var (stored, pc) := (StoredJournal(RowAt(k, worlds, n + 3)), PcAt(worlds, t, n + 3));
            && stored.taskId == Some(taskId) && stored.status == events[n].choice.answer.reading.state
            && pc.Some? && pc.value.Exited? && pc.value.shown.Some? && pc.value.shown.value.taskId == Some(taskId)
            && pc.value.shown.value.status == stored.status
  {
    hide Effect, IsRun, Alone, Told, WorldInOrder;
    var next := AnswerIsStored(p, k, worlds, events, t, n, taskId);
  }

  /** The thread takes four steps to note that the outcome is not known: the hold and the stored task stay,
      and the receipt says so. */
  ghost predicate NotedUncertain(k: Key, s: State, after: State, errorCode: string)
    requires IsOperation(OwnRow(s, k))
  {
    && StillHeld(k, s, after)
    && StoredJournal(OwnRow(after, k)).status == OpStatus.Uncertain
    && StoredJournal(OwnRow(after, k)).errorCode == Some(errorCode)
    && StoredJournal(OwnRow(after, k)).taskId == StoredJournal(OwnRow(s, k)).taskId
  }

  /** A thread that comes to the end of its tries on an open receipt notes it in three steps. */
  lemma RecoveringNotes(p: Policy, k: Key, worlds: seq<World>, events: seq<Event>, t: nat, n: nat, m: nat,
                        caller: Caller)
    requires IsRun(p, k, worlds, events) && Alone(events, t, n, m) && n + 3 <= m <= |events|
    requires |worlds| == |events| + 1 && PcAt(worlds, t, n) == Some(Recovering(caller, false)) && IsOpen(k, worlds[n])
    ensures NotedUncertain(k, worlds[n].db, worlds[n + 3].db, "image_operation_result_unconfirmed")
    ensures PcAt(worlds, t, n + 3).Some? && PcAt(worlds, t, n + 3).value.Exited?
    ensures caller.Refresher? ==> StoredJournal(RowAt(k, worlds, n + 3)).nextRefreshAt == caller.base.nextRefreshAt
  {
    hide Effect, IsRun, Alone, RowJournal, MergeJournal, Advance;
    AloneLength(events, t, n, m);
    ReadsOpen(RowAt(k, worlds, n));
    OwnStep(p, k, worlds, events, t, n, m, n);
    var stored := StoredJournal(RowAt(k, worlds, n));
    var journal := RecoveringStep(p, k, worlds[n].db, caller, stored, events[n].choice);
    SaveAlone(p, k, worlds, events, t, n, m, n + 1, caller, journal, ATTEMPTS, ThenStop(false));
    MergeKeeps(stored, journal);
  }

  /** A generation request without a clear answer (no status, another status, an unsafe status URL) is
      neither refunded nor sent again, and a reading without one is not repeated before its time. */
  lemma UnclearAnswerKeepsHold(p: Policy, k: Key, worlds: seq<World>, events: seq<Event>, t: nat, n: nat)
    requires IsRun(p, k, worlds, events) && n + 4 <= |events| && Alone(events, t, n, n + 4)
    requires n < |worlds| && Asks(PcAt(worlds, t, n)) && IsOpen(k, worlds[n])
    requires var answer := events[n].choice.answer;
             || answer.UnsafeStatusUrl?
             || (answer.HttpError? && (answer.status.Some? ==> answer.status.value !in {400, 401, 403, 404, 422}))
    ensures n + 4 < |worlds|
    ensures NotedUncertain(k, worlds[n].db, worlds[n + 4].db, "image_operation_result_unconfirmed")
    ensures PcAt(worlds, t, n + 4).Some? && PcAt(worlds, t, n + 4).value.Exited?
    ensures StaysDue(k, worlds, t, n, n + 4)
  {
    hide Effect, IsRun, Alone, Advance;
    RunLength(p, k, worlds, events);
    AloneLength(events, t, n, n + 4);
    OwnStep(p, k, worlds, events, t, n, n + 4, n);
    var caller := UnclearStep(p, k, worlds[n].db, PcAt(worlds, t, n).value, events[n].choice);
    AloneLater(events, t, n, n + 1, n + 4);
    RecoveringNotes(p, k, worlds, events, t, n + 1, n + 4, caller);
  }

  /** After a reading the receipt is due again when its claim says. */
  ghost predicate StaysDue(k: Key, worlds: seq<World>, t: nat, n: nat, m: nat)
    requires n < |worlds| && m < |worlds| && PcAt(worlds, t, n).Some? && IsOperation(RowAt(k, worlds, m))
  {
    var pc := PcAt(worlds, t, n).value;
    pc.Fetching? ==> StoredJournal(RowAt(k, worlds, m)).nextRefreshAt == pc.base.nextRefreshAt
  }

  lemma AloneLater(events: seq<Event>, t: nat, n: nat, l: nat, m: nat)
    requires Alone(events, t, n, m) && n <= l
    ensures Alone(events, t, l, m)
  {
  }

  lemma UnclearStep(p: Policy, k: Key, s: State, pc: Pc, c: Choice) returns (caller: Caller)
    requires pc.Posting? || pc.Fetching?
    requires c.answer.UnsafeStatusUrl?
             || (c.answer.HttpError? && (c.answer.status.Some? ==> c.answer.status.value !in {400, 401, 403, 404, 422}))
    ensures Advance(p, k, s, pc, c) == Act(None, Recovering(caller, false), pc.Posting?)
    ensures caller.base == pc.base && (caller.Refresher? <==> pc.Fetching?)
  {
    hide Find;
    caller := Advance(p, k, s, pc, c).next.caller;
  }

  lemma RecoveringStep(p: Policy, k: Key, s: State, caller: Caller, stored: Journal, c: Choice)
      returns (journal: Journal)
    requires RowJournal(OwnRow(s, k)) == Some(stored) && Active(OwnRow(s, k).value)
    ensures Advance(p, k, s, Recovering(caller, false), c)
         == Act(None, SaveReading(caller, journal, ATTEMPTS, ThenStop(false)), false)
    ensures journal.taskId == stored.taskId && journal.origin == stored.origin && journal.status == OpStatus.Uncertain
    ensures journal.errorCode == Some("image_operation_result_unconfirmed")
    ensures caller.Refresher? ==> journal.nextRefreshAt == caller.base.nextRefreshAt
  {
    hide Find, RowJournal;
    journal := Advance(p, k, s, Recovering(caller, false), c).next.journal;
  }

  /** A lost connection, before or after the request or reading took effect, is no answer either. */
  lemma LostAnswerKeepsHold(p: Policy, k: Key, worlds: seq<World>, events: seq<Event>, t: nat, n: nat)
    requires IsRun(p, k, worlds, events) && n + 4 <= |events| && Alone(events, t, n + 1, n + 4)
    requires n < |worlds| && Asks(PcAt(worlds, t, n)) && IsOpen(k, worlds[n])
    requires events[n].Run? && events[n].thread == t && events[n].choice.fault != NoFault
    ensures n + 4 < |worlds|
    ensures NotedUncertain(k, worlds[n].db, worlds[n + 4].db, "image_operation_result_unconfirmed")
    ensures PcAt(worlds, t, n + 4).Some? && PcAt(worlds, t, n + 4).value.Exited?
    ensures StaysDue(k, worlds, t, n, n + 4)
  {
    hide Effect, IsRun, Alone;
    RunLength(p, k, worlds, events);
    var caller := LostStep(p, k, worlds, events, t, n);
    RecoveringNotes(p, k, worlds, events, t, n + 1, n + 4, caller);
  }

  lemma LostStep(p: Policy, k: Key, worlds: seq<World>, events: seq<Event>, t: nat, n: nat) returns (caller: Caller)
    requires IsRun(p, k, worlds, events) && n < |events| && |worlds| == |events| + 1 && Asks(PcAt(worlds, t, n))
    requires events[n].Run? && events[n].thread == t && events[n].choice.fault != NoFault
    ensures worlds[n + 1].db == worlds[n].db && PcAt(worlds, t, n + 1) == Some(Recovering(caller, false))
    ensures caller.base == PcAt(worlds, t, n).value.base && (caller.Refresher? <==> PcAt(worlds, t, n).value.Fetching?)
  {
    hide Effect, Initial, Interpret, Process, Find;
    caller := Thrown(PcAt(worlds, t, n).value).caller;
  }

  /** The price of one result is more than the receipt holds. */
  predicate TooDear(k: Key, w: World) {
    IsOperation(OwnRow(w.db, k)) && OwnRow(w.db, k).value.snapshot.Some?
    && OwnRow(w.db, k).value.snapshot.value.single > OwnRow(w.db, k).value.estimated
  }

  /** Something goes wrong after the answer: a result that cannot be read, a price that is more than the
      hold, a connection lost before the answer is saved or the charge or the refund takes effect. */
  predicate Troubled(k: Key, w: World, pc: Pc, c: Choice) {
    || (pc.Collecting? && (c.fault != NoFault || c.content.Unreadable?))
    || ((pc.Settling? || (pc.Refunding? && !pc.rejection)) && c.fault == FaultBefore)
    || ((pc.SaveReading? || pc.SaveWriting? || pc.SaveLost?) && c.fault == FaultBefore
        && (pc.goal.ThenJudge? || pc.goal == ThenStop(true)))
    || (pc.Settling? && c.fault == NoFault && TooDear(k, w))
  }

  /** Then the hold is kept, too, neither charged nor refunded. */
  lemma TroubleKeepsHold(p: Policy, k: Key, worlds: seq<World>, events: seq<Event>, t: nat, n: nat)
    requires IsRun(p, k, worlds, events) && n + 4 <= |events| && Alone(events, t, n + 1, n + 4)
    requires n < |worlds| && PcAt(worlds, t, n).Some? && IsOpen(k, worlds[n])
    requires events[n].Run? && events[n].thread == t
    requires Troubled(k, worlds[n], PcAt(worlds, t, n).value, events[n].choice)
    ensures n + 4 < |worlds|
    ensures NotedUncertain(k, worlds[n].db, worlds[n + 4].db, "image_operation_result_unconfirmed")
    ensures PcAt(worlds, t, n + 4).Some? && PcAt(worlds, t, n + 4).value.Exited?
  {
    hide Effect, IsRun, Alone, Troubled, Step, WorldInOrder, Genuine;
    RunLength(p, k, worlds, events);
    RunInOrder(p, k, worlds, events, n);
    OrderedReceipt(k, worlds[n]);
    AnyStep(p, k, worlds, events, t, n);
    var caller := TroubledStep(p, k, worlds[n], PcAt(worlds, t, n).value, events[n].choice);
    RecoveringNotes(p, k, worlds, events, t, n + 1, n + 4, caller);
  }

  lemma AnyStep(p: Policy, k: Key, worlds: seq<World>, events: seq<Event>, t: nat, n: nat)
    requires IsRun(p, k, worlds, events) && n < |events| && |worlds| == |events| + 1
    requires PcAt(worlds, t, n).Some? && events[n].Run? && events[n].thread == t
    ensures var act := Step(p, k, worlds[n].db, PcAt(worlds, t, n).value, events[n].choice);
            worlds[n + 1].db == Committed(worlds[n].db, act.call) && PcAt(worlds, t, n + 1) == Some(act.next)
  {
    hide Step, Initial, Effect;
  }

  lemma TroubledStep(p: Policy, k: Key, w: World, pc: Pc, c: Choice) returns (caller: Caller)
    requires IsOpen(k, w) && Genuine(OwnRow(w.db, k).value) && Troubled(k, w, pc, c)
    ensures var act := Step(p, k, w.db, pc, c);
            Committed(w.db, act.call) == w.db && act.next == Recovering(caller, false)
  {
    hide Effect, Interpret, Process, Find, TooDear;
    caller := pc.caller;
    if pc.Settling? && c.fault == NoFault {
      SettlementRefused(k, w, pc.final);
    }
  }

  lemma SettlementRefused(k: Key, w: World, final: Journal)
    requires IsOpen(k, w) && TooDear(k, w) && OwnRow(w.db, k).value.capability == IMAGE
    ensures var call := SettleOperation(k.user, OwnId(w.db, k).value, final);
            Effect(w.db, call).outcome.Refused? && After(w.db, call) == w.db
  {
  }

  /** A connection lost after the charge took effect charges nothing more: the thread finds the stored
      success and shows it. */
  lemma LostSettlementIsShown(p: Policy, k: Key, worlds: seq<World>, events: seq<Event>, t: nat, n: nat)
    requires IsRun(p, k, worlds, events) && n + 2 <= |events| && Alone(events, t, n + 1, n + 2)
    requires n < |worlds| && PcAt(worlds, t, n).Some? && PcAt(worlds, t, n).value.Settling?
    requires events[n].Run? && events[n].thread == t && events[n].choice.fault == FaultAfter
    requires n + 2 < |worlds| && IsOperation(RowAt(k, worlds, n + 1))
    requires RowAt(k, worlds, n + 1).value.status == SUCCEEDED
    ensures worlds[n + 2].db == worlds[n + 1].db
    ensures var pc := PcAt(worlds, t, n + 2);
            pc.Some? && pc.value.Exited? && pc.value.shown == Some(StoredJournal(RowAt(k, worlds, n + 1)))
  {
    hide Effect, Initial, Interpret, Process, Find;
    RunLength(p, k, worlds, events);
    OwnStep(p, k, worlds, events, t, n + 1, n + 2, n + 1);
  }

  /** A save that found another journal than it had read reads again and is written over that. */
  lemma SaveIsRepeated(p: Policy, k: Key, worlds: seq<World>, events: seq<Event>, t: nat, n: nat, caller: Caller,
                       journal: Journal, left: nat, goal: Goal, prior: Journal)
    requires IsRun(p, k, worlds, events) && n + 3 <= |events| && Alone(events, t, n, n + 3)
    requires n < |worlds| && PcAt(worlds, t, n) == Some(SaveWriting(caller, journal, left, goal, prior)) && left > 1
    requires IsOpen(k, worlds[n]) && StoredJournal(RowAt(k, worlds, n)) != prior
    requires StoredJournal(RowAt(k, worlds, n)).taskId in {None, journal.taskId}
    ensures n + 3 < |worlds|
    ensures var merged := MergeJournal(StoredJournal(RowAt(k, worlds, n)), journal);
            RowAt(k, worlds, n + 3)
            == Some(RowAt(k, worlds, n).value.(status := PROCESSING, stored := Operation(merged)))
    ensures worlds[n + 3].db.purses == worlds[n].db.purses && worlds[n + 3].db.ledger == worlds[n].db.ledger
  {
    hide Effect, IsRun, Alone, MergeJournal, Advance, AfterSave;
    RunLength(p, k, worlds, events);
    OwnStep(p, k, worlds, events, t, n, n + 3, n);
    AloneLength(events, t, n, n + 3);
    MissedStep(p, k, worlds[n].db, caller, journal, left, goal, prior, events[n].choice);
    SaveAlone(p, k, worlds, events, t, n, n + 3, n + 1, caller, journal, left - 1, goal);
  }

  /** Every save that a step begins has three attempts. */
  lemma SavesThreeTimes(p: Policy, k: Key, s: State, pc: Pc, c: Choice)
    requires Step(p, k, s, pc, c).next.SaveReading? && !pc.SaveReading? && !pc.SaveWriting?
    ensures Step(p, k, s, pc, c).next.left == 3
  {
    hide Effect, Interpret, Find, RowJournal;
  }

  lemma MissedStep(p: Policy, k: Key, s: State, caller: Caller, journal: Journal, left: nat, goal: Goal, prior: Journal,
                   c: Choice)
    requires IsOperation(OwnRow(s, k)) && StoredJournal(OwnRow(s, k)) != prior && left > 1
    ensures var act := Advance(p, k, s, SaveWriting(caller, journal, left, goal, prior), c);
            && act.next == SaveReading(caller, journal, left - 1, goal) && !act.posted
            && OperationProtocol.Committed(s, act.call) == s
  {
    hide MergeJournal, Find, RowJournal;
  }

  /** In the end a thread shows the receipt as it is stored. */
  lemma ReceiptIsShown(p: Policy, k: Key, worlds: seq<World>, events: seq<Event>, t: nat, n: nat)
    requires IsRun(p, k, worlds, events) && n + 1 <= |events| && Alone(events, t, n, n + 1)
    requires n < |worlds| && PcAt(worlds, t, n).Some? && PcAt(worlds, t, n).value.Showing?
    requires IsOperation(RowAt(k, worlds, n))
    ensures n + 1 < |worlds| && worlds[n + 1].db == worlds[n].db
    ensures var (row, pc) := (RowAt(k, worlds, n), PcAt(worlds, t, n + 1));
            && pc.Some? && pc.value.Exited? && pc.value.shown.Some?
            && (row.value.status != FAILED || Stopped(StoredJournal(row).status) ==>
                  pc.value.shown.value == StoredJournal(row))
  {
    hide Effect, IsRun, Alone;
    RunLength(p, k, worlds, events);
    OwnStep(p, k, worlds, events, t, n, n + 1, n);
  }

  /** A thread that has come too late shows what is stored, and changes nothing: its claim or its save was
      overtaken, or a task was accepted before its refund of a rejection. */
  lemma OvertakenShowsReceipt(p: Policy, k: Key, worlds: seq<World>, events: seq<Event>, t: nat, n: nat)
    requires IsRun(p, k, worlds, events) && n + 2 <= |events| && Alone(events, t, n, n + 2)
    requires n < |worlds| && PcAt(worlds, t, n).Some? && IsOpen(k, worlds[n])
    requires var (pc, stored) := (PcAt(worlds, t, n).value, StoredJournal(RowAt(k, worlds, n)));
             || (pc.Claiming? && stored != pc.base)
             || (pc.SaveLost? && !pc.goal.ThenPost?)
             || (pc.SaveReading? && !pc.goal.ThenPost? && stored.taskId !in {None, pc.journal.taskId})
             || (pc.Refunding? && pc.rejection && stored.taskId != pc.failed.taskId)
    ensures n + 2 < |worlds| && worlds[n + 2].db == worlds[n].db
    ensures var pc := PcAt(worlds, t, n + 2);
            pc.Some? && pc.value.Exited? && pc.value.shown == Some(StoredJournal(RowAt(k, worlds, n)))
  {
    hide Effect, IsRun, Alone, Advance, WorldInOrder, Genuine;
    RunLength(p, k, worlds, events);
    RunInOrder(p, k, worlds, events, n);
    OrderedReceipt(k, worlds[n]);
    ReadsOpen(RowAt(k, worlds, n));
    AloneLength(events, t, n, n + 2);
    OwnStep(p, k, worlds, events, t, n, n + 2, n);
    OvertakenStep(p, k, worlds[n], PcAt(worlds, t, n).value, events[n].choice);
    OwnStep(p, k, worlds, events, t, n, n + 2, n + 1);
    ShowingStep(p, k, worlds[n].db, PcAt(worlds, t, n + 1).value, events[n + 1].choice);
  }

  lemma OvertakenStep(p: Policy, k: Key, w: World, pc: Pc, c: Choice)
    requires IsOpen(k, w) && OwnRow(w.db, k).value.capability == IMAGE
    requires var stored := StoredJournal(OwnRow(w.db, k));
             || (pc.Claiming? && stored != pc.base)
             || (pc.SaveLost? && !pc.goal.ThenPost?)
             || (pc.SaveReading? && !pc.goal.ThenPost? && stored.taskId !in {None, pc.journal.taskId})
             || (pc.Refunding? && pc.rejection && stored.taskId != pc.failed.taskId)
    ensures var (act, stored) := (Advance(p, k, w.db, pc, c), StoredJournal(OwnRow(w.db, k)));
            && Committed(w.db, act.call) == w.db
            && (act.next.Showing? || (act.next.Exited? && act.next.shown == Some(stored)))
  {
    hide Find, MergeJournal;
  }

  lemma ShowingStep(p: Policy, k: Key, s: State, pc: Pc, c: Choice)
    requires IsOperation(OwnRow(s, k)) && Active(OwnRow(s, k).value)
    requires pc.Showing? || (pc.Exited? && pc.shown == Some(StoredJournal(OwnRow(s, k))))
    ensures var act := Advance(p, k, s, pc, c);
            act.call.None? && act.next.Exited? && act.next.shown == Some(StoredJournal(OwnRow(s, k)))
  {
    hide Find;
  }

  /** An answer that does not prove which task it speaks of keeps the hold and the stored task, too. */
  lemma UnrecognisedKeepsHold(p: Policy, k: Key, worlds: seq<World>, events: seq<Event>, t: nat, n: nat)
    requires IsRun(p, k, worlds, events) && n + 3 <= |events| && Alone(events, t, n, n + 3)
    requires n < |worlds| && Asks(PcAt(worlds, t, n)) && IsOpen(k, worlds[n]) && events[n].choice.answer.Response?
    requires forall id :: !Recognised(p, PcAt(worlds, t, n).value.base, events[n].choice.answer.reading, id)
    requires StoredJournal(RowAt(k, worlds, n)).taskId in {None, PcAt(worlds, t, n).value.base.taskId}
    ensures n + 3 < |worlds| && StillHeld(k, worlds[n].db, worlds[n + 3].db)
    ensures var stored := StoredJournal(RowAt(k, worlds, n + 3));
            && stored.status == OpStatus.Uncertain && stored.errorCode == Some("image_operation_identity_unconfirmed")
            && stored.taskId == PcAt(worlds, t, n).value.base.taskId
  {
    hide Effect, IsRun, Alone, WorldInOrder, Interpret, Recognised, MergeJournal;
    RunLength(p, k, worlds, events);
    RunInOrder(p, k, worlds, events, n);
    AskerKnows(k, worlds[n], t);
    var pc := PcAt(worlds, t, n).value;
    AloneLength(events, t, n, n + 3);
    AcceptedIff(p, pc.base, events[n].choice.answer.reading);
    OwnStep(p, k, worlds, events, t, n, n + 3, n);
    var journal := OperationProtocol.Uncertain(pc.base, "image_operation_identity_unconfirmed");
    SaveAlone(p, k, worlds, events, t, n, n + 3, n + 1, CallerOf(pc), journal, ATTEMPTS, ThenStop(true));
    MergeKeeps(StoredJournal(RowAt(k, worlds, n)), journal);
  }

  /** A success whose result cannot be used is not charged: the receipt keeps its task, and says why. */
  lemma UnusableResultKeepsHold(p: Policy, k: Key, worlds: seq<World>, events: seq<Event>, t: nat, n: nat,
                                taskId: string)
    requires IsRun(p, k, worlds, events) && n + 6 <= |events| && Alone(events, t, n, n + 6)
    requires n < |worlds| && Asks(PcAt(worlds, t, n)) && IsOpen(k, worlds[n])
    requires Told(p, k, worlds, events, t, n, taskId)
    requires events[n].choice.answer.reading.state == Success && events[n + 3].choice.content.Unusable?
    ensures n + 6 < |worlds| && StillHeld(k, worlds[n].db, worlds[n + 6].db)
    ensures var stored := StoredJournal(RowAt(k, worlds, n + 6));
            && stored.status == OpStatus.Uncertain && stored.taskId == Some(taskId)
            && stored.errorCode == Some(events[n + 3].choice.content.errorCode)
  {
    hide Effect, IsRun, Alone, Told, WorldInOrder, MergeJournal;
    RunLength(p, k, worlds, events);
    AloneShorter(events, t, n, n + 6, n + 3);
    var next := AnswerIsStored(p, k, worlds, events, t, n, taskId);
    OwnStep(p, k, worlds, events, t, n, n + 6, n + 3);
    AloneLength(events, t, n, n + 6);
    var (caller, errorCode) := (CallerOf(PcAt(worlds, t, n).value), events[n + 3].choice.content.errorCode);
    var journal := OperationProtocol.Uncertain(next, errorCode);
    SaveAlone(p, k, worlds, events, t, n, n + 6, n + 4, caller, journal, ATTEMPTS, ThenStop(true));
    MergeKeeps(StoredJournal(RowAt(k, worlds, n + 4)), journal);
  }

  // ---- how an answer comes to be asked for ---------------------------------------------------

  /** A submission under an unused key that the wallet pays for reserves, stores its receipt and sends its
      generation request: once, and after the reservation. */
  lemma SubmissionIsSent(p: Policy, k: Key, worlds: seq<World>, events: seq<Event>, t: nat, n: nat)
    requires IsRun(p, k, worlds, events) && n + 5 <= |events| && Alone(events, t, n, n + 5)
    requires n < |worlds| && PcAt(worlds, t, n).Some? && PcAt(worlds, t, n).value.Looking?
    requires RowAt(k, worlds, n).None?
    requires var (base, snapshot) := (PcAt(worlds, t, n).value.base, PcAt(worlds, t, n).value.snapshot);
             && OperationSnapshot(snapshot) && SameRequest(base.origin.identity, snapshot)
             && Solvent(worlds[n].db) && Affords(worlds[n].db, k.user, snapshot.quoted)
    ensures n + 5 < |worlds| && worlds[n + 5].posts == worlds[n].posts + 1 == worlds[n + 4].posts + 1
    ensures var (base, quoted: int) := (PcAt(worlds, t, n).value.base, PcAt(worlds, t, n).value.snapshot.quoted);
            && Moved(worlds[n].db, worlds[n + 5].db, k.user, -quoted, quoted, 0)
            && IsOpen(k, worlds[n + 4]) && StoredJournal(RowAt(k, worlds, n + 4)).origin == base.origin
            && RowAt(k, worlds, n + 4).value.estimated == quoted
            && PcAt(worlds, t, n + 4) == Some(Posting(base))
  {
    hide Effect, IsRun, Alone, RowJournal, MergeJournal, OperationSnapshot, SameRequest, Moved, Advance;
    RunLength(p, k, worlds, events);
    AloneLength(events, t, n, n + 5);
    var (base, snapshot) := (PcAt(worlds, t, n).value.base, PcAt(worlds, t, n).value.snapshot);
    SubmissionReserves(p, k, worlds, events, t, n, n + 5, base, snapshot);
    SaveAlone(p, k, worlds, events, t, n, n + 5, n + 2, Submitter(base, false), base, ATTEMPTS, ThenPost);
    MergeKeeps(base, base);
    OwnStep(p, k, worlds, events, t, n, n + 5, n + 4);
    PostingStep(p, k, worlds[n + 4].db, base, events[n + 4].choice);
    SameMoves(worlds[n].db, worlds[n + 2].db, worlds[n + 5].db, k.user, snapshot.quoted);
  }

  /** Its first two steps. */
  lemma SubmissionReserves(p: Policy, k: Key, worlds: seq<World>, events: seq<Event>, t: nat, n: nat, m: nat,
                           base: Journal, snapshot: Snapshot)
    requires IsRun(p, k, worlds, events) && Alone(events, t, n, m) && n + 2 <= m <= |events|
    requires |worlds| == |events| + 1 && PcAt(worlds, t, n) == Some(Looking(base, snapshot))
    requires RowAt(k, worlds, n).None?
    requires OperationSnapshot(snapshot) && SameRequest(base.origin.identity, snapshot)
    requires Solvent(worlds[n].db) && Affords(worlds[n].db, k.user, snapshot.quoted)
    ensures Moved(worlds[n].db, worlds[n + 2].db, k.user, -(snapshot.quoted as int), snapshot.quoted, 0)
    ensures IsOpen(k, worlds[n + 2]) && StoredJournal(RowAt(k, worlds, n + 2)) == base
    ensures RowAt(k, worlds, n + 2).value.estimated == snapshot.quoted && worlds[n + 2].posts == worlds[n].posts
    ensures PcAt(worlds, t, n + 2) == Some(SaveReading(Submitter(base, false), base, ATTEMPTS, ThenPost))
  {
    hide Effect, IsRun, Alone, WorldInOrder, RowJournal, OperationSnapshot, SameRequest, Moved, Advance, UniqueKeys,
         Find, Solvent;
    RunInOrder(p, k, worlds, events, n);
    UniqueIn(k, worlds[n]);
    AloneLength(events, t, n, m);
    SubmittingSteps(p, k, worlds[n].db, base, snapshot, events[n].choice);
    OwnStep(p, k, worlds, events, t, n, m, n);
    ReservationIsWritten(k, worlds[n].db, snapshot, base, events[n + 1].choice.now);
    SubmittingSteps(p, k, worlds[n].db, base, snapshot, events[n + 1].choice);
    OwnStep(p, k, worlds, events, t, n, m, n + 1);
  }

  lemma SubmittingSteps(p: Policy, k: Key, s: State, base: Journal, snapshot: Snapshot, c: Choice)
    requires OwnRow(s, k).None?
    ensures Advance(p, k, s, Looking(base, snapshot), c) == Act(None, Pc.Reserving(base, snapshot), false)
    ensures var call := ReserveOperation(k.user, k.client, snapshot, base, c.now);
            Effect(s, call).outcome == Done ==>
              Advance(p, k, s, Pc.Reserving(base, snapshot), c)
              == Act(Some(call), SaveReading(Submitter(base, false), base, ATTEMPTS, ThenPost), false)
  {
    hide Effect, Find, RowJournal;
  }

  lemma PostingStep(p: Policy, k: Key, s: State, base: Journal, c: Choice)
    ensures Advance(p, k, s, Posting(base), c).posted && Advance(p, k, s, Posting(base), c).call.None?
  {
    hide Interpret, Find;
  }

  lemma SameMoves(s: State, t: State, after: State, user: string, quoted: int)
    requires Moved(s, t, user, -quoted, quoted, 0) && after.purses == t.purses
    ensures Moved(s, after, user, -quoted, quoted, 0)
  {
  }

  lemma ReservationIsWritten(k: Key, s: State, snapshot: Snapshot, base: Journal, now: int)
    requires UniqueKeys(s.rows) && Solvent(s) && OwnRow(s, k).None? && OperationSnapshot(snapshot)
    requires SameRequest(base.origin.identity, snapshot) && Affords(s, k.user, snapshot.quoted)
    ensures var call := ReserveOperation(k.user, k.client, snapshot, base, now);
            var after := After(s, call);
            && Effect(s, call).outcome == Done && Moved(s, after, k.user, -(snapshot.quoted as int), snapshot.quoted, 0)
            && OwnRow(after, k) == Some(NewRow(k.user, k.client, IMAGE, RESERVED, Some(snapshot), snapshot.quoted,
                                               Operation(base), now))
  {
    hide Moved, WalletOutcomes.Recorded, OperationSnapshot, SameRequest;
    var call := ReserveOperation(k.user, k.client, snapshot, base, now);
    var change := Effect(s, call).change;
    PutMoves(s, change.id, change.row, change.money.value);
    OwnRowAfter(s, k, change);
  }

  /** A retry of a submission is answered from the row that is there, in one step and without a request:
      with the receipt if that has its fingerprint, as failed if the row is, and otherwise with nothing. */
  lemma RetryIsAnswered(p: Policy, k: Key, worlds: seq<World>, events: seq<Event>, t: nat, n: nat)
    requires IsRun(p, k, worlds, events) && n + 1 <= |events| && Alone(events, t, n, n + 1)
    requires n < |worlds| && PcAt(worlds, t, n).Some? && PcAt(worlds, t, n).value.Looking?
    requires RowAt(k, worlds, n).Some?
    ensures n + 1 < |worlds| && worlds[n + 1].db == worlds[n].db && worlds[n + 1].posts == worlds[n].posts
    ensures var (row, pc) := (RowAt(k, worlds, n), PcAt(worlds, t, n + 1));
            var asked := PcAt(worlds, t, n).value.base.origin.identity.fingerprint;
            && pc.Some? && pc.value.Exited?
            && (pc.value.shown.Some? <==> IsOperation(row) && StoredJournal(row).origin.identity.fingerprint == asked)
            && (pc.value.shown.Some? ==>
                  && pc.value.shown.value.taskId == StoredJournal(row).taskId
                  && pc.value.shown.value.origin == StoredJournal(row).origin
                  && (row.value.status != FAILED ==> pc.value.shown.value == StoredJournal(row))
                  && (row.value.status == FAILED ==> Stopped(pc.value.shown.value.status)))
  {
    hide Effect, IsRun, Alone;
    RunLength(p, k, worlds, events);
    OwnStep(p, k, worlds, events, t, n, n + 1, n);
  }

  /** A refresh of an open receipt that is due claims its read window and then asks; one that has ended, or
      is not due, is shown as it is, and nothing is asked. */
  lemma RefreshAsksWhenDue(p: Policy, k: Key, worlds: seq<World>, events: seq<Event>, t: nat, n: nat)
    requires IsRun(p, k, worlds, events) && n + 2 <= |events| && Alone(events, t, n, n + 2)
    requires n < |worlds| && PcAt(worlds, t, n) == Some(Opening) && IsOpen(k, worlds[n])
    ensures n + 2 < |worlds| && StillHeld(k, worlds[n].db, worlds[n + 2].db)
    ensures var stored := StoredJournal(RowAt(k, worlds, n));
            if stored.status in {Success, Failed, Canceled, ClientDisconnected}
               || stored.nextRefreshAt > events[n].choice.now
            then PcAt(worlds, t, n + 2) == Some(Exited(None, Some(stored))) && worlds[n + 2].db == worlds[n].db
            else
              var claimed := stored.(nextRefreshAt := events[n + 1].choice.now + 5000);
              PcAt(worlds, t, n + 2) == Some(Fetching(claimed)) && StoredJournal(RowAt(k, worlds, n + 2)) == claimed
  {
    hide Effect, IsRun, Alone, WorldInOrder, RowJournal, Advance, Genuine;
    RunLength(p, k, worlds, events);
    RunInOrder(p, k, worlds, events, n);
    OrderedReceipt(k, worlds[n]);
    ReadsOpen(RowAt(k, worlds, n));
    AloneLength(events, t, n, n + 2);
    var (s, stored, now) := (worlds[n].db, StoredJournal(RowAt(k, worlds, n)), events[n + 1].choice.now);
    OpeningStep(p, k, s, stored, events[n].choice);
    OwnStep(p, k, worlds, events, t, n, n + 2, n);
    ClaimIsWritten(k, s, stored, now + 5000);
    ClaimingStep(p, k, s, stored, events[n + 1].choice);
    OwnStep(p, k, worlds, events, t, n, n + 2, n + 1);
  }

  lemma OpeningStep(p: Policy, k: Key, s: State, stored: Journal, c: Choice)
    requires RowJournal(OwnRow(s, k)) == Some(stored) && Genuine(OwnRow(s, k).value)
    ensures Advance(p, k, s, Opening, c)
         == Act(None, if Ended(stored.status) || stored.nextRefreshAt > c.now then Exited(None, Some(stored))
                      else Claiming(stored), false)
  {
    hide Find;
  }

  lemma ClaimingStep(p: Policy, k: Key, s: State, stored: Journal, c: Choice)
    requires OwnRow(s, k).Some?
    ensures var claimed := stored.(nextRefreshAt := c.now + 5000);
            var call := ClaimRefresh(k.user, OwnId(s, k).value, Operation(stored), claimed);
            Effect(s, call).outcome == Done ==>
              Advance(p, k, s, Claiming(stored), c) == Act(Some(call), Fetching(claimed), false)
    ensures forall asked, shown :: Advance(p, k, s, Exited(asked, shown), c) == Act(None, Exited(asked, shown), false)
  {
    hide Effect, Find;
  }

  lemma ClaimIsWritten(k: Key, s: State, base: Journal, nextRefreshAt: int)
    requires UniqueKeys(s.rows) && IsOperation(OwnRow(s, k)) && Active(OwnRow(s, k).value)
    requires StoredJournal(OwnRow(s, k)) == base
    ensures var claimed := base.(nextRefreshAt := nextRefreshAt);
            var call := ClaimRefresh(k.user, OwnId(s, k).value, Operation(base), claimed);
            && Effect(s, call).outcome == Done && OwnId(After(s, call), k) == OwnId(s, k)
            && OwnRow(After(s, call), k) == Some(OwnRow(s, k).value.(stored := Operation(claimed)))
            && After(s, call).purses == s.purses && After(s, call).ledger == s.ledger
  {
    var call := ClaimRefresh(k.user, OwnId(s, k).value, Operation(base), base.(nextRefreshAt := nextRefreshAt));
    OwnRowAfter(s, k, Effect(s, call).change);
  }
}
