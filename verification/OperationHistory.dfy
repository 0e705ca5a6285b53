/** Theorems about whole runs of `OperationProtocol`: any number of threads and foreign
    transactions, in any order, with any provider answers, faults and crashes. */
module OperationHistory {
  import opened JsonValues
  import opened TaskMetadata
  import opened Journals
  import opened Wallet
  import opened WalletBooks
  import opened OperationProtocol
  import opened OperationSafety

  ghost predicate IsRun(p: Policy, k: Key, worlds: seq<World>, events: seq<Event>) {
    && |worlds| == |events| + 1
    && Initial(k, worlds[0])
    && forall i :: 0 <= i < |events| ==>
         Allowed(k, worlds[i], events[i]) && worlds[i + 1] == Next(p, k, worlds[i], events[i])
  }

  function RowAt(k: Key, worlds: seq<World>, i: nat): Option<Row>
    requires i < |worlds|
  {
    OwnRow(worlds[i].db, k)
  }

  lemma {:induction false} RunInOrder(p: Policy, k: Key, worlds: seq<World>, events: seq<Event>, i: nat)
    requires IsRun(p, k, worlds, events) && i < |worlds|
    ensures WorldInOrder(k, worlds[i])
  {
    hide WorldInOrder, Next, Allowed, Initial;
    if i == 0 {
      InitialInOrder(k, worlds[0]);
    } else {
      RunInOrder(p, k, worlds, events, i - 1);
      NextKeepsOrder(p, k, worlds[i - 1], events[i - 1]);
    }
  }

  lemma RunLength(p: Policy, k: Key, worlds: seq<World>, events: seq<Event>)
    requires IsRun(p, k, worlds, events)
    ensures |worlds| == |events| + 1
  {
  }

  lemma StepOfRun(p: Policy, k: Key, worlds: seq<World>, events: seq<Event>, i: nat)
    requires IsRun(p, k, worlds, events) && i + 1 < |worlds|
    ensures RowMoves(RowAt(k, worlds, i), RowAt(k, worlds, i + 1))
  {
    hide Next, Allowed, Initial, RowMoves;
    RunInOrder(p, k, worlds, events, i);
    NextMoves(p, k, worlds[i], events[i]);
  }

  lemma LaterReflexive(x: Row)
    requires x.stored.Operation?
    ensures Later(x, x)
  {
  }

  lemma MovesLater(x: Option<Row>, y: Option<Row>)
    requires IsOperation(x) && IsOperation(y) && RowMoves(x, y)
    ensures Later(x.value, y.value)
  {
  }

  /** A video request under the same client id takes over the row it finds. */
  predicate TakeoverAt(k: Key, worlds: seq<World>, events: seq<Event>, n: nat)
    requires n < |worlds| && n < |events|
  {
    events[n].Elsewhere? && TakesOver(k, worlds[n].db, events[n].call)
  }

  ghost predicate Untaken(k: Key, worlds: seq<World>, events: seq<Event>, i: nat, j: nat)
    requires |worlds| == |events| + 1 && j < |worlds|
  {
    forall n :: i <= n < j ==> !TakeoverAt(k, worlds, events, n)
  }

  lemma ThreadLeavesReceipt(p: Policy, k: Key, s: State, pc: Pc, c: Choice)
    requires RowInOrder(s, k) && Knows(pc, OwnRow(s, k)) && IsOperation(OwnRow(s, k))
    ensures IsOperation(OwnRow(Committed(s, Step(p, k, s, pc, c).call), k))
  {
    hide Advance, Effect, RowInOrder, Knows;
    var call := Advance(p, k, s, pc, c).call;
    if call.Some? {
      OrderedRow(s, k);
      ThreadCalls(p, k, s, pc, c);
      if Effect(s, call.value).change.Put? {
        ThreadWritesReceipt(s, call.value);
      }
      OwnRowAfter(s, k, Effect(s, call.value).change);
    }
  }

  lemma ThreadCalls(p: Policy, k: Key, s: State, pc: Pc, c: Choice)
    ensures var call := Advance(p, k, s, pc, c).call; call.Some? ==> OperationCall(call.value)
  {
    hide Interpret, RowJournal, Effect;
  }

  lemma ThreadWritesReceipt(s: State, call: Call)
    requires OperationCall(call) && Effect(s, call).change.Put?
    ensures Effect(s, call).change.row.stored.Operation?
  {
  }

  /** A receipt stays one in every step but a takeover. */
  lemma ReceiptStaysIff(p: Policy, k: Key, worlds: seq<World>, events: seq<Event>, n: nat)
    requires IsRun(p, k, worlds, events) && n < |events| && IsOperation(RowAt(k, worlds, n))
    ensures IsOperation(RowAt(k, worlds, n + 1)) <==> !TakeoverAt(k, worlds, events, n)
  {
    hide Effect, Step, Knows, RowInOrder, Initial, Foreign;
    RunInOrder(p, k, worlds, events, n);
    var w := worlds[n];
    OrderedRow(w.db, k);
    match events[n]
    case Run(thread, choice) => ThreadLeavesReceipt(p, k, w.db, w.threads[thread], choice);
    case Elsewhere(call) =>
      ForeignTouches(k, w.db, call);
      OwnRowAfter(w.db, k, Effect(w.db, call).change);
      if call.ReserveVideo? && call.user == k.user && call.client == k.client {
        TakeoverWritten(k, w.db, call);
      } else if Touches(k, Effect(w.db, call).change) && call.ReleaseChat? {
        ReleasedRow(w.db, call);
      }
    case _ =>
  }

  lemma OrderedRow(s: State, k: Key)
    requires RowInOrder(s, k)
    ensures UniqueKeys(s.rows)
  {
  }

  /** Between any two moments of a run at which the row is a receipt its origin is the same, a stored
      task id is never replaced or erased, a terminal row is frozen and an open journal only learns;
      and it is still a receipt exactly when no video request took the row over in between. */
  lemma {:induction false} ReceiptIsWriteOnce(p: Policy, k: Key, worlds: seq<World>, events: seq<Event>, i: nat, j: nat)
    requires IsRun(p, k, worlds, events) && i <= j && j < |worlds|
    requires IsOperation(RowAt(k, worlds, i))
    ensures IsOperation(RowAt(k, worlds, j)) ==> Later(RowAt(k, worlds, i).value, RowAt(k, worlds, j).value)
    ensures IsOperation(RowAt(k, worlds, j)) <==> Untaken(k, worlds, events, i, j)
    decreases j - i
  {
    hide IsRun, OwnRow, Later, Next, Allowed, TakeoverAt;
    RunLength(p, k, worlds, events);
    if i == j {
      LaterReflexive(RowAt(k, worlds, i).value);
    } else {
      ReceiptIsWriteOnce(p, k, worlds, events, i, j - 1);
      StepOfRun(p, k, worlds, events, j - 1);
      if IsOperation(RowAt(k, worlds, j - 1)) {
        ReceiptStaysIff(p, k, worlds, events, j - 1);
        if IsOperation(RowAt(k, worlds, j)) {
          MovesLater(RowAt(k, worlds, j - 1), RowAt(k, worlds, j));
          LaterTransitive(RowAt(k, worlds, i).value, RowAt(k, worlds, j - 1).value, RowAt(k, worlds, j).value);
        }
      } else {
        StaysSome(p, k, worlds, events, i, j - 1);
      }
    }
  }

  /** A row is never deleted. */
  lemma {:induction false} StaysSome(p: Policy, k: Key, worlds: seq<World>, events: seq<Event>, i: nat, j: nat)
    requires IsRun(p, k, worlds, events) && i <= j && j < |worlds| && RowAt(k, worlds, i).Some?
    ensures RowAt(k, worlds, j).Some?
    decreases j - i
  {
    hide IsRun, OwnRow, Later, Closes, Next, Allowed;
    if i < j {
      StaysSome(p, k, worlds, events, i, j - 1);
      StepOfRun(p, k, worlds, events, j - 1);
    }
  }

  /** A receipt that has SUCCEEDED was open earlier with the very task id it settled with already
      stored, and one that has FAILED lost no task id on the way. */
  lemma {:induction false} OutcomeNeedsStoredReceipt(p: Policy, k: Key, worlds: seq<World>, events: seq<Event>, j: nat)
      returns (i: nat)
    requires IsRun(p, k, worlds, events) && j < |worlds|
    requires IsOperation(RowAt(k, worlds, j)) && !Active(RowAt(k, worlds, j).value)
    ensures i < j && IsOperation(RowAt(k, worlds, i)) && Active(RowAt(k, worlds, i).value)
    ensures StoredJournal(RowAt(k, worlds, i)).taskId == StoredJournal(RowAt(k, worlds, j)).taskId
    ensures RowAt(k, worlds, j).value.status == SUCCEEDED ==> StoredJournal(RowAt(k, worlds, i)).taskId.Some?
  {
    i := j - 1;
    StepOfRun(p, k, worlds, events, i);
    if !Active(RowAt(k, worlds, i).value) {
      i := OutcomeNeedsStoredReceipt(p, k, worlds, events, i);
    }
  }

  /** At most one generation request is ever sent for a key, and none before its reservation: at some
      earlier moment the row was the receipt. */
  lemma AtMostOnePost(p: Policy, k: Key, worlds: seq<World>, events: seq<Event>, i: nat)
    requires IsRun(p, k, worlds, events) && i < |worlds|
    ensures worlds[i].posts <= 1
    ensures worlds[i].posts == 1 ==> exists m :: 0 <= m < i && IsOperation(RowAt(k, worlds, m))
  {
    RunInOrder(p, k, worlds, events, i);
    if worlds[i].posts == 1 {
      PostFollowsReservation(p, k, worlds, events, i);
    }
  }

  ghost predicate Towards(w: World) {
    w.posts > 0 || exists t :: t in w.threads && BeforePost(w.threads[t])
  }

  /** Whoever is about to send the request, or has sent it, reserved the receipt. */
  lemma ReservingStep(p: Policy, k: Key, w: World, e: Event)
    requires WorldInOrder(k, w) && Allowed(k, w, e) && !Towards(w) && Towards(Next(p, k, w, e))
    ensures IsOperation(OwnRow(Next(p, k, w, e).db, k)) && Next(p, k, w, e).posts == 0
  {
    hide Advance, Thrown, Effect, RowInOrder, Knows;
    if e.Run? {
      var pc := w.threads[e.thread];
      StepTowardsPost(p, k, w.db, pc, e.choice);
      OnlyReservingTowardsPost(p, k, w.db, pc, e.choice);
      ReservedIsReceipt(p, k, w.db, pc, e.choice);
    }
  }

  lemma OnlyReservingTowardsPost(p: Policy, k: Key, s: State, pc: Pc, c: Choice)
    requires RowInOrder(s, k) && !BeforePost(pc) && BeforePost(Step(p, k, s, pc, c).next)
    ensures pc.Reserving? && c.fault == NoFault
  {
    hide Advance, Thrown, OwnRow, RowInOrder;
    ThrownTowardsPost(pc);
    if pc.Reserving? {
    } else if pc.Posting? {
      PostingTowardsPost(p, k, s, pc, c);
    } else if pc.SaveReading? || pc.SaveWriting? || pc.SaveLost? {
      SavingTowardsPost(p, k, s, pc, c);
    } else if pc.Claiming? || pc.Settling? || pc.Refunding? {
      WritingTowardsPost(p, k, s, pc, c);
    } else {
      ReadingTowardsPost(p, k, s, pc, c);
    }
  }

  lemma ReservedIsReceipt(p: Policy, k: Key, s: State, pc: Pc, c: Choice)
    requires RowInOrder(s, k) && pc.Reserving? && c.fault == NoFault && BeforePost(Step(p, k, s, pc, c).next)
    ensures IsOperation(OwnRow(Committed(s, Step(p, k, s, pc, c).call), k))
  {
    hide Effect, RowInOrder, RowJournal;
    var call := ReserveOperation(k.user, k.client, pc.snapshot, pc.base, c.now);
    assert Advance(p, k, s, pc, c).call == Some(call);
    OrderedRow(s, k);
    ReservationEffect(s, k, pc.snapshot, pc.base, c.now);
    OwnRowAfter(s, k, Effect(s, call).change);
  }

  lemma {:induction false} PostFollowsReservation(p: Policy, k: Key, worlds: seq<World>, events: seq<Event>, i: nat)
    requires IsRun(p, k, worlds, events) && i < |worlds| && Towards(worlds[i])
    ensures exists m :: 0 <= m <= i && IsOperation(RowAt(k, worlds, m)) && worlds[m].posts == 0
    ensures worlds[i].posts > 0 ==> exists m :: 0 <= m < i && IsOperation(RowAt(k, worlds, m))
  {
    hide Next, Allowed, WorldInOrder;
    RunInOrder(p, k, worlds, events, i - 1);
    if Towards(worlds[i - 1]) {
      PostFollowsReservation(p, k, worlds, events, i - 1);
    } else {
      ReservingStep(p, k, worlds[i - 1], events[i - 1]);
    }
  }

  /** A submission is only ever shown a receipt of its own parameters. */
  lemma RetryShowsOwnParameters(p: Policy, k: Key, worlds: seq<World>, events: seq<Event>, i: nat, t: nat)
    requires IsRun(p, k, worlds, events) && i < |worlds|
    requires t in worlds[i].threads && worlds[i].threads[t].Exited?
    ensures var exited := worlds[i].threads[t];
            exited.asked.Some? && exited.shown.Some? ==>
              exited.shown.value.origin.identity.fingerprint == exited.asked.value
  {
    RunInOrder(p, k, worlds, events, i);
  }

  // ---- one terminal outcome ------------------------------------------------------------------

  function AmountSum(lines: seq<Line>): int {
    if lines == [] then 0 else AmountSum(lines[..|lines| - 1]) + lines[|lines| - 1].amount
  }

  lemma {:induction false} AmountSumConcat(a: seq<Line>, b: seq<Line>)
    ensures AmountSum(a + b) == AmountSum(a) + AmountSum(b)
  {
    if b == [] {
      assert a + b == a;
    } else {
      AmountSumConcat(a, b[..|b| - 1]);
      assert (a + b)[..|a + b| - 1] == a + b[..|b| - 1];
    }
  }

  lemma OutcomeSums(row: Row)
    requires row.stored.Operation? && Genuine(row)
    ensures AmountSum(ExpectedLines(row)) == if Active(row) then -(row.estimated as int) else 0
  {
    var estimated: int, charged := row.estimated, row.charged;
    AmountSumConcat([], [Line(RESERVE, -estimated)]);
    AmountSumConcat(Holding(estimated).lines, if row.status == SUCCEEDED then Charging(estimated, charged).lines
      else if row.status == FAILED then Wallet.Releasing(estimated).lines else []);
    assert [Line(CHARGE, charged), Line(RELEASE, estimated - charged)]
        == [Line(CHARGE, charged)] + [Line(RELEASE, estimated - charged)];
    AmountSumConcat([Line(CHARGE, charged)], [Line(RELEASE, estimated - charged)]);
  }

  /** At every moment the ledger lines of the receipt are its reservation followed by at most one
      outcome: (-estimate), (-estimate, +charge[, +rest]) or (-estimate, +estimate). Terminal
      receipts sum to zero. The estimate is what the tariff quotes, and the charge of a success is the
      price of one result, in the row and in the journal that is shown. */
  lemma OneTerminalOutcome(p: Policy, k: Key, worlds: seq<World>, events: seq<Event>, i: nat)
    requires IsRun(p, k, worlds, events) && i < |worlds| && IsOperation(RowAt(k, worlds, i))
    ensures var row, lines := RowAt(k, worlds, i).value, LinesOf(worlds[i].db.ledger, OwnId(worlds[i].db, k).value);
            && lines == ExpectedLines(row)
            && AmountSum(lines) == if Active(row) then -(row.estimated as int) else 0
    ensures var row := RowAt(k, worlds, i).value;
            && row.snapshot.Some? && row.estimated == row.snapshot.value.quoted
            && (row.status == SUCCEEDED ==>
                  row.charged == row.snapshot.value.single == StoredJournal(RowAt(k, worlds, i)).charged)
  {
    RunInOrder(p, k, worlds, events, i);
    OutcomeSums(RowAt(k, worlds, i).value);
  }

  /** A receipt that SUCCEEDED is never taken over. */
  lemma {:induction false} SuccessStays(p: Policy, k: Key, worlds: seq<World>, events: seq<Event>, i: nat, j: nat)
    requires IsRun(p, k, worlds, events) && i <= j && j < |worlds|
    requires IsOperation(RowAt(k, worlds, i)) && RowAt(k, worlds, i).value.status == SUCCEEDED
    ensures RowAt(k, worlds, j) == RowAt(k, worlds, i)
    decreases j - i
  {
    hide IsRun, OwnRow, Next, Allowed;
    if i < j {
      SuccessStays(p, k, worlds, events, i, j - 1);
      StepOfRun(p, k, worlds, events, j - 1);
    }
  }

  /** After the outcome, settles, releases, sweeps and retries add nothing more, for ever after a
      success and, after a failure, exactly until a video request takes the row over. */
  lemma OutcomeIsFinal(p: Policy, k: Key, worlds: seq<World>, events: seq<Event>, i: nat, j: nat)
    requires IsRun(p, k, worlds, events) && i <= j && j < |worlds|
    requires IsOperation(RowAt(k, worlds, i)) && !Active(RowAt(k, worlds, i).value)
    ensures RowAt(k, worlds, j) == RowAt(k, worlds, i) <==> Untaken(k, worlds, events, i, j)
    ensures RowAt(k, worlds, i).value.status == SUCCEEDED ==> Untaken(k, worlds, events, i, j)
    ensures Untaken(k, worlds, events, i, j) ==>
              LinesOf(worlds[j].db.ledger, OwnId(worlds[j].db, k).value)
              == LinesOf(worlds[i].db.ledger, OwnId(worlds[i].db, k).value)
  {
    hide IsRun, TakeoverAt, LinesOf, OwnRow, ExpectedLines;
    ReceiptIsWriteOnce(p, k, worlds, events, i, j);
    if RowAt(k, worlds, i).value.status == SUCCEEDED {
      SuccessStays(p, k, worlds, events, i, j);
    }
    if IsOperation(RowAt(k, worlds, j)) {
      OneTerminalOutcome(p, k, worlds, events, i);
      OneTerminalOutcome(p, k, worlds, events, j);
    }
  }

  // ---- what a success keeps ------------------------------------------------------------------

  lemma SucceedingCall(s: State, call: Call)
    requires OperationCall(call)
    ensures var change := Effect(s, call).change;
            change.Put? && change.row.status == SUCCEEDED && !call.SettleOperation? ==>
              change.id < |s.rows| && s.rows[change.id].status == SUCCEEDED
  {
  }

  lemma SettledJournal(s: State, call: Call)
    requires call.SettleOperation? && Effect(s, call).change.Put?
    ensures var row := Effect(s, call).change.row;
            row.stored == Operation(call.journal.(charged := row.charged))
  {
  }

  lemma SettlingStep(p: Policy, k: Key, s: State, pc: Pc, c: Choice)
    requires RowInOrder(s, k) && Knows(pc, OwnRow(s, k))
    requires IsOperation(OwnRow(s, k)) && Active(OwnRow(s, k).value)
    requires var after := OwnRow(Committed(s, Step(p, k, s, pc, c).call), k);
             IsOperation(after) && after.value.status == SUCCEEDED
    ensures var after := OwnRow(Committed(s, Step(p, k, s, pc, c).call), k);
            pc.Settling? && StoredJournal(after) == pc.final.(charged := after.value.charged)
  {
    hide Effect, RowInOrder, Interpret, RowJournal, Knows;
    var call := Advance(p, k, s, pc, c).call;
    OrderedRow(s, k);
    ThreadCalls(p, k, s, pc, c);
    SucceedingCall(s, call.value);
    OwnRowAfter(s, k, Effect(s, call.value).change);
    if call.value.SettleOperation? {
      SettledJournal(s, call.value);
    }
  }

  lemma ForeignNeverSucceeds(k: Key, s: State, call: Call)
    requires RowInOrder(s, k) && Foreign(k, s, call) && IsOperation(OwnRow(s, k)) && Active(OwnRow(s, k).value)
    ensures var after := OwnRow(After(s, call), k); IsOperation(after) ==> after.value.status != SUCCEEDED
  {
    hide Effect, Foreign;
    OrderedRow(s, k);
    ForeignTouches(k, s, call);
    OwnRowAfter(s, k, Effect(s, call).change);
    if Touches(k, Effect(s, call).change) {
      if call.ReleaseChat? {
        ReleasedRow(s, call);
      } else {
        TakeoverWritten(k, s, call);
      }
    }
  }

  /** The settlement writes the journal of its thread, not a merge with the stored one: a receipt that
      succeeds keeps the stored context keys, metadata and actions exactly when that journal has them. */
  lemma SuccessKeepsIff(p: Policy, k: Key, worlds: seq<World>, events: seq<Event>, n: nat)
    requires IsRun(p, k, worlds, events) && n < |events| && IsOperation(RowAt(k, worlds, n))
    requires Active(RowAt(k, worlds, n).value)
    requires IsOperation(RowAt(k, worlds, n + 1)) && RowAt(k, worlds, n + 1).value.status == SUCCEEDED
    ensures events[n].Run? && events[n].thread in worlds[n].threads && worlds[n].threads[events[n].thread].Settling?
    ensures var (stored, final) := (StoredJournal(RowAt(k, worlds, n)), worlds[n].threads[events[n].thread].final);
            Grows(stored, StoredJournal(RowAt(k, worlds, n + 1))) <==> Grows(stored, final)
  {
    hide Effect, Initial, Step, RowInOrder, Knows, Foreign;
    RunInOrder(p, k, worlds, events, n);
    match events[n]
    case Run(t, choice) => SettlingStep(p, k, worlds[n].db, worlds[n].threads[t], choice);
    case Elsewhere(call) => ForeignNeverSucceeds(k, worlds[n].db, call);
    case _ =>
  }

  lemma SaveCommits(s: State, k: Key, prior: Journal, merged: Journal)
    requires IsOperation(OwnRow(s, k)) && Active(OwnRow(s, k).value) && StoredJournal(OwnRow(s, k)) == prior
    ensures var verdict := Effect(s, SaveJournal(k.user, OwnId(s, k).value, Operation(prior), merged));
            && verdict.change.Put? && Touches(k, verdict.change) && verdict.change.row.stored == Operation(merged)
            && verdict.change.row.status == PROCESSING
  {
  }

  /** A thread read a success without actions while another had stored some: its save merges them into
      the row, */
  lemma ActionsMerged(k: Key, s: State, next: Journal, prior: Journal)
    requires UniqueKeys(s.rows) && IsOperation(OwnRow(s, k)) && Active(OwnRow(s, k).value)
    requires StoredJournal(OwnRow(s, k)) == prior && HasActions(prior)
    ensures var merged := MergeJournal(prior, next.(status := Running));
            var saved := OwnRow(After(s, SaveJournal(k.user, OwnId(s, k).value, Operation(prior), merged)), k);
            IsOperation(saved) && Active(saved.value) && HasActions(StoredJournal(saved))
  {
    hide Effect, MergeJournal;
    var merged := MergeJournal(prior, next.(status := Running));
    MergeGrows(prior, next.(status := Running));
    SaveCommits(s, k, prior, merged);
    OwnRowAfter(s, k, Effect(s, SaveJournal(k.user, OwnId(s, k).value, Operation(prior), merged)).change);
  }

  /** it goes on from its own reading, and its settlement drops them. */
  lemma ActionsDropped(k: Key, s: State, caller: Caller, next: Journal, merged: Journal, delivery: Delivery,
                       dimensions: Option<string>)
    requires UniqueKeys(s.rows) && IsOperation(OwnRow(s, k)) && Active(OwnRow(s, k).value)
    requires next.status == Success && !HasActions(next)
    ensures AfterSave(caller, ThenJudge(next), true, merged) == Collecting(caller, next)
    ensures var final := WithDimensions(next, dimensions).(delivery := delivery);
            var settled := OwnRow(After(s, SettleOperation(k.user, OwnId(s, k).value, final)), k);
            && Collect(caller, next, Delivered(delivery, dimensions)) == Pc.Settling(caller, final)
            && (IsOperation(settled) && settled.value.status == SUCCEEDED ==> !HasActions(StoredJournal(settled)))
  {
    hide Effect;
    var final := WithDimensions(next, dimensions).(delivery := delivery);
    var settle := SettleOperation(k.user, OwnId(s, k).value, final);
    OwnRowAfter(s, k, Effect(s, settle).change);
    if Effect(s, settle).change.Put? {
      SettledJournal(s, settle);
    }
  }

  // ---- the books -----------------------------------------------------------------------------

  /** The foreign transactions of a run pass exact amounts. */
  ghost predicate ForeignExact(worlds: seq<World>, events: seq<Event>) {
    forall i :: 0 <= i < |events| && i < |worlds| && events[i].Elsewhere? ==> Exact(worlds[i].db, events[i].call)
  }

  lemma ThreadCallsExact(p: Policy, k: Key, s: State, pc: Pc, c: Choice)
    ensures var call := Step(p, k, s, pc, c).call; call.Some? ==> Exact(s, call.value)
  {
    hide Effect, Interpret;
  }

  /** All interleavings of the operation threads keep the wallet books, too. */
  lemma {:induction false} RunBalanced(p: Policy, k: Key, worlds: seq<World>, events: seq<Event>,
                                       opening: map<string, int>, i: nat)
    requires IsRun(p, k, worlds, events) && ForeignExact(worlds, events) && Books(worlds[0].db, opening) && i < |worlds|
    ensures Books(worlds[i].db, opening)
  {
    hide Books, Initial, Step, Effect, Exact;
    if i > 0 {
      RunBalanced(p, k, worlds, events, opening, i - 1);
      var w, e := worlds[i - 1], events[i - 1];
      match e
      case Elsewhere(call) => CallKeepsBooks(w.db, opening, call);
      case Run(thread, choice) =>
        var act := Step(p, k, w.db, w.threads[thread], choice);
        ThreadCallsExact(p, k, w.db, w.threads[thread], choice);
        if act.call.Some? {
          CallKeepsBooks(w.db, opening, act.call.value);
        }
      case _ =>
    }
  }
}
