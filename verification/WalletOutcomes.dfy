/** What each transaction does, said of the tables alone: which row it changes and to what, what moves
    between the columns of which wallet, and which ledger rows are added. For every reservation,
    settlement, release and status write it is said exactly when it happens. */
module WalletOutcomes {
  import opened JsonValues
  import opened Journals
  import opened Wallet
  import opened WalletBooks

  // ---- two states ----------------------------------------------------------------------------

  /** The wallet of this user gains these amounts, and no other wallet changes. */
  ghost predicate Moved(s: State, after: State, user: string, available: int, reserved: int, consumed: int) {
    && user in s.purses && after.purses.Keys == s.purses.Keys
    && after.purses[user].available == s.purses[user].available + available
    && after.purses[user].reserved == s.purses[user].reserved + reserved
    && after.purses[user].consumed == s.purses[user].consumed + consumed
    && forall other :: other in s.purses && other != user ==> after.purses[other] == s.purses[other]
  }

  /** These ledger rows of one request are added, each with the balance that is left. */
  ghost predicate Recorded(s: State, after: State, user: string, id: nat, lines: seq<Line>) {
    && user in after.purses && |after.ledger| == |s.ledger| + |lines|
    && after.ledger[..|s.ledger|] == s.ledger
    && forall i :: 0 <= i < |lines| ==>
         after.ledger[|s.ledger| + i] == Entry(user, Some(id), lines[i], after.purses[user].available)
  }

  /** One row changes, in these columns only. */
  ghost predicate Rewrote(s: State, after: State, id: nat, status: Status, charged: nat, stored: Stored) {
    && id < |s.rows| == |after.rows|
    && (forall i :: 0 <= i < |s.rows| && i != id ==> after.rows[i] == s.rows[i])
    && after.rows[id].status == status && after.rows[id].charged == charged && after.rows[id].stored == stored
    && SameOffer(s.rows[id], after.rows[id])
  }

  /** What a reservation fixed. */
  predicate SameOffer(x: Row, y: Row) {
    && y.user == x.user && y.client == x.client && y.capability == x.capability
    && y.snapshot == x.snapshot && y.estimated == x.estimated && y.createdAt == x.createdAt
  }

  /** The wallet has what the transaction takes out of its columns. */
  predicate Holds(s: State, user: string, available: int, reserved: int, consumed: int) {
    && user in s.purses
    && s.purses[user].available >= available && s.purses[user].reserved >= reserved
    && s.purses[user].consumed >= consumed
  }

  lemma {:induction false} PostedEntries(user: string, request: Option<nat>, lines: seq<Line>, balance: int)
    ensures |Posted(user, request, lines, balance)| == |lines|
    ensures forall i :: 0 <= i < |lines| ==>
              Posted(user, request, lines, balance)[i] == Entry(user, request, lines[i], balance)
  {
    if lines != [] {
      PostedEntries(user, request, lines[..|lines| - 1], balance);
    }
  }

  lemma PaymentRecorded(s: State, user: string, request: nat, money: Money)
    requires user in s.purses
    ensures Recorded(s, Paid(s, user, Some(request), money), user, request, money.lines)
  {
    var balance := Adjust(s.purses[user], money).available;
    PostedEntries(user, Some(request), money.lines, balance);
    assert Paid(s, user, Some(request), money).ledger == s.ledger + Posted(user, Some(request), money.lines, balance);
  }

  lemma PutMoves(s: State, id: nat, row: Row, money: Money)
    requires Fits(s, Put(id, row, Some(money)))
    ensures var after := Apply(s, Put(id, row, Some(money)));
            && Moved(s, after, row.user, money.available, money.reserved, money.consumed)
            && Recorded(s, after, row.user, id, money.lines)
            && after.rows == Written(s.rows, id, row)
  {
    hide Posted, Recorded;
    PaymentRecorded(s.(rows := Written(s.rows, id, row)), row.user, id, money);
    SameLedger(s, s.(rows := Written(s.rows, id, row)), Apply(s, Put(id, row, Some(money))), row.user, id, money.lines);
  }

  lemma PutRewrites(s: State, id: nat, row: Row, money: Money)
    requires Fits(s, Put(id, row, Some(money))) && id < |s.rows| && SameOffer(s.rows[id], row)
    ensures var after := Apply(s, Put(id, row, Some(money)));
            && Rewrote(s, after, id, row.status, row.charged, row.stored) && after.rows[id] == row
            && Moved(s, after, row.user, money.available, money.reserved, money.consumed)
            && Recorded(s, after, row.user, id, money.lines)
  {
    hide Moved, Recorded;
    PutMoves(s, id, row, money);
  }

  lemma SameLedger(s: State, t: State, after: State, user: string, id: nat, lines: seq<Line>)
    requires s.ledger == t.ledger && Recorded(t, after, user, id, lines)
    ensures Recorded(s, after, user, id, lines)
  {
  }

  // ---- settlements ---------------------------------------------------------------------------

  predicate Delivers(call: Call) {
    Settles(call) && (call.SettleVideoTasks? ==> call.delivered)
  }

  /** The row is there, of this user where the path asks for one, and open. */
  predicate Claimable(s: State, call: Call)
    requires Delivers(call)
  {
    match call
    case SettleOperation(user, id, _) => Open(s, user, id) && s.rows[id].capability == IMAGE
    case SettleImage(user, id, _, _) => Open(s, user, id)
    case SettleVideo(user, id, _, _, _) => Open(s, user, id)
    case SettleChat(user, id, _, _) => Open(s, user, id)
    case SettleMusic(id, _) => id < |s.rows| && s.rows[id].status == PROCESSING
    case SettleVideoTasks(id, _, _) => id < |s.rows| && Active(s.rows[id])
  }

  /** What it costs: the price of one result for an operation, what the delivered tasks come to for a
      managed video with a price snapshot, otherwise what the caller passes. */
  function Price(s: State, call: Call): nat
    requires Delivers(call) && Claimable(s, call)
  {
    match call
    case SettleOperation(_, id, _) => if s.rows[id].snapshot.Some? then s.rows[id].snapshot.value.single else 0
    case SettleImage(_, _, charged, _) => charged
    case SettleVideo(_, _, charged, _, _) => charged
    case SettleChat(_, _, charged, _) => charged
    case SettleMusic(_, credits) => credits
    case SettleVideoTasks(id, _, quoted) => if s.rows[id].snapshot.None? then s.rows[id].estimated else quoted
  }

  /** The final journal is of the stored receipt, whose tariff is complete. */
  predicate SameReceipt(row: Row, final: Journal) {
    && row.snapshot.Some? && row.snapshot.value.schemaVersion == 1 && OperationSnapshot(row.snapshot.value)
    && row.stored.Operation? && row.stored.journal.taskId.Some? && row.stored.journal.taskId == final.taskId
    && row.stored.journal.origin.identity == final.origin.identity
    && SameRequest(final.origin.identity, row.snapshot.value)
  }

  /** What the path checks of the price; a chat may cost more than it reserved if the balance pays. */
  predicate Accepts(s: State, call: Call)
    requires Delivers(call) && Claimable(s, call)
  {
    var row := s.rows[call.id];
    match call
    case SettleOperation(_, _, final) => SameReceipt(row, final) && Price(s, call) <= row.estimated
    case SettleVideoTasks(_, _, _) => Price(s, call) <= row.estimated
    case SettleChat(_, _, charged, _) => charged <= row.estimated || Affords(s, row.user, charged - row.estimated)
    case _ => true
  }

  predicate Bills(s: State, call: Call)
    requires Delivers(call) && Claimable(s, call)
  {
    match call
    case SettleImage(_, _, _, bills) => bills
    case SettleVideo(_, _, _, _, bills) => bills
    case SettleChat(_, _, _, bills) => bills
    case SettleVideoTasks(id, _, _) => s.rows[id].snapshot.Some?
    case _ => true
  }

  /** Videos and music take the charge itself out of the reservation, the others all of it. */
  function Taken(s: State, call: Call): nat
    requires Delivers(call) && Claimable(s, call)
  {
    if call.SettleVideo? || call.SettleMusic? then Price(s, call) else s.rows[call.id].estimated
  }

  /** What goes back to the available balance: the rest of the reservation, or, for a chat, less than
      nothing. */
  function Back(s: State, call: Call): int
    requires Delivers(call) && Claimable(s, call)
  {
    var rest := s.rows[call.id].estimated - Price(s, call);
    if call.SettleVideo? || call.SettleMusic? || (call.SettleImage? && rest < 0) then 0 else rest
  }

  /** One CHARGE row and, for a rest, one RELEASE row; managed videos write no row for nothing, and
      music records what it took with a minus sign. */
  function Receipt(s: State, call: Call): seq<Line>
    requires Delivers(call) && Claimable(s, call)
  {
    var charge := Line(CHARGE, if call.SettleMusic? then -(Price(s, call) as int) else Price(s, call));
    var rest := Line(RELEASE, Back(s, call));
    if call.SettleVideoTasks? && Price(s, call) == 0 then (if Back(s, call) > 0 then [rest] else [])
    else if Back(s, call) > 0 then [charge, rest]
    else [charge]
  }

  function Kept(s: State, call: Call): Stored
    requires Delivers(call) && Claimable(s, call)
  {
    match call
    case SettleOperation(_, _, final) => Operation(final.(charged := Price(s, call)))
    case SettleVideo(_, id, _, delivers, _) => if delivers then Media else s.rows[id].stored
    case SettleChat(_, id, _, bills) => if bills then Media else s.rows[id].stored
    case _ => Media
  }

  /** The price is paid: the request is SUCCEEDED and charged, the reservation is gone, the rest is back,
      and the charge is consumed, but for music. */
  ghost predicate Settled(s: State, after: State, call: Call)
    requires Delivers(call) && Claimable(s, call)
  {
    var (id, price, user) := (call.id, Price(s, call), s.rows[call.id].user);
    && Rewrote(s, after, id, SUCCEEDED, price, Kept(s, call))
    && after.rows[id].completed && after.rows[id].billed == (s.rows[id].billed || Bills(s, call))
    && Moved(s, after, user, Back(s, call), -(Taken(s, call) as int), if call.SettleMusic? then 0 else price)
    && Recorded(s, after, user, id, Receipt(s, call))
  }

  /** Nothing stands in the way: the price is accepted, not billed before, and in the wallet. */
  predicate Payable(s: State, call: Call)
    requires Delivers(call) && Claimable(s, call)
  {
    && Accepts(s, call) && !BillsTwice(s, call.id, Bills(s, call))
    && Holds(s, s.rows[call.id].user, -Back(s, call), Taken(s, call), 0)
  }

  function Charged(s: State, call: Call): Money
    requires Delivers(call) && Claimable(s, call)
  {
    Money(Back(s, call), -(Taken(s, call) as int), if call.SettleMusic? then 0 else Price(s, call), Receipt(s, call))
  }

  ghost predicate Decides(s: State, call: Call) {
    Delivers(call) ==>
      var verdict := Effect(s, call);
      && (verdict.outcome == Skipped <==> !Claimable(s, call))
      && (Claimable(s, call) ==>
            var row := s.rows[call.id];
            && (verdict.outcome == Done <==> Payable(s, call))
            && (verdict.outcome == Done ==>
                  verdict.change
                  == Put(call.id, row.(status := SUCCEEDED, charged := Price(s, call), stored := Kept(s, call),
                                       completed := true, billed := row.billed || Bills(s, call)),
                         Some(Charged(s, call)))))
  }

  lemma OperationDecides(s: State, call: Call)
    requires call.SettleOperation? && Solvent(s)
    ensures Decides(s, call)
  {
  }

  lemma PassedDecides(s: State, call: Call)
    requires (call.SettleImage? || call.SettleVideo? || call.SettleMusic?) && Solvent(s)
    ensures Decides(s, call)
  {
  }

  lemma ChatDecides(s: State, call: Call)
    requires call.SettleChat? && Solvent(s)
    ensures Decides(s, call)
  {
  }

  lemma TasksDecide(s: State, call: Call)
    requires call.SettleVideoTasks? && Solvent(s)
    ensures Decides(s, call)
  {
    if Delivers(call) && Claimable(s, call) {
      if Accepts(s, call) {
        TaskLines(s.rows[call.id].estimated, Price(s, call));
      }
    }
  }

  lemma TaskLines(estimated: int, charged: int)
    requires 0 <= charged <= estimated
    ensures var (charge, rest) := (Line(CHARGE, charged), Line(RELEASE, estimated - charged));
            ChargingTasks(estimated, charged).lines
            == if charged == 0 then (if charged < estimated then [rest] else [])
               else if charged < estimated then [charge, rest] else [charge]
  {
    var none: seq<Line> := [];
    assert none + none == none;
    assert Positive(CHARGE, charged) + none == Positive(CHARGE, charged);
    assert none + Positive(RELEASE, estimated - charged) == Positive(RELEASE, estimated - charged);
    assert [Line(CHARGE, charged)] + [Line(RELEASE, estimated - charged)]
        == [Line(CHARGE, charged), Line(RELEASE, estimated - charged)];
  }

  ghost predicate SettlesIff(s: State, after: State, outcome: Outcome, call: Call)
    requires Delivers(call)
  {
    && (outcome == Skipped <==> !Claimable(s, call))
    && (outcome == Done <==> Claimable(s, call) && Payable(s, call))
    && if outcome == Done then Settled(s, after, call) else after == s
  }

  /** A settlement commits exactly when its row can be claimed and the price be paid, and then it charges
      the price of its path; otherwise nothing changes. */
  lemma SettlementOutcome(s: State, call: Call)
    requires Delivers(call) && Solvent(s)
    ensures SettlesIff(s, After(s, call), Effect(s, call).outcome, call)
  {
    hide Effect, Moved, Recorded, Rewrote, Kept, Price, Bills, Taken, Back, Receipt;
    if call.SettleOperation? {
      OperationDecides(s, call);
    } else if call.SettleChat? {
      ChatDecides(s, call);
    } else if call.SettleVideoTasks? {
      TasksDecide(s, call);
    } else {
      PassedDecides(s, call);
    }
    if Effect(s, call).outcome == Done {
      var change := Effect(s, call).change;
      PutRewrites(s, change.id, change.row, change.money.value);
    }
  }

  // ---- releases ------------------------------------------------------------------------------

  predicate GivesBack(call: Call) {
    ReleasesRow(call) || ReleasesAmount(call) || (call.SettleVideoTasks? && !call.delivered)
  }

  function ReleasedId(s: State, call: Call): Option<nat>
    requires GivesBack(call)
  {
    match call
    case RefundVideo(user, client) => Find(s.rows, user, client)
    case ReleaseOperation(_, id, _) => Some(id)
    case ReleaseChat(_, id) => Some(id)
    case ReleaseImage(_, id, _) => Some(id)
    case ReleaseVideo(_, id, _) => Some(id)
    case RejectMusic(id, _) => Some(id)
    case SettleVideoTasks(id, _, _) => Some(id)
    case Sweep(id, _, _) => Some(id)
  }

  /** There is something to give back: an open row, or a settled video that was charged. */
  predicate Releasable(s: State, call: Call)
    requires GivesBack(call)
  {
    var found := ReleasedId(s, call);
    && found.Some? && found.value < |s.rows|
    && var row := s.rows[found.value];
    match call
    case ReleaseOperation(user, _, _) => row.user == user && row.capability == IMAGE && Active(row)
    case ReleaseImage(user, _, _) => row.user == user && Active(row)
    case ReleaseVideo(user, _, _) => row.user == user && Active(row)
    case ReleaseChat(user, _) => row.user == user && Active(row)
    case RejectMusic(_, _) => row.status == PROCESSING
    case SettleVideoTasks(_, _, _) => Active(row)
    case RefundVideo(_, _) => row.capability == VIDEO && (Active(row) || (row.status == SUCCEEDED && row.charged > 0))
    case Sweep(_, estimate, staleBefore) =>
      && (row.capability == IMAGE || row.capability == VIDEO) && Active(row)
      && row.createdAt < staleBefore && !row.completed && row.estimated == estimate
  }

  predicate Refunds(s: State, call: Call)
    requires GivesBack(call) && Releasable(s, call)
  {
    call.RefundVideo? && s.rows[ReleasedId(s, call).value].status == SUCCEEDED
  }

  /** What goes back: what the caller passes, what a settled video was charged, or the estimate. */
  function Returned(s: State, call: Call): nat
    requires GivesBack(call) && Releasable(s, call)
  {
    match call
    case ReleaseImage(_, _, amount) => amount
    case ReleaseVideo(_, _, amount) => amount
    case RejectMusic(_, credits) => credits
    case _ =>
      var row := s.rows[ReleasedId(s, call).value];
      if Refunds(s, call) then row.charged else row.estimated
  }

  /** A failed operation names the receipt it releases. */
  predicate NamesReceipt(s: State, call: Call)
    requires GivesBack(call) && Releasable(s, call)
  {
    call.ReleaseOperation? ==>
      var stored := s.rows[call.id].stored;
      && stored.Operation? && stored.journal.taskId == call.journal.taskId
      && stored.journal.origin.identity == call.journal.origin.identity
  }

  predicate Returnable(s: State, call: Call)
    requires GivesBack(call) && Releasable(s, call)
  {
    var (user, amount) := (s.rows[ReleasedId(s, call).value].user, Returned(s, call));
    NamesReceipt(s, call) && if Refunds(s, call) then Holds(s, user, 0, 0, amount) else Holds(s, user, 0, amount, 0)
  }

  /** The request is over, and its user has the amount back, out of the reservation or, for a settled
      video, out of the consumption. */
  ghost predicate GaveBack(s: State, after: State, call: Call)
    requires GivesBack(call) && Releasable(s, call)
  {
    var (id, amount) := (ReleasedId(s, call).value, Returned(s, call));
    var row := s.rows[id];
    && (if Refunds(s, call)
        then && Rewrote(s, after, id, REFUNDED, row.charged, row.stored)
             && Moved(s, after, row.user, amount, 0, -(amount as int))
             && Recorded(s, after, row.user, id, [Line(REFUND, amount)])
        else && Rewrote(s, after, id, FAILED, if call.ReleaseOperation? then 0 else row.charged, Left(row, call))
             && Moved(s, after, row.user, amount, -(amount as int), 0)
             && Recorded(s, after, row.user, id, [Line(RELEASE, amount)]))
    && after.rows[id].completed && after.rows[id].billed == row.billed
  }

  function Left(row: Row, call: Call): Stored {
    match call
    case ReleaseOperation(_, _, failed) => Operation(failed)
    case RejectMusic(_, _) => Nothing
    case SettleVideoTasks(_, _, _) => Media
    case _ => row.stored
  }

  ghost predicate ReleaseDecided(s: State, call: Call)
    requires GivesBack(call)
  {
    var verdict := Effect(s, call);
    && (verdict.outcome == Skipped <==> !Releasable(s, call))
    && (Releasable(s, call) ==>
          var (id, amount) := (ReleasedId(s, call).value, Returned(s, call));
          var row := s.rows[id];
          && (verdict.outcome == Done <==> Returnable(s, call))
          && (verdict.outcome == Done ==>
                verdict.change
                == if Refunds(s, call)
                   then Put(id, row.(status := REFUNDED, completed := true),
                            Some(Money(amount, 0, -(amount as int), [Line(REFUND, amount)])))
                   else Put(id, row.(status := FAILED, charged := if call.ReleaseOperation? then 0 else row.charged,
                                     stored := Left(row, call), completed := true),
                            Some(Money(amount, -(amount as int), 0, [Line(RELEASE, amount)])))))
  }

  lemma RowReleaseDecided(s: State, call: Call)
    requires ReleasesRow(call) && Solvent(s)
    ensures ReleaseDecided(s, call)
  {
    hide ReleaseDecided;
    if call.RefundVideo? {
      RefundDecided(s, call);
    } else {
      EstimateReleaseDecided(s, call);
    }
  }

  lemma RefundDecided(s: State, call: Call)
    requires call.RefundVideo? && Solvent(s)
    ensures ReleaseDecided(s, call)
  {
  }

  lemma EstimateReleaseDecided(s: State, call: Call)
    requires ReleasesRow(call) && !call.RefundVideo? && Solvent(s)
    ensures ReleaseDecided(s, call)
  {
  }

  lemma AmountReleaseDecided(s: State, call: Call)
    requires GivesBack(call) && !ReleasesRow(call) && Solvent(s)
    ensures ReleaseDecided(s, call)
  {
  }

  ghost predicate ReleasesIff(s: State, after: State, outcome: Outcome, call: Call)
    requires GivesBack(call)
  {
    && (outcome == Skipped <==> !Releasable(s, call))
    && (outcome == Done <==> Releasable(s, call) && Returnable(s, call))
    && if outcome == Done then GaveBack(s, after, call) else after == s
  }

  lemma ReleasedRow(s: State, call: Call)
    requires GivesBack(call) && Releasable(s, call)
    ensures ReleasedId(s, call).Some? && ReleasedId(s, call).value < |s.rows|
  {
  }

  lemma DecidedRelease(s: State, call: Call)
    requires GivesBack(call) && ReleaseDecided(s, call) && Effect(s, call).outcome == Done
    ensures GaveBack(s, After(s, call), call)
  {
    hide Effect, Moved, Recorded, Rewrote, Returned, Returnable, Refunds, Releasable, ReleasedId, Left;
    ReleasedRow(s, call);
    var change := Effect(s, call).change;
    PutRewrites(s, change.id, change.row, change.money.value);
  }

  /** A release commits exactly when there is something to give back, it is the caller's, and the wallet
      holds it; then exactly that goes back, and otherwise nothing changes. */
  lemma ReleaseOutcome(s: State, call: Call)
    requires GivesBack(call) && Solvent(s)
    ensures ReleasesIff(s, After(s, call), Effect(s, call).outcome, call)
  {
    hide Effect, GaveBack, Returned, Returnable, Refunds, Releasable;
    if ReleasesRow(call) {
      RowReleaseDecided(s, call);
    } else {
      AmountReleaseDecided(s, call);
    }
    if Effect(s, call).outcome == Done {
      DecidedRelease(s, call);
    }
  }

  // ---- reservations --------------------------------------------------------------------------

  function Offer(call: Call): Option<Snapshot>
    requires Reserves(call)
  {
    match call
    case ReserveOperation(_, _, snapshot, _, _) => Some(snapshot)
    case ReserveMusic(_, _, snapshot, _) => Some(snapshot)
    case ReserveImage(_, _, pricing, _, _, _) => pricing
    case ReserveVideo(_, _, pricing, _, _, _) => pricing
    case ReserveChat(_, _, pricing, _, _) => pricing
  }

  /** Operations and music hold what their snapshot quotes, the others what the caller estimates. */
  function Estimate(call: Call): nat
    requires Reserves(call)
  {
    match call
    case ReserveOperation(_, _, snapshot, _, _) => snapshot.quoted
    case ReserveMusic(_, _, snapshot, _) => snapshot.quoted
    case ReserveImage(_, _, _, estimate, _, _) => estimate
    case ReserveVideo(_, _, _, estimate, _, _) => estimate
    case ReserveChat(_, _, _, estimate, _) => estimate
  }

  /** Only operations are priced before anything else is looked at. */
  predicate Priced(call: Call)
    requires Reserves(call)
  {
    call.ReserveOperation? ==>
      OperationSnapshot(call.snapshot) && SameRequest(call.journal.origin.identity, call.snapshot)
  }

  /** A failed row may start over: for an image request when neither it nor the new request is an
      operation, for a video request when the caller admits it. */
  predicate Reusable(row: Row, call: Call)
    requires Reserves(call)
  {
    && row.status == FAILED
    && match call
       case ReserveImage(_, _, pricing, _, _, _) =>
         row.capability == IMAGE && !row.stored.Operation? && !Tariffed(pricing) && !Tariffed(row.snapshot)
       case ReserveVideo(_, _, _, _, reuseFailed, _) => reuseFailed
       case _ => false
  }

  /** The request was made before, and the caller answers with what it led to. */
  predicate Replayed(s: State, call: Call)
    requires Reserves(call)
  {
    var id := Find(s.rows, call.user, call.client);
    id.Some? && match call
                case ReserveOperation(_, _, _, _, _) => Priced(call)
                case ReserveImage(_, _, _, _, replayable, _) => replayable && s.rows[id.value].status == SUCCEEDED
                case _ => false
  }

  function Capacity(call: Call): Capability
    requires Reserves(call)
  {
    if call.ReserveVideo? then VIDEO else if call.ReserveMusic? then AUDIO
    else if call.ReserveChat? then OTHER else IMAGE
  }

  ghost predicate Created(s: State, after: State, call: Call)
    requires Reserves(call)
  {
    && |after.rows| == |s.rows| + 1 && after.rows[..|s.rows|] == s.rows
    && var row := after.rows[|s.rows|];
    && row.user == call.user && row.client == call.client && row.capability == Capacity(call)
    && row.status == (if call.ReserveMusic? then PROCESSING else RESERVED)
    && row.snapshot == Offer(call) && row.estimated == Estimate(call) && row.charged == 0
    && row.stored == (if call.ReserveOperation? then Operation(call.journal) else Nothing)
    && row.createdAt == call.now && !row.completed && !row.billed
  }

  ghost predicate Renewed(s: State, after: State, id: nat, call: Call)
    requires Reserves(call)
  {
    && id < |s.rows| == |after.rows| && after.rows == s.rows[id := after.rows[id]]
    && var (prior, row) := (s.rows[id], after.rows[id]);
    && row.user == prior.user && row.client == prior.client && row.capability == prior.capability
    && row.status == RESERVED && row.estimated == Estimate(call) && row.charged == 0 && row.stored == Nothing
    && row.snapshot == (if Offer(call).Some? then Offer(call) else prior.snapshot)
    && row.createdAt == prior.createdAt && !row.completed && row.billed == prior.billed
  }

  ghost predicate ReservationDecided(s: State, call: Call)
    requires Reserves(call)
  {
    var (verdict, found, estimate: int) := (Effect(s, call), Find(s.rows, call.user, call.client), Estimate(call));
    && (verdict.outcome == Skipped <==> Replayed(s, call))
    && (verdict.outcome == Done <==>
          && Priced(call) && (found.Some? ==> Reusable(s.rows[found.value], call)) && !Replayed(s, call)
          && Affords(s, call.user, estimate))
    && (verdict.outcome == Done ==>
          && verdict.change.Put? && verdict.change.id == (if found.Some? then found.value else |s.rows|)
          && verdict.change.row.user == call.user
          && verdict.change.money == Some(Money(-estimate, estimate, 0, [Line(RESERVE, -estimate)]))
          && var rows := Written(s.rows, verdict.change.id, verdict.change.row);
             if found.Some? then Renewed(s, s.(rows := rows), found.value, call)
             else Created(s, s.(rows := rows), call))
  }

  lemma ReservationDecides(s: State, call: Call)
    requires Reserves(call) && Solvent(s)
    ensures ReservationDecided(s, call)
  {
    hide ReservationDecided;
    if call.ReserveImage? {
      ImageReservationDecides(s, call);
    } else if call.ReserveVideo? {
      VideoReservationDecides(s, call);
    } else {
      OtherReservationDecides(s, call);
    }
  }

  lemma ImageReservationDecides(s: State, call: Call)
    requires call.ReserveImage? && Solvent(s)
    ensures ReservationDecided(s, call)
  {
  }

  lemma VideoReservationDecides(s: State, call: Call)
    requires call.ReserveVideo? && Solvent(s)
    ensures ReservationDecided(s, call)
  {
  }

  lemma OtherReservationDecides(s: State, call: Call)
    requires Reserves(call) && !call.ReserveImage? && !call.ReserveVideo? && Solvent(s)
    ensures ReservationDecided(s, call)
  {
    hide OperationSnapshot, SameRequest;
  }

  ghost predicate ReservesIff(s: State, after: State, outcome: Outcome, call: Call)
    requires Reserves(call)
  {
    var (found, estimate: int) := (Find(s.rows, call.user, call.client), Estimate(call));
    && (outcome == Skipped <==> Replayed(s, call))
    && (outcome == Done <==>
          && Priced(call) && (found.Some? ==> Reusable(s.rows[found.value], call)) && !Replayed(s, call)
          && Affords(s, call.user, estimate))
    && if outcome == Done
       then && (if found.Some? then Renewed(s, after, found.value, call) else Created(s, after, call))
            && Moved(s, after, call.user, -estimate, estimate, 0)
            && Recorded(s, after, call.user, if found.Some? then found.value else |s.rows|, [Line(RESERVE, -estimate)])
       else after == s
  }

  /** A reservation commits exactly when its key is unused, or its failed row may start over, and the
      balance pays; then it moves the estimate into the reservation, and otherwise nothing changes. */
  lemma ReservationOutcome(s: State, call: Call)
    requires Reserves(call) && Solvent(s)
    ensures ReservesIff(s, After(s, call), Effect(s, call).outcome, call)
  {
    hide Effect, Moved, Recorded, Replayed, Reusable, Priced;
    ReservationDecides(s, call);
    if Effect(s, call).outcome == Done {
      var change := Effect(s, call).change;
      PutMoves(s, change.id, change.row, change.money.value);
    }
  }

  // ---- everything else -----------------------------------------------------------------------

  /** The writes that move no credits. */
  predicate Writes(call: Call) {
    || call.SaveJournal? || call.ClaimRefresh? || call.KeepMusicReceipt? || call.MarkImage? || call.RememberImageTask?
    || call.RetainImageRecovery? || call.MarkVideo? || call.KeepVideoResult? || call.SubmitVideoTask?
  }

  /** The row is there and as the write wants it; the two unguarded video writes want nothing. */
  predicate Wanted(s: State, call: Call)
    requires Writes(call)
  {
    && call.id < |s.rows|
    && var row := s.rows[call.id];
    match call
    case SaveJournal(user, _, expected, _) => row.user == user && Active(row) && row.stored == expected
    case ClaimRefresh(user, _, expected, _) => row.user == user && Active(row) && row.stored == expected
    case KeepMusicReceipt(_) => row.status == PROCESSING
    case MarkImage(user, _) => row.user == user && Active(row)
    case RememberImageTask(user, _) => row.user == user && row.status == PROCESSING
    case RetainImageRecovery(user, _) => row.user == user && Active(row)
    case SubmitVideoTask(_) => row.status == RESERVED
    case _ => true
  }

  function WrittenStatus(row: Row, call: Call): Status {
    if call.SaveJournal? || call.MarkImage? || call.RetainImageRecovery? || call.MarkVideo? || call.SubmitVideoTask?
    then PROCESSING else row.status
  }

  function WrittenResult(row: Row, call: Call): Stored {
    match call
    case SaveJournal(_, _, _, journal) => Operation(journal)
    case ClaimRefresh(_, _, _, journal) => Operation(journal)
    case KeepMusicReceipt(_) => MusicReceipt
    case RememberImageTask(_, _) => Media
    case MarkVideo(_) => Media
    case KeepVideoResult(_) => Media
    case RetainImageRecovery(_, _) => if row.stored == Nothing then Media else row.stored
    case _ => row.stored
  }

  ghost predicate WritesIff(s: State, after: State, outcome: Outcome, call: Call)
    requires Writes(call)
  {
    && (outcome == Done <==> Wanted(s, call))
    && if outcome == Done
       then var row := s.rows[call.id];
            && Rewrote(s, after, call.id, WrittenStatus(row, call), row.charged, WrittenResult(row, call))
            && after.rows[call.id].completed == row.completed && after.rows[call.id].billed == row.billed
            && after.purses == s.purses && after.ledger == s.ledger
       else after == s
  }

  /** A status or result write commits exactly when its row is as it wants it; it changes that row in
      these columns and moves nothing. */
  lemma WriteOutcome(s: State, call: Call)
    requires Writes(call)
    ensures WritesIff(s, After(s, call), Effect(s, call).outcome, call)
  {
    hide WritesIff;
    if WritesImage(call) {
      ImageWriteOutcome(s, call);
    } else {
      OtherWriteOutcome(s, call);
    }
  }

  predicate WritesImage(call: Call) {
    call.SaveJournal? || call.ClaimRefresh? || call.MarkImage? || call.RememberImageTask? || call.RetainImageRecovery?
  }

  lemma ImageWriteOutcome(s: State, call: Call)
    requires WritesImage(call)
    ensures WritesIff(s, After(s, call), Effect(s, call).outcome, call)
  {
  }

  lemma OtherWriteOutcome(s: State, call: Call)
    requires Writes(call) && !WritesImage(call)
    ensures WritesIff(s, After(s, call), Effect(s, call).outcome, call)
  {
  }

  /** A grant adds its amount with one line, and a wallet is opened empty and once. */
  lemma GrantOutcome(s: State, user: string, amount: nat)
    requires Solvent(s)
    ensures Effect(s, Grant(user, amount)).outcome == Done <==> user in s.purses
    ensures user in s.purses ==>
              var after := After(s, Grant(user, amount));
              && Moved(s, after, user, amount, 0, 0) && after.rows == s.rows
              && after.ledger == s.ledger + [Entry(user, None, Line(GRANT, amount), after.purses[user].available)]
    ensures user !in s.purses ==> After(s, Grant(user, amount)) == s
    ensures After(s, OpenWallet(user))
         == if user in s.purses then s else s.(purses := s.purses[user := Purse(0, 0, 0)])
  {
    if user in s.purses {
      PostedEntries(user, None, Granting(amount).lines, s.purses[user].available + amount);
    }
  }

  // ---- every transaction ---------------------------------------------------------------------

  /** The transaction did what it is for, exactly when it could, and otherwise nothing. */
  ghost predicate DidItsPart(s: State, after: State, outcome: Outcome, call: Call) {
    && (Delivers(call) ==> SettlesIff(s, after, outcome, call))
    && (GivesBack(call) ==> ReleasesIff(s, after, outcome, call))
    && (Reserves(call) ==> ReservesIff(s, after, outcome, call))
    && (Writes(call) ==> WritesIff(s, after, outcome, call))
  }

  lemma CallOutcome(s: State, call: Call)
    requires Solvent(s)
    ensures DidItsPart(s, After(s, call), Effect(s, call).outcome, call)
  {
    hide Effect, After, SettlesIff, ReleasesIff, ReservesIff, WritesIff;
    if Delivers(call) {
      SettlementOutcome(s, call);
    }
    if GivesBack(call) {
      ReleaseOutcome(s, call);
    }
    if Reserves(call) {
      ReservationOutcome(s, call);
    }
    if Writes(call) {
      WriteOutcome(s, call);
    }
  }
}
