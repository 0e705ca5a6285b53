/** What holds of the wallets in every run of transactions, whatever amounts their callers pass and
    whenever the unguarded status writes come: the ledger records each move of the available balance,
    the newest ledger row has the balance, only grants and music change the three columns together, and
    consumption covers what settled requests were charged; each with the one call that can break it. */
module WalletLedger {
  import opened JsonValues
  import opened Journals
  import opened Wallet
  import opened WalletBooks

  // ---- what one transaction moves and records ------------------------------------------------

  /** The lines of one transaction record what it does to the available balance. */
  ghost predicate Recorded(money: Money) {
    money.available == LineSum(money.lines, Moves)
  }

  /** A transaction without lines leaves the available balance alone. */
  predicate Silent(money: Money) {
    money.lines == [] ==> money.available == 0
  }

  lemma ReservationRecorded(amount: int)
    ensures Recorded(Holding(amount)) && Recorded(Releasing(amount)) && Recorded(Refunding(amount))
    ensures Silent(Holding(amount)) && Silent(Releasing(amount)) && Silent(Refunding(amount))
  {
    ReservationLines(amount);
  }

  lemma ChargeRecorded(estimated: nat, charged: nat)
    ensures Recorded(Charging(estimated, charged)) && Silent(Charging(estimated, charged))
    ensures Recorded(ChargingReserved(charged)) && Silent(ChargingReserved(charged))
    ensures Recorded(ChargingMusic(charged)) && Silent(ChargingMusic(charged))
    ensures Recorded(ChargingExtra(estimated, charged)) <==> charged == estimated
    ensures Silent(ChargingExtra(estimated, charged))
  {
    hide LineSum;
    ChargeSums(charged);
    ChargeAndReleaseSums(charged, estimated - charged);
  }

  lemma TasksRecorded(estimated: nat, charged: nat)
    requires charged <= estimated
    ensures Recorded(ChargingTasks(estimated, charged)) && Silent(ChargingTasks(estimated, charged))
  {
    hide LineSum, ChargingTasks;
    TaskSums(estimated, charged);
    TaskMoney(estimated, charged);
  }

  /** An open chat request is charged beyond its estimate, the balance pays the difference, and nothing
      else refuses the settlement. */
  predicate TakesExtra(s: State, user: string, call: Call) {
    && call.SettleChat? && call.user == user && Open(s, user, call.id)
    && var estimated := s.rows[call.id].estimated;
    && call.charged > estimated && Affords(s, user, call.charged - estimated)
    && !BillsTwice(s, call.id, call.bills) && Takes(s, user, ChargingExtra(estimated, call.charged))
  }

  ghost predicate RecordsMoney(s: State, call: Call) {
    var change := Effect(s, call).change;
    change.Put? && change.money.Some? ==>
      && Silent(change.money.value)
      && (Recorded(change.money.value) <==> !TakesExtra(s, change.row.user, call))
  }

  lemma ReservedMoney(s: State, call: Call)
    requires Reserves(call)
    ensures RecordsMoney(s, call)
  {
    hide Recorded, Silent, OperationSnapshot, SameRequest;
    var change := Effect(s, call).change;
    if change.Put? {
      ReservationRecorded(change.row.estimated);
    }
  }

  lemma ReleasedMoney(s: State, call: Call)
    requires ReleasesRow(call) || ReleasesAmount(call)
    ensures RecordsMoney(s, call)
  {
    hide Recorded, Silent;
    forall amount: int
      ensures Recorded(Releasing(amount)) && Recorded(Refunding(amount))
      ensures Silent(Releasing(amount)) && Silent(Refunding(amount))
    {
      ReservationRecorded(amount);
    }
  }

  lemma SettledMoney(s: State, call: Call)
    requires Settles(call) && !call.SettleChat?
    ensures RecordsMoney(s, call)
  {
    hide Recorded, Silent, OperationSnapshot, SameRequest, Charging, ChargingReserved, ChargingTasks, ChargingMusic;
    var change := Effect(s, call).change;
    if change.Put? {
      ReservationRecorded(change.row.estimated);
      ChargeRecorded(change.row.estimated, change.row.charged);
      if change.row.charged <= change.row.estimated {
        TasksRecorded(change.row.estimated, change.row.charged);
      }
    }
  }

  lemma ChatMoney(s: State, call: Call)
    requires call.SettleChat?
    ensures RecordsMoney(s, call)
  {
    hide Recorded, Silent;
    var change := Effect(s, call).change;
    if change.Put? {
      ChargeRecorded(change.row.estimated, change.row.charged);
    }
  }

  lemma PlainMoney(s: State, call: Call)
    requires !Reserves(call) && !Settles(call) && !ReleasesRow(call) && !ReleasesAmount(call)
    ensures Effect(s, call).change.Put? ==> Effect(s, call).change.money.None?
  {
  }

  lemma CallMoney(s: State, call: Call)
    ensures RecordsMoney(s, call)
  {
    hide Effect, TakesExtra, Recorded, Silent;
    if Reserves(call) {
      ReservedMoney(s, call);
    } else if call.SettleChat? {
      ChatMoney(s, call);
    } else if Settles(call) {
      SettledMoney(s, call);
    } else if ReleasesRow(call) || ReleasesAmount(call) {
      ReleasedMoney(s, call);
    } else {
      PlainMoney(s, call);
    }
  }

  // ---- the ledger and the balance ------------------------------------------------------------

  /** The non-CHARGE amounts alone explain the available balance. */
  ghost predicate PlainLedger(s: State, opening: map<string, int>, user: string)
    requires user in s.purses
  {
    s.purses[user].available == OpeningOf(opening, user) + Total(s.ledger, OfUser(user), Moves)
  }

  lemma ExtraWrites(s: State, call: Call, user: string)
    requires TakesExtra(s, user, call)
    ensures Effect(s, call).change.Put? && Effect(s, call).change.money.Some? && Effect(s, call).change.row.user == user
  {
  }

  lemma ExtraIsOwn(s: State, call: Call, user: string)
    requires TakesExtra(s, user, call)
    ensures call.user == user
  {
  }

  lemma CallPlain(s: State, opening: map<string, int>, call: Call, user: string)
    requires user in s.purses && PlainLedger(s, opening, user)
    ensures user in After(s, call).purses
    ensures PlainLedger(After(s, call), opening, user) <==> !TakesExtra(s, user, call)
  {
    hide Effect, Total, LineSum, Latest, RowSum, TakesExtra;
    var change := Effect(s, call).change;
    if TakesExtra(s, user, call) {
      ExtraWrites(s, call, user);
    }
    match change
    case Keep =>
    case NewPurse(_) =>
    case Credit(other, amount) =>
      PaidTotals(s, other, None, Granting(amount));
      OneLine(Line(GRANT, amount), Moves);
    case Put(id, row, money) =>
      CallMoney(s, call);
      PutTotals(s, id, row, money);
  }

  ghost predicate PlainThroughout(s: State, opening: map<string, int>, user: string, calls: seq<Call>)
    decreases |calls|
  {
    && user in s.purses && PlainLedger(s, opening, user)
    && (calls == [] || PlainThroughout(After(s, calls[0]), opening, user, calls[1..]))
  }

  predicate TakesNoExtra(s: State, user: string, calls: seq<Call>)
    decreases |calls|
  {
    calls == [] || (!TakesExtra(s, user, calls[0]) && TakesNoExtra(After(s, calls[0]), user, calls[1..]))
  }

  /** The ledger alone explains the balance of a user at every moment of any run exactly when no chat
      settlement of that user takes more than its reservation. */
  lemma {:induction false} LedgerAloneIff(s: State, opening: map<string, int>, user: string, calls: seq<Call>)
    requires user in s.purses && PlainLedger(s, opening, user)
    ensures PlainThroughout(s, opening, user, calls) <==> TakesNoExtra(s, user, calls)
    decreases |calls|
  {
    hide After, TakesExtra, PlainLedger;
    if calls != [] {
      CallPlain(s, opening, calls[0], user);
      if !TakesExtra(s, user, calls[0]) {
        LedgerAloneIff(After(s, calls[0]), opening, user, calls[1..]);
      }
    }
  }

  /** So it does in every run of images, videos, operations and music. */
  lemma {:induction false} LedgerAloneWithoutChat(s: State, opening: map<string, int>, user: string, calls: seq<Call>)
    requires user in s.purses && PlainLedger(s, opening, user)
    requires forall call :: call in calls ==> !call.SettleChat?
    ensures PlainThroughout(s, opening, user, calls)
  {
    hide After, TakesExtra, PlainLedger;
    NoChatNoExtra(s, user, calls);
    LedgerAloneIff(s, opening, user, calls);
  }

  lemma {:induction false} NoChatNoExtra(s: State, user: string, calls: seq<Call>)
    requires forall call :: call in calls ==> !call.SettleChat?
    ensures TakesNoExtra(s, user, calls)
    decreases |calls|
  {
    hide After;
    if calls != [] {
      NoChatNoExtra(After(s, calls[0]), user, calls[1..]);
    }
  }

  /** The newest ledger row of every user has the balance. */
  ghost predicate NewestIsBalance(s: State, opening: map<string, int>) {
    && opening.Keys <= s.purses.Keys
    && (forall e :: e in s.ledger ==> e.user in s.purses)
    && (forall user :: user in s.purses ==>
          match Latest(s.ledger, user)
          case Some(balance) => balance == s.purses[user].available
          case None => s.purses[user].available == OpeningOf(opening, user))
  }

  lemma CallKeepsNewest(s: State, opening: map<string, int>, call: Call)
    requires NewestIsBalance(s, opening)
    ensures NewestIsBalance(After(s, call), opening)
  {
    hide Effect, Total, LineSum, Latest, RowSum, TakesExtra, Recorded;
    var change := Effect(s, call).change;
    match change
    case Keep =>
    case NewPurse(user) => NoLedger(s.ledger, user, Moves);
    case Credit(user, amount) => PaidTotals(s, user, None, Granting(amount));
    case Put(id, row, money) =>
      CallMoney(s, call);
      PutTotals(s, id, row, money);
  }

  /** In every run, with exact amounts or not, the newest `balanceAfter` stays the balance. */
  lemma {:induction false} RunKeepsNewest(s: State, opening: map<string, int>, calls: seq<Call>)
    requires NewestIsBalance(s, opening)
    ensures NewestIsBalance(Run(s, calls), opening)
    decreases |calls|
  {
    hide After, NewestIsBalance;
    if calls != [] {
      CallKeepsNewest(s, opening, calls[0]);
      RunKeepsNewest(After(s, calls[0]), opening, calls[1..]);
    }
  }

  // ---- the three columns together ------------------------------------------------------------

  /** Everything a wallet holds or has spent. */
  function Wealth(purse: Purse): int {
    purse.available + purse.reserved + purse.consumed
  }

  /** What a change adds to the three columns together. */
  function Gain(change: Change, user: string): int {
    match change
    case Credit(other, amount) => if other == user then amount else 0
    case Put(_, row, money) =>
      if row.user == user && money.Some?
      then money.value.available + money.value.reserved + money.value.consumed else 0
    case _ => 0
  }

  /** An open image request is charged more than its estimate, and nothing refuses it. */
  predicate Overcharges(s: State, user: string, call: Call) {
    && call.SettleImage? && call.user == user && Open(s, user, call.id)
    && var estimated := s.rows[call.id].estimated;
    && call.charged > estimated && !BillsTwice(s, call.id, call.bills)
    && Takes(s, user, Charging(estimated, call.charged))
  }

  /** What a grant adds, and what a music settlement, which raises no `lifetimeConsumed`, takes away. */
  function Due(s: State, user: string, call: Call): int {
    match call
    case Grant(other, amount) => if other == user && Takes(s, user, Granting(amount)) then amount else 0
    case SettleMusic(id, credits) =>
      if InMusic(s, id) && s.rows[id].user == user && !BillsTwice(s, id, true) && Takes(s, user, ChargingMusic(credits))
      then -(credits as int) else 0
    case _ => 0
  }

  lemma ImageGain(s: State, call: Call, user: string)
    requires call.SettleImage?
    ensures Gain(Effect(s, call).change, user)
         == if Overcharges(s, user, call) then call.charged - s.rows[call.id].estimated else 0
  {
  }

  lemma OtherSettlementGain(s: State, call: Call, user: string)
    requires Settles(call) && !call.SettleImage?
    ensures Gain(Effect(s, call).change, user) == Due(s, user, call)
  {
    hide OperationSnapshot, SameRequest, Positive;
  }

  lemma SettlementGain(s: State, call: Call, user: string)
    requires Settles(call)
    ensures Gain(Effect(s, call).change, user)
         == Due(s, user, call) + if Overcharges(s, user, call) then call.charged - s.rows[call.id].estimated else 0
  {
    hide Effect;
    if call.SettleImage? {
      ImageGain(s, call, user);
    } else {
      OtherSettlementGain(s, call, user);
    }
  }

  lemma ReservationGain(s: State, call: Call, user: string)
    requires Reserves(call)
    ensures Gain(Effect(s, call).change, user) == 0
  {
    hide OperationSnapshot, SameRequest;
  }

  lemma OtherGain(s: State, call: Call, user: string)
    requires !Settles(call)
    ensures Gain(Effect(s, call).change, user) == Due(s, user, call)
  {
    if Reserves(call) {
      hide Effect;
      ReservationGain(s, call, user);
    }
  }

  lemma GainIsWealth(s: State, change: Change, user: string)
    requires user in s.purses && Fits(s, change)
    ensures user in Apply(s, change).purses
    ensures Wealth(Apply(s, change).purses[user]) - Wealth(s.purses[user]) == Gain(change, user)
  {
  }

  /** A grant adds its amount, a music settlement takes its credits out of the three columns, and no
      other transaction changes the wealth of anybody, but for an image settlement above its estimate,
      which adds the difference. */
  lemma OnlyGrantsChangeWealth(s: State, call: Call, user: string)
    requires user in s.purses
    ensures user in After(s, call).purses
    ensures Wealth(After(s, call).purses[user]) - Wealth(s.purses[user])
         == Due(s, user, call) + if Overcharges(s, user, call) then call.charged - s.rows[call.id].estimated else 0
  {
    hide Effect, Due;
    GainIsWealth(s, Effect(s, call).change, user);
    if Settles(call) {
      SettlementGain(s, call, user);
    } else {
      OtherGain(s, call, user);
    }
  }

  ghost predicate AccountedThroughout(s: State, user: string, wealth: int, calls: seq<Call>)
    decreases |calls|
  {
    && user in s.purses && Wealth(s.purses[user]) == wealth
    && (calls == [] || AccountedThroughout(After(s, calls[0]), user, wealth + Due(s, user, calls[0]), calls[1..]))
  }

  predicate NeverOvercharges(s: State, user: string, calls: seq<Call>)
    decreases |calls|
  {
    calls == [] || (!Overcharges(s, user, calls[0]) && NeverOvercharges(After(s, calls[0]), user, calls[1..]))
  }

  /** At every moment of any run a user has what grants have added and music has taken, exactly when no
      image settlement of that user charges more than its estimate. */
  lemma {:induction false} WealthIsAccountedIff(s: State, user: string, calls: seq<Call>)
    requires user in s.purses
    ensures AccountedThroughout(s, user, Wealth(s.purses[user]), calls) <==> NeverOvercharges(s, user, calls)
    decreases |calls|
  {
    hide Effect, Due, After, Wealth;
    if calls != [] {
      OnlyGrantsChangeWealth(s, calls[0], user);
      OverchargeIsMore(s, user, calls[0]);
      if !Overcharges(s, user, calls[0]) {
        WealthIsAccountedIff(After(s, calls[0]), user, calls[1..]);
      }
    }
  }

  lemma OverchargeIsMore(s: State, user: string, call: Call)
    ensures Overcharges(s, user, call) ==> call.charged > s.rows[call.id].estimated
  {
  }

  // ---- consumption ---------------------------------------------------------------------------

  /** What is on record as consumed covers the charges of all settled requests other than music. */
  ghost predicate Spending(s: State) {
    && (forall id :: 0 <= id < |s.rows| ==> s.rows[id].user in s.purses)
    && (forall user :: user in s.purses ==> RowSum(s.rows, user, Part.Spent) <= s.purses[user].consumed)
  }

  /** Music settles music rows. */
  predicate SettlesMusicOnly(s: State, call: Call) {
    call.SettleMusic? && InMusic(s, call.id) ==> s.rows[call.id].capability == AUDIO
  }

  ghost predicate SpendsEnough(s: State, call: Call) {
    var change := Effect(s, call).change;
    change.Put? ==>
      var added := Added(s.rows, change.id, change.row, Part.Spent);
      if change.money.Some? then added <= change.money.value.consumed else added <= 0 && change.id < |s.rows|
  }

  lemma ChatAndMusicSpend(s: State, call: Call)
    requires (call.SettleChat? || call.SettleMusic?) && SettlesMusicOnly(s, call)
    ensures SpendsEnough(s, call)
  {
  }

  lemma OtherSettlementSpends(s: State, call: Call)
    requires Settles(call) && !call.SettleChat? && !call.SettleMusic?
    ensures SpendsEnough(s, call)
  {
    hide OperationSnapshot, SameRequest, Positive;
  }

  lemma SettlementSpends(s: State, call: Call)
    requires Settles(call) && SettlesMusicOnly(s, call)
    ensures SpendsEnough(s, call)
  {
    hide SpendsEnough, SettlesMusicOnly;
    if call.SettleChat? || call.SettleMusic? {
      ChatAndMusicSpend(s, call);
    } else {
      OtherSettlementSpends(s, call);
    }
  }

  lemma ReservationSpends(s: State, call: Call)
    requires Reserves(call)
    ensures SpendsEnough(s, call)
  {
    hide OperationSnapshot, SameRequest;
  }

  lemma RowReleaseSpends(s: State, call: Call)
    requires ReleasesRow(call)
    ensures SpendsEnough(s, call)
  {
  }

  lemma AmountReleaseSpends(s: State, call: Call)
    requires ReleasesAmount(call)
    ensures SpendsEnough(s, call)
  {
  }

  lemma PlainSpends(s: State, call: Call)
    requires !Reserves(call) && !Settles(call) && !ReleasesRow(call) && !ReleasesAmount(call)
    ensures SpendsEnough(s, call)
  {
  }

  lemma CallSpends(s: State, call: Call)
    requires Spending(s) && SettlesMusicOnly(s, call)
    ensures Spending(After(s, call))
  {
    hide Effect, Total, Latest, RowSum, LineSum, PartOf, SettlesMusicOnly;
    var change := Effect(s, call).change;
    if Settles(call) {
      SettlementSpends(s, call);
    } else if Reserves(call) {
      ReservationSpends(s, call);
    } else if ReleasesRow(call) {
      RowReleaseSpends(s, call);
    } else if ReleasesAmount(call) {
      AmountReleaseSpends(s, call);
    } else {
      PlainSpends(s, call);
    }
    match change
    case Keep =>
    case Credit(_, _) =>
    case NewPurse(user) => NoRows(s.rows, user, Part.Spent);
    case Put(id, row, money) =>
      PutTotals(s, id, row, money);
  }

  predicate AllMusicOnly(s: State, calls: seq<Call>)
    decreases |calls|
  {
    calls == [] || (SettlesMusicOnly(s, calls[0]) && AllMusicOnly(After(s, calls[0]), calls[1..]))
  }

  /** In every run in which music settles music rows only, with exact amounts or not, consumption covers
      what was charged. */
  lemma {:induction false} RunSpends(s: State, calls: seq<Call>)
    requires Spending(s) && AllMusicOnly(s, calls)
    ensures Spending(Run(s, calls))
    decreases |calls|
  {
    hide After, Spending, SettlesMusicOnly;
    if calls != [] {
      CallSpends(s, calls[0]);
      RunSpends(After(s, calls[0]), calls[1..]);
    }
  }

  /** So no refund of a settled video is ever refused, and what the database refuses is a passed amount
      beyond the hold or a second bill. */
  lemma RefusedAmounts(s: State, call: Call)
    requires Covered(s) && Spending(s) && Effect(s, call).outcome == Refused("constraint")
    ensures DatabaseRefuses(s, call) && !call.RefundVideo?
  {
    hide Effect, RowSum;
    RefusedByDatabase(s, call);
    if call.RefundVideo? {
      var id := Find(s.rows, call.user, call.client).value;
      PartWithin(s.rows, id, Part.Spent);
      UnsettledRefund(s, call, id);
      assert false;
    }
  }

  lemma UnsettledRefund(s: State, call: Call, id: nat)
    requires call.RefundVideo? && Find(s.rows, call.user, call.client) == Some(id) && Covered(s)
    requires Effect(s, call).outcome == Refused("constraint")
    ensures s.rows[id].capability == VIDEO && s.rows[id].status == SUCCEEDED
  {
    hide RowSum;
    CoversRows(s);
  }
}
