/** What every run of wallet transactions keeps: reservations match open rows, balances match the
    ledger, and credits are neither created nor lost. */
module WalletBooks {
  import opened JsonValues
  import opened Journals
  import opened Wallet

  // ---- sums over rows and ledger -------------------------------------------------------------

  datatype Part = Estimates | Debits | Spent

  /** What an open row holds of its wallet; what a settled chat took from the available balance beyond
      its reservation, the one debit that has no ledger row of its own; and what a settled request other
      than music was charged. */
  function PartOf(row: Row, part: Part): int {
    match part
    case Estimates => if Active(row) then row.estimated else 0
    case Debits =>
      if row.capability == OTHER && row.status == SUCCEEDED && row.charged > row.estimated
      then row.charged - row.estimated else 0
    case Spent => if row.capability != AUDIO && row.status == SUCCEEDED then row.charged else 0
  }

  function RowSum(rows: seq<Row>, user: string, part: Part): int {
    if rows == [] then 0
    else
      var n := |rows| - 1;
      RowSum(rows[..n], user, part) + if rows[n].user == user then PartOf(rows[n], part) else 0
  }

  /** What writing a row adds to a part of its user. */
  function Added(rows: seq<Row>, id: nat, row: Row, part: Part): int {
    PartOf(row, part) - if id < |rows| then PartOf(rows[id], part) else 0
  }

  datatype Scope = OfUser(user: string) | OfRequest(id: nat)
  datatype What = Moves | Grants | MusicCharges

  predicate InScope(user: string, request: Option<nat>, scope: Scope) {
    match scope
    case OfUser(u) => user == u
    case OfRequest(id) => request == Some(id)
  }

  /** CHARGE rows record consumption and do not move the available balance. */
  function Weight(line: Line, what: What): int {
    match what
    case Moves => if line.kind != CHARGE then line.amount else 0
    case Grants => if line.kind == GRANT then line.amount else 0
    case MusicCharges => if line.kind == CHARGE && line.amount < 0 then -line.amount else 0
  }

  function LineSum(lines: seq<Line>, what: What): int {
    if lines == [] then 0 else LineSum(lines[..|lines| - 1], what) + Weight(lines[|lines| - 1], what)
  }

  function Total(ledger: seq<Entry>, scope: Scope, what: What): int {
    if ledger == [] then 0
    else
      var last := ledger[|ledger| - 1];
      Total(ledger[..|ledger| - 1], scope, what)
      + if InScope(last.user, last.request, scope) then Weight(last.line, what) else 0
  }

  /** `balanceAfter` of the user's newest ledger row. */
  function Latest(ledger: seq<Entry>, user: string): Option<int> {
    if ledger == [] then None
    else
      var last := ledger[|ledger| - 1];
      if last.user == user then Some(last.balanceAfter) else Latest(ledger[..|ledger| - 1], user)
  }

  lemma {:induction false} RowSumWritten(rows: seq<Row>, id: nat, row: Row, user: string, part: Part)
    requires id <= |rows| && (id < |rows| ==> rows[id].user == row.user)
    ensures RowSum(Written(rows, id, row), user, part)
         == RowSum(rows, user, part) + if row.user == user then Added(rows, id, row, part) else 0
  {
    var n := |rows| - 1;
    if id == |rows| {
      assert (rows + [row])[..id] == rows;
    } else if id == n {
      assert rows[id := row][..n] == rows[..n];
    } else {
      RowSumWritten(rows[..n], id, row, user, part);
      assert rows[id := row][..n] == rows[..n][id := row];
    }
  }

  lemma {:induction false} TotalPosted(ledger: seq<Entry>, user: string, request: Option<nat>, lines: seq<Line>,
                                       balance: int, scope: Scope, what: What)
    ensures Total(ledger + Posted(user, request, lines, balance), scope, what)
         == Total(ledger, scope, what) + if InScope(user, request, scope) then LineSum(lines, what) else 0
  {
    var posted := Posted(user, request, lines, balance);
    if lines == [] {
      assert ledger + posted == ledger;
    } else {
      var n := |lines| - 1;
      var earlier := Posted(user, request, lines[..n], balance);
      TotalPosted(ledger, user, request, lines[..n], balance, scope, what);
      assert (ledger + posted)[..|ledger + posted| - 1] == ledger + earlier;
    }
  }

  lemma {:induction false} LatestPosted(ledger: seq<Entry>, user: string, request: Option<nat>, lines: seq<Line>,
                                        balance: int, other: string)
    ensures Latest(ledger + Posted(user, request, lines, balance), other)
         == if user == other && lines != [] then Some(balance) else Latest(ledger, other)
  {
    var posted := Posted(user, request, lines, balance);
    if lines == [] {
      assert ledger + posted == ledger;
    } else {
      var n := |lines| - 1;
      LatestPosted(ledger, user, request, lines[..n], balance, other);
      assert (ledger + posted)[..|ledger + posted| - 1] == ledger + Posted(user, request, lines[..n], balance);
    }
  }

  lemma {:induction false} PostedRequests(user: string, request: Option<nat>, lines: seq<Line>, balance: int)
    ensures forall e :: e in Posted(user, request, lines, balance) ==> e.request == request && e.user == user
  {
    if lines != [] {
      PostedRequests(user, request, lines[..|lines| - 1], balance);
    }
  }

  lemma OneLine(a: Line, what: What)
    ensures LineSum([a], what) == Weight(a, what)
  {
  }

  // ---- the invariant -------------------------------------------------------------------------

  /** What a row's non-CHARGE ledger amounts add up to. */
  function Owed(row: Row): int {
    if Active(row) then -(row.estimated as int)
    else if row.status == SUCCEEDED then PartOf(row, Debits) - row.charged
    else 0
  }

  /** `Wallet_nonnegative_credits` holds of every wallet. */
  ghost predicate Solvent(s: State) {
    forall user :: user in s.purses ==> NonNegative(s.purses[user])
  }

  lemma StaysSolvent(s: State, change: Change)
    requires Solvent(s) && Fits(s, change)
    ensures Solvent(Apply(s, change))
  {
  }

  ghost predicate UserBalanced(s: State, opening: int, user: string)
    requires user in s.purses
  {
    var purse := s.purses[user];
    && purse.reserved == RowSum(s.rows, user, Estimates)
    && purse.available == opening + Total(s.ledger, OfUser(user), Moves) - RowSum(s.rows, user, Debits)
    && purse.available + purse.reserved + purse.consumed + Total(s.ledger, OfUser(user), MusicCharges)
       == opening + Total(s.ledger, OfUser(user), Grants)
    && Latest(s.ledger, user) in {None, Some(purse.available)}
    && (Latest(s.ledger, user).None? ==> purse.available == opening)
  }

  /** A wallet created later opens empty. */
  function OpeningOf(opening: map<string, int>, user: string): int {
    if user in opening then opening[user] else 0
  }

  ghost predicate Books(s: State, opening: map<string, int>) {
    && opening.Keys <= s.purses.Keys && Solvent(s)
    && (forall user :: user in s.purses ==> UserBalanced(s, OpeningOf(opening, user), user))
    && (forall id :: 0 <= id < |s.rows| ==> s.rows[id].user in s.purses)
    && (forall id :: 0 <= id < |s.rows| ==> Total(s.ledger, OfRequest(id), Moves) == Owed(s.rows[id]))
    && (forall e :: e in s.ledger ==> e.user in s.purses && (e.request.Some? ==> e.request.value < |s.rows|))
  }

  /** Fresh wallets with an opening balance, no requests and no ledger. */
  function Fresh(opening: map<string, int>): State {
    State(map user | user in opening :: Purse(opening[user], 0, 0), [], [])
  }

  lemma FreshBooks(opening: map<string, int>)
    requires forall user :: user in opening ==> opening[user] >= 0
    ensures Books(Fresh(opening), opening)
  {
  }

  /** The condition on one change: what it moves is what its ledger lines and its row say. */
  ghost predicate Balanced(s: State, change: Change)
    requires Fits(s, change)
  {
    match change
    case Keep => true
    case Credit(_, _) => true
    case NewPurse(_) => true
    case Put(id, row, money) =>
      var (held, debited) := (Added(s.rows, id, row, Estimates), Added(s.rows, id, row, Debits));
      var owed := Owed(row) - if id < |s.rows| then Owed(s.rows[id]) else 0;
      && row.user in s.purses
      && (money.None? ==> held == 0 == debited && owed == 0)
      && (money.Some? ==>
            var m := money.value;
            && m.reserved == held && m.available == owed - debited
            && LineSum(m.lines, Moves) == owed && (m.lines == [] ==> m.available == 0)
            && m.available + m.reserved + m.consumed + LineSum(m.lines, MusicCharges) == LineSum(m.lines, Grants))
  }

  lemma {:induction false} NoEntries(ledger: seq<Entry>, id: nat, what: What)
    requires forall e :: e in ledger ==> e.request.Some? ==> e.request.value != id
    ensures Total(ledger, OfRequest(id), what) == 0
  {
    if ledger != [] {
      NoEntries(ledger[..|ledger| - 1], id, what);
    }
  }

  lemma PaidTotals(s: State, user: string, request: Option<nat>, money: Money)
    requires user in s.purses
    ensures var after := Paid(s, user, request, money);
            && (forall scope, what :: Total(after.ledger, scope, what) == Total(s.ledger, scope, what)
                  + if InScope(user, request, scope) then LineSum(money.lines, what) else 0)
            && (forall other :: Latest(after.ledger, other) == if user == other && money.lines != []
                  then Some(after.purses[user].available) else Latest(s.ledger, other))
            && (forall e :: e in after.ledger ==> e in s.ledger || (e.request == request && e.user == user))
  {
    var balance := Adjust(s.purses[user], money).available;
    forall scope, what {
      TotalPosted(s.ledger, user, request, money.lines, balance, scope, what);
    }
    forall other {
      LatestPosted(s.ledger, user, request, money.lines, balance, other);
    }
    PostedRequests(user, request, money.lines, balance);
  }

  lemma CreditKeepsBooks(s: State, opening: map<string, int>, user: string, amount: nat)
    requires Books(s, opening) && Fits(s, Credit(user, amount))
    ensures Books(Apply(s, Credit(user, amount)), opening)
  {
    hide Books;
    SolventBooks(s, opening);
    StaysSolvent(s, Credit(user, amount));
    PaidTotals(s, user, None, Granting(amount));
    OneLine(Line(GRANT, amount), Moves);
    OneLine(Line(GRANT, amount), Grants);
    OneLine(Line(GRANT, amount), MusicCharges);
    var after := Apply(s, Credit(user, amount));
    forall other | other in after.purses
      ensures UserBalanced(after, OpeningOf(opening, other), other)
    {
      BooksOf(s, opening, other);
    }
    BooksFromUsers(s, opening, after);
  }

  lemma BooksOf(s: State, opening: map<string, int>, user: string)
    requires Books(s, opening) && user in s.purses
    ensures UserBalanced(s, OpeningOf(opening, user), user)
  {
  }

  lemma SolventBooks(s: State, opening: map<string, int>)
    requires Books(s, opening)
    ensures Solvent(s)
  {
  }

  /** Books over the same rows, of which only the users still have to be checked. */
  lemma BooksFromUsers(s: State, opening: map<string, int>, after: State)
    requires Books(s, opening) && after.rows == s.rows && s.purses.Keys <= after.purses.Keys && Solvent(after)
    requires forall user :: user in after.purses ==> UserBalanced(after, OpeningOf(opening, user), user)
    requires forall id, what :: Total(after.ledger, OfRequest(id), what) == Total(s.ledger, OfRequest(id), what)
    requires forall e :: e in after.ledger ==> e in s.ledger || (e.user in after.purses && e.request.None?)
    ensures Books(after, opening)
  {
  }

  lemma {:induction false} NoLedger(ledger: seq<Entry>, user: string, what: What)
    requires forall e :: e in ledger ==> e.user != user
    ensures Total(ledger, OfUser(user), what) == 0 && Latest(ledger, user).None?
  {
    if ledger != [] {
      NoLedger(ledger[..|ledger| - 1], user, what);
      assert ledger[|ledger| - 1] in ledger;
    }
  }

  lemma {:induction false} NoRows(rows: seq<Row>, user: string, part: Part)
    requires forall id :: 0 <= id < |rows| ==> rows[id].user != user
    ensures RowSum(rows, user, part) == 0
  {
    if rows != [] {
      NoRows(rows[..|rows| - 1], user, part);
    }
  }

  lemma NewPurseKeepsBooks(s: State, opening: map<string, int>, user: string)
    requires Books(s, opening) && user !in s.purses
    ensures Books(Apply(s, NewPurse(user)), opening)
  {
    var after := Apply(s, NewPurse(user));
    forall other | other in after.purses
      ensures UserBalanced(after, OpeningOf(opening, other), other)
    {
      if other == user {
        NoRows(s.rows, user, Estimates);
        NoRows(s.rows, user, Debits);
        NoLedger(s.ledger, user, Moves);
        NoLedger(s.ledger, user, MusicCharges);
        NoLedger(s.ledger, user, Grants);
      } else {
        assert UserBalanced(s, OpeningOf(opening, other), other);
      }
    }
  }

  /** The sums a row write leaves behind. */
  lemma PutTotals(s: State, id: nat, row: Row, money: Option<Money>)
    requires Fits(s, Put(id, row, money))
    ensures var after := Apply(s, Put(id, row, money));
            && after.rows == Written(s.rows, id, row)
            && (forall user, part :: RowSum(after.rows, user, part)
                  == RowSum(s.rows, user, part) + if row.user == user then Added(s.rows, id, row, part) else 0)
            && (forall scope, what :: Total(after.ledger, scope, what) == Total(s.ledger, scope, what)
                  + if money.Some? && InScope(row.user, Some(id), scope) then LineSum(money.value.lines, what) else 0)
            && (forall other :: Latest(after.ledger, other)
                  == if money.Some? && row.user == other && money.value.lines != []
                     then Some(after.purses[row.user].available) else Latest(s.ledger, other))
            && (forall e :: e in after.ledger ==> e in s.ledger || (e.request == Some(id) && e.user == row.user))
  {
    forall user, part {
      RowSumWritten(s.rows, id, row, user, part);
    }
    if money.Some? {
      PaidTotals(s.(rows := Written(s.rows, id, row)), row.user, Some(id), money.value);
    }
  }

  lemma PutKeepsUsers(s: State, opening: map<string, int>, id: nat, row: Row, money: Option<Money>)
    requires Books(s, opening) && Fits(s, Put(id, row, money)) && Balanced(s, Put(id, row, money))
    ensures var after := Apply(s, Put(id, row, money));
            forall user :: user in after.purses ==> UserBalanced(after, OpeningOf(opening, user), user)
  {
    hide Total, Latest, RowSum, Added, Owed, Books;
    PutTotals(s, id, row, money);
    var after := Apply(s, Put(id, row, money));
    forall user | user in after.purses
      ensures UserBalanced(after, OpeningOf(opening, user), user)
    {
      BooksOf(s, opening, user);
    }
  }

  lemma PutKeepsRows(s: State, opening: map<string, int>, id: nat, row: Row, money: Option<Money>)
    requires Books(s, opening) && Fits(s, Put(id, row, money)) && Balanced(s, Put(id, row, money))
    ensures var after := Apply(s, Put(id, row, money));
            forall i :: 0 <= i < |after.rows| ==> Total(after.ledger, OfRequest(i), Moves) == Owed(after.rows[i])
  {
    PutTotals(s, id, row, money);
    var after := Apply(s, Put(id, row, money));
    forall i | 0 <= i < |after.rows|
      ensures Total(after.ledger, OfRequest(i), Moves) == Owed(after.rows[i])
    {
      if i == |s.rows| {
        NoEntries(s.ledger, i, Moves);
      } else if i == id {
        assert Total(s.ledger, OfRequest(i), Moves) == Owed(s.rows[i]);
      } else {
        assert after.rows[i] == s.rows[i];
      }
    }
  }

  lemma PutKeepsBooks(s: State, opening: map<string, int>, id: nat, row: Row, money: Option<Money>)
    requires Books(s, opening) && Fits(s, Put(id, row, money)) && Balanced(s, Put(id, row, money))
    ensures Books(Apply(s, Put(id, row, money)), opening)
  {
    hide UserBalanced, Owed, LineSum;
    StaysSolvent(s, Put(id, row, money));
    PutTotals(s, id, row, money);
    PutKeepsUsers(s, opening, id, row, money);
    PutKeepsRows(s, opening, id, row, money);
  }

  // What books on both sides of a row write say about it, clause by clause.

  lemma ReservedAgrees(s: State, opening: map<string, int>, id: nat, row: Row, money: Option<Money>)
    requires Books(s, opening) && Fits(s, Put(id, row, money)) && Books(Apply(s, Put(id, row, money)), opening)
    ensures row.user in s.purses
    ensures Added(s.rows, id, row, Estimates) == if money.Some? then money.value.reserved else 0
  {
    hide Total, Latest, RowSum, PartOf;
    var after := Apply(s, Put(id, row, money));
    assert after.rows[id] == row;
    RowSumWritten(s.rows, id, row, row.user, Estimates);
    BooksOf(s, opening, row.user);
    BooksOf(after, opening, row.user);
  }

  lemma RequestAgrees(s: State, opening: map<string, int>, id: nat, row: Row, money: Option<Money>)
    requires Books(s, opening) && Fits(s, Put(id, row, money)) && Books(Apply(s, Put(id, row, money)), opening)
    ensures Owed(row) - (if id < |s.rows| then Owed(s.rows[id]) else 0)
         == if money.Some? then LineSum(money.value.lines, Moves) else 0
  {
    hide UserBalanced, Owed, LineSum;
    PutTotals(s, id, row, money);
    var after := Apply(s, Put(id, row, money));
    assert after.rows[id] == row;
    assert Total(after.ledger, OfRequest(id), Moves) == Owed(after.rows[id]);
    if id == |s.rows| {
      NoEntries(s.ledger, id, Moves);
    } else {
      assert Total(s.ledger, OfRequest(id), Moves) == Owed(s.rows[id]);
    }
  }

  lemma WrittenUser(s: State, opening: map<string, int>, id: nat, row: Row, money: Option<Money>)
    requires Books(s, opening) && Fits(s, Put(id, row, money)) && Books(Apply(s, Put(id, row, money)), opening)
    ensures row.user in s.purses && row.user in Apply(s, Put(id, row, money)).purses
  {
    assert Apply(s, Put(id, row, money)).rows[id] == row;
  }

  lemma PurseAgrees(s: State, opening: map<string, int>, id: nat, row: Row, money: Option<Money>)
    requires Books(s, opening) && Fits(s, Put(id, row, money)) && Books(Apply(s, Put(id, row, money)), opening)
    ensures row.user in s.purses
    ensures var debited := Added(s.rows, id, row, Debits);
            && (money.None? ==> debited == 0)
            && (money.Some? ==>
                  var m := money.value;
                  && m.available == LineSum(m.lines, Moves) - debited && (m.lines == [] ==> m.available == 0)
                  && m.available + m.reserved + m.consumed + LineSum(m.lines, MusicCharges) == LineSum(m.lines, Grants))
  {
    hide Books, RowSum, PartOf, Owed, LineSum;
    WrittenUser(s, opening, id, row, money);
    PutTotals(s, id, row, money);
    BooksOf(s, opening, row.user);
    BooksOf(Apply(s, Put(id, row, money)), opening, row.user);
  }

  lemma UnbalancedBreaksBooks(s: State, opening: map<string, int>, id: nat, row: Row, money: Option<Money>)
    requires Books(s, opening) && Fits(s, Put(id, row, money)) && Books(Apply(s, Put(id, row, money)), opening)
    ensures Balanced(s, Put(id, row, money))
  {
    hide Books, Owed, PartOf, LineSum;
    ReservedAgrees(s, opening, id, row, money);
    RequestAgrees(s, opening, id, row, money);
    PurseAgrees(s, opening, id, row, money);
  }

  /** A change keeps the books if and only if it is balanced. */
  lemma ChangeKeepsBooks(s: State, opening: map<string, int>, change: Change)
    requires Books(s, opening) && Fits(s, change)
    ensures Books(Apply(s, change), opening) <==> Balanced(s, change)
  {
    match change
    case Keep =>
    case Credit(user, amount) => CreditKeepsBooks(s, opening, user, amount);
    case NewPurse(user) => NewPurseKeepsBooks(s, opening, user);
    case Put(id, row, money) =>
      if Balanced(s, change) {
        PutKeepsBooks(s, opening, id, row, money);
      }
      if Books(Apply(s, change), opening) {
        UnbalancedBreaksBooks(s, opening, id, row, money);
      }
  }

  // ---- every transaction ---------------------------------------------------------------------

  predicate Open(s: State, user: string, id: nat) {
    id < |s.rows| && s.rows[id].user == user && Active(s.rows[id])
  }

  predicate InMusic(s: State, id: nat) {
    id < |s.rows| && s.rows[id].status == PROCESSING
  }

  /** Setting the row to PROCESSING reopens nothing that is worth anything. */
  predicate Markable(row: Row) {
    Active(row) || (row.estimated == 0 && (row.status == SUCCEEDED ==> row.charged == 0))
  }

  /** A settlement that bills a request that has been billed already. */
  predicate BillsTwice(s: State, id: nat, bills: bool)
    requires id < |s.rows|
  {
    bills && s.rows[id].billed
  }

  /** More than the wallet holds reserved. */
  predicate ExceedsHold(s: State, id: nat, amount: int)
    requires id < |s.rows|
  {
    s.rows[id].user in s.purses && amount > s.purses[s.rows[id].user].reserved
  }

  predicate Affords(s: State, user: string, amount: int) {
    user in s.purses && s.purses[user].available >= amount
  }

  /** All of the estimate, or so much that the database refuses it. */
  predicate Given(s: State, id: nat, amount: int)
    requires id < |s.rows|
  {
    amount == s.rows[id].estimated || ExceedsHold(s, id, amount)
  }

  /** What a caller of an amount-passing transaction has to get right. Every other transaction
      takes its amounts from the row it claims and needs nothing, but for the unguarded video write,
      which needs its row to be open still, and the chat settlement, which needs a chat row. */
  predicate Exact(s: State, call: Call) {
    match call
    case ReleaseImage(user, id, amount) => Open(s, user, id) ==> Given(s, id, amount)
    case ReleaseVideo(user, id, amount) => Open(s, user, id) ==> Given(s, id, amount)
    case SettleImage(user, id, charged, bills) =>
      Open(s, user, id) ==> charged <= s.rows[id].estimated || BillsTwice(s, id, bills)
    case SettleVideo(user, id, charged, _, bills) =>
      Open(s, user, id) ==> Given(s, id, charged) || BillsTwice(s, id, bills)
    case MarkVideo(id) => id < |s.rows| ==> Markable(s.rows[id])
    case SettleChat(user, id, charged, bills) =>
      Open(s, user, id) ==>
        || s.rows[id].capability == OTHER || charged <= s.rows[id].estimated
        || !Affords(s, user, charged - s.rows[id].estimated) || BillsTwice(s, id, bills)
    case SettleMusic(id, credits) => InMusic(s, id) ==> Given(s, id, credits) || BillsTwice(s, id, true)
    case RejectMusic(id, credits) => InMusic(s, id) ==> Given(s, id, credits)
    case _ => true
  }

  lemma MoneyLines(a: int, b: int)
    ensures LineSum([Line(RESERVE, a)], Moves) == LineSum([Line(RELEASE, a)], Moves)
         == LineSum([Line(REFUND, a)], Moves) == a
    ensures LineSum([Line(CHARGE, a)], Moves) == 0 && LineSum([Line(CHARGE, a), Line(RELEASE, b)], Moves) == b
    ensures LineSum([Line(CHARGE, a)], MusicCharges) == LineSum([Line(CHARGE, a), Line(RELEASE, b)], MusicCharges)
         == if a < 0 then -a else 0
    ensures forall kind :: kind != CHARGE ==> LineSum([Line(kind, a)], MusicCharges) == 0
    ensures forall kind :: kind != GRANT ==> LineSum([Line(kind, a)], Grants) == 0
    ensures LineSum([Line(CHARGE, a), Line(RELEASE, b)], Grants) == 0
  {
  }

  /** The lines of every kind of money a transaction moves. */
  lemma ReservationLines(amount: int)
    ensures LineSum(Holding(amount).lines, Moves) == -amount
    ensures LineSum(Holding(amount).lines, MusicCharges) == 0 == LineSum(Holding(amount).lines, Grants)
    ensures LineSum(Releasing(amount).lines, Moves) == amount
    ensures LineSum(Releasing(amount).lines, MusicCharges) == 0 == LineSum(Releasing(amount).lines, Grants)
    ensures LineSum([Line(REFUND, amount)], Moves) == amount
    ensures LineSum([Line(REFUND, amount)], MusicCharges) == 0 == LineSum([Line(REFUND, amount)], Grants)
  {
  }

  /** What the lines of one transaction add up to, in all three respects. */
  ghost predicate LinesSum(lines: seq<Line>, moves: int, music: int) {
    LineSum(lines, Moves) == moves && LineSum(lines, MusicCharges) == music && LineSum(lines, Grants) == 0
  }

  lemma NothingSums()
    ensures LinesSum([], 0, 0)
  {
  }

  lemma ChargeSums(charged: nat)
    ensures LinesSum([Line(CHARGE, charged)], 0, 0) && LinesSum([Line(CHARGE, -(charged as int))], 0, charged)
  {
    MoneyLines(charged, 0);
    MoneyLines(-(charged as int), 0);
  }

  lemma ChargeAndReleaseSums(charged: nat, released: int)
    ensures LinesSum([Line(CHARGE, charged), Line(RELEASE, released)], released, 0)
  {
    MoneyLines(charged, released);
  }

  lemma ReleaseSums(amount: int)
    ensures LinesSum([Line(RELEASE, amount)], amount, 0)
  {
    MoneyLines(amount, 0);
  }

  lemma TaskSums(estimated: int, charged: nat)
    requires charged <= estimated
    ensures LinesSum(ChargingTasks(estimated, charged).lines, estimated - charged, 0)
  {
    hide LinesSum;
    NothingSums();
    ChargeSums(charged);
    ReleaseSums(estimated - charged);
    ChargeAndReleaseSums(charged, estimated - charged);
    var (first, second) := (Line(CHARGE, charged), Line(RELEASE, estimated - charged));
    assert [] + [second] == [second] && [first] + [] == [first] && [first] + [second] == [first, second];
    var none: seq<Line> := [];
    assert none + none == none;
  }

  // The transactions by what they do to the books; the rest write a row without moving credits,
  // grant, or open a wallet.

  predicate Reserves(call: Call) {
    call.ReserveOperation? || call.ReserveImage? || call.ReserveVideo? || call.ReserveMusic? || call.ReserveChat?
  }

  predicate Settles(call: Call) {
    || call.SettleOperation? || call.SettleImage? || call.SettleVideo? || call.SettleMusic?
    || call.SettleVideoTasks? || call.SettleChat?
  }

  predicate ReleasesRow(call: Call) {
    call.ReleaseOperation? || call.RefundVideo? || call.Sweep? || call.ReleaseChat?
  }

  predicate ReleasesAmount(call: Call) {
    call.ReleaseImage? || call.ReleaseVideo? || call.RejectMusic?
  }

  lemma CreateBalanced(s: State, row: Row)
    requires Find(s.rows, row.user, row.client).None? && Active(row)
    ensures Balanced(s, Create(s, row).change)
  {
    hide LineSum;
    ReservationLines(row.estimated);
  }

  lemma ReopenBalanced(s: State, id: nat, pricing: Option<Snapshot>, estimate: nat)
    requires id < |s.rows| && s.rows[id].status == FAILED
    ensures Balanced(s, Reopen(s, id, pricing, estimate).change)
  {
    hide LineSum;
    ReservationLines(estimate);
  }

  lemma ReservationBalanced(s: State, call: Call)
    requires Reserves(call)
    ensures Balanced(s, Effect(s, call).change)
  {
    hide Balanced, Create, Reopen;
    KeepIsBalanced(s);
    forall row: Row | Find(s.rows, row.user, row.client).None? && Active(row) {
      CreateBalanced(s, row);
    }
    forall id, pricing, estimate: nat | 0 <= id < |s.rows| && s.rows[id].status == FAILED {
      ReopenBalanced(s, id, pricing, estimate);
    }
  }

  lemma SettleOperationBalanced(s: State, user: string, id: nat, final: Journal)
    ensures Balanced(s, SettleOperationEffect(s, user, id, final).change)
  {
    hide LineSum;
    var change := SettleOperationEffect(s, user, id, final).change;
    if change.Put? {
      ChargeSums(change.row.charged);
      ChargeAndReleaseSums(change.row.charged, change.row.estimated - change.row.charged);
    }
  }

  lemma SettleVideoTasksBalanced(s: State, id: nat, delivered: bool, quoted: nat)
    ensures Balanced(s, SettleVideoTasksEffect(s, id, delivered, quoted).change)
  {
    hide LineSum, ChargingTasks;
    var change := SettleVideoTasksEffect(s, id, delivered, quoted).change;
    if change.Put? && delivered {
      TaskSums(change.row.estimated, change.row.charged);
      assert change.money.value == ChargingTasks(change.row.estimated, change.row.charged);
      TaskMoney(change.row.estimated, change.row.charged);
    } else if change.Put? {
      ReleaseSums(change.row.estimated);
    }
  }

  lemma TaskMoney(estimated: int, charged: int)
    requires charged <= estimated
    ensures var m := ChargingTasks(estimated, charged);
            && m.available == estimated - charged && m.reserved == -estimated && m.consumed == charged
            && (m.lines == [] ==> m.available == 0)
  {
  }

  lemma SettleImageBalanced(s: State, user: string, id: nat, charged: nat, bills: bool)
    ensures var change := SettleImageEffect(s, user, id, charged, bills).change;
            Balanced(s, change) <==> change == Keep || Exact(s, SettleImage(user, id, charged, bills))
  {
    hide LineSum;
    var change := SettleImageEffect(s, user, id, charged, bills).change;
    if change.Put? {
      ChargeSums(charged);
      ChargeAndReleaseSums(charged, change.row.estimated - charged);
    }
  }

  lemma SettleVideoBalanced(s: State, user: string, id: nat, charged: nat, delivers: bool, bills: bool)
    ensures var change := SettleVideoEffect(s, user, id, charged, delivers, bills).change;
            Balanced(s, change) <==> change == Keep || Exact(s, SettleVideo(user, id, charged, delivers, bills))
  {
    hide LineSum;
    ChargeSums(charged);
  }

  lemma SettleMusicBalanced(s: State, id: nat, credits: nat)
    ensures var change := SettleMusicEffect(s, id, credits).change;
            Balanced(s, change) <==> change == Keep || Exact(s, SettleMusic(id, credits))
  {
    hide LineSum;
    ChargeSums(credits);
  }

  lemma SettleChatBalanced(s: State, user: string, id: nat, charged: nat, bills: bool)
    ensures var change := SettleChatEffect(s, user, id, charged, bills).change;
            Balanced(s, change) <==> change == Keep || Exact(s, SettleChat(user, id, charged, bills))
  {
    hide LineSum;
    var change := SettleChatEffect(s, user, id, charged, bills).change;
    if change.Put? {
      ChargeSums(charged);
      ChargeAndReleaseSums(charged, change.row.estimated - charged);
    }
  }

  /** Operations and managed videos check their charge themselves, chat may charge what the wallet can
      pay; the other settlements are balanced exactly when their caller passed the right charge. */
  lemma SettlementBalanced(s: State, call: Call)
    requires Settles(call)
    ensures Balanced(s, Effect(s, call).change) <==> Effect(s, call).change == Keep || Exact(s, call)
  {
    hide Balanced, SettleOperationEffect, SettleVideoTasksEffect, SettleImageEffect, SettleVideoEffect,
         SettleMusicEffect, SettleChatEffect;
    match call
    case SettleOperation(user, id, final) => SettleOperationBalanced(s, user, id, final);
    case SettleVideoTasks(id, delivered, quoted) => SettleVideoTasksBalanced(s, id, delivered, quoted);
    case SettleImage(user, id, charged, bills) => SettleImageBalanced(s, user, id, charged, bills);
    case SettleVideo(user, id, charged, delivers, bills) =>
      SettleVideoBalanced(s, user, id, charged, delivers, bills);
    case SettleMusic(id, credits) => SettleMusicBalanced(s, id, credits);
    case SettleChat(user, id, charged, bills) => SettleChatBalanced(s, user, id, charged, bills);
  }

  lemma RefundBalanced(s: State, user: string, client: string)
    ensures Balanced(s, RefundVideoEffect(s, user, client).change)
  {
    hide LineSum;
    var change := RefundVideoEffect(s, user, client).change;
    if change.Put? {
      ReservationLines(change.row.estimated);
      ReservationLines(change.row.charged);
    }
  }

  lemma RowReleaseBalanced(s: State, call: Call)
    requires ReleasesRow(call)
    ensures Balanced(s, Effect(s, call).change)
  {
    hide LineSum;
    if call.RefundVideo? {
      hide Balanced, RefundVideoEffect;
      RefundBalanced(s, call.user, call.client);
    } else if Effect(s, call).change.Put? {
      ReservationLines(Effect(s, call).change.row.estimated);
    }
  }

  lemma ReleaseBalanced(s: State, user: string, id: nat, amount: nat)
    ensures var change := ReleaseEffect(s, user, id, amount).change;
            Balanced(s, change) <==> change == Keep || (Open(s, user, id) ==> Given(s, id, amount))
  {
    hide LineSum;
    ReservationLines(amount);
  }

  lemma RejectionBalanced(s: State, id: nat, credits: nat)
    ensures var change := RejectMusicEffect(s, id, credits).change;
            Balanced(s, change) <==> change == Keep || (InMusic(s, id) ==> Given(s, id, credits))
  {
    hide LineSum;
    ReservationLines(credits);
  }

  lemma PassedReleaseBalanced(s: State, call: Call)
    requires ReleasesAmount(call)
    ensures Balanced(s, Effect(s, call).change) <==> Effect(s, call).change == Keep || Exact(s, call)
  {
    hide Balanced, ReleaseEffect, RejectMusicEffect, Given, Open, InMusic;
    match call
    case ReleaseImage(user, id, amount) => ReleaseBalanced(s, user, id, amount);
    case ReleaseVideo(user, id, amount) => ReleaseBalanced(s, user, id, amount);
    case RejectMusic(id, credits) => RejectionBalanced(s, id, credits);
  }

  /** A write that moves no credits is balanced when it neither opens nor closes anything. */
  lemma PlainBalanced(s: State, call: Call)
    requires !Reserves(call) && !Settles(call) && !ReleasesRow(call) && !ReleasesAmount(call)
    requires forall id :: 0 <= id < |s.rows| ==> s.rows[id].user in s.purses
    ensures Balanced(s, Effect(s, call).change) <==> Effect(s, call).change == Keep || Exact(s, call)
  {
  }

  /** Every wallet holds reserved at least what the open rows of its user hold of it. */
  ghost predicate Covered(s: State) {
    && Solvent(s)
    && (forall id :: 0 <= id < |s.rows| ==> s.rows[id].user in s.purses)
    && (forall user :: user in s.purses ==> RowSum(s.rows, user, Estimates) <= s.purses[user].reserved)
  }

  lemma {:induction false} PartWithin(rows: seq<Row>, id: nat, part: Part)
    requires id < |rows|
    ensures 0 <= PartOf(rows[id], part) <= RowSum(rows, rows[id].user, part)
  {
    var n := |rows| - 1;
    if id < n {
      PartWithin(rows[..n], id, part);
    } else {
      PartsNonNegative(rows[..n], rows[id].user, part);
    }
  }

  lemma {:induction false} PartsNonNegative(rows: seq<Row>, user: string, part: Part)
    ensures RowSum(rows, user, part) >= 0
  {
    if rows != [] {
      PartsNonNegative(rows[..|rows| - 1], user, part);
    }
  }

  lemma BooksCover(s: State, opening: map<string, int>)
    requires Books(s, opening)
    ensures Covered(s)
  {
    hide RowSum, Total, Latest;
  }

  lemma OpenIsCovered(s: State, id: nat)
    requires Covered(s) && id < |s.rows| && Active(s.rows[id])
    ensures s.rows[id].user in s.purses && s.rows[id].estimated <= s.purses[s.rows[id].user].reserved
  {
    hide RowSum;
    PartWithin(s.rows, id, Estimates);
  }

  /** Where the wallets cover the open rows, nothing inexact is refused or skipped. */
  lemma KeptIsExact(s: State, call: Call)
    requires Covered(s)
    requires Effect(s, call).change == Keep
    ensures Exact(s, call)
  {
    hide RowSum;
    forall id | 0 <= id < |s.rows| && Active(s.rows[id])
      ensures s.rows[id].estimated <= s.purses[s.rows[id].user].reserved
    {
      OpenIsCovered(s, id);
    }
  }

  lemma CallBalanced(s: State, call: Call)
    requires Covered(s)
    ensures Balanced(s, Effect(s, call).change) <==> Exact(s, call)
  {
    hide Effect, Exact, Balanced, RowSum;
    if Effect(s, call).change == Keep {
      KeptIsExact(s, call);
      KeepIsBalanced(s);
    } else if Reserves(call) {
      ReservationBalanced(s, call);
      AlwaysExact(s, call);
    } else if Settles(call) {
      SettlementBalanced(s, call);
    } else if ReleasesRow(call) {
      RowReleaseBalanced(s, call);
      AlwaysExact(s, call);
    } else if ReleasesAmount(call) {
      PassedReleaseBalanced(s, call);
    } else {
      PlainBalanced(s, call);
    }
  }

  lemma KeepIsBalanced(s: State)
    ensures Balanced(s, Keep)
  {
  }

  lemma AlwaysExact(s: State, call: Call)
    requires Reserves(call) || ReleasesRow(call)
    ensures Exact(s, call)
  {
  }

  /** Every transaction keeps the books exactly when its caller got right what the transaction
      does not check: the stored estimate for a release, no more than it for an image settlement, all
      of it for a video or music settlement, a chat row for a chat settlement beyond the estimate, and
      a row that is still open for the unguarded video write. */
  lemma CallKeepsBooks(s: State, opening: map<string, int>, call: Call)
    requires Books(s, opening)
    ensures Books(After(s, call), opening) <==> Exact(s, call)
  {
    hide Effect, Exact, Balanced, Books;
    BooksCover(s, opening);
    ChangeKeepsBooks(s, opening, Effect(s, call).change);
    CallBalanced(s, call);
  }

  /** All that the database ever refuses where the wallets cover the open rows: a passed amount beyond
      what the wallet holds reserved, a second bill, and the refund of more than is on record as
      consumed. */
  predicate DatabaseRefuses(s: State, call: Call) {
    match call
    case ReleaseImage(_, id, amount) => id < |s.rows| && ExceedsHold(s, id, amount)
    case ReleaseVideo(_, id, amount) => id < |s.rows| && ExceedsHold(s, id, amount)
    case RejectMusic(id, credits) => id < |s.rows| && ExceedsHold(s, id, credits)
    case SettleVideo(_, id, charged, _, bills) =>
      id < |s.rows| && (BillsTwice(s, id, bills) || ExceedsHold(s, id, charged))
    case SettleMusic(id, credits) => id < |s.rows| && (BillsTwice(s, id, true) || ExceedsHold(s, id, credits))
    case SettleImage(_, id, _, bills) => id < |s.rows| && BillsTwice(s, id, bills)
    case SettleChat(_, id, _, bills) => id < |s.rows| && BillsTwice(s, id, bills)
    case SettleOperation(_, id, _) => id < |s.rows| && BillsTwice(s, id, true)
    case SettleVideoTasks(id, _, _) => id < |s.rows| && BillsTwice(s, id, true)
    case RefundVideo(user, client) =>
      var id := Find(s.rows, user, client);
      id.Some? && user in s.purses && s.rows[id.value].charged > s.purses[user].consumed
    case _ => false
  }

  /** `Covered`, row by row. */
  ghost predicate CoveredRows(s: State) {
    && Solvent(s)
    && (forall id :: 0 <= id < |s.rows| && Active(s.rows[id]) ==>
          s.rows[id].user in s.purses && s.rows[id].estimated <= s.purses[s.rows[id].user].reserved)
  }

  lemma CoversRows(s: State)
    requires Covered(s)
    ensures CoveredRows(s)
  {
    hide RowSum;
    forall id | 0 <= id < |s.rows| && Active(s.rows[id])
      ensures s.rows[id].user in s.purses && s.rows[id].estimated <= s.purses[s.rows[id].user].reserved
    {
      OpenIsCovered(s, id);
    }
  }

  lemma SettlementRefused(s: State, call: Call)
    requires CoveredRows(s) && Settles(call) && Effect(s, call).outcome == Refused("constraint")
    ensures DatabaseRefuses(s, call)
  {
    hide OperationSnapshot, Positive;
  }

  lemma ReleaseRefused(s: State, call: Call)
    requires CoveredRows(s) && (ReleasesAmount(call) || ReleasesRow(call))
    requires Effect(s, call).outcome == Refused("constraint")
    ensures DatabaseRefuses(s, call)
  {
  }

  lemma OtherNotRefused(s: State, call: Call)
    requires Solvent(s) && !Settles(call) && !ReleasesAmount(call) && !ReleasesRow(call)
    ensures Effect(s, call).outcome != Refused("constraint")
  {
    hide OperationSnapshot, SameRequest;
  }

  lemma RefusedByDatabase(s: State, call: Call)
    requires Covered(s) && Effect(s, call).outcome == Refused("constraint")
    ensures DatabaseRefuses(s, call)
  {
    hide Effect, DatabaseRefuses;
    CoversRows(s);
    if Settles(call) {
      SettlementRefused(s, call);
    } else if ReleasesAmount(call) || ReleasesRow(call) {
      ReleaseRefused(s, call);
    } else {
      OtherNotRefused(s, call);
    }
  }

  // ---- every run -----------------------------------------------------------------------------

  function Run(s: State, calls: seq<Call>): State
    decreases |calls|
  {
    if calls == [] then s else Run(After(s, calls[0]), calls[1..])
  }

  predicate AllExact(s: State, calls: seq<Call>)
    decreases |calls|
  {
    calls == [] || (Exact(s, calls[0]) && AllExact(After(s, calls[0]), calls[1..]))
  }

  /** Over every sequence of transactions with exact amounts the books stay kept. */
  lemma {:induction false} RunKeepsBooks(s: State, opening: map<string, int>, calls: seq<Call>)
    requires Books(s, opening) && AllExact(s, calls)
    ensures Books(Run(s, calls), opening)
    decreases |calls|
  {
    if calls != [] {
      CallKeepsBooks(s, opening, calls[0]);
      RunKeepsBooks(After(s, calls[0]), opening, calls[1..]);
    }
  }

  ghost predicate InBooksThroughout(s: State, opening: map<string, int>, calls: seq<Call>)
    decreases |calls|
  {
    Books(s, opening) && (calls == [] || InBooksThroughout(After(s, calls[0]), opening, calls[1..]))
  }

  /** Exact calls are all it takes, and all of them are needed: a run is in books at each of its
      moments exactly when every one of its calls was exact where it came. */
  lemma {:induction false} RunInBooksIff(s: State, opening: map<string, int>, calls: seq<Call>)
    requires Books(s, opening)
    ensures InBooksThroughout(s, opening, calls) <==> AllExact(s, calls)
    decreases |calls|
  {
    hide Books, Exact, After;
    if calls != [] {
      CallKeepsBooks(s, opening, calls[0]);
      if Exact(s, calls[0]) {
        RunInBooksIff(After(s, calls[0]), opening, calls[1..]);
      }
    }
  }

  /** No sequence of transactions, exact or not, makes a column of a wallet negative. */
  lemma {:induction false} RunNeverOverdraws(s: State, calls: seq<Call>)
    requires Solvent(s)
    ensures Solvent(Run(s, calls))
    decreases |calls|
  {
    hide Effect, Solvent;
    if calls != [] {
      StaysSolvent(s, Effect(s, calls[0]).change);
      RunNeverOverdraws(After(s, calls[0]), calls[1..]);
    }
  }
}
