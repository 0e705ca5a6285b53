/** Inputs on which the wallet books fail, one for each way a caller can get an amount or an
    unguarded status write wrong. The table constraint keeps every column non-negative, so what a
    wrong call takes too much comes out of the hold of another open request of the same user, whose
    own settlement and release are refused until yet another hold can be taken instead. */
module WalletBreaks {
  import opened JsonValues
  import opened Journals
  import opened Wallet
  import opened WalletBooks
  import opened WalletLedger

  // ---- for every row -------------------------------------------------------------------------

  /** A video status poll reads an open row and waits for its provider; the sweep releases the row; the
      poll then marks it PROCESSING again. The books are broken, for every row with an estimate. */
  lemma LateMarkAfterSweep(s: State, opening: map<string, int>, id: nat, staleBefore: int)
    requires Books(s, opening) && id < |s.rows|
    requires s.rows[id].capability == VIDEO && Active(s.rows[id]) && s.rows[id].estimated > 0
    requires s.rows[id].createdAt < staleBefore && !s.rows[id].completed
    ensures var swept := After(s, Sweep(id, s.rows[id].estimated, staleBefore));
            Books(swept, opening) && !Books(After(swept, MarkVideo(id)), opening)
  {
    hide Books, RowSum;
    var sweep := Sweep(id, s.rows[id].estimated, staleBefore);
    CallKeepsBooks(s, opening, sweep);
    BooksCover(s, opening);
    OpenIsCovered(s, id);
    assert After(s, sweep).rows[id].status == FAILED && After(s, sweep).rows[id].estimated == s.rows[id].estimated;
    CallKeepsBooks(After(s, sweep), opening, MarkVideo(id));
  }

  /** The same race against a settlement instead of the sweep. */
  lemma LateMarkAfterSettlement(s: State, opening: map<string, int>, id: nat)
    requires Books(s, opening) && id < |s.rows| && Active(s.rows[id]) && s.rows[id].estimated > 0
    ensures var settled := After(s, SettleVideo(s.rows[id].user, id, s.rows[id].estimated, true, false));
            Books(settled, opening) && !Books(After(settled, MarkVideo(id)), opening)
  {
    hide Books, RowSum;
    var settle := SettleVideo(s.rows[id].user, id, s.rows[id].estimated, true, false);
    CallKeepsBooks(s, opening, settle);
    BooksCover(s, opening);
    OpenIsCovered(s, id);
    assert After(s, settle).rows[id].status == SUCCEEDED && After(s, settle).rows[id].estimated == s.rows[id].estimated;
    CallKeepsBooks(After(s, settle), opening, MarkVideo(id));
  }

  /** The transactions that settle or release the whole hold of a request. */
  predicate InFull(s: State, id: nat, call: Call)
    requires id < |s.rows|
  {
    match call
    case SettleOperation(_, of, _) => of == id
    case ReleaseOperation(_, of, _) => of == id
    case SettleImage(_, of, _, _) => of == id
    case ReleaseImage(_, of, amount) => of == id && amount == s.rows[id].estimated
    case SettleVideo(_, of, charged, _, _) => of == id && charged == s.rows[id].estimated
    case ReleaseVideo(_, of, amount) => of == id && amount == s.rows[id].estimated
    case RefundVideo(user, client) => Find(s.rows, user, client) == Some(id)
    case SettleVideoTasks(of, _, _) => of == id
    case Sweep(of, _, _) => of == id
    case SettleMusic(of, credits) => of == id && credits == s.rows[id].estimated
    case RejectMusic(of, credits) => of == id && credits == s.rows[id].estimated
    case SettleChat(_, of, _, _) => of == id
    case ReleaseChat(_, of) => of == id
    case _ => false
  }

  /** An open request whose hold is no longer in the wallet: none of these commits. */
  ghost predicate Stuck(s: State, id: nat) {
    && id < |s.rows| && Active(s.rows[id])
    && forall call :: InFull(s, id, call) ==> Effect(s, call).outcome != Done
  }

  lemma SettlementStuck(s: State, id: nat, call: Call)
    requires id < |s.rows| && Active(s.rows[id]) && ExceedsHold(s, id, s.rows[id].estimated)
    requires Settles(call) && InFull(s, id, call)
    ensures Effect(s, call).outcome != Done
  {
    hide OperationSnapshot, SameRequest, Positive;
  }

  lemma ReleaseStuck(s: State, id: nat, call: Call)
    requires id < |s.rows| && Active(s.rows[id]) && ExceedsHold(s, id, s.rows[id].estimated)
    requires (ReleasesRow(call) || ReleasesAmount(call)) && InFull(s, id, call)
    ensures Effect(s, call).outcome != Done
  {
  }

  lemma HoldGone(s: State, id: nat)
    requires id < |s.rows| && Active(s.rows[id]) && ExceedsHold(s, id, s.rows[id].estimated)
    ensures Stuck(s, id)
  {
    hide Effect;
    forall call | InFull(s, id, call)
      ensures Effect(s, call).outcome != Done
    {
      if Settles(call) {
        SettlementStuck(s, id, call);
      } else {
        ReleaseStuck(s, id, call);
      }
    }
  }

  // ---- concrete runs -------------------------------------------------------------------------

  const USER := "user"
  const CLIP := NewRow(USER, "clip", VIDEO, RESERVED, None, 5, Nothing, 0)
  const OTHER_CLIP := NewRow(USER, "other", VIDEO, RESERVED, None, 5, Nothing, 0)
  const PICTURE := NewRow(USER, "picture", IMAGE, RESERVED, None, 8, Nothing, 0)
  const OTHER_PICTURE := NewRow(USER, "other", IMAGE, RESERVED, None, 8, Nothing, 0)

  ghost predicate Is(s: State, purse: Purse, rows: seq<Row>) {
    USER in s.purses && s.purses[USER] == purse && NonNegative(purse) && s.rows == rows
  }

  lemma Reserved(s: State, purse: Purse, rows: seq<Row>, call: Call, row: Row)
    requires Is(s, purse, rows) && Find(rows, USER, row.client).None? && purse.available >= row.estimated
    requires row.user == USER && row.status == RESERVED
    requires || (row == NewRow(USER, row.client, VIDEO, RESERVED, None, row.estimated, Nothing, 0)
                 && call == ReserveVideo(USER, row.client, None, row.estimated, false, 0))
             || (row == NewRow(USER, row.client, IMAGE, RESERVED, None, row.estimated, Nothing, 0)
                 && call == ReserveImage(USER, row.client, None, row.estimated, false, 0))
    ensures Is(After(s, call), Purse(purse.available - row.estimated, purse.reserved + row.estimated, purse.consumed),
               rows + [row])
  {
  }

  lemma Swept(s: State, purse: Purse, rows: seq<Row>, id: nat)
    requires Is(s, purse, rows) && id < |rows| && rows[id].user == USER && rows[id].estimated <= purse.reserved
    requires rows[id].capability == IMAGE || rows[id].capability == VIDEO
    requires Active(rows[id]) && rows[id].createdAt < 1 && !rows[id].completed
    ensures var (row, estimate) := (rows[id], rows[id].estimated);
            Is(After(s, Sweep(id, estimate, 1)),
               Purse(purse.available + estimate, purse.reserved - estimate, purse.consumed),
               rows[id := row.(status := FAILED, completed := true)])
  {
  }

  lemma Marked(s: State, purse: Purse, rows: seq<Row>, id: nat)
    requires Is(s, purse, rows) && id < |rows|
    ensures Is(After(s, MarkVideo(id)), purse, rows[id := rows[id].(status := PROCESSING, stored := Media)])
  {
  }

  lemma Settled(s: State, purse: Purse, rows: seq<Row>, id: nat, bills: bool)
    requires Is(s, purse, rows) && id < |rows| && rows[id].user == USER && Active(rows[id])
    requires rows[id].estimated <= purse.reserved && !(bills && rows[id].billed)
    ensures var (row, estimate) := (rows[id], rows[id].estimated);
            Is(After(s, SettleVideo(USER, id, estimate, true, bills)),
               Purse(purse.available, purse.reserved - estimate, purse.consumed + estimate),
               rows[id := Finished(row, SUCCEEDED, estimate, Media).(billed := row.billed || bills)])
  {
  }

  lemma Released(s: State, purse: Purse, rows: seq<Row>, id: nat, amount: nat)
    requires Is(s, purse, rows) && id < |rows| && rows[id].user == USER && Active(rows[id]) && amount <= purse.reserved
    ensures Is(After(s, ReleaseImage(USER, id, amount)),
               Purse(purse.available + amount, purse.reserved - amount, purse.consumed),
               rows[id := rows[id].(status := FAILED, completed := true)])
  {
  }

  lemma Reopened(s: State, id: nat, estimate: nat)
    requires id < |s.rows| && Find(s.rows, s.rows[id].user, s.rows[id].client) == Some(id)
    requires s.rows[id].capability == IMAGE && s.rows[id].status == FAILED
    requires s.rows[id].snapshot.None? && s.rows[id].stored == Nothing
    ensures var call := ReserveImage(s.rows[id].user, s.rows[id].client, None, estimate, false, 1);
            Effect(s, call) == Reopen(s, id, None, estimate)
  {
    hide Reopen;
  }

  lemma ReservedAgain(s: State, purse: Purse, rows: seq<Row>, id: nat, estimate: nat)
    requires Is(s, purse, rows) && id < |rows| && rows[id].user == USER && Find(rows, USER, rows[id].client) == Some(id)
    requires rows[id].capability == IMAGE && rows[id].status == FAILED
    requires rows[id].snapshot.None? && rows[id].stored == Nothing && purse.available >= estimate
    ensures Is(After(s, ReserveImage(USER, rows[id].client, None, estimate, false, 1)),
               Purse(purse.available - estimate, purse.reserved + estimate, purse.consumed),
               rows[id := rows[id].(status := RESERVED, estimated := estimate, charged := 0, completed := false)])
  {
    hide Effect, Find;
    Reopened(s, id, estimate);
  }

  lemma FreshIs(available: nat)
    ensures Is(Fresh(map[USER := available]), Purse(available, 0, 0), [])
  {
  }

  /** The end of a run: the second request is stuck. */
  lemma Ends(s: State, purse: Purse, a: Row, b: Row)
    requires Is(s, purse, [a, b]) && b.user == USER && Active(b) && b.estimated > purse.reserved
    ensures USER in s.purses && s.purses[USER] == purse && |s.rows| == 2 && s.rows[0] == a && Stuck(s, 1)
  {
    hide Stuck;
    HoldGone(s, 1);
  }

  lemma TwoRows(a: Row, b: Row)
    requires a.client != b.client && a.user == b.user == USER
    ensures Find([], USER, a.client).None? && Find([a], USER, b.client).None? && [a] + [b] == [a, b]
    ensures Find([a, b], USER, a.client) == Some(0)
  {
    assert [a][..0] == [] && [a, b][..1] == [a];
  }

  /** Two reservations of one user. */
  lemma TwoReserved(s: State, available: nat, a: Row, b: Row, first: Call, second: Call)
    requires Is(s, Purse(available, 0, 0), []) && a.estimated + b.estimated <= available
    requires a.client != b.client && a.user == b.user == USER
    requires || (a == NewRow(USER, a.client, VIDEO, RESERVED, None, a.estimated, Nothing, 0)
                 && b == NewRow(USER, b.client, VIDEO, RESERVED, None, b.estimated, Nothing, 0)
                 && first == ReserveVideo(USER, a.client, None, a.estimated, false, 0)
                 && second == ReserveVideo(USER, b.client, None, b.estimated, false, 0))
             || (a == NewRow(USER, a.client, IMAGE, RESERVED, None, a.estimated, Nothing, 0)
                 && b == NewRow(USER, b.client, IMAGE, RESERVED, None, b.estimated, Nothing, 0)
                 && first == ReserveImage(USER, a.client, None, a.estimated, false, 0)
                 && second == ReserveImage(USER, b.client, None, b.estimated, false, 0))
    ensures Is(After(After(s, first), second),
               Purse(available - a.estimated - b.estimated, a.estimated + b.estimated, 0), [a, b])
  {
    hide After;
    TwoRows(a, b);
    Reserved(s, Purse(available, 0, 0), [], first, a);
    assert [] + [a] == [a];
    Reserved(After(s, first), Purse(available - a.estimated, a.estimated, 0), [a], second, b);
  }

  lemma RunOfFive(s: State, a: Call, b: Call, c: Call, d: Call, e: Call)
    ensures Run(s, [a, b, c, d, e]) == After(After(After(After(After(s, a), b), c), d), e)
  {
    hide After;
    assert [a, b, c, d, e][1..] == [b, c, d, e] && [b, c, d, e][1..] == [c, d, e];
    assert [c, d, e][1..] == [d, e] && [d, e][1..] == [e] && [e][1..] == [];
    assert Run(s, [a, b, c, d, e]) == Run(After(s, a), [b, c, d, e]);
    assert Run(After(s, a), [b, c, d, e]) == Run(After(After(s, a), b), [c, d, e]);
    assert Run(After(After(s, a), b), [c, d, e]) == Run(After(After(After(s, a), b), c), [d, e]);
    assert Run(After(After(After(s, a), b), c), [d, e]) == Run(After(After(After(After(s, a), b), c), d), [e]);
  }

  const OPENING := map[USER := 10]
  const TWO_CLIPS := [ReserveVideo(USER, "clip", None, 5, false, 0), ReserveVideo(USER, "other", None, 5, false, 0)]

  /** Two clips are reserved; the first is swept, marked by a late poll and settled: its user has the
      5 credits back, and the settlement consumes the hold of the second clip. */
  const REOPENED := TWO_CLIPS + [Sweep(0, 5, 1), MarkVideo(0), SettleVideo(USER, 0, 5, true, false)]

  lemma ReopenedByLatePoll()
    ensures var after := Run(Fresh(OPENING), REOPENED);
            && USER in after.purses && after.purses[USER] == Purse(5, 0, 5)
            && |after.rows| == 2 && after.rows[0].status == SUCCEEDED && Stuck(after, 1)
  {
    hide After, Run, Stuck, Is, Fresh;
    var s := Fresh(OPENING);
    FreshIs(10);
    assert REOPENED == [TWO_CLIPS[0], TWO_CLIPS[1], Sweep(0, 5, 1), MarkVideo(0), SettleVideo(USER, 0, 5, true, false)];
    RunOfFive(s, TWO_CLIPS[0], TWO_CLIPS[1], Sweep(0, 5, 1), MarkVideo(0), SettleVideo(USER, 0, 5, true, false));
    TwoReserved(s, 10, CLIP, OTHER_CLIP, TWO_CLIPS[0], TWO_CLIPS[1]);
    var s2 := After(After(s, TWO_CLIPS[0]), TWO_CLIPS[1]);
    var failed := CLIP.(status := FAILED, completed := true);
    Swept(s2, Purse(0, 10, 0), [CLIP, OTHER_CLIP], 0);
    assert [CLIP, OTHER_CLIP][0 := failed] == [failed, OTHER_CLIP];
    var s3 := After(s2, Sweep(0, 5, 1));
    var marked := failed.(status := PROCESSING, stored := Media);
    Marked(s3, Purse(5, 5, 0), [failed, OTHER_CLIP], 0);
    assert [failed, OTHER_CLIP][0 := marked] == [marked, OTHER_CLIP];
    Settled(After(s3, MarkVideo(0)), Purse(5, 5, 0), [marked, OTHER_CLIP], 0, false);
    var last := Finished(marked, SUCCEEDED, 5, Media);
    assert [marked, OTHER_CLIP][0 := last] == [last, OTHER_CLIP];
    Ends(Run(s, REOPENED), Purse(5, 0, 5), last, OTHER_CLIP);
  }

  /** Two clips are reserved; the first is settled, marked by a late poll and settled again: one
      video is charged twice, the second time out of the hold of the other. */
  const CHARGED_TWICE := TWO_CLIPS + [SettleVideo(USER, 0, 5, true, true), MarkVideo(0),
                                      SettleVideo(USER, 0, 5, true, false)]

  lemma SettledTwiceByLatePoll()
    ensures var after := Run(Fresh(OPENING), CHARGED_TWICE);
            && USER in after.purses && after.purses[USER] == Purse(0, 0, 10)
            && |after.rows| == 2 && after.rows[0].status == SUCCEEDED && after.rows[0].charged == 5 && Stuck(after, 1)
  {
    hide After, Run, Stuck, Is, Fresh;
    var s := Fresh(OPENING);
    FreshIs(10);
    var (first, second) := (SettleVideo(USER, 0, 5, true, true), SettleVideo(USER, 0, 5, true, false));
    assert CHARGED_TWICE == [TWO_CLIPS[0], TWO_CLIPS[1], first, MarkVideo(0), second];
    RunOfFive(s, TWO_CLIPS[0], TWO_CLIPS[1], first, MarkVideo(0), second);
    TwoReserved(s, 10, CLIP, OTHER_CLIP, TWO_CLIPS[0], TWO_CLIPS[1]);
    var s2 := After(After(s, TWO_CLIPS[0]), TWO_CLIPS[1]);
    var settled := Finished(CLIP, SUCCEEDED, 5, Media).(billed := true);
    Settled(s2, Purse(0, 10, 0), [CLIP, OTHER_CLIP], 0, true);
    assert [CLIP, OTHER_CLIP][0 := settled] == [settled, OTHER_CLIP];
    var marked := settled.(status := PROCESSING, stored := Media);
    Marked(After(s2, first), Purse(0, 5, 5), [settled, OTHER_CLIP], 0);
    assert [settled, OTHER_CLIP][0 := marked] == [marked, OTHER_CLIP];
    Settled(After(After(s2, first), MarkVideo(0)), Purse(0, 5, 5), [marked, OTHER_CLIP], 0, false);
    var last := Finished(marked, SUCCEEDED, 5, Media);
    assert [marked, OTHER_CLIP][0 := last] == [last, OTHER_CLIP];
    Ends(Run(s, CHARGED_TWICE), Purse(0, 0, 10), last, OTHER_CLIP);
  }

  /** Two pictures are reserved; the sweep releases the first, which is reserved again under its id
      with a smaller estimate; the first executor's late release still carries the old one. */
  const PICTURE_OPENING := map[USER := 20]
  const TWO_PICTURES := [ReserveImage(USER, "picture", None, 8, false, 0),
                         ReserveImage(USER, "other", None, 8, false, 0)]
  const STALE_RELEASE := TWO_PICTURES + [Sweep(0, 8, 1), ReserveImage(USER, "picture", None, 3, false, 1),
                                         ReleaseImage(USER, 0, 8)]

  lemma ReleasedWithOldEstimate()
    ensures var after := Run(Fresh(PICTURE_OPENING), STALE_RELEASE);
            && USER in after.purses && after.purses[USER] == Purse(17, 3, 0)
            && |after.rows| == 2 && after.rows[0].status == FAILED && Stuck(after, 1)
  {
    hide After, Run, Stuck, Is, Fresh;
    var s := Fresh(PICTURE_OPENING);
    FreshIs(20);
    var again := ReserveImage(USER, "picture", None, 3, false, 1);
    assert STALE_RELEASE == [TWO_PICTURES[0], TWO_PICTURES[1], Sweep(0, 8, 1), again, ReleaseImage(USER, 0, 8)];
    RunOfFive(s, TWO_PICTURES[0], TWO_PICTURES[1], Sweep(0, 8, 1), again, ReleaseImage(USER, 0, 8));
    TwoReserved(s, 20, PICTURE, OTHER_PICTURE, TWO_PICTURES[0], TWO_PICTURES[1]);
    var s2 := After(After(s, TWO_PICTURES[0]), TWO_PICTURES[1]);
    var failed := PICTURE.(status := FAILED, completed := true);
    Swept(s2, Purse(4, 16, 0), [PICTURE, OTHER_PICTURE], 0);
    assert [PICTURE, OTHER_PICTURE][0 := failed] == [failed, OTHER_PICTURE];
    TwoRows(failed, OTHER_PICTURE);
    ReservedAgain(After(s2, Sweep(0, 8, 1)), Purse(12, 8, 0), [failed, OTHER_PICTURE], 0, 3);
    var smaller := failed.(status := RESERVED, estimated := 3, charged := 0, completed := false);
    assert [failed, OTHER_PICTURE][0 := smaller] == [smaller, OTHER_PICTURE];
    Released(After(After(s2, Sweep(0, 8, 1)), again), Purse(9, 11, 0), [smaller, OTHER_PICTURE], 0, 8);
    var last := smaller.(status := FAILED, completed := true);
    assert [smaller, OTHER_PICTURE][0 := last] == [last, OTHER_PICTURE];
    Ends(Run(s, STALE_RELEASE), Purse(17, 3, 0), last, OTHER_PICTURE);
  }

  /** In each of these runs the books fail. */
  lemma BrokenRuns()
    ensures !Books(Run(Fresh(OPENING), REOPENED), OPENING)
    ensures !Books(Run(Fresh(OPENING), CHARGED_TWICE), OPENING)
    ensures !Books(Run(Fresh(PICTURE_OPENING), STALE_RELEASE), PICTURE_OPENING)
  {
    hide Run, Books, Fresh, Effect;
    ReopenedByLatePoll();
    SettledTwiceByLatePoll();
    ReleasedWithOldEstimate();
    StuckBreaksBooks(Run(Fresh(OPENING), REOPENED), OPENING, 1);
    StuckBreaksBooks(Run(Fresh(OPENING), CHARGED_TWICE), OPENING, 1);
    StuckBreaksBooks(Run(Fresh(PICTURE_OPENING), STALE_RELEASE), PICTURE_OPENING, 1);
  }

  /** In books, no open request is ever stuck. */
  lemma StuckBreaksBooks(s: State, opening: map<string, int>, id: nat)
    requires Stuck(s, id)
    ensures !Books(s, opening)
  {
    hide Books, RowSum, Effect;
    if Books(s, opening) {
      BooksCover(s, opening);
      ReleaseCommits(s, id);
    }
  }

  lemma ReleaseCommits(s: State, id: nat)
    requires Covered(s) && id < |s.rows| && Active(s.rows[id])
    ensures var release := ReleaseChat(s.rows[id].user, id);
            InFull(s, id, release) && Effect(s, release).outcome == Done
  {
    hide RowSum;
    OpenIsCovered(s, id);
  }

  /** An amount that is wrong and too large does no harm: the database refuses it. */
  lemma ExcessIsRefused(s: State, opening: map<string, int>, id: nat, amount: nat)
    requires Books(s, opening) && id < |s.rows| && Active(s.rows[id]) && ExceedsHold(s, id, amount)
    ensures Effect(s, ReleaseImage(s.rows[id].user, id, amount)).outcome == Refused("constraint")
    ensures After(s, ReleaseImage(s.rows[id].user, id, amount)) == s
    ensures amount > s.rows[id].estimated
  {
    hide Books, RowSum;
    BooksCover(s, opening);
    OpenIsCovered(s, id);
  }

  /** A chat that reserves nothing and is charged 3: the books hold, and the ledger alone does not
      explain the balance. */
  const CHAT := [ReserveChat(USER, "chat", None, 0, 0), SettleChat(USER, 0, 3, true)]

  lemma ChatBeyondReservation()
    ensures var after := Run(Fresh(OPENING), CHAT);
            && USER in after.purses && after.purses[USER] == Purse(7, 0, 3)
            && Books(after, OPENING) && !PlainLedger(after, OPENING, USER)
  {
    hide Run, Books, RowSum, Total, Effect;
    var s := Fresh(OPENING);
    var reserved := After(s, CHAT[0]);
    assert CHAT[1..] == [CHAT[1]] && CHAT[1..][1..] == [];
    RunOfTwo(s, CHAT[0], CHAT[1]);
    FreshBooks(OPENING);
    BooksOf(s, OPENING, USER);
    ChatReserved(s);
    FreshIsPlain(OPENING, USER);
    CallPlain(s, OPENING, CHAT[0], USER);
    CallKeepsBooks(s, OPENING, CHAT[0]);
    CallPlain(reserved, OPENING, CHAT[1], USER);
    CallKeepsBooks(reserved, OPENING, CHAT[1]);
    ChatSettled(reserved);
  }

  lemma RunOfTwo(s: State, a: Call, b: Call)
    ensures Run(s, [a, b]) == After(After(s, a), b)
  {
    hide After;
    assert [a, b][1..] == [b] && [b][1..] == [];
    assert Run(s, [a, b]) == Run(After(s, a), [b]);
  }

  lemma FreshIsPlain(opening: map<string, int>, user: string)
    requires user in opening
    ensures PlainLedger(Fresh(opening), opening, user)
  {
  }

  lemma ChatReserved(s: State)
    requires Is(s, Purse(10, 0, 0), [])
    ensures Is(After(s, CHAT[0]), Purse(10, 0, 0), [NewRow(USER, "chat", OTHER, RESERVED, None, 0, Nothing, 0)])
  {
    var none: seq<Row> := [];
    assert Find(none, USER, "chat") == None;
  }

  lemma ChatSettled(s: State)
    requires Is(s, Purse(10, 0, 0), [NewRow(USER, "chat", OTHER, RESERVED, None, 0, Nothing, 0)])
    ensures TakesExtra(s, USER, CHAT[1]) && Exact(s, CHAT[1])
    ensures USER in After(s, CHAT[1]).purses && After(s, CHAT[1]).purses[USER] == Purse(7, 0, 3)
  {
  }
}
