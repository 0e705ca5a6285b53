/** What a music thread does when it is left alone: over every run of `MusicProtocol`, from any moment,
    and as long as no connection is lost and nobody interferes, a definite rejection gives the
    reservation back, a generated and stored result is charged, also when only a recovery stores it, and
    an uncertain answer keeps the hold (src/modules/ai/music-service.ts). */
module MusicProgress {
  import opened JsonValues
  import opened Journals
  import opened Wallet
  import opened WalletBooks
  import opened WalletOutcomes
  import opened OperationProtocol
  import opened OperationSafety
  import opened MusicProtocol

  /** From the n-th moment to the m-th this thread alone takes steps, and none of them is lost. */
  predicate OnItsOwn(events: seq<MusicEvent>, t: nat, n: nat, m: nat) {
    && m <= |events|
    && forall i :: n <= i < m ==> events[i].Run? && events[i].thread == t && !events[i].choice.lost
  }

  function MusicPcAt(worlds: seq<MusicWorld>, t: nat, i: nat): Option<MusicPc>
    requires i < |worlds|
  {
    if t in worlds[i].threads then Some(worlds[i].threads[t]) else None
  }

  function MusicRowAt(k: Key, worlds: seq<MusicWorld>, i: nat): Option<Row>
    requires i < |worlds|
  {
    OwnRow(worlds[i].db, k)
  }

  lemma MusicLengths(k: Key, worlds: seq<MusicWorld>, events: seq<MusicEvent>)
    requires MusicRun(k, worlds, events)
    ensures |worlds| == |events| + 1
  {
  }

  lemma OwnMusicStep(k: Key, worlds: seq<MusicWorld>, events: seq<MusicEvent>, t: nat, n: nat, m: nat, i: nat)
    requires MusicRun(k, worlds, events) && OnItsOwn(events, t, n, m) && n <= i < m
    requires |worlds| == |events| + 1 && MusicPcAt(worlds, t, i).Some?
    ensures events[i].Run? && !events[i].choice.lost
    ensures var act := MusicStep(k, worlds[i].db, MusicPcAt(worlds, t, i).value, events[i].choice);
            && worlds[i + 1].db == OperationProtocol.Committed(worlds[i].db, act.call)
            && MusicPcAt(worlds, t, i + 1) == Some(act.next)
            && worlds[i + 1].posts == worlds[i].posts + if act.posted then 1 else 0
    ensures worlds[i + 1].reused == worlds[i].reused
  {
    hide MusicStep, Effect;
  }

  /** The request is open, its own still, and the wallet holds what it reserved. */
  ghost predicate IsPending(k: Key, w: MusicWorld) {
    && IsMusic(OwnRow(w.db, k)) && OwnRow(w.db, k).value.status == PROCESSING && !w.reused
    && Solvent(w.db) && Holds(w.db, k.user, 0, OwnRow(w.db, k).value.estimated, 0)
  }

  /** What a thread passes is what the row has reserved. */
  lemma PassesEstimate(k: Key, w: MusicWorld, t: nat, credits: nat)
    requires MusicInOrder(k, w) && IsPending(k, w) && t in w.threads
    requires w.threads[t] in {MusicPc.Sending(credits), Rejecting(credits), Keeping(credits), Storing(credits),
                              MusicPc.Settling(credits)}
    ensures credits == OwnRow(w.db, k).value.estimated && UniqueKeys(w.db.rows)
  {
    assert MusicKnows(w.threads[t], OwnRow(w.db, k));
  }

  // ---- rejection -----------------------------------------------------------------------------

  /** The request is FAILED, and its user has the estimate back, with one RELEASE row. */
  ghost predicate GivenBack(k: Key, s: State, after: State)
    requires OwnRow(s, k).Some?
  {
    var (row, amount) := (OwnRow(s, k).value, OwnRow(s, k).value.estimated);
    && OwnRow(after, k).Some? && OwnId(after, k) == OwnId(s, k)
    && OwnRow(after, k).value.status == FAILED && SameOffer(row, OwnRow(after, k).value)
    && Moved(s, after, k.user, amount, -(amount as int), 0)
    && WalletOutcomes.Recorded(s, after, k.user, OwnId(s, k).value, [Line(RELEASE, amount)])
  }

  lemma RejectionIsWritten(k: Key, s: State)
    requires UniqueKeys(s.rows) && OwnRow(s, k).Some? && OwnRow(s, k).value.status == PROCESSING
    requires Solvent(s) && Holds(s, k.user, 0, OwnRow(s, k).value.estimated, 0)
    ensures GivenBack(k, s, After(s, RejectMusic(OwnId(s, k).value, OwnRow(s, k).value.estimated)))
  {
    hide Moved, WalletOutcomes.Recorded;
    var change := Effect(s, RejectMusic(OwnId(s, k).value, OwnRow(s, k).value.estimated)).change;
    PutMoves(s, change.id, change.row, change.money.value);
    OwnRowAfter(s, k, change);
  }

  /** A definite rejection of the generation request gives the reservation back: two steps later the
      request is FAILED and its user has the estimate back. */
  lemma RejectionGivesBack(k: Key, worlds: seq<MusicWorld>, events: seq<MusicEvent>, t: nat, n: nat, credits: nat)
    requires MusicRun(k, worlds, events) && n + 2 <= |events| && OnItsOwn(events, t, n, n + 2)
    requires n < |worlds| && MusicPcAt(worlds, t, n) == Some(MusicPc.Sending(credits)) && IsPending(k, worlds[n])
    requires events[n].choice.answer == Rejected
    ensures n + 2 < |worlds| && GivenBack(k, worlds[n].db, worlds[n + 2].db)
    ensures worlds[n + 2].posts == worlds[n].posts + 1
  {
    hide Effect, MusicRun, OnItsOwn, GivenBack, MusicInOrder, UniqueKeys;
    MusicLengths(k, worlds, events);
    MusicRunInOrder(k, worlds, events, n);
    PassesEstimate(k, worlds[n], t, credits);
    OwnMusicStep(k, worlds, events, t, n, n + 2, n);
    OwnMusicStep(k, worlds, events, t, n, n + 2, n + 1);
    RejectionIsWritten(k, worlds[n].db);
  }

  /** An uncertain answer gives nothing back and is not asked again: the request stays as it is. */
  lemma UncertainKeepsHold(k: Key, worlds: seq<MusicWorld>, events: seq<MusicEvent>, t: nat, n: nat, credits: nat)
    requires MusicRun(k, worlds, events) && n + 1 <= |events| && OnItsOwn(events, t, n, n + 1)
    requires n < |worlds| && MusicPcAt(worlds, t, n) == Some(MusicPc.Sending(credits))
    requires events[n].choice.answer == MusicAnswer.Uncertain
    ensures n + 1 < |worlds| && worlds[n + 1].db == worlds[n].db
    ensures MusicPcAt(worlds, t, n + 1) == Some(MusicPc.Finished) && worlds[n + 1].posts == worlds[n].posts + 1
  {
    hide Effect, MusicRun, OnItsOwn;
    MusicLengths(k, worlds, events);
    OwnMusicStep(k, worlds, events, t, n, n + 1, n);
  }

  // ---- charge --------------------------------------------------------------------------------

  /** The request is SUCCEEDED and charged what it reserved, with one negative CHARGE row. */
  ghost predicate Paid(k: Key, s: State, after: State)
    requires OwnRow(s, k).Some?
  {
    var (row, amount) := (OwnRow(s, k).value, OwnRow(s, k).value.estimated);
    && OwnRow(after, k).Some? && OwnId(after, k) == OwnId(s, k)
    && OwnRow(after, k).value.status == SUCCEEDED && OwnRow(after, k).value.charged == amount
    && SameOffer(row, OwnRow(after, k).value)
    && Moved(s, after, k.user, 0, -(amount as int), 0)
    && WalletOutcomes.Recorded(s, after, k.user, OwnId(s, k).value, [Line(CHARGE, -(amount as int))])
  }

  lemma ChargeIsWritten(k: Key, s: State)
    requires UniqueKeys(s.rows) && OwnRow(s, k).Some? && OwnRow(s, k).value.status == PROCESSING
    requires Solvent(s) && Holds(s, k.user, 0, OwnRow(s, k).value.estimated, 0) && !OwnRow(s, k).value.billed
    ensures Paid(k, s, After(s, SettleMusic(OwnId(s, k).value, OwnRow(s, k).value.estimated)))
  {
    hide Moved, WalletOutcomes.Recorded;
    var change := Effect(s, SettleMusic(OwnId(s, k).value, OwnRow(s, k).value.estimated)).change;
    PutMoves(s, change.id, change.row, change.money.value);
    OwnRowAfter(s, k, change);
  }

  /** Storing the receipt once more moves nothing. */
  ghost predicate Waits(k: Key, s: State, after: State)
    requires OwnRow(s, k).Some?
  {
    && OwnRow(after, k) == Some(OwnRow(s, k).value.(stored := MusicReceipt)) && OwnId(after, k) == OwnId(s, k)
    && after.purses == s.purses && after.ledger == s.ledger
  }

  lemma ReceiptIsWritten(k: Key, s: State)
    requires UniqueKeys(s.rows) && OwnRow(s, k).Some? && OwnRow(s, k).value.status == PROCESSING
    ensures Waits(k, s, After(s, KeepMusicReceipt(OwnId(s, k).value)))
  {
    OwnRowAfter(s, k, Effect(s, KeepMusicReceipt(OwnId(s, k).value)).change);
  }

  /** Each track is mirrored, the last one as the last. */
  predicate StoresAll(events: seq<MusicEvent>, n: nat, m: nat)
    requires m <= |events| && forall i :: n <= i < m ==> events[i].Run?
  {
    n < m && forall i :: n <= i < m ==> events[i].choice.stored && (events[i].choice.complete <==> i == m - 1)
  }

  lemma PendingStays(k: Key, w: MusicWorld, after: MusicWorld)
    requires IsPending(k, w) && Waits(k, w.db, after.db) && !after.reused
    ensures IsPending(k, after) && OwnRow(after.db, k).value.estimated == OwnRow(w.db, k).value.estimated
    ensures OwnRow(after.db, k).value.billed == OwnRow(w.db, k).value.billed
  {
  }

  lemma PaidLater(k: Key, s: State, t: State, after: State)
    requires OwnRow(s, k).Some? && Waits(k, s, t) && Paid(k, t, after)
    ensures Paid(k, s, after)
  {
  }

  /** Tracks m - n of them are stored one by one, and then the request is charged. */
  lemma {:induction false} StoredTracksAreCharged(k: Key, worlds: seq<MusicWorld>, events: seq<MusicEvent>, t: nat,
                                                  from: nat, n: nat, m: nat, credits: nat)
    requires MusicRun(k, worlds, events) && from <= n < m < |events| && OnItsOwn(events, t, from, m + 1)
    requires |worlds| == |events| + 1 && (forall i :: n <= i < m ==> events[i].Run?) && StoresAll(events, n, m)
    requires MusicPcAt(worlds, t, n) == Some(Storing(credits)) && IsPending(k, worlds[n])
    requires !MusicRowAt(k, worlds, n).value.billed
    ensures Paid(k, worlds[n].db, worlds[m + 1].db) && worlds[m + 1].posts == worlds[n].posts
    decreases m - n
  {
    hide Effect, MusicRun, OnItsOwn, Paid, Waits, MusicInOrder, UniqueKeys;
    MusicRunInOrder(k, worlds, events, n);
    PassesEstimate(k, worlds[n], t, credits);
    OwnMusicStep(k, worlds, events, t, from, m + 1, n);
    ReceiptIsWritten(k, worlds[n].db);
    PendingStays(k, worlds[n], worlds[n + 1]);
    if n + 1 < m {
      StoredTracksAreCharged(k, worlds, events, t, from, n + 1, m, credits);
    } else {
      MusicRunInOrder(k, worlds, events, n + 1);
      PassesEstimate(k, worlds[n + 1], t, credits);
      OwnMusicStep(k, worlds, events, t, from, m + 1, n + 1);
      ChargeIsWritten(k, worlds[n + 1].db);
    }
    PaidLater(k, worlds[n].db, worlds[n + 1].db, worlds[m + 1].db);
  }

  /** A generated result whose tracks are all stored is charged: the request is SUCCEEDED after the last. */
  lemma GenerationIsCharged(k: Key, worlds: seq<MusicWorld>, events: seq<MusicEvent>, t: nat, n: nat, m: nat,
                            credits: nat)
    requires MusicRun(k, worlds, events) && n + 2 < m < |events| && OnItsOwn(events, t, n, m + 1)
    requires n < |worlds| && MusicPcAt(worlds, t, n) == Some(MusicPc.Sending(credits)) && IsPending(k, worlds[n])
    requires !MusicRowAt(k, worlds, n).value.billed
    requires events[n].choice.answer == Generated && StoresAll(events, n + 2, m)
    ensures m + 1 < |worlds| && Paid(k, worlds[n].db, worlds[m + 1].db) && worlds[m + 1].posts == worlds[n].posts + 1
  {
    hide Effect, MusicRun, Paid, Waits, MusicInOrder, UniqueKeys;
    MusicLengths(k, worlds, events);
    MusicRunInOrder(k, worlds, events, n);
    PassesEstimate(k, worlds[n], t, credits);
    OwnMusicStep(k, worlds, events, t, n, m + 1, n);
    OwnMusicStep(k, worlds, events, t, n, m + 1, n + 1);
    ReceiptIsWritten(k, worlds[n].db);
    PendingStays(k, worlds[n], worlds[n + 2]);
    StoredTracksAreCharged(k, worlds, events, t, n, n + 2, m, credits);
    PaidLater(k, worlds[n].db, worlds[n + 2].db, worlds[m + 1].db);
  }

  /** A later recovery, or a retry of the submission, of a request whose receipt is stored finishes it from
      that receipt, without another generation request. */
  lemma RecoveryIsCharged(k: Key, worlds: seq<MusicWorld>, events: seq<MusicEvent>, t: nat, n: nat, m: nat)
    requires MusicRun(k, worlds, events) && n + 1 < m < |events| && OnItsOwn(events, t, n, m + 1)
    requires n < |worlds| && MusicPcAt(worlds, t, n).Some? && IsPending(k, worlds[n])
    requires MusicPcAt(worlds, t, n).value.Recalling? || MusicPcAt(worlds, t, n).value.Submitting?
    requires MusicRowAt(k, worlds, n).value.stored == MusicReceipt && !MusicRowAt(k, worlds, n).value.billed
    requires StoresAll(events, n + 1, m)
    ensures m + 1 < |worlds| && Paid(k, worlds[n].db, worlds[m + 1].db) && worlds[m + 1].posts == worlds[n].posts
  {
    hide Effect, MusicRun, Paid, MusicInOrder;
    MusicLengths(k, worlds, events);
    MusicRunInOrder(k, worlds, events, n);
    GenuinePending(k, worlds[n]);
    OwnMusicStep(k, worlds, events, t, n, m + 1, n);
    StoredTracksAreCharged(k, worlds, events, t, n, n + 1, m, MusicRowAt(k, worlds, n).value.snapshot.value.quoted);
  }

  lemma GenuinePending(k: Key, w: MusicWorld)
    requires MusicInOrder(k, w) && IsPending(k, w)
    ensures GenuineMusic(OwnRow(w.db, k).value) && UniqueKeys(w.db.rows)
  {
  }

  /** A track that could not be stored leaves the request open, with its receipt. */
  lemma UnstoredTrackWaits(k: Key, worlds: seq<MusicWorld>, events: seq<MusicEvent>, t: nat, n: nat, credits: nat)
    requires MusicRun(k, worlds, events) && n + 1 <= |events| && OnItsOwn(events, t, n, n + 1)
    requires n < |worlds| && MusicPcAt(worlds, t, n) == Some(Storing(credits)) && IsPending(k, worlds[n])
    requires !events[n].choice.stored
    ensures n + 1 < |worlds| && worlds[n + 1].db == worlds[n].db && IsPending(k, worlds[n + 1])
    ensures MusicRowAt(k, worlds, n).value.stored == MusicReceipt
  {
    hide Effect, MusicRun, OnItsOwn;
    MusicLengths(k, worlds, events);
    MusicRunInOrder(k, worlds, events, n);
    assert MusicKnows(worlds[n].threads[t], OwnRow(worlds[n].db, k));
    OwnMusicStep(k, worlds, events, t, n, n + 1, n);
  }

  // ---- submission ----------------------------------------------------------------------------

  /** A submission under an unused key that the wallet pays for reserves what its price snapshot quotes and
      sends one generation request. */
  lemma MusicIsSent(k: Key, worlds: seq<MusicWorld>, events: seq<MusicEvent>, t: nat, n: nat, snapshot: Snapshot)
    requires MusicRun(k, worlds, events) && n + 3 <= |events| && OnItsOwn(events, t, n, n + 3)
    requires n < |worlds| && MusicPcAt(worlds, t, n) == Some(MusicPc.Submitting(snapshot))
    requires MusicRowAt(k, worlds, n).None? && Solvent(worlds[n].db)
    requires Affords(worlds[n].db, k.user, snapshot.quoted)
    ensures n + 3 < |worlds| && worlds[n + 3].posts == worlds[n].posts + 1 == worlds[n + 2].posts + 1
    ensures var quoted: int := snapshot.quoted;
            && Moved(worlds[n].db, worlds[n + 2].db, k.user, -quoted, quoted, 0)
            && IsMusic(MusicRowAt(k, worlds, n + 2)) && MusicRowAt(k, worlds, n + 2).value.status == PROCESSING
            && MusicRowAt(k, worlds, n + 2).value.estimated == quoted
  {
    hide Effect, MusicRun, OnItsOwn, Moved, MusicInOrder, UniqueKeys, Solvent;
    MusicLengths(k, worlds, events);
    MusicRunInOrder(k, worlds, events, n);
    InOrderUnique(k, worlds[n]);
    OwnMusicStep(k, worlds, events, t, n, n + 3, n);
    OwnMusicStep(k, worlds, events, t, n, n + 3, n + 1);
    MusicReservationIsWritten(k, worlds[n].db, snapshot, events[n + 1].choice.now);
    OwnMusicStep(k, worlds, events, t, n, n + 3, n + 2);
  }

  lemma InOrderUnique(k: Key, w: MusicWorld)
    requires MusicInOrder(k, w)
    ensures UniqueKeys(w.db.rows)
  {
  }

  lemma MusicReservationIsWritten(k: Key, s: State, snapshot: Snapshot, now: int)
    requires UniqueKeys(s.rows) && Solvent(s) && OwnRow(s, k).None? && Affords(s, k.user, snapshot.quoted)
    ensures var call := ReserveMusic(k.user, k.client, snapshot, now);
            && Effect(s, call).outcome == Done
            && Moved(s, After(s, call), k.user, -(snapshot.quoted as int), snapshot.quoted, 0)
            && OwnRow(After(s, call), k) == Some(NewRow(k.user, k.client, AUDIO, PROCESSING, Some(snapshot),
                                                        snapshot.quoted, Nothing, now))
  {
    hide Moved, WalletOutcomes.Recorded;
    var change := Effect(s, ReserveMusic(k.user, k.client, snapshot, now)).change;
    PutMoves(s, change.id, change.row, change.money.value);
    OwnRowAfter(s, k, change);
  }
}
