/** One music request under any number of submissions and recoveries
    (src/modules/ai/music-service.ts): at most one generation request, one outcome, and every
    settlement or release passes exactly the reserved amount. */
module MusicProtocol {
  import opened JsonValues
  import opened Journals
  import opened Wallet
  import opened WalletBooks
  import opened WalletLedger
  import opened OperationProtocol
  import opened OperationSafety

  datatype MusicPc =
    | Submitting(snapshot: Snapshot)
    | Reserving(snapshot: Snapshot)
    | Sending(credits: nat)
    | Rejecting(credits: nat)
    | Keeping(credits: nat)
    | Recalling
    | Storing(credits: nat)
    | Settling(credits: nat)
    | Finished

  /** `Uncertain` is a lost connection, a timeout or a 5xx answer; `Rejected` a definite refusal. */
  datatype MusicAnswer = Generated | Rejected | Uncertain

  /** `stored` says that the next track was mirrored, `complete` that it was the last one. */
  datatype MusicChoice = MusicChoice(answer: MusicAnswer, stored: bool, complete: bool, lost: bool, now: int)

  datatype MusicAct = MusicAct(call: Option<Call>, next: MusicPc, posted: bool)

  function MusicRead(next: MusicPc): MusicAct {
    MusicAct(None, next, false)
  }

  /** A PROCESSING row with a receipt is finished from that receipt, never submitted again. */
  function Resume(row: Row): MusicPc {
    if row.capability == AUDIO && row.status == PROCESSING && row.stored == MusicReceipt && row.snapshot.Some?
    then Storing(row.snapshot.value.quoted) else Finished
  }

  function MusicStep(k: Key, s: State, pc: MusicPc, c: MusicChoice): MusicAct {
    var row := OwnRow(s, k);
    var id := if row.Some? then OwnId(s, k).value else 0;
    var act := match pc
      case Submitting(snapshot) => MusicRead(if row.Some? then Resume(row.value) else MusicPc.Reserving(snapshot))
      case Reserving(snapshot) =>
        var call := ReserveMusic(k.user, k.client, snapshot, c.now);
        MusicAct(Some(call), if Effect(s, call).outcome == Done then Sending(snapshot.quoted) else Finished, false)
      case Sending(credits) =>
        MusicAct(None, match c.answer
                       case Generated => Keeping(credits)
                       case Rejected => Rejecting(credits)
                       case Uncertain => Finished, true)
      case Rejecting(credits) => MusicAct(Some(RejectMusic(id, credits)), Finished, false)
      case Keeping(credits) => MusicAct(Some(KeepMusicReceipt(id)), Storing(credits), false)
      case Recalling => MusicRead(if row.Some? then Resume(row.value) else Finished)
      case Storing(credits) =>
        if !c.stored then MusicRead(Finished)
        else
          var next := if c.complete then MusicPc.Settling(credits) else Storing(credits);
          MusicAct(Some(KeepMusicReceipt(id)), next, false)
      case Settling(credits) => MusicAct(Some(SettleMusic(id, credits)), Finished, false)
      case Finished => MusicRead(Finished);
    if c.lost then act.(next := Finished) else act
  }

  /** `reused` says that a video request under the same id has taken over the row. */
  datatype MusicWorld = MusicWorld(db: State, threads: map<nat, MusicPc>, posts: nat, reused: bool)

  datatype MusicEvent =
    | Spawn(thread: nat, pc: MusicPc)
    | Run(thread: nat, choice: MusicChoice)
    | Crash(thread: nat)
    | Elsewhere(call: Call)

  predicate IsMusic(row: Option<Row>) {
    row.Some? && row.value.capability == AUDIO
  }

  /** Transactions of every other entry point. They may use the same key. A path that names a row by its
      id got the id from its own reservation or checked the capability, so it does not name a music row
      unless a video request has taken that over; the release by client id asks for neither. */
  predicate MusicForeign(k: Key, w: MusicWorld, call: Call) {
    && (call.ReserveMusic? ==> call.user != k.user || call.client != k.client)
    && (NamesRow(call) || (OperationCall(call) && !call.ReserveOperation?) ==>
          OwnId(w.db, k) == Some(call.id) ==> !IsMusic(OwnRow(w.db, k)) || w.reused)
  }

  predicate MusicAllowed(k: Key, w: MusicWorld, e: MusicEvent) {
    match e
    case Spawn(thread, pc) => thread !in w.threads && (pc.Submitting? || pc.Recalling?)
    case Run(thread, _) => thread in w.threads
    case Crash(thread) => thread in w.threads
    case Elsewhere(call) => MusicForeign(k, w, call)
  }

  function MusicNext(k: Key, w: MusicWorld, e: MusicEvent): MusicWorld
    requires MusicAllowed(k, w, e)
  {
    match e
    case Spawn(thread, pc) => w.(threads := w.threads[thread := pc])
    case Crash(thread) => w.(threads := w.threads - {thread})
    case Elsewhere(call) => w.(db := After(w.db, call), reused := w.reused || TakesOver(k, w.db, call))
    case Run(thread, choice) =>
      var act := MusicStep(k, w.db, w.threads[thread], choice);
      w.(db := Committed(w.db, act.call), threads := w.threads[thread := act.next],
         posts := w.posts + if act.posted then 1 else 0)
  }

  // ---- invariant -----------------------------------------------------------------------------

  /** A music row reserves exactly what its snapshot quotes and is open, settled or rejected. */
  predicate GenuineMusic(row: Row) {
    row.capability == AUDIO ==>
      && row.snapshot.Some? && row.snapshot.value.quoted == row.estimated
      && (row.status == PROCESSING || row.status == SUCCEEDED || row.status == FAILED)
      && (row.status == PROCESSING ==> row.stored == Nothing || row.stored == MusicReceipt)
      && (row.status == SUCCEEDED ==> row.charged == row.estimated)
  }

  ghost predicate MusicMoves(x: Option<Row>, y: Option<Row>) {
    && (x.Some? ==> y.Some?)
    && (x.Some? ==> IsMusic(x) == IsMusic(y))
    && (x.None? && IsMusic(y) ==> y.value.status == PROCESSING)
    && (IsMusic(x) ==>
          && y.value.estimated == x.value.estimated
          && (x.value.status != PROCESSING ==> y == x)
          && (x.value.stored == MusicReceipt && y.value.status == PROCESSING ==> y.value.stored == MusicReceipt)
          && (x.value.status == PROCESSING && y.value.status == SUCCEEDED ==> x.value.stored == MusicReceipt))
  }

  predicate MusicKnows(pc: MusicPc, row: Option<Row>) {
    match pc
    case Sending(credits) => IsMusic(row) && credits == row.value.estimated
    case Rejecting(credits) => IsMusic(row) && credits == row.value.estimated
    case Keeping(credits) => IsMusic(row) && credits == row.value.estimated
    case Storing(credits) =>
      && IsMusic(row) && credits == row.value.estimated
      && (row.value.status == PROCESSING ==> row.value.stored == MusicReceipt)
    case Settling(credits) =>
      && IsMusic(row) && credits == row.value.estimated
      && (row.value.status == PROCESSING ==> row.value.stored == MusicReceipt)
    case _ => true
  }

  /** Every thread knows what the row is, as long as it is this request's. */
  ghost predicate MusicRowInOrder(k: Key, w: MusicWorld) {
    && (OwnRow(w.db, k).Some? ==> GenuineMusic(OwnRow(w.db, k).value))
    && (forall t :: t in w.threads ==> MusicKnows(w.threads[t], OwnRow(w.db, k)))
  }

  ghost predicate MusicPostsInOrder(k: Key, w: MusicWorld) {
    && w.posts <= 1
    && (forall a, b :: a in w.threads && b in w.threads && w.threads[a].Sending? && w.threads[b].Sending? ==> a == b)
    && (forall a :: a in w.threads && w.threads[a].Sending? ==> w.posts == 0 && IsMusic(OwnRow(w.db, k)))
    && (w.posts == 1 ==> IsMusic(OwnRow(w.db, k)))
  }

  ghost predicate MusicInOrder(k: Key, w: MusicWorld) {
    UniqueKeys(w.db.rows) && MusicPostsInOrder(k, w) && (w.reused || MusicRowInOrder(k, w))
  }

  lemma MusicKnowledgeIsStable(pc: MusicPc, x: Option<Row>, y: Option<Row>)
    requires MusicKnows(pc, x) && MusicMoves(x, y) && (x.Some? ==> GenuineMusic(x.value))
    ensures MusicKnows(pc, y)
  {
  }

  /** What a step of a music thread is to leave. */
  ghost predicate MusicActsWell(k: Key, s: State, act: MusicAct) {
    var row := OwnRow(Committed(s, act.call), k);
    && MusicMoves(OwnRow(s, k), row)
    && (row.Some? ==> GenuineMusic(row.value))
    && MusicKnows(act.next, row)
    && (act.call.Some? ==> Exact(s, act.call.value))
  }

  lemma MusicReadMoves(k: Key, s: State, pc: MusicPc, c: MusicChoice)
    requires MusicKnows(pc, OwnRow(s, k)) && MusicStep(k, s, pc, c).call.None?
    requires OwnRow(s, k).Some? ==> GenuineMusic(OwnRow(s, k).value)
    ensures MusicActsWell(k, s, MusicStep(k, s, pc, c))
  {
    hide Effect, Find;
  }

  lemma MusicReserveMoves(k: Key, s: State, pc: MusicPc, c: MusicChoice)
    requires UniqueKeys(s.rows) && pc.Reserving?
    requires OwnRow(s, k).Some? ==> GenuineMusic(OwnRow(s, k).value)
    ensures MusicActsWell(k, s, MusicStep(k, s, pc, c))
  {
    hide Effect;
    var call := ReserveMusic(k.user, k.client, pc.snapshot, c.now);
    ReservedMusic(s, k, pc.snapshot, c.now);
    OwnRowAfter(s, k, Effect(s, call).change);
  }

  lemma MusicSettleMoves(k: Key, s: State, pc: MusicPc, c: MusicChoice)
    requires UniqueKeys(s.rows) && MusicKnows(pc, OwnRow(s, k)) && pc.Settling?
    requires OwnRow(s, k).Some? ==> GenuineMusic(OwnRow(s, k).value)
    ensures MusicActsWell(k, s, MusicStep(k, s, pc, c))
  {
    OwnRowAfter(s, k, Effect(s, SettleMusic(OwnId(s, k).value, pc.credits)).change);
  }

  lemma MusicRejectMoves(k: Key, s: State, pc: MusicPc, c: MusicChoice)
    requires UniqueKeys(s.rows) && MusicKnows(pc, OwnRow(s, k)) && pc.Rejecting?
    requires OwnRow(s, k).Some? ==> GenuineMusic(OwnRow(s, k).value)
    ensures MusicActsWell(k, s, MusicStep(k, s, pc, c))
  {
    OwnRowAfter(s, k, Effect(s, RejectMusic(OwnId(s, k).value, pc.credits)).change);
  }

  lemma MusicKeepMoves(k: Key, s: State, pc: MusicPc, c: MusicChoice)
    requires UniqueKeys(s.rows) && MusicKnows(pc, OwnRow(s, k)) && (pc.Keeping? || (pc.Storing? && c.stored))
    requires OwnRow(s, k).Some? ==> GenuineMusic(OwnRow(s, k).value)
    ensures MusicActsWell(k, s, MusicStep(k, s, pc, c))
  {
    OwnRowAfter(s, k, Effect(s, KeepMusicReceipt(OwnId(s, k).value)).change);
  }

  /** Every call of a music thread moves the row as allowed and passes the reserved amount. */
  lemma MusicThreadMoves(k: Key, s: State, pc: MusicPc, c: MusicChoice)
    requires UniqueKeys(s.rows) && MusicKnows(pc, OwnRow(s, k))
    requires OwnRow(s, k).Some? ==> GenuineMusic(OwnRow(s, k).value)
    ensures MusicActsWell(k, s, MusicStep(k, s, pc, c))
  {
    hide MusicActsWell, MusicKnows, GenuineMusic, Effect;
    if pc.Reserving? {
      MusicReserveMoves(k, s, pc, c);
    } else if pc.Settling? {
      MusicSettleMoves(k, s, pc, c);
    } else if pc.Rejecting? {
      MusicRejectMoves(k, s, pc, c);
    } else if pc.Keeping? || (pc.Storing? && c.stored) {
      MusicKeepMoves(k, s, pc, c);
    } else {
      MusicReadMoves(k, s, pc, c);
    }
  }

  lemma ReleasedMusic(row: Row)
    requires GenuineMusic(row) && Active(row)
    ensures var released := row.(status := FAILED, completed := true);
            MusicMoves(Some(row), Some(released)) && GenuineMusic(released)
  {
  }

  lemma MusicForeignMoves(k: Key, w: MusicWorld, call: Call)
    requires UniqueKeys(w.db.rows) && MusicForeign(k, w, call) && !w.reused && !TakesOver(k, w.db, call)
    requires OwnRow(w.db, k).Some? ==> GenuineMusic(OwnRow(w.db, k).value)
    ensures IsMusic(OwnRow(w.db, k)) && Touches(k, Effect(w.db, call).change) ==> call.ReleaseChat?
    ensures Touches(k, Effect(w.db, call).change) && !IsMusic(OwnRow(w.db, k)) ==>
              Effect(w.db, call).change.row.capability != AUDIO
  {
    hide Effect, GenuineMusic, TakesOver;
    var change := Effect(w.db, call).change;
    OwnRowAfter(w.db, k, change);
    if Touches(k, change) {
      if call.ReserveVideo? && call.user == k.user && call.client == k.client && OwnRow(w.db, k).Some? {
        TakeoverWritten(k, w.db, call);
      } else if NamesRow(call) || call.ReleaseChat? || (OperationCall(call) && !call.ReserveOperation?) {
        NamedRowIsWritten(w.db, call);
        CapabilityKept(w.db, call);
      } else if NamesKey(call) {
        NamedKeyIsTouched(k, w.db, call);
        NamedKeyEffect(w.db, call);
      } else if call.Sweep? {
        SweptRow(k, w.db, call);
      } else {
        WalletTouchesNothing(w.db, call);
      }
    }
  }

  /** No transaction changes what a request is for. */
  lemma CapabilityKept(s: State, call: Call)
    requires Effect(s, call).change.Put? && Effect(s, call).change.id < |s.rows|
    ensures Effect(s, call).change.row.capability == s.rows[Effect(s, call).change.id].capability
  {
    hide Effect;
    if Settles(call) {
      SettlementKeepsCapability(s, call);
    } else if Reserves(call) {
      ReservationKeepsCapability(s, call);
    } else {
      OtherKeepsCapability(s, call);
    }
  }

  lemma SettlementKeepsCapability(s: State, call: Call)
    requires Settles(call) && Effect(s, call).change.Put?
    ensures Effect(s, call).change.row.capability == s.rows[Effect(s, call).change.id].capability
  {
    hide OperationSnapshot, SameRequest, Takes, Charging, ChargingReserved, ChargingTasks, ChargingExtra, ChargingMusic;
  }

  lemma ReservationKeepsCapability(s: State, call: Call)
    requires Reserves(call) && Effect(s, call).change.Put? && Effect(s, call).change.id < |s.rows|
    ensures Effect(s, call).change.row.capability == s.rows[Effect(s, call).change.id].capability
  {
    hide OperationSnapshot, SameRequest;
  }

  lemma OtherKeepsCapability(s: State, call: Call)
    requires !Settles(call) && !Reserves(call) && Effect(s, call).change.Put?
    ensures Effect(s, call).change.row.capability == s.rows[Effect(s, call).change.id].capability
  {
  }

  lemma MusicStays(k: Key, s: State, call: Call)
    requires UniqueKeys(s.rows) && IsMusic(OwnRow(s, k))
    ensures IsMusic(OwnRow(After(s, call), k))
  {
    hide Effect;
    OwnRowAfter(s, k, Effect(s, call).change);
    if Touches(k, Effect(s, call).change) {
      CapabilityKept(s, call);
    }
  }

  lemma UniqueAfter(k: Key, s: State, call: Call)
    requires UniqueKeys(s.rows)
    ensures UniqueKeys(After(s, call).rows)
  {
    hide Effect;
    OwnRowAfter(s, k, Effect(s, call).change);
  }

  lemma MusicNextMoves(k: Key, w: MusicWorld, e: MusicEvent)
    requires MusicInOrder(k, w) && MusicAllowed(k, w, e) && !MusicNext(k, w, e).reused
    ensures var after := MusicNext(k, w, e);
            && MusicMoves(OwnRow(w.db, k), OwnRow(after.db, k))
            && (OwnRow(after.db, k).Some? ==> GenuineMusic(OwnRow(after.db, k).value))
  {
    hide Effect, MusicStep, MusicKnows;
    match e
    case Run(thread, choice) => MusicThreadMoves(k, w.db, w.threads[thread], choice);
    case Elsewhere(call) =>
      var change := Effect(w.db, call).change;
      MusicForeignMoves(k, w, call);
      OwnRowAfter(w.db, k, change);
      if Touches(k, change) && IsMusic(OwnRow(w.db, k)) {
        ReleasedRow(w.db, call);
        ReleasedMusic(w.db.rows[call.id]);
      }
    case _ =>
  }

  lemma MusicNextKnows(k: Key, w: MusicWorld, e: MusicEvent)
    requires MusicInOrder(k, w) && MusicAllowed(k, w, e) && !MusicNext(k, w, e).reused
    ensures MusicRowInOrder(k, MusicNext(k, w, e))
  {
    hide Effect, MusicStep, MusicMoves, GenuineMusic, MusicPostsInOrder;
    var after := MusicNext(k, w, e);
    MusicNextMoves(k, w, e);
    if e.Run? {
      MusicThreadMoves(k, w.db, w.threads[e.thread], e.choice);
    }
    forall t | t in after.threads
      ensures MusicKnows(after.threads[t], OwnRow(after.db, k))
    {
      if t in w.threads && !(e.Run? && e.thread == t) {
        MusicKnowledgeIsStable(w.threads[t], OwnRow(w.db, k), OwnRow(after.db, k));
      }
    }
  }

  /** A thread sends its request once, and only the thread whose reservation found no row sends one. */
  lemma MusicStepPosts(k: Key, s: State, pc: MusicPc, c: MusicChoice)
    requires UniqueKeys(s.rows)
    ensures var act := MusicStep(k, s, pc, c);
            && (act.posted ==> pc.Sending? && !act.next.Sending? && act.call.None?)
            && (act.next.Sending? ==>
                  pc.Reserving? && OwnRow(s, k).None? && IsMusic(OwnRow(Committed(s, act.call), k)))
  {
    hide Effect;
    if pc.Reserving? {
      var call := ReserveMusic(k.user, k.client, pc.snapshot, c.now);
      ReservedMusic(s, k, pc.snapshot, c.now);
      OwnRowAfter(s, k, Effect(s, call).change);
    }
  }

  lemma ReservedMusic(s: State, k: Key, snapshot: Snapshot, now: int)
    ensures var verdict := Effect(s, ReserveMusic(k.user, k.client, snapshot, now));
            if verdict.outcome != Done then verdict.change == Keep
            else
              && OwnRow(s, k).None? && Touches(k, verdict.change)
              && verdict.change.row == NewRow(k.user, k.client, AUDIO, PROCESSING, Some(snapshot), snapshot.quoted,
                                              Nothing, now)
  {
  }

  lemma MusicPosts(k: Key, w: MusicWorld, e: MusicEvent)
    requires UniqueKeys(w.db.rows) && MusicPostsInOrder(k, w) && MusicAllowed(k, w, e)
    ensures MusicPostsInOrder(k, MusicNext(k, w, e)) && UniqueKeys(MusicNext(k, w, e).db.rows)
  {
    hide Effect, MusicStep, UniqueKeys, MusicForeign, OwnRow;
    match e
    case Elsewhere(call) =>
      UniqueAfter(k, w.db, call);
      if IsMusic(OwnRow(w.db, k)) {
        MusicStays(k, w.db, call);
      }
    case Run(thread, choice) =>
      var act := MusicStep(k, w.db, w.threads[thread], choice);
      MusicStepPosts(k, w.db, w.threads[thread], choice);
      if act.call.Some? {
        UniqueAfter(k, w.db, act.call.value);
        if IsMusic(OwnRow(w.db, k)) {
          MusicStays(k, w.db, act.call.value);
        }
      }
    case _ =>
  }

  lemma MusicNextInOrder(k: Key, w: MusicWorld, e: MusicEvent)
    requires MusicInOrder(k, w) && MusicAllowed(k, w, e)
    ensures MusicInOrder(k, MusicNext(k, w, e))
  {
    hide Effect, MusicStep, MusicRowInOrder, MusicPostsInOrder, UniqueKeys;
    MusicPosts(k, w, e);
    if !MusicNext(k, w, e).reused {
      MusicNextKnows(k, w, e);
    }
  }

  // ---- every run -----------------------------------------------------------------------------

  ghost predicate MusicRun(k: Key, worlds: seq<MusicWorld>, events: seq<MusicEvent>) {
    && |worlds| == |events| + 1
    && UniqueKeys(worlds[0].db.rows) && OwnRow(worlds[0].db, k).None?
    && worlds[0].threads == map[] && worlds[0].posts == 0 && !worlds[0].reused
    && forall i :: 0 <= i < |events| ==>
         MusicAllowed(k, worlds[i], events[i]) && worlds[i + 1] == MusicNext(k, worlds[i], events[i])
  }

  lemma {:induction false} MusicRunInOrder(k: Key, worlds: seq<MusicWorld>, events: seq<MusicEvent>, i: nat)
    requires MusicRun(k, worlds, events) && i < |worlds|
    ensures MusicInOrder(k, worlds[i])
  {
    hide MusicNext, MusicAllowed;
    if i > 0 {
      MusicRunInOrder(k, worlds, events, i - 1);
      MusicNextInOrder(k, worlds[i - 1], events[i - 1]);
    }
  }

  /** Over every run at most one generation request is sent, and a settled row charged exactly
      what it had reserved unless a video request took it over. */
  lemma AtMostOneMusicPost(k: Key, worlds: seq<MusicWorld>, events: seq<MusicEvent>, i: nat)
    requires MusicRun(k, worlds, events) && i < |worlds|
    ensures worlds[i].posts <= 1
    ensures worlds[i].posts == 1 ==> IsMusic(OwnRow(worlds[i].db, k))
    ensures !worlds[i].reused && IsMusic(OwnRow(worlds[i].db, k))
            && OwnRow(worlds[i].db, k).value.status == SUCCEEDED ==>
              OwnRow(worlds[i].db, k).value.charged == OwnRow(worlds[i].db, k).value.estimated
  {
    MusicRunInOrder(k, worlds, events, i);
  }

  lemma NotReusedYet(k: Key, w: MusicWorld, e: MusicEvent)
    requires MusicAllowed(k, w, e) && !MusicNext(k, w, e).reused
    ensures !w.reused
  {
    hide MusicStep;
  }

  /** A finished music request stays as it is, and it succeeds only after its audio receipt was
      stored: there is an earlier moment at which it was open and held the receipt. */
  lemma {:induction false} MusicOutcome(k: Key, worlds: seq<MusicWorld>, events: seq<MusicEvent>, j: nat)
      returns (i: nat)
    requires MusicRun(k, worlds, events) && j < |worlds|
    requires IsMusic(OwnRow(worlds[j].db, k)) && OwnRow(worlds[j].db, k).value.status == SUCCEEDED
    requires !worlds[j].reused
    ensures i < j
    ensures IsMusic(OwnRow(worlds[i].db, k)) && OwnRow(worlds[i].db, k).value.status == PROCESSING
    ensures OwnRow(worlds[i].db, k).value.stored == MusicReceipt
    ensures OwnRow(worlds[i + 1].db, k) == OwnRow(worlds[j].db, k)
  {
    hide MusicNext, MusicAllowed;
    i := j - 1;
    MusicRunInOrder(k, worlds, events, i);
    NotReusedYet(k, worlds[i], events[i]);
    MusicNextMoves(k, worlds[i], events[i]);
    if OwnRow(worlds[i].db, k).value.status != PROCESSING {
      i := MusicOutcome(k, worlds, events, i);
    }
  }

  /** The amounts music passes are exact until a video request takes over the row, and so music keeps
      the wallet books; from then on they have to be exact by themselves. */
  lemma {:induction false} MusicRunBalanced(k: Key, worlds: seq<MusicWorld>, events: seq<MusicEvent>,
                                            opening: map<string, int>, i: nat)
    requires MusicRun(k, worlds, events) && Books(worlds[0].db, opening) && i < |worlds|
    requires forall n :: 0 <= n < |events| && events[n].Elsewhere? ==> Exact(worlds[n].db, events[n].call)
    requires forall n :: 0 <= n < |events| && events[n].Run? && worlds[n].reused ==> ExactStep(k, worlds[n], events[n])
    ensures Books(worlds[i].db, opening)
  {
    hide Books, Effect, MusicStep, MusicMoves, MusicInOrder;
    if i > 0 {
      MusicRunBalanced(k, worlds, events, opening, i - 1);
      MusicRunInOrder(k, worlds, events, i - 1);
      var w, e := worlds[i - 1], events[i - 1];
      match e
      case Elsewhere(call) => CallKeepsBooks(w.db, opening, call);
      case Run(thread, choice) =>
        if !w.reused {
          MusicCallExact(k, w, e);
        }
        var act := MusicStep(k, w.db, w.threads[thread], choice);
        if act.call.Some? {
          CallKeepsBooks(w.db, opening, act.call.value);
        }
      case _ =>
    }
  }

  predicate ExactStep(k: Key, w: MusicWorld, e: MusicEvent)
    requires e.Run? && e.thread in w.threads
  {
    var act := MusicStep(k, w.db, w.threads[e.thread], e.choice);
    act.call.Some? ==> Exact(w.db, act.call.value)
  }

  lemma MusicCallExact(k: Key, w: MusicWorld, e: MusicEvent)
    requires MusicInOrder(k, w) && MusicAllowed(k, w, e) && e.Run? && !w.reused
    ensures ExactStep(k, w, e)
  {
    hide Effect, MusicStep;
    MusicThreadMoves(k, w.db, w.threads[e.thread], e.choice);
  }

  /** A thread that has something to keep, store, settle or reject acts on a music row, even when a video
      request has taken that over. */
  predicate OnMusic(k: Key, s: State, pc: MusicPc) {
    pc.Sending? || pc.Rejecting? || pc.Keeping? || pc.Storing? || pc.Settling? ==> IsMusic(OwnRow(s, k))
  }

  lemma StepOnMusic(k: Key, s: State, pc: MusicPc, c: MusicChoice)
    requires UniqueKeys(s.rows) && OnMusic(k, s, pc)
    ensures var act := MusicStep(k, s, pc, c); OnMusic(k, Committed(s, act.call), act.next)
  {
    hide Effect;
    var act := MusicStep(k, s, pc, c);
    MusicStepPosts(k, s, pc, c);
    if IsMusic(OwnRow(s, k)) && act.call.Some? {
      MusicStays(k, s, act.call.value);
    }
  }

  lemma NextOnMusic(k: Key, w: MusicWorld, e: MusicEvent)
    requires UniqueKeys(w.db.rows) && MusicAllowed(k, w, e)
    requires forall t :: t in w.threads ==> OnMusic(k, w.db, w.threads[t])
    ensures var after := MusicNext(k, w, e); forall t :: t in after.threads ==> OnMusic(k, after.db, after.threads[t])
  {
    hide Effect, MusicStep, UniqueKeys, MusicForeign, OwnRow;
    match e
    case Elsewhere(call) =>
      if IsMusic(OwnRow(w.db, k)) {
        MusicStays(k, w.db, call);
      }
    case Run(thread, choice) =>
      var act := MusicStep(k, w.db, w.threads[thread], choice);
      StepOnMusic(k, w.db, w.threads[thread], choice);
      if IsMusic(OwnRow(w.db, k)) && act.call.Some? {
        MusicStays(k, w.db, act.call.value);
      }
    case _ =>
  }

  lemma {:induction false} ThreadsOnMusic(k: Key, worlds: seq<MusicWorld>, events: seq<MusicEvent>, i: nat)
    requires MusicRun(k, worlds, events) && i < |worlds|
    ensures forall t :: t in worlds[i].threads ==> OnMusic(k, worlds[i].db, worlds[i].threads[t])
  {
    hide MusicNext, MusicAllowed, OnMusic;
    if i > 0 {
      ThreadsOnMusic(k, worlds, events, i - 1);
      MusicRunInOrder(k, worlds, events, i - 1);
      NextOnMusic(k, worlds[i - 1], events[i - 1]);
    }
  }

  lemma StepSettlesMusic(k: Key, s: State, pc: MusicPc, c: MusicChoice)
    requires OnMusic(k, s, pc)
    ensures var act := MusicStep(k, s, pc, c); act.call.Some? ==> SettlesMusicOnly(s, act.call.value)
  {
    hide Effect;
  }

  /** Music settles music rows only, after a video takeover, too, so that consumption goes on covering
      what was charged and no refund of a settled video is refused. */
  lemma {:induction false} MusicRunSpends(k: Key, worlds: seq<MusicWorld>, events: seq<MusicEvent>, i: nat)
    requires MusicRun(k, worlds, events) && Spending(worlds[0].db) && i < |worlds|
    requires forall n :: 0 <= n < |events| && events[n].Elsewhere? ==> SettlesMusicOnly(worlds[n].db, events[n].call)
    ensures Spending(worlds[i].db)
  {
    hide Spending, SettlesMusicOnly, Effect, MusicStep, OnMusic;
    if i > 0 {
      MusicRunSpends(k, worlds, events, i - 1);
      ThreadsOnMusic(k, worlds, events, i - 1);
      var w, e := worlds[i - 1], events[i - 1];
      match e
      case Elsewhere(call) => CallSpends(w.db, call);
      case Run(thread, choice) =>
        StepSettlesMusic(k, w.db, w.threads[thread], choice);
        var act := MusicStep(k, w.db, w.threads[thread], choice);
        if act.call.Some? {
          CallSpends(w.db, act.call.value);
        }
      case _ =>
    }
  }

  /** The settlement of a thread that was overtaken by a release and a video request: the books fail
      exactly when the video holds another amount, and the wallet holds as much as the music cost. */
  lemma LateMusicSettlement(s: State, opening: map<string, int>, id: nat, credits: nat)
    requires Books(s, opening) && id < |s.rows| && s.rows[id].status == PROCESSING && !s.rows[id].billed
    ensures !Books(After(s, SettleMusic(id, credits)), opening)
       <==> credits != s.rows[id].estimated && credits <= s.purses[s.rows[id].user].reserved
  {
    hide Books;
    BooksCover(s, opening);
    CallKeepsBooks(s, opening, SettleMusic(id, credits));
  }
}
