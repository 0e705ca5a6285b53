/** When the reservation of an image operation is refunded: only after a definite rejection of its
    generation request or a terminal failure of its own task, unless somebody releases it by its client
    id (image-operation-wallet.ts, image-operation-service.ts, service.ts). */
module OperationRefunds {
  import opened JsonValues
  import opened TaskMetadata
  import opened Journals
  import opened Wallet
  import opened OperationProtocol
  import opened OperationSafety
  import opened OperationHistory

  // ---- what the provider said ----------------------------------------------------------------

  /** The generation request was answered with a status that says it was not accepted. */
  predicate Rejects(pc: Pc, c: Choice) {
    && pc.Posting? && c.fault == NoFault && c.answer.HttpError?
    && c.answer.status.Some? && c.answer.status.value in REJECTIONS
  }

  /** The answer of a task that has failed, to the generation request or to a later reading. */
  predicate Fails(p: Policy, pc: Pc, c: Choice, taskId: Option<string>) {
    && (pc.Posting? || pc.Fetching?) && c.fault == NoFault && c.answer.Response?
    && var next := Interpret(p, pc.base, c.answer.reading);
       next.Some? && Stopped(next.value.status) && next.value.taskId == taskId
  }

  /** The thread is on its way to a refund because the request was rejected. */
  predicate ForRejection(pc: Pc) {
    (pc.Recovering? && pc.rejected) || (pc.Refunding? && pc.rejection)
  }

  function GoalOf(pc: Pc): Option<Goal> {
    match pc
    case SaveReading(_, _, _, goal) => Some(goal)
    case SaveWriting(_, _, _, goal, _) => Some(goal)
    case SaveLost(_, _, goal) => Some(goal)
    case _ => None
  }

  /** The thread is on its way to a refund because this task has failed. */
  predicate ForFailure(pc: Pc, taskId: Option<string>) {
    || (pc.Refunding? && !pc.rejection && pc.failed.taskId == taskId)
    || (GoalOf(pc).Some? && GoalOf(pc).value.ThenJudge?
        && Stopped(GoalOf(pc).value.next.status) && GoalOf(pc).value.next.taskId == taskId)
  }

  // ---- one step ------------------------------------------------------------------------------

  lemma AnsweredReasons(p: Policy, k: Key, s: State, pc: Pc, c: Choice)
    requires pc.Posting? || pc.Fetching?
    ensures var next := Step(p, k, s, pc, c).next;
            && (ForRejection(next) ==> Rejects(pc, c))
            && (forall taskId :: ForFailure(next, taskId) ==> Fails(p, pc, c, taskId))
  {
    hide Interpret, Find;
  }

  lemma SavingReasons(p: Policy, k: Key, s: State, pc: Pc, c: Choice)
    requires GoalOf(pc).Some?
    ensures var next := Step(p, k, s, pc, c).next;
            !ForRejection(next) && forall taskId :: ForFailure(next, taskId) ==> ForFailure(pc, taskId)
  {
    hide Effect, RowJournal, Find, MergeJournal, OrElse;
  }

  lemma OtherReasons(p: Policy, k: Key, s: State, pc: Pc, c: Choice)
    requires !pc.Posting? && !pc.Fetching? && GoalOf(pc).None?
    ensures var next := Step(p, k, s, pc, c).next;
            && (ForRejection(next) ==> ForRejection(pc))
            && (forall taskId :: ForFailure(next, taskId) ==> ForFailure(pc, taskId))
  {
    hide Effect, RowJournal, Find, WithDimensions;
  }

  /** A thread turns towards a refund only at an answer of the provider. */
  lemma StepReasons(p: Policy, k: Key, s: State, pc: Pc, c: Choice)
    ensures var next := Step(p, k, s, pc, c).next;
            && (ForRejection(next) ==> ForRejection(pc) || Rejects(pc, c))
            && (forall taskId :: ForFailure(next, taskId) ==> ForFailure(pc, taskId) || Fails(p, pc, c, taskId))
  {
    hide Step, Fails, ForFailure, ForRejection, Rejects;
    if pc.Posting? || pc.Fetching? {
      AnsweredReasons(p, k, s, pc, c);
    } else if GoalOf(pc).Some? {
      SavingReasons(p, k, s, pc, c);
    } else {
      OtherReasons(p, k, s, pc, c);
    }
  }

  /** Only a refunding thread fails the receipt. */
  lemma RefundingStep(p: Policy, k: Key, s: State, pc: Pc, c: Choice)
    requires RowInOrder(s, k) && Knows(pc, OwnRow(s, k))
    requires IsOperation(OwnRow(s, k)) && Active(OwnRow(s, k).value)
    requires var after := OwnRow(Committed(s, Step(p, k, s, pc, c).call), k);
             IsOperation(after) && after.value.status == FAILED
    ensures pc.Refunding?
    ensures StoredJournal(OwnRow(s, k)).taskId == if pc.rejection then None else pc.failed.taskId
  {
    hide Effect, RowInOrder, Interpret, RowJournal, Knows;
    var call := Advance(p, k, s, pc, c).call;
    assert call.Some?;
    OrderedRow(s, k);
    ThreadCalls(p, k, s, pc, c);
    FailingCall(s, call.value);
    OwnRowAfter(s, k, Effect(s, call.value).change);
    RefundingKnows(pc, OwnRow(s, k));
    if pc.rejection && StoredJournal(OwnRow(s, k)).taskId.Some? {
      RefundCannotEraseReceipt(s, k, pc.failed);
    }
  }

  lemma FailingCall(s: State, call: Call)
    requires OperationCall(call)
    ensures var change := Effect(s, call).change;
            change.Put? && change.row.status == FAILED && !call.ReleaseOperation? ==>
              change.id < |s.rows| && s.rows[change.id].status == FAILED
  {
  }

  lemma RefundingKnows(pc: Pc, row: Option<Row>)
    requires Knows(pc, row) && pc.Refunding? && IsOperation(row)
    ensures if pc.rejection then pc.failed.taskId.None? else pc.failed.taskId == StoredJournal(row).taskId
  {
  }

  // ---- whole runs ----------------------------------------------------------------------------

  predicate RejectedAt(worlds: seq<World>, events: seq<Event>, t: nat, m: nat)
    requires m < |worlds| && m < |events|
  {
    events[m].Run? && events[m].thread == t && t in worlds[m].threads && Rejects(worlds[m].threads[t], events[m].choice)
  }

  predicate FailedAt(p: Policy, worlds: seq<World>, events: seq<Event>, t: nat, taskId: Option<string>, m: nat)
    requires m < |worlds| && m < |events|
  {
    && events[m].Run? && events[m].thread == t && t in worlds[m].threads
    && Fails(p, worlds[m].threads[t], events[m].choice, taskId)
  }

  lemma {:induction false} RejectionHappened(p: Policy, k: Key, worlds: seq<World>, events: seq<Event>, i: nat, t: nat)
      returns (m: nat)
    requires IsRun(p, k, worlds, events) && i < |worlds| && t in worlds[i].threads && ForRejection(worlds[i].threads[t])
    ensures m < i && RejectedAt(worlds, events, t, m)
  {
    hide Step, Rejects, Initial;
    StartsEmpty(p, k, worlds, events);
    m := i - 1;
    var w, e := worlds[m], events[m];
    if e.Run? && e.thread == t {
      StepReasons(p, k, w.db, w.threads[t], e.choice);
      if !RejectedAt(worlds, events, t, m) {
        m := RejectionHappened(p, k, worlds, events, m, t);
      }
    } else {
      m := RejectionHappened(p, k, worlds, events, m, t);
    }
  }

  lemma {:induction false} FailureHappened(p: Policy, k: Key, worlds: seq<World>, events: seq<Event>, i: nat, t: nat,
                                           taskId: Option<string>) returns (m: nat)
    requires IsRun(p, k, worlds, events) && i < |worlds|
    requires t in worlds[i].threads && ForFailure(worlds[i].threads[t], taskId)
    ensures m < i && FailedAt(p, worlds, events, t, taskId, m)
  {
    hide Step, Fails, Initial;
    StartsEmpty(p, k, worlds, events);
    m := i - 1;
    var w, e := worlds[m], events[m];
    if e.Run? && e.thread == t {
      StepReasons(p, k, w.db, w.threads[t], e.choice);
      if !FailedAt(p, worlds, events, t, taskId, m) {
        m := FailureHappened(p, k, worlds, events, m, t, taskId);
      }
    } else {
      m := FailureHappened(p, k, worlds, events, m, t, taskId);
    }
  }

  lemma StartsEmpty(p: Policy, k: Key, worlds: seq<World>, events: seq<Event>)
    requires IsRun(p, k, worlds, events)
    ensures worlds[0].threads == map[]
  {
  }

  /** The receipt fails, and its reservation is released, in the n-th step. */
  predicate RefundAt(k: Key, worlds: seq<World>, n: nat)
    requires n + 1 < |worlds|
  {
    && IsOperation(RowAt(k, worlds, n)) && Active(RowAt(k, worlds, n).value)
    && IsOperation(RowAt(k, worlds, n + 1)) && RowAt(k, worlds, n + 1).value.status == FAILED
  }

  /** By the n-th step the provider had said that the generation request is not accepted, and no task is
      stored, or that the stored task has failed. */
  ghost predicate EarnedAt(p: Policy, k: Key, worlds: seq<World>, events: seq<Event>, n: nat)
    requires n < |worlds| && n < |events| && IsOperation(RowAt(k, worlds, n))
  {
    var taskId := StoredJournal(RowAt(k, worlds, n)).taskId;
    || (taskId.None? && exists t, m :: 0 <= m < n && RejectedAt(worlds, events, t, m))
    || (exists t, m :: 0 <= m < n && FailedAt(p, worlds, events, t, taskId, m))
  }

  /** An agent task with the client id of the open receipt is cancelled or fails, and the wallet holds the
      estimate. */
  predicate AgentReleaseAt(k: Key, worlds: seq<World>, events: seq<Event>, n: nat)
    requires n < |worlds| && n < |events|
  {
    && events[n].Elsewhere? && AgentReleases(k, worlds[n].db, events[n].call)
  }

  predicate AgentReleases(k: Key, s: State, call: Call) {
    && call.ReleaseChat? && call.user == k.user && OwnId(s, k) == Some(call.id)
    && IsOperation(OwnRow(s, k)) && Active(OwnRow(s, k).value)
    && Takes(s, k.user, Wallet.Releasing(OwnRow(s, k).value.estimated))
  }

  lemma AgentReleaseRefunds(p: Policy, k: Key, worlds: seq<World>, events: seq<Event>, n: nat)
    requires IsRun(p, k, worlds, events) && n < |events| && AgentReleaseAt(k, worlds, events, n)
    ensures RefundAt(k, worlds, n)
  {
    hide Effect, Initial, WorldInOrder;
    var (w, call) := (worlds[n], events[n].call);
    RunInOrder(p, k, worlds, events, n);
    OrderedWorld(k, w);
    ReleaseOfReceipt(k, w.db, call);
    ReleasedRow(w.db, call);
    OwnRowAfter(w.db, k, Effect(w.db, call).change);
  }

  lemma OrderedWorld(k: Key, w: World)
    requires WorldInOrder(k, w)
    ensures RowInOrder(w.db, k) && UniqueKeys(w.db.rows)
  {
  }

  lemma ReleaseOfReceipt(k: Key, s: State, call: Call)
    requires call.ReleaseChat? && OwnId(s, k) == Some(call.id) && IsOperation(OwnRow(s, k))
    ensures Effect(s, call).change.Put? <==> AgentReleases(k, s, call)
  {
  }

  lemma ForeignRefund(p: Policy, k: Key, worlds: seq<World>, events: seq<Event>, n: nat)
    requires IsRun(p, k, worlds, events) && n < |events| && RefundAt(k, worlds, n) && events[n].Elsewhere?
    ensures AgentReleaseAt(k, worlds, events, n)
  {
    hide Effect, Initial, WorldInOrder, RowInOrder, Foreign;
    var (w, call) := (worlds[n], events[n].call);
    RunInOrder(p, k, worlds, events, n);
    OrderedWorld(k, w);
    ForeignTouches(k, w.db, call);
    OwnRowAfter(w.db, k, Effect(w.db, call).change);
    if call.ReserveVideo? {
      TakeoverWritten(k, w.db, call);
    } else if call.ReleaseChat? {
      ReleaseOfReceipt(k, w.db, call);
    }
  }

  /** The refund of a thread follows what that very thread was told. */
  lemma ThreadRefundIsEarned(p: Policy, k: Key, worlds: seq<World>, events: seq<Event>, n: nat) returns (m: nat)
    requires IsRun(p, k, worlds, events) && n < |events| && RefundAt(k, worlds, n) && events[n].Run?
    ensures m < n
    ensures var (t, taskId) := (events[n].thread, StoredJournal(RowAt(k, worlds, n)).taskId);
            || (taskId.None? && RejectedAt(worlds, events, t, m))
            || FailedAt(p, worlds, events, t, taskId, m)
  {
    hide Effect, Initial, Step, RejectedAt, FailedAt, RowInOrder, Knows;
    var t := events[n].thread;
    RunInOrder(p, k, worlds, events, n);
    RefundingStep(p, k, worlds[n].db, worlds[n].threads[t], events[n].choice);
    if worlds[n].threads[t].rejection {
      m := RejectionHappened(p, k, worlds, events, n, t);
    } else {
      m := FailureHappened(p, k, worlds, events, n, t, StoredJournal(RowAt(k, worlds, n)).taskId);
    }
  }

  /** Every refund is earned but a release by client id before the provider has said so. */
  lemma RefundIsEarned(p: Policy, k: Key, worlds: seq<World>, events: seq<Event>, n: nat)
    requires IsRun(p, k, worlds, events) && n < |events| && RefundAt(k, worlds, n)
    ensures EarnedAt(p, k, worlds, events, n) || AgentReleaseAt(k, worlds, events, n)
  {
    hide Effect, Initial, Step, RejectedAt, FailedAt, WorldInOrder, AgentReleases;
    match events[n]
    case Run(t, choice) => var m := ThreadRefundIsEarned(p, k, worlds, events, n);
    case Elsewhere(call) => ForeignRefund(p, k, worlds, events, n);
    case _ =>
  }

  /** Every refund of a run is earned exactly when no agent task with the client id of the open receipt
      is released before the provider has rejected the request or failed its task. */
  lemma RefundsAreEarnedIff(p: Policy, k: Key, worlds: seq<World>, events: seq<Event>)
    requires IsRun(p, k, worlds, events)
    ensures (forall n :: 0 <= n < |events| && RefundAt(k, worlds, n) ==> EarnedAt(p, k, worlds, events, n))
       <==> (forall n :: 0 <= n < |events| && AgentReleaseAt(k, worlds, events, n) ==>
               EarnedAt(p, k, worlds, events, n))
  {
    hide IsRun, RefundAt, EarnedAt, AgentReleases;
    RunLength(p, k, worlds, events);
    forall n | 0 <= n < |events| && AgentReleaseAt(k, worlds, events, n)
      ensures RefundAt(k, worlds, n)
    {
      AgentReleaseRefunds(p, k, worlds, events, n);
    }
    forall n | 0 <= n < |events| && RefundAt(k, worlds, n)
      ensures IsOperation(RowAt(k, worlds, n))
      ensures EarnedAt(p, k, worlds, events, n) || AgentReleaseAt(k, worlds, events, n)
    {
      RefundOfReceipt(k, worlds, n);
      RefundIsEarned(p, k, worlds, events, n);
    }
  }

  /** A submission reserves, and before it has sent anything an agent task of the same client id is
      released: the refund is not earned. From every database in which the key is unused and the wallet
      pays. */
  lemma UnearnedRefund(p: Policy, k: Key, db: State, base: Journal, snapshot: Snapshot, c: Choice)
      returns (worlds: seq<World>, events: seq<Event>)
    requires Initial(k, World(db, map[], 0)) && Startable(Looking(base, snapshot)) && c.fault == NoFault
    requires OperationSnapshot(snapshot) && SameRequest(base.origin.identity, snapshot)
    requires k.user in db.purses && NonNegative(db.purses[k.user]) && db.purses[k.user].available >= snapshot.quoted
    ensures IsRun(p, k, worlds, events) && |events| == 4
    ensures AgentReleaseAt(k, worlds, events, 3) && RefundAt(k, worlds, 3)
    ensures IsOperation(RowAt(k, worlds, 3)) && !EarnedAt(p, k, worlds, events, 3)
  {
    hide Effect, Initial, Step, IsRun, RefundAt, AgentReleases, EarnedAt;
    var w0 := World(db, map[], 0);
    var spawn, run := Spawn(0, Looking(base, snapshot)), Event.Run(0, c);
    var release := ReleaseChat(k.user, |db.rows|);
    NoRowYet(k, db);
    LookingReserves(p, k, db, base, snapshot, c);
    ReservationCommits(k, db, snapshot, base, c.now);
    var w1 := Next(p, k, w0, spawn);
    var w2 := Next(p, k, w1, run);
    var w3 := Next(p, k, w2, run);
    ReleaseIsForeign(k, w3.db, release);
    var w4 := Next(p, k, w3, Elsewhere(release));
    worlds, events := [w0, w1, w2, w3, w4], [spawn, run, run, Elsewhere(release)];
    RunOfFour(p, k, w0, w1, w2, w3, w4, spawn, run, run, Elsewhere(release));
    AgentReleaseRefunds(p, k, worlds, events, 3);
    RefundOfReceipt(k, worlds, 3);
    NothingSaidYet(p, k, worlds, events);
  }

  lemma LookingReserves(p: Policy, k: Key, db: State, base: Journal, snapshot: Snapshot, c: Choice)
    requires OwnRow(db, k).None? && c.fault == NoFault
    ensures Step(p, k, db, Looking(base, snapshot), c) == Act(None, Pc.Reserving(base, snapshot), false)
    ensures Step(p, k, db, Pc.Reserving(base, snapshot), c).call
         == Some(ReserveOperation(k.user, k.client, snapshot, base, c.now))
  {
    hide Effect, Find;
  }

  lemma ReleaseIsForeign(k: Key, s: State, call: Call)
    requires call.ReleaseChat?
    ensures Foreign(k, s, call)
  {
  }

  /** A thread that has not sent its request has no answer. */
  lemma NothingSaidYet(p: Policy, k: Key, worlds: seq<World>, events: seq<Event>)
    requires |events| == 4 && |worlds| == 5 && IsOperation(RowAt(k, worlds, 3))
    requires forall m, t :: 0 <= m < 3 && t in worlds[m].threads ==>
                              worlds[m].threads[t].Looking? || worlds[m].threads[t].Reserving?
    ensures !EarnedAt(p, k, worlds, events, 3)
  {
    hide Interpret, IsOperation, OwnRow;
  }

  lemma NoRowYet(k: Key, db: State)
    requires Initial(k, World(db, map[], 0))
    ensures OwnRow(db, k).None? && UniqueKeys(db.rows)
  {
  }

  lemma ReservationCommits(k: Key, db: State, snapshot: Snapshot, base: Journal, now: int)
    requires UniqueKeys(db.rows) && OwnRow(db, k).None? && OperationSnapshot(snapshot)
    requires SameRequest(base.origin.identity, snapshot)
    requires k.user in db.purses && NonNegative(db.purses[k.user]) && db.purses[k.user].available >= snapshot.quoted
    ensures var after := After(db, ReserveOperation(k.user, k.client, snapshot, base, now));
            AgentReleases(k, after, ReleaseChat(k.user, |db.rows|))
  {
    var call := ReserveOperation(k.user, k.client, snapshot, base, now);
    OwnRowAfter(db, k, Effect(db, call).change);
  }

  lemma RunOfFour(p: Policy, k: Key, w0: World, w1: World, w2: World, w3: World, w4: World,
                  a: Event, b: Event, c: Event, d: Event)
    requires Initial(k, w0)
    requires Allowed(k, w0, a) && w1 == Next(p, k, w0, a) && Allowed(k, w1, b) && w2 == Next(p, k, w1, b)
    requires Allowed(k, w2, c) && w3 == Next(p, k, w2, c) && Allowed(k, w3, d) && w4 == Next(p, k, w3, d)
    ensures IsRun(p, k, [w0, w1, w2, w3, w4], [a, b, c, d])
  {
    hide Next, Allowed, Initial;
  }

  lemma RefundOfReceipt(k: Key, worlds: seq<World>, n: nat)
    requires n + 1 < |worlds| && RefundAt(k, worlds, n)
    ensures IsOperation(RowAt(k, worlds, n))
  {
  }
}
