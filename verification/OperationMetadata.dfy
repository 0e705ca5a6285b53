/** The task metadata an operation stores and shows, over whole runs: always a fixed point of the
    stored-value projection, always of the accepted task, never of another operation or speed. */
module OperationMetadata {
  import opened JsonValues
  import opened TaskMetadata
  import opened Journals
  import opened Wallet
  import opened OperationProtocol
  import opened OperationSafety
  import opened OperationHistory

  predicate SoundJournal(p: Policy, j: Journal) {
    j.metadata.Some? ==>
      var (m, identity) := (j.metadata.value, j.origin.identity);
      && Canonical(p, m) && j.taskId == Some(m.taskId)
      && m.operation in {None, Some(identity.operation)} && m.speed in {None, Some(identity.speed)}
  }

  predicate SoundRow(p: Policy, row: Option<Row>) {
    IsOperation(row) ==> SoundJournal(p, StoredJournal(row))
  }

  predicate SoundGoal(p: Policy, goal: Goal) {
    goal.ThenJudge? ==> SoundJournal(p, goal.next)
  }

  /** Every journal a thread carries is sound. */
  predicate Carries(p: Policy, pc: Pc) {
    match pc
    case Looking(base, _) => SoundJournal(p, base)
    case Reserving(base, _) => SoundJournal(p, base)
    case Posting(base) => SoundJournal(p, base)
    case Opening => true
    case Claiming(base) => SoundJournal(p, base)
    case Fetching(base) => SoundJournal(p, base)
    case SaveReading(caller, journal, _, goal) =>
      SoundJournal(p, caller.base) && SoundJournal(p, journal) && SoundGoal(p, goal)
    case SaveWriting(caller, journal, _, goal, prior) =>
      SoundJournal(p, caller.base) && SoundJournal(p, journal) && SoundGoal(p, goal) && SoundJournal(p, prior)
    case SaveLost(caller, journal, goal) =>
      SoundJournal(p, caller.base) && SoundJournal(p, journal) && SoundGoal(p, goal)
    case Collecting(caller, next) => SoundJournal(p, caller.base) && SoundJournal(p, next)
    case Settling(caller, final) => SoundJournal(p, caller.base) && SoundJournal(p, final)
    case Refunding(caller, failed, _) => SoundJournal(p, caller.base) && SoundJournal(p, failed)
    case Recovering(caller, _) => SoundJournal(p, caller.base)
    case Showing(caller, fallback, _) => SoundJournal(p, caller.base) && SoundJournal(p, fallback)
    case Exited(_, shown) => shown.Some? ==> SoundJournal(p, shown.value)
  }

  lemma ExtractCanonical(p: Policy, value: Json, taskId: string)
    ensures Extract(p, value, taskId).Some? ==>
              Canonical(p, Extract(p, value, taskId).value) && Extract(p, value, taskId).value.taskId == taskId
  {
    if Admissible(p, taskId, 512) {
      VisitCanonical(p, None, Some(value), taskId, 0);
    }
  }

  /** An answer leads from a sound journal to a sound one. */
  lemma InterpretSound(p: Policy, j: Journal, r: Reading)
    requires SoundJournal(p, j)
    ensures Interpret(p, j, r).Some? ==> SoundJournal(p, Interpret(p, j, r).value)
  {
    hide TaskEnvelope, Extract, Canonical, FreshContext, Inherited, ContextOf;
    var next := Interpret(p, j, r);
    if next.Some? {
      var (fields, taskId) := (TaskEnvelope(r.envelope, j.taskId).value, next.value.taskId.value);
      InterpretIdentified(p, j, r);
      ExtractCanonical(p, Object(fields), taskId);
      var extracted := Extract(p, Object(fields), taskId);
      assert next.value.metadata == Merge(j.metadata, extracted);
      assert AllCanonical(p, j.metadata) && AllCanonical(p, extracted);
      MergeCanonical(p, j.metadata, extracted);
      assert !Contradicts(j, next.value.metadata, fields);
      assert next.value.metadata.Some? ==> next.value.taskId == Some(next.value.metadata.value.taskId);
      assert AllCanonical(p, next.value.metadata);
    }
  }

  lemma MergeSound(p: Policy, prior: Journal, journal: Journal)
    requires SoundJournal(p, prior) && SoundJournal(p, journal) && prior.origin == journal.origin
    requires prior.taskId.Some? ==> prior.taskId == journal.taskId
    ensures SoundJournal(p, MergeJournal(prior, journal))
  {
    hide Canonical;
    MergeCanonical(p, prior.metadata, journal.metadata);
  }

  lemma ReadSound(p: Policy, row: Option<Row>)
    requires SoundRow(p, row)
    ensures RowJournal(row).Some? ==> SoundJournal(p, RowJournal(row).value)
  {
    hide Canonical;
  }

  lemma AfterSaveCarries(p: Policy, caller: Caller, goal: Goal, updated: bool, journal: Journal)
    requires SoundJournal(p, caller.base) && SoundGoal(p, goal) && SoundJournal(p, journal)
    ensures Carries(p, AfterSave(caller, goal, updated, journal))
  {
    hide Canonical;
  }

  lemma ProcessCarries(p: Policy, caller: Caller, journal: Journal, reading: Reading)
    requires SoundJournal(p, caller.base) && SoundJournal(p, journal)
    ensures Carries(p, Process(p, caller, journal, reading))
  {
    hide Canonical, Interpret;
    InterpretSound(p, journal, reading);
  }

  lemma CollectCarries(p: Policy, caller: Caller, next: Journal, content: Content)
    requires SoundJournal(p, caller.base) && SoundJournal(p, next)
    ensures Carries(p, Collect(caller, next, content))
  {
    hide Canonical, ContextOf;
  }

  lemma RecoverCarries(p: Policy, caller: Caller, rejected: bool, row: Option<Row>)
    requires SoundJournal(p, caller.base) && SoundRow(p, row)
    ensures Carries(p, Recover(caller, rejected, row))
  {
    hide Canonical, RowJournal;
    ReadSound(p, row);
  }

  lemma ThrownCarries(p: Policy, pc: Pc)
    requires Carries(p, pc)
    ensures Carries(p, Thrown(pc))
  {
    hide Canonical;
  }

  lemma SavingCarries(p: Policy, k: Key, s: State, pc: Pc, c: Choice)
    requires Carries(p, pc) && Knows(pc, OwnRow(s, k)) && SoundRow(p, OwnRow(s, k))
    requires pc.SaveReading? || pc.SaveWriting? || pc.SaveLost?
    ensures Carries(p, Advance(p, k, s, pc, c).next)
  {
    hide SoundJournal, Effect, RowJournal, MergeJournal, AfterSave, UniqueKeys;
    var row := OwnRow(s, k);
    ReadSound(p, row);
    match pc
    case SaveReading(caller, journal, _, goal) =>
      AfterSaveCarries(p, caller, goal, false, journal);
      if RowJournal(row).Some? {
        AfterSaveCarries(p, caller, goal, false, RowJournal(row).value);
      }
    case SaveWriting(caller, journal, _, goal, prior) =>
      var call := SaveJournal(k.user, OwnId(s, k).value, Operation(prior), MergeJournal(prior, journal));
      if Effect(s, call).outcome == Done {
        SavedPrior(k, s, prior, MergeJournal(prior, journal));
        MergeSound(p, prior, journal);
        AfterSaveCarries(p, caller, goal, true, MergeJournal(prior, journal));
      }
    case SaveLost(caller, journal, goal) => AfterSaveCarries(p, caller, goal, false, OrElse(RowJournal(row), journal));
  }

  /** What a thread carries after its own step is sound, too. */
  lemma AdvanceCarries(p: Policy, k: Key, s: State, pc: Pc, c: Choice)
    requires Carries(p, pc) && Knows(pc, OwnRow(s, k)) && SoundRow(p, OwnRow(s, k))
    ensures Carries(p, Advance(p, k, s, pc, c).next)
  {
    hide SoundJournal, Effect, RowJournal, MergeJournal, Process, Collect, Recover, AfterSave, UniqueKeys;
    var row := OwnRow(s, k);
    ReadSound(p, row);
    match pc
    case Posting(base) =>
      if c.answer.Response? {
        ProcessCarries(p, Submitter(base, true), base, c.answer.reading);
      }
    case Fetching(base) =>
      if c.answer.Response? {
        ProcessCarries(p, Refresher(base), base, c.answer.reading);
      }
    case Claiming(base) => StampedSound(p, base, c.now + 5000);
    case SaveReading(_, _, _, _) => SavingCarries(p, k, s, pc, c);
    case SaveWriting(_, _, _, _, _) => SavingCarries(p, k, s, pc, c);
    case SaveLost(_, _, _) => SavingCarries(p, k, s, pc, c);
    case Collecting(caller, next) => CollectCarries(p, caller, next, c.content);
    case Refunding(caller, _, _) => UncertainSound(p, caller.base, "image_operation_result_unconfirmed");
    case Recovering(caller, rejected) => RecoverCarries(p, caller, rejected, row);
    case _ =>
  }

  lemma StampedSound(p: Policy, j: Journal, nextRefreshAt: int)
    requires SoundJournal(p, j)
    ensures SoundJournal(p, j.(nextRefreshAt := nextRefreshAt))
  {
  }

  lemma UncertainSound(p: Policy, j: Journal, errorCode: string)
    requires SoundJournal(p, j)
    ensures SoundJournal(p, OperationProtocol.Uncertain(j, errorCode))
  {
  }

  /** A save that succeeded found exactly the prior journal. */
  lemma SavedPrior(k: Key, s: State, prior: Journal, merged: Journal)
    requires OwnRow(s, k).Some?
    requires Effect(s, SaveJournal(k.user, OwnId(s, k).value, Operation(prior), merged)).outcome == Done
    ensures OwnRow(s, k).value.stored == Operation(prior)
  {
  }

  // ---- what a step stores --------------------------------------------------------------------

  /** What a call leaves in an operation row it touches. */
  lemma StoredByCall(s: State, call: Call)
    requires Effect(s, call).change.Put? && Effect(s, call).change.row.stored.Operation?
    ensures var change := Effect(s, call).change;
            match call
            case ReserveOperation(_, _, _, journal, _) => change.row.stored.journal == journal
            case SettleOperation(_, _, final) =>
              exists charged :: change.row.stored.journal == final.(charged := charged)
            case ReleaseOperation(_, _, failed) => change.row.stored.journal == failed
            case SaveJournal(_, _, _, journal) => change.row.stored.journal == journal
            case ClaimRefresh(_, _, _, journal) => change.row.stored.journal == journal
            case _ => true
  {
    hide OperationSnapshot;
    match call
    case SettleOperation(_, id, final) =>
      assert Effect(s, call).change.row.stored.journal == final.(charged := s.rows[id].snapshot.value.single);
    case _ =>
  }

  lemma ChargedSound(p: Policy, j: Journal)
    requires SoundJournal(p, j)
    ensures forall charged :: SoundJournal(p, j.(charged := charged))
  {
  }

  lemma AdvanceStores(p: Policy, k: Key, s: State, pc: Pc, c: Choice)
    requires RowInOrder(s, k) && Carries(p, pc) && Knows(pc, OwnRow(s, k)) && SoundRow(p, OwnRow(s, k))
    requires Advance(p, k, s, pc, c).call.Some?
    ensures SoundRow(p, OwnRow(After(s, Advance(p, k, s, pc, c).call.value), k))
  {
    hide SoundJournal, Effect, MergeJournal, Genuine, ExpectedLines, Process, Collect, Recover, AfterSave, UniqueKeys;
    var call := Advance(p, k, s, pc, c).call.value;
    var change := Effect(s, call).change;
    OwnRowAfter(s, k, change);
    if Touches(k, change) && change.row.stored.Operation? {
      StoredByCall(s, call);
      match pc
      case Claiming(base) => StampedSound(p, base, c.now + 5000);
      case SaveWriting(_, journal, _, _, prior) =>
        OnlyDoneTouches(s, call);
        SavedPrior(k, s, prior, MergeJournal(prior, journal));
        MergeSound(p, prior, journal);
      case Settling(_, final) => ChargedSound(p, final);
      case _ =>
    }
  }

  // ---- the whole world -----------------------------------------------------------------------

  ghost predicate SoundWorld(p: Policy, k: Key, w: World) {
    SoundRow(p, OwnRow(w.db, k)) && forall t :: t in w.threads ==> Carries(p, w.threads[t])
  }

  lemma RunStaysSound(p: Policy, k: Key, s: State, pc: Pc, c: Choice)
    requires RowInOrder(s, k) && Carries(p, pc) && Knows(pc, OwnRow(s, k)) && SoundRow(p, OwnRow(s, k))
    ensures var act := Step(p, k, s, pc, c);
            Carries(p, act.next) && SoundRow(p, OwnRow(Committed(s, act.call), k))
  {
    hide Advance, Carries, SoundRow, Knows, RowInOrder, Thrown, Effect;
    AdvanceCarries(p, k, s, pc, c);
    ThrownCarries(p, pc);
    if Advance(p, k, s, pc, c).call.Some? {
      AdvanceStores(p, k, s, pc, c);
    }
  }

  lemma NextStaysSound(p: Policy, k: Key, w: World, a: Event)
    requires WorldInOrder(k, w) && Allowed(k, w, a) && SoundWorld(p, k, w)
    ensures SoundWorld(p, k, Next(p, k, w, a))
  {
    hide Step, Effect, RowInOrder, PostsInOrder, Knows, Foreign;
    match a
    case Run(thread, choice) => RunStaysSound(p, k, w.db, w.threads[thread], choice);
    case Elsewhere(call) =>
      ForeignKeepsJournal(k, w.db, call);
      OrderedRow(w.db, k);
      OwnRowAfter(w.db, k, Effect(w.db, call).change);
    case _ =>
  }

  lemma {:induction false} RunIsSound(p: Policy, k: Key, worlds: seq<World>, events: seq<Event>, i: nat)
    requires IsRun(p, k, worlds, events) && i < |worlds|
    ensures SoundWorld(p, k, worlds[i])
  {
    hide Next, Allowed, WorldInOrder, RowInOrder;
    if i > 0 {
      RunIsSound(p, k, worlds, events, i - 1);
      RunInOrder(p, k, worlds, events, i - 1);
      NextStaysSound(p, k, worlds[i - 1], events[i - 1]);
    }
  }

  /** At every moment of every run the stored metadata is a fixed point of the projection, names the
      stored task id, and agrees with the submitted operation and speed. */
  lemma StoredMetadataIsSound(p: Policy, k: Key, worlds: seq<World>, events: seq<Event>, i: nat)
    requires IsRun(p, k, worlds, events) && i < |worlds| && IsOperation(RowAt(k, worlds, i))
    ensures var j := StoredJournal(RowAt(k, worlds, i));
            j.metadata.Some? ==>
              var m := j.metadata.value;
              && Project(p, ToJson(m)) == Some(m)
              && j.taskId == Some(m.taskId)
              && m.operation in {None, Some(j.origin.identity.operation)}
              && m.speed in {None, Some(j.origin.identity.speed)}
  {
    hide IsRun, Project, ToJson;
    RunIsSound(p, k, worlds, events, i);
    var j := StoredJournal(RowAt(k, worlds, i));
    if j.metadata.Some? {
      StoredValueFixedPoint(p, j.metadata.value);
    }
  }

  /** The same of every journal a submission or refresh is shown. */
  lemma ShownMetadataIsSound(p: Policy, k: Key, worlds: seq<World>, events: seq<Event>, i: nat, t: nat)
    requires IsRun(p, k, worlds, events) && i < |worlds|
    requires t in worlds[i].threads && worlds[i].threads[t].Exited? && worlds[i].threads[t].shown.Some?
    ensures var j := worlds[i].threads[t].shown.value;
            j.metadata.Some? ==>
              Project(p, ToJson(j.metadata.value)) == j.metadata
              && j.taskId == Some(j.metadata.value.taskId)
  {
    hide IsRun, Project, ToJson;
    RunIsSound(p, k, worlds, events, i);
    var j := worlds[i].threads[t].shown.value;
    assert Carries(p, worlds[i].threads[t]);
    if j.metadata.Some? {
      StoredValueFixedPoint(p, j.metadata.value);
    }
  }
}
