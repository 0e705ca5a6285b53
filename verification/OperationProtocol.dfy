/** One image-operation receipt under any number of submitters, refreshers and other transactions
    (src/modules/ai/image-operation-service.ts). Every database call is one atomic step; between
    two steps of a thread anything else may happen; a thread keeps its own, possibly stale, journal.
    The provider's answers, lost connections and crashes are arbitrary. */
module OperationProtocol {
  import opened JsonValues
  import opened TaskMetadata
  import opened Journals
  import opened Wallet

  /** The (userId, clientRequestId) pair all these threads work for. */
  datatype Key = Key(user: string, client: string)

  datatype Caller =
    | Submitter(base: Journal, received: bool)
    | Refresher(base: Journal)

  /** What a thread does with the outcome of `saveJournal`. `guarded` says that an exception is
      still caught by the surrounding `try`. */
  datatype Goal = ThenPost | ThenStop(guarded: bool) | ThenJudge(next: Journal)

  /** The next atomic step of a thread. */
  datatype Pc =
    | Looking(base: Journal, snapshot: Snapshot)
    | Reserving(base: Journal, snapshot: Snapshot)
    | Posting(base: Journal)
    | Opening
    | Claiming(base: Journal)
    | Fetching(base: Journal)
    | SaveReading(caller: Caller, journal: Journal, left: nat, goal: Goal)
    | SaveWriting(caller: Caller, journal: Journal, left: nat, goal: Goal, prior: Journal)
    | SaveLost(caller: Caller, journal: Journal, goal: Goal)
    | Collecting(caller: Caller, next: Journal)
    | Settling(caller: Caller, final: Journal)
    | Refunding(caller: Caller, failed: Journal, rejection: bool)
    | Recovering(caller: Caller, rejected: bool)
    | Showing(caller: Caller, fallback: Journal, guarded: bool)
    | Exited(asked: Option<string>, shown: Option<Journal>)

  /** What the environment decides in one step. */
  datatype Fault = NoFault | FaultBefore | FaultAfter
  datatype Answer = Response(reading: Reading) | UnsafeStatusUrl | HttpError(status: Option<int>)
  datatype Content =
    | Unusable(errorCode: string)
    | Unreadable
    | Delivered(delivery: Delivery, dimensions: Option<string>)
  datatype Choice = Choice(fault: Fault, now: int, answer: Answer, content: Content)

  const REJECTIONS := {400, 401, 403, 404, 422}
  const ATTEMPTS := 3

  datatype Act = Act(call: Option<Call>, next: Pc, posted: bool)

  function OwnId(s: State, k: Key): Option<nat> {
    Find(s.rows, k.user, k.client)
  }

  function OwnRow(s: State, k: Key): (row: Option<Row>)
    ensures row.Some? ==> row.value.user == k.user && row.value.client == k.client
  {
    var id := OwnId(s, k);
    if id.Some? then Some(s.rows[id.value]) else None
  }

  function RowJournal(row: Option<Row>): Option<Journal> {
    if row.Some? then ReadJournal(row.value.status == FAILED, row.value.stored) else None
  }

  function OrElse(journal: Option<Journal>, fallback: Journal): Journal {
    if journal.Some? then journal.value else fallback
  }

  function Asked(caller: Caller): Option<string> {
    match caller
    case Submitter(base, _) => Some(base.origin.identity.fingerprint)
    case Refresher(_) => None
  }

  function Uncertain(j: Journal, errorCode: string): Journal {
    j.(status := OpStatus.Uncertain, errorCode := Some(errorCode))
  }

  function Read(next: Pc): Act {
    Act(None, next, false)
  }

  /** The answer to a submission whose request id is already taken. */
  function Existing(row: Option<Row>, fingerprint: string): Pc {
    var journal := RowJournal(row);
    if journal.None? || journal.value.origin.identity.fingerprint != fingerprint
    then Exited(Some(fingerprint), None)
    else Exited(Some(fingerprint), journal)
  }

  function Save(caller: Caller, journal: Journal, goal: Goal): Pc {
    SaveReading(caller, journal, ATTEMPTS, goal)
  }

  function AfterSave(caller: Caller, goal: Goal, updated: bool, journal: Journal): Pc {
    match goal
    case ThenPost => Posting(caller.base)
    case ThenStop(_) => Exited(Asked(caller), Some(journal))
    case ThenJudge(next) =>
      if !updated then Exited(Asked(caller), Some(journal))
      else if Stopped(next.status) then
        Refunding(caller, next.(errorCode := Some("image_operation_failed"), charged := 0), false)
      else if next.status != Success then Exited(Asked(caller), Some(next))
      else Collecting(caller, next)
  }

  /** `processSnapshot` up to its first database call. */
  function Process(p: Policy, caller: Caller, journal: Journal, reading: Reading): Pc {
    match Interpret(p, journal, reading)
    case None => Save(caller, Uncertain(journal, "image_operation_identity_unconfirmed"), ThenStop(true))
    case Some(next) => Save(caller, if next.status == Success then next.(status := Running) else next, ThenJudge(next))
  }

  function WithDimensions(next: Journal, dimensions: Option<string>): Journal {
    if dimensions.None? then next
    else
      var context := ContextOf(next);
      var original := map["originalImageDimensions" := dimensions.value];
      next.(context := Some(original + context["imageDimensions" := dimensions.value]))
  }

  function Collect(caller: Caller, next: Journal, content: Content): Pc {
    match content
    case Unusable(errorCode) => Save(caller, Uncertain(next, errorCode), ThenStop(true))
    case Unreadable => Recovering(caller, false)
    case Delivered(delivery, dimensions) => Settling(caller, WithDimensions(next, dimensions).(delivery := delivery))
  }

  /** The `catch` blocks of `submitWalletImageOperation` and `refreshOperation`. */
  function Recover(caller: Caller, rejected: bool, row: Option<Row>): Pc {
    var prior := RowJournal(row);
    if caller.Submitter? && !caller.received && rejected && (prior.None? || prior.value.taskId.None?) then
      Refunding(caller, caller.base.(status := Failed, errorCode := Some("image_operation_rejected")), true)
    else if row.Some? && row.value.status == SUCCEEDED && prior.Some? then Exited(Asked(caller), prior)
    else
      var open := Uncertain(OrElse(prior, caller.base), "image_operation_result_unconfirmed");
      var kept := if caller.Refresher? then open.(nextRefreshAt := caller.base.nextRefreshAt) else open;
      Save(caller, kept, ThenStop(false))
  }

  /** Where an exception takes a thread. */
  function Thrown(pc: Pc): Pc {
    match pc
    case Looking(base, _) => Exited(Some(base.origin.identity.fingerprint), None)
    case Reserving(base, _) => Exited(Some(base.origin.identity.fingerprint), None)
    case Posting(base) => Recovering(Submitter(base, false), false)
    case Fetching(base) => Recovering(Refresher(base), false)
    case SaveReading(caller, _, _, goal) => ThrownSaving(caller, goal)
    case SaveWriting(caller, _, _, goal, _) => ThrownSaving(caller, goal)
    case SaveLost(caller, _, goal) => ThrownSaving(caller, goal)
    case Collecting(caller, _) => Recovering(caller, false)
    case Settling(caller, _) => Recovering(caller, false)
    case Refunding(caller, _, rejection) => if rejection then Exited(Asked(caller), None) else Recovering(caller, false)
    case Recovering(caller, _) => Exited(Asked(caller), None)
    case Showing(caller, _, guarded) => if guarded then Recovering(caller, false) else Exited(Asked(caller), None)
    case Opening => Exited(None, None)
    case Claiming(_) => Exited(None, None)
    case Exited(_, _) => pc
  }

  function ThrownSaving(caller: Caller, goal: Goal): Pc {
    if goal.ThenPost? || goal == ThenStop(false) then Exited(Asked(caller), None) else Recovering(caller, false)
  }

  /** One step without an exception, read off the row this key has now. */
  function Advance(p: Policy, k: Key, s: State, pc: Pc, c: Choice): Act {
    var row := OwnRow(s, k);
    var id := if row.Some? then OwnId(s, k).value else 0;
    match pc
    case Looking(base, snapshot) =>
      Read(if row.Some? then Existing(row, base.origin.identity.fingerprint) else Reserving(base, snapshot))
    case Reserving(base, snapshot) =>
      var call := ReserveOperation(k.user, k.client, snapshot, base, c.now);
      Act(Some(call),
          match Effect(s, call).outcome
          case Done => Save(Submitter(base, false), base, ThenPost)
          case Skipped => Existing(row, base.origin.identity.fingerprint)
          case Refused(_) => Exited(Some(base.origin.identity.fingerprint), None),
          false)
    case Posting(base) =>
      Act(None,
          match c.answer
          case Response(reading) => Process(p, Submitter(base, true), base, reading)
          case UnsafeStatusUrl => Recovering(Submitter(base, true), false)
          case HttpError(status) => Recovering(Submitter(base, false), status.Some? && status.value in REJECTIONS),
          true)
    case Opening =>
      var journal := RowJournal(row);
      Read(if row.None? || row.value.capability != IMAGE || journal.None? then Exited(None, None)
           else if Ended(journal.value.status) || journal.value.nextRefreshAt > c.now then Exited(None, journal)
           else Claiming(journal.value))
    case Claiming(base) =>
      var claimed := base.(nextRefreshAt := c.now + 5000);
      var call := ClaimRefresh(k.user, id, Operation(base), claimed);
      Act(Some(call),
          if Effect(s, call).outcome == Done then Fetching(claimed) else Showing(Refresher(base), base, false),
          false)
    case Fetching(base) =>
      Read(match c.answer
           case Response(reading) => Process(p, Refresher(base), base, reading)
           case UnsafeStatusUrl => Recovering(Refresher(base), false)
           case HttpError(_) => Recovering(Refresher(base), false))
    case SaveReading(caller, journal, left, goal) =>
      var prior := RowJournal(row);
      Read(if row.None? || prior.None? then AfterSave(caller, goal, false, journal)
           else if !Active(row.value) || (prior.value.taskId.Some? && prior.value.taskId != journal.taskId)
           then AfterSave(caller, goal, false, prior.value)
           else SaveWriting(caller, journal, left, goal, prior.value))
    case SaveWriting(caller, journal, left, goal, prior) =>
      var merged := MergeJournal(prior, journal);
      var call := SaveJournal(k.user, id, Operation(prior), merged);
      Act(Some(call),
          if Effect(s, call).outcome == Done then AfterSave(caller, goal, true, merged)
          else if left > 1 then SaveReading(caller, journal, left - 1, goal)
          else SaveLost(caller, journal, goal),
          false)
    case SaveLost(caller, journal, goal) =>
      Read(AfterSave(caller, goal, false, OrElse(RowJournal(row), journal)))
    case Collecting(caller, next) => Read(Collect(caller, next, c.content))
    case Settling(caller, final) =>
      var call := SettleOperation(k.user, id, final);
      Act(Some(call),
          if Effect(s, call).outcome.Refused? then Recovering(caller, false) else Showing(caller, final, true),
          false)
    case Refunding(caller, failed, rejection) =>
      var call := ReleaseOperation(k.user, id, failed);
      Act(Some(call),
          match Effect(s, call).outcome
          case Refused(code) =>
            if !rejection then Recovering(caller, false)
            else if code == "image_operation_identity_mismatch"
            then Showing(caller, Uncertain(caller.base, "image_operation_result_unconfirmed"), false)
            else Exited(Asked(caller), None)
          case _ => Showing(caller, failed, !rejection),
          false)
    case Recovering(caller, rejected) => Read(Recover(caller, rejected, row))
    case Showing(caller, fallback, _) => Read(Exited(Asked(caller), Some(OrElse(RowJournal(row), fallback))))
    case Exited(_, _) => Read(pc)
  }

  /** A step that may lose its connection before or after it took effect. */
  function Step(p: Policy, k: Key, s: State, pc: Pc, c: Choice): Act {
    var act := Advance(p, k, s, pc, c);
    match c.fault
    case NoFault => act
    case FaultBefore => Act(None, Thrown(pc), false)
    case FaultAfter => act.(next := Thrown(pc))
  }

  // ---- all threads together ------------------------------------------------------------------

  /** `posts` counts the generation requests sent to the provider for this key. */
  datatype World = World(db: State, threads: map<nat, Pc>, posts: nat)

  datatype Event =
    | Spawn(thread: nat, pc: Pc)
    | Run(thread: nat, choice: Choice)
    | Crash(thread: nat)
    | Elsewhere(call: Call)

  /** A submission starts with a journal that names no task and has no metadata yet; a refresh starts
      with nothing. */
  predicate Startable(pc: Pc) {
    pc == Opening || (pc.Looking? && pc.base.taskId.None? && pc.base.metadata.None?)
  }

  predicate IsOperation(row: Option<Row>) {
    row.Some? && row.value.stored.Operation?
  }

  /** The operation calls themselves, which only the threads above make for this key. */
  predicate OperationCall(call: Call) {
    || call.ReserveOperation? || call.SettleOperation? || call.ReleaseOperation?
    || call.SaveJournal? || call.ClaimRefresh?
  }

  /** A transaction of another path on one row that it names by its id. */
  predicate NamesRow(call: Call) {
    || call.SettleImage? || call.ReleaseImage? || call.MarkImage? || call.RememberImageTask?
    || call.RetainImageRecovery? || call.SettleVideo? || call.ReleaseVideo? || call.MarkVideo?
    || call.KeepVideoResult? || call.SubmitVideoTask? || call.SettleVideoTasks? || call.SettleChat?
    || call.KeepMusicReceipt? || call.SettleMusic? || call.RejectMusic?
  }

  /** Transactions of every other entry point. They may use the same key. A path that names a row by
      its id got the id from its own reservation or checked the capability, so it names this key's row
      only when that is no operation receipt; the release by client id asks for neither. The sweeper
      passes over held tariffs. */
  predicate Foreign(k: Key, s: State, call: Call) {
    && (call.ReserveOperation? ==> call.user != k.user || call.client != k.client)
    && (OperationCall(call) && !call.ReserveOperation? ==> OwnId(s, k) != Some(call.id))
    && (NamesRow(call) && IsOperation(OwnRow(s, k)) ==> OwnId(s, k) != Some(call.id))
    && (call.Sweep? && call.id < |s.rows| ==> !Held(s.rows[call.id].snapshot))
  }

  predicate Allowed(k: Key, w: World, a: Event) {
    match a
    case Spawn(thread, pc) => thread !in w.threads && Startable(pc)
    case Run(thread, _) => thread in w.threads
    case Crash(thread) => thread in w.threads
    case Elsewhere(call) => Foreign(k, w.db, call)
  }

  function Committed(s: State, call: Option<Call>): State {
    if call.Some? then After(s, call.value) else s
  }

  function Next(p: Policy, k: Key, w: World, a: Event): World
    requires Allowed(k, w, a)
  {
    match a
    case Spawn(thread, pc) => w.(threads := w.threads[thread := pc])
    case Crash(thread) => w.(threads := w.threads - {thread})
    case Elsewhere(call) => w.(db := After(w.db, call))
    case Run(thread, choice) =>
      var act := Step(p, k, w.db, w.threads[thread], choice);
      World(Committed(w.db, act.call), w.threads[thread := act.next], w.posts + if act.posted then 1 else 0)
  }
}
