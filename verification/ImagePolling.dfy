/** Waiting for an accepted image task (src/modules/ai/image-task-retry.ts): bounded retries, one
    deadline, a grace period for results, and a task identity that never changes. */
module ImagePolling {
  import opened JsonValues

  datatype Stage = StatusStage | ResultStage | AssetStage
  datatype TaskIdentity = TaskIdentity(taskId: string, statusUrl: string, resultUrl: string)

  /** An absent text is empty, as the source's `||` treats it. */
  datatype TaskSnapshot = TaskSnapshot(
    taskId: string, statusUrl: string, resultUrl: string, state: string, pollAfterMs: int,
    images: seq<string>, assets: seq<string>, failure: string, retryAfterMs: Option<nat>)

  /** A provider answer: what `summarize` makes of it and its own Retry-After hint. */
  datatype Body = Body(summary: TaskSnapshot, retryAfterMs: Option<nat>)

  datatype Failure =
    | TerminalFailure(taskId: string, state: string)
    | RecoveryRequired(identity: TaskIdentity, stage: Stage, reason: string)

  datatype Outcome<+T> = Ok(value: T) | Raised(failure: Failure)

  datatype ReadError =
    | Thrown(failure: Failure)
    | Http(status: int, hint: Option<nat>)
    | Transport(recognised: bool, hint: Option<nat>)

  datatype Operation = ReadUrl(url: string, stage: Stage) | Download(snapshot: TaskSnapshot)
  datatype Answer = Document(body: Body) | Images(images: seq<string>)
  datatype Attempt = Success(answer: Answer) | Error(error: ReadError)

  datatype Event =
    | Observed(next: TaskSnapshot, snapshot: TaskSnapshot)
    | Attempted(operation: Operation, attempt: Attempt)

  const TERMINAL_STATES := {"failed", "failure", "error", "cancelled", "canceled", "rejected"}
  const COMPLETED_STATES := {"completed", "complete", "succeeded", "success", "finished", "done"}
  const UNCERTAIN_STATES := {"uncertain", "pending_confirmation", "client_disconnected"}
  const RETRYABLE := {0, 408, 425, 429, 500, 502, 503, 504}
  const NOT_READY := {404, 409}
  const READ_TIMEOUT_MS := 45000
  const MAX_POLLS := 500
  const MIN_POLL_MS := 1000
  const READS_PER_OPERATION := 5

  function Max(a: int, b: int): int { if a < b then b else a }
  function Min(a: int, b: int): int { if a < b then a else b }

  predicate IsTransient(error: ReadError, allowNotReady: bool) {
    match error
    case Thrown(_) => false
    case Http(status, _) => status in RETRYABLE || (allowNotReady && status in NOT_READY)
    case Transport(recognised, _) => recognised
  }

  function HintOf(error: ReadError): nat {
    match error
    case Http(_, Some(hint)) => hint
    case Transport(_, Some(hint)) => hint
    case _ => 0
  }

  function Backoff(attempt: nat): (ms: nat)
    requires attempt >= 1
    ensures ms == if attempt == 1 then 1000 else if attempt == 2 then 2000 else if attempt == 3 then 4000 else 8000
  {
    if attempt == 1 then 1000 else Min(8000, 2 * Backoff(attempt - 1))
  }

  function PollDelay(pollAfterMs: int): (ms: nat)
    ensures MIN_POLL_MS <= ms <= 10000 && (1000 <= pollAfterMs <= 10000 ==> ms == pollAfterMs)
    ensures (pollAfterMs < 0 ==> ms == 2000) && (0 <= pollAfterMs < 1000 ==> ms == 1000)
    ensures pollAfterMs > 10000 ==> ms == 10000
  {
    if pollAfterMs < 0 then 2000 else Min(10000, Max(1000, pollAfterMs))
  }

  function Attempts(maximum: Option<int>): (attempts: nat)
    ensures 1 <= attempts <= 8 && (maximum.None? ==> attempts == READS_PER_OPERATION)
    ensures maximum.Some? && 1 <= maximum.value <= 8 ==> attempts == maximum.value
  {
    Max(1, Min(8, if maximum.Some? then maximum.value else READS_PER_OPERATION))
  }

  // ---- the environment -----------------------------------------------------------------------

  /** The provider and the clock. A read takes any time up to its timeout and answers anything. */
  class Provider {
    var now: int
    ghost var readCount: nat
    ghost var log: seq<Event>

    constructor (now: int)
      ensures this.now == now && readCount == 0 && log == []
    {
      this.now := now;
      readCount, log := 0, [];
    }

    method Perform(operation: Operation, timeoutMs: int) returns (attempt: Attempt)
      requires timeoutMs >= 1
      modifies this
      ensures old(now) <= now <= old(now) + timeoutMs
      ensures readCount == old(readCount) + 1
      ensures log == old(log) + [Attempted(operation, attempt)]
      ensures attempt.Success? ==> attempt.answer.Images? == operation.Download?
    {
      var elapsed: int := *;
      attempt := *;
      if elapsed < 0 || elapsed > timeoutMs {
        elapsed := timeoutMs;
      }
      if attempt.Success? && attempt.answer.Images? != operation.Download? {
        attempt := Error(Transport(true, None));
      }
      now := now + elapsed;
      readCount := readCount + 1;
      log := log + [Attempted(operation, attempt)];
    }

    method Wait(ms: nat)
      modifies this`now
      ensures now == old(now) + ms
    {
      now := now + ms;
    }

    /** `Math.floor(random() * 250)` with `random()` clamped to [0, 1]. */
    method Jitter() returns (ms: nat)
      ensures ms <= 250
    {
      var drawn: int := *;
      ms := Min(250, Max(0, drawn));
    }
  }

  /** The log grew by attempts of this one operation only. */
  ghost predicate OnlyAttempts(before: seq<Event>, after: seq<Event>, operation: Operation) {
    && |before| <= |after| && after[..|before|] == before
    && forall i :: |before| <= i < |after| ==> after[i].Attempted? && after[i].operation == operation
  }

  /** The least time the waits between these attempts take: after the k-th failure its backoff, or
      the provider's hint if that is longer. */
  ghost function LeastWait(events: seq<Event>): (total: nat) {
    if |events| <= 1 then 0
    else
      var n := |events| - 1;
      LeastWait(events[..n]) + WaitAfter(events[n - 1], n)
  }

  /** No use in reading again: an answer that is no temporary one, or an unrecognised transport error.
      Right after acceptance a task that is not found may only be late. */
  predicate Hopeless(error: ReadError, allowNotReady: bool) {
    match error
    case Thrown(_) => false
    case Http(status, _) =>
      status !in {0, 408, 425, 429, 500, 502, 503, 504} && (allowNotReady ==> status !in {404, 409})
    case Transport(recognised, _) => !recognised
  }

  ghost predicate TransientTry(event: Event, allowNotReady: bool) {
    && event.Attempted? && event.attempt.Error? && !event.attempt.error.Thrown?
    && !Hopeless(event.attempt.error, allowNotReady)
  }

  lemma TransientIff(error: ReadError, allowNotReady: bool)
    ensures IsTransient(error, allowNotReady) <==> !error.Thrown? && !Hopeless(error, allowNotReady)
  {
  }

  /** Why a read gives up, if it threw nothing: an error that is hopeless, all attempts used up, a next wait
      that does not fit before the deadline, or a deadline that has passed before the first attempt. */
  ghost predicate GivesUpReading(tries: seq<Event>, now: int, deadline: int, attempts: nat, allowNotReady: bool,
                                 reason: string) {
    if tries == [] then reason == "read_budget_exhausted" && now >= deadline
    else
      var last := tries[|tries| - 1];
      && last.Attempted? && last.attempt.Error? && !last.attempt.error.Thrown?
      && if Hopeless(last.attempt.error, allowNotReady) then reason == "read_not_retryable"
         else if |tries| >= attempts then reason == "read_budget_exhausted"
         else
           && reason == "retry_hint_exceeds_budget"
           && now + Max(Backoff(|tries|) + 250, HintOf(last.attempt.error)) >= deadline
  }

  /** Every attempt but the last failed in a way that may be retried. */
  ghost predicate RetriedOnlyTransient(events: seq<Event>, allowNotReady: bool) {
    forall i :: 0 <= i < |events| - 1 ==> TransientTry(events[i], allowNotReady)
  }

  /** The wait a failed attempt calls for, when it is the n-th. */
  ghost function WaitAfter(event: Event, n: nat): nat
    requires n >= 1
  {
    Max(Backoff(n), match event case Attempted(_, Error(error)) => HintOf(error) case _ => 0)
  }

  lemma HopelessRead(tries: seq<Event>, now: int, deadline: int, attempts: nat, allowNotReady: bool)
    requires tries != [] && tries[|tries| - 1].Attempted? && tries[|tries| - 1].attempt.Error?
    requires var error := tries[|tries| - 1].attempt.error; !error.Thrown? && !IsTransient(error, allowNotReady)
    ensures GivesUpReading(tries, now, deadline, attempts, allowNotReady, "read_not_retryable")
  {
  }

  lemma NoTimeToWait(tries: seq<Event>, now: int, deadline: int, attempts: nat, allowNotReady: bool)
    requires tries != [] && |tries| < attempts && TransientTry(tries[|tries| - 1], allowNotReady)
    requires now + Max(Backoff(|tries|) + 250, HintOf(tries[|tries| - 1].attempt.error)) >= deadline
    ensures GivesUpReading(tries, now, deadline, attempts, allowNotReady, "retry_hint_exceeds_budget")
  {
  }

  lemma NoMoreAttempts(tries: seq<Event>, now: int, deadline: int, attempts: nat, allowNotReady: bool)
    requires if tries == [] then now >= deadline
             else |tries| >= attempts && TransientTry(tries[|tries| - 1], allowNotReady)
    ensures GivesUpReading(tries, now, deadline, attempts, allowNotReady, "read_budget_exhausted")
  {
  }

  lemma WaitSuffices(operation: Operation, error: ReadError, n: nat, delay: int)
    requires n >= 1 && delay >= Backoff(n) && delay >= HintOf(error)
    ensures delay >= WaitAfter(Attempted(operation, Error(error)), n)
  {
  }

  lemma NoTryYet(before: seq<Event>, operation: Operation, allowNotReady: bool)
    ensures OnlyAttempts(before, before + [], operation) && RetriedOnlyTransient([], allowNotReady)
            && LeastWait([]) == 0
  {
  }

  lemma OneMoreAttempt(before: seq<Event>, events: seq<Event>, event: Event, operation: Operation)
    requires OnlyAttempts(before, before + events, operation) && event.Attempted? && event.operation == operation
    ensures OnlyAttempts(before, before + (events + [event]), operation)
  {
    var longer := before + (events + [event]);
    assert longer[..|before|] == before;
    forall i | |before| <= i < |longer|
      ensures longer[i].Attempted? && longer[i].operation == operation
    {
      if i < |longer| - 1 {
        assert longer[i] == (before + events)[i];
      }
    }
  }

  lemma OneMoreTry(before: seq<Event>, events: seq<Event>, event: Event, operation: Operation, allowNotReady: bool)
    requires RetriedOnlyTransient(events, allowNotReady) && OnlyAttempts(before, before + events, operation)
    requires event.Attempted? && event.operation == operation
    requires events != [] ==> TransientTry(events[|events| - 1], allowNotReady)
    ensures RetriedOnlyTransient(events + [event], allowNotReady)
    ensures OnlyAttempts(before, before + (events + [event]), operation)
    ensures LeastWait(events + [event])
         == LeastWait(events) + if events == [] then 0 else WaitAfter(events[|events| - 1], |events|)
  {
    hide OnlyAttempts, WaitAfter;
    OneMoreAttempt(before, events, event, operation);
    assert (events + [event])[..|events|] == events;
  }

  /** `retryImageRead`; `tries` are the attempts it made. */
  method RetryRead(provider: Provider, operation: Operation, identity: TaskIdentity, stage: Stage, deadline: int,
                   timeoutMs: int, maxAttempts: Option<int>, allowNotReady: bool)
      returns (result: Outcome<Answer>, ghost tries: seq<Event>)
    modifies provider
    ensures old(provider.now) <= provider.now <= Max(old(provider.now), deadline)
    ensures provider.log == old(provider.log) + tries && provider.readCount == old(provider.readCount) + |tries|
    ensures |tries| <= Attempts(maxAttempts) && (tries == [] <==> old(provider.now) >= deadline)
    ensures OnlyAttempts(old(provider.log), provider.log, operation) && RetriedOnlyTransient(tries, allowNotReady)
    ensures provider.now >= old(provider.now) + LeastWait(tries)
    ensures result.Ok? ==> result.value.Images? == operation.Download?
    ensures result.Ok? ==> tries != [] && tries[|tries| - 1] == Attempted(operation, Success(result.value))
    ensures result.Raised? ==>
              || (tries != [] && tries[|tries| - 1] == Attempted(operation, Error(Thrown(result.failure))))
              || (&& result.failure.RecoveryRequired? && result.failure.identity == identity
                  && result.failure.stage == stage
                  && GivesUpReading(tries, provider.now, deadline, Attempts(maxAttempts), allowNotReady,
                                    result.failure.reason))
  {
    hide RetriedOnlyTransient, LeastWait, OnlyAttempts, Backoff, IsTransient, Hopeless, HintOf, WaitAfter,
         GivesUpReading;
    var attempts := Attempts(maxAttempts);
    var attempt := 1;
    ghost var before := provider.log;
    tries := [];
    NoTryYet(before, operation, allowNotReady);
    while attempt <= attempts
      invariant 1 <= attempt <= attempts + 1
      invariant old(provider.now) <= provider.now <= Max(old(provider.now), deadline)
      invariant provider.readCount == old(provider.readCount) + |tries| && |tries| == attempt - 1
      invariant old(provider.now) >= deadline ==> attempt == 1
      invariant attempt == 1 ==> provider.now == old(provider.now)
      invariant 1 < attempt <= attempts ==> provider.now < deadline
      invariant provider.log == before + tries
      invariant OnlyAttempts(before, before + tries, operation) && RetriedOnlyTransient(tries, allowNotReady)
      invariant tries != [] ==> TransientTry(tries[|tries| - 1], allowNotReady)
      invariant provider.now >= old(provider.now) + LeastWait(tries)
      invariant tries != [] && attempt <= attempts ==>
                  provider.now >= old(provider.now) + LeastWait(tries) + WaitAfter(tries[|tries| - 1], |tries|)
    {
      var remaining := deadline - provider.now;
      if remaining <= 0 {
        break;
      }
      var answer := provider.Perform(operation, Max(1, Min(timeoutMs, remaining)));
      OneMoreTry(before, tries, Attempted(operation, answer), operation, allowNotReady);
      tries := tries + [Attempted(operation, answer)];
      if answer.Success? {
        return Ok(answer.answer), tries;
      }
      var error := answer.error;
      if error.Thrown? {
        return Raised(error.failure), tries;
      }
      TransientIff(error, allowNotReady);
      if !IsTransient(error, allowNotReady) {
        HopelessRead(tries, provider.now, deadline, attempts, allowNotReady);
        return Raised(RecoveryRequired(identity, stage, "read_not_retryable")), tries;
      }
      if attempt == attempts {
        attempt := attempt + 1;
        break;
      }
      var jitter := provider.Jitter();
      var delay := Max(Backoff(attempt) + jitter, HintOf(error));
      if delay >= deadline - provider.now {
        NoTimeToWait(tries, provider.now, deadline, attempts, allowNotReady);
        return Raised(RecoveryRequired(identity, stage, "retry_hint_exceeds_budget")), tries;
      }
      provider.Wait(delay);
      WaitSuffices(operation, error, attempt, delay);
      attempt := attempt + 1;
    }
    NoMoreAttempts(tries, provider.now, deadline, attempts, allowNotReady);
    result := Raised(RecoveryRequired(identity, stage, "read_budget_exhausted"));
  }

  // ---- what a session may do -----------------------------------------------------------------

  /** An answer that carries a state or a status URL belongs to the task it names. */
  predicate OnTask(next: TaskSnapshot, taskId: string) {
    next.taskId == "" || next.taskId == taskId || (next.state == "" && next.statusUrl == "")
  }

  ghost predicate SawCompleted(log: seq<Event>) {
    exists j :: 0 <= j < |log| && log[j].Observed? && log[j].snapshot.state in COMPLETED_STATES
  }

  ghost predicate Saw(log: seq<Event>, snapshot: TaskSnapshot) {
    exists j :: 0 <= j < |log| && log[j].Observed? && log[j].snapshot == snapshot
  }

  ghost predicate TaskStays(log: seq<Event>, taskId: string) {
    forall j :: 0 <= j < |log| && log[j].Observed? && log[j].snapshot.taskId != "" ==> log[j].snapshot.taskId == taskId
  }

  predicate NamesImages(snapshot: TaskSnapshot) {
    snapshot.images != [] || snapshot.assets != []
  }

  /** The observation that ends the log was made of a result. */
  predicate FromResult(log: seq<Event>) {
    && |log| >= 2 && log[|log| - 2].Attempted?
    && log[|log| - 2].operation.ReadUrl? && log[|log| - 2].operation.stage == ResultStage
  }

  /** What an observation leads to: what it names is downloaded; otherwise the result of a completed task is
      read, unless it was just that; and otherwise the status is read again. */
  ghost predicate Due(log: seq<Event>, operation: Operation) {
    log != [] && log[|log| - 1].Observed? ==>
      var seen := log[|log| - 1].snapshot;
      if NamesImages(seen) then operation == Download(seen)
      else if seen.state in COMPLETED_STATES && seen.resultUrl != "" && !FromResult(log)
      then operation == ReadUrl(seen.resultUrl, ResultStage)
      else operation == ReadUrl(seen.statusUrl, StatusStage)
  }

  /** What is observed is what the read before it answered; a result without a state has that of its task. */
  predicate Tells(operation: Operation, body: Body, next: TaskSnapshot) {
    var summary := body.summary;
    && operation.ReadUrl?
    && next.taskId == summary.taskId && next.statusUrl == summary.statusUrl && next.resultUrl == summary.resultUrl
    && next.images == summary.images && next.assets == summary.assets && next.failure == summary.failure
    && next.retryAfterMs == (if body.retryAfterMs.Some? then body.retryAfterMs else summary.retryAfterMs)
    && (if operation.stage == ResultStage && summary.state == "" then next.state in COMPLETED_STATES
        else next.state == summary.state)
    && (if operation.stage == ResultStage then next.pollAfterMs >= summary.pollAfterMs
        else next.pollAfterMs == summary.pollAfterMs)
  }

  ghost predicate Reported(log: seq<Event>, next: TaskSnapshot) {
    log != [] ==>
      var last := log[|log| - 1];
      && last.Attempted? && last.attempt.Success? && last.attempt.answer.Document?
      && Tells(last.operation, last.attempt.answer.body, next)
  }

  ghost predicate EventOk(earlier: seq<Event>, event: Event) {
    match event
    case Observed(next, snapshot) =>
      && OnTask(next, snapshot.taskId) && snapshot.state !in TERMINAL_STATES && TaskStays(earlier, snapshot.taskId)
      && snapshot.state !in {"uncertain", "pending_confirmation", "client_disconnected"}
      && (snapshot.state == "" && snapshot.failure != "" ==> NamesImages(snapshot))
      && Reported(earlier, next)
    case Attempted(ReadUrl(url, stage), _) =>
      (stage == ResultStage ==> SawCompleted(earlier)) && Due(earlier, ReadUrl(url, stage))
    case Attempted(Download(snapshot), _) => Saw(earlier, snapshot) && Due(earlier, Download(snapshot))
  }

  /** Nothing is observed for another task, in a terminal or uncertain state, or of an error answer, the known
      task id never changes, the result is read only after a completed state was observed, only an observed snapshot is
      downloaded, and each observation, after the first that of an answer, is acted on before the next. */
  ghost predicate Disciplined(log: seq<Event>) {
    forall i :: 0 <= i < |log| ==> EventOk(log[..i], log[i])
  }

  lemma DisciplinedStep(log: seq<Event>, event: Event)
    requires Disciplined(log) && EventOk(log, event)
    ensures Disciplined(log + [event])
  {
    var longer := log + [event];
    forall i | 0 <= i < |longer|
      ensures EventOk(longer[..i], longer[i])
    {
      assert longer[..i] == log[..i];
      if i == |log| {
        assert log[..i] == log;
      }
    }
  }

  lemma {:induction false} DisciplinedAttempts(before: seq<Event>, after: seq<Event>, operation: Operation)
    requires Disciplined(before) && OnlyAttempts(before, after, operation)
    requires operation.ReadUrl? && operation.stage == ResultStage ==> SawCompleted(before)
    requires operation.Download? ==> Saw(before, operation.snapshot)
    requires Due(before, operation)
    ensures Disciplined(after)
    decreases |after|
  {
    hide Disciplined, Due;
    if |after| == |before| {
      assert after == before;
    } else {
      var n := |after| - 1;
      assert after[..n][..|before|] == before;
      DisciplinedAttempts(before, after[..n], operation);
      AttemptsStayDue(before, after[..n], operation);
      assert SawCompleted(before) ==> SawCompleted(after[..n]) by {
        if SawCompleted(before) {
          var j :| 0 <= j < |before| && before[j].Observed? && before[j].snapshot.state in COMPLETED_STATES;
          assert after[..n][j] == before[j];
        }
      }
      assert operation.Download? ==> Saw(after[..n], operation.snapshot) by {
        if operation.Download? {
          var j :| 0 <= j < |before| && before[j].Observed? && before[j].snapshot == operation.snapshot;
          assert after[..n][j] == before[j];
        }
      }
      DisciplinedStep(after[..n], after[n]);
      assert after == after[..n] + [after[n]];
    }
  }

  lemma AttemptsStayDue(before: seq<Event>, after: seq<Event>, operation: Operation)
    requires OnlyAttempts(before, after, operation) && Due(before, operation)
    ensures Due(after, operation)
  {
    if |after| == |before| {
      assert after == before;
    }
  }

  /** Attempts observe nothing, so what was seen stays what was seen. */
  lemma AttemptsSeeNothing(before: seq<Event>, after: seq<Event>, operation: Operation)
    requires OnlyAttempts(before, after, operation)
    ensures SawCompleted(before) ==> SawCompleted(after)
    ensures forall snapshot :: Saw(before, snapshot) ==> Saw(after, snapshot)
    ensures forall taskId :: TaskStays(before, taskId) ==> TaskStays(after, taskId)
  {
  }

  /** What recording an allowed observation adds to what is known. */
  lemma Recorded(before: seq<Event>, event: Event)
    requires event.Observed? && Disciplined(before) && EventOk(before, event)
    ensures Disciplined(before + [event])
    ensures Saw(before + [event], event.snapshot)
    ensures event.snapshot.state in COMPLETED_STATES || SawCompleted(before) ==> SawCompleted(before + [event])
    ensures TaskStays(before + [event], event.snapshot.taskId)
  {
    DisciplinedStep(before, event);
    var after := before + [event];
    assert after[|before|] == event;
    if SawCompleted(before) {
      var j :| 0 <= j < |before| && before[j].Observed? && before[j].snapshot.state in COMPLETED_STATES;
      assert after[j] == before[j];
    }
  }

  /** Before any task id is known, any task id fits what was seen. */
  lemma FirstTaskFits(log: seq<Event>, known: string, taskId: string)
    requires TaskStays(log, known) && (known != "" ==> taskId == known)
    ensures TaskStays(log, taskId)
  {
  }

  /** A recorded summary with the answer's own Retry-After hint in force. */
  function Hinted(body: Body): TaskSnapshot {
    if body.retryAfterMs.Some? then body.summary.(retryAfterMs := body.retryAfterMs) else body.summary
  }

  /** The identity after an answer: the known task id stays, newer URLs replace older ones. */
  function Joined(identity: TaskIdentity, next: TaskSnapshot,
                  normalize: Option<(string, string) -> string>): TaskIdentity {
    var taskId := if identity.taskId != "" then identity.taskId else next.taskId;
    var statusUrl := if next.statusUrl != "" then next.statusUrl else identity.statusUrl;
    TaskIdentity(taskId,
                 if normalize.Some? && statusUrl != "" then normalize.value(statusUrl, taskId) else statusUrl,
                 if next.resultUrl != "" then next.resultUrl else identity.resultUrl)
  }

  function Stamped(next: TaskSnapshot, identity: TaskIdentity): TaskSnapshot {
    next.(taskId := identity.taskId, statusUrl := identity.statusUrl, resultUrl := identity.resultUrl,
          pollAfterMs := PollDelay(next.pollAfterMs))
  }

  /** Why `observe` does not accept a stamped snapshot, if it does not. */
  function Refusal(snapshot: TaskSnapshot, identity: TaskIdentity): Option<Failure> {
    if snapshot.state in TERMINAL_STATES then
      Some(TerminalFailure(identity.taskId, snapshot.state))
    else if snapshot.state == "" && snapshot.failure != "" && snapshot.images == [] && snapshot.assets == [] then
      Some(RecoveryRequired(identity, StatusStage, "invalid_task_read_response"))
    else if snapshot.state in UNCERTAIN_STATES then
      Some(RecoveryRequired(identity, StatusStage, snapshot.state))
    else
      None
  }

  /** An answer that is not accepted: of another task, in a terminal or uncertain state, or no snapshot. */
  predicate Refuses(failure: Failure, next: TaskSnapshot) {
    match failure
    case TerminalFailure(_, state) => state == next.state && state in TERMINAL_STATES
    case RecoveryRequired(identity, stage, reason) =>
      && stage == StatusStage
      && (|| (reason == "task_identity_mismatch" && next.taskId != "" && next.taskId != identity.taskId
              && (next.state != "" || next.statusUrl != ""))
          || (reason == "invalid_task_read_response" && next.state == "" && next.failure != "" && !NamesImages(next))
          || (reason == next.state && next.state in {"uncertain", "pending_confirmation", "client_disconnected"}))
  }

  /** The read that ends the log answered, and its answer is not accepted. */
  ghost predicate AnswerRefused(log: seq<Event>, failure: Failure) {
    && log != [] && log[|log| - 1].Attempted? && log[|log| - 1].attempt.Success?
    && log[|log| - 1].attempt.answer.Document?
    && exists next ::
         Tells(log[|log| - 1].operation, log[|log| - 1].attempt.answer.body, next) && Refuses(failure, next)
  }

  /** The attempts that end the log were given up, or the last of them threw. */
  ghost predicate ReadFailed(log: seq<Event>, failure: Failure, now: int, deadline: int) {
    || Threw(log, failure)
    || (failure.RecoveryRequired? && exists n, operation, allowNotReady ::
          GivenUpAt(log, n, operation, now, deadline, allowNotReady, failure.reason))
  }

  ghost predicate GivenUpAt(log: seq<Event>, n: int, operation: Operation, now: int, deadline: int, allowNotReady: bool,
                            reason: string) {
    && 0 <= n <= |log| && OnlyAttempts(log[..n], log, operation)
    && GivesUpReading(log[n..], now, deadline, READS_PER_OPERATION, allowNotReady, reason)
  }

  lemma GivenUp(before: seq<Event>, tries: seq<Event>, operation: Operation, failure: Failure, now: int, deadline: int,
                allowNotReady: bool)
    requires OnlyAttempts(before, before + tries, operation)
    requires || (tries != [] && tries[|tries| - 1] == Attempted(operation, Error(Thrown(failure))))
             || (failure.RecoveryRequired?
                 && GivesUpReading(tries, now, deadline, READS_PER_OPERATION, allowNotReady, failure.reason))
    ensures ReadFailed(before + tries, failure, now, deadline)
  {
    hide OnlyAttempts, GivesUpReading;
    var log := before + tries;
    assert log[..|before|] == before && log[|before|..] == tries;
    if failure.RecoveryRequired? && GivesUpReading(tries, now, deadline, READS_PER_OPERATION, allowNotReady,
                                                   failure.reason) {
      assert GivenUpAt(log, |before|, operation, now, deadline, allowNotReady, failure.reason);
    }
  }

  /** The last answer is this list of downloaded images. */
  ghost predicate Delivered(log: seq<Event>, images: seq<string>) {
    && log != [] && log[|log| - 1].Attempted? && log[|log| - 1].operation.Download?
    && log[|log| - 1].attempt == Success(Images(images))
  }

  /** The first thing after these events was an attempt at this operation. */
  ghost predicate FirstReads(before: seq<Event>, after: seq<Event>, operation: Operation) {
    |before| < |after| && after[|before|].Attempted? && after[|before|].operation == operation
  }

  /** The last read itself threw this typed failure. */
  ghost predicate Threw(log: seq<Event>, failure: Failure) {
    && log != [] && log[|log| - 1].Attempted? && log[|log| - 1].attempt == Error(Thrown(failure))
  }

  // ---- one polling session -------------------------------------------------------------------

  /** The local variables that `pollAcceptedImageTask` and its closures share. */
  class Session {
    const provider: Provider
    const deadline: int
    const graceMs: int
    const statusTimeoutMs: int
    const defaultStatusUrl: Option<string -> string>
    const normalizeStatusUrl: Option<(string, string) -> string>
    ghost const start: int
    ghost const startReads: nat
    ghost var turns: nat
    ghost var seenAt: int
    var identity: TaskIdentity
    var snapshot: TaskSnapshot
    var completedAt: Option<int>

    constructor (provider: Provider, initial: Body, deadline: int, graceMs: int, statusTimeoutMs: int,
                 defaultStatusUrl: Option<string -> string>, normalizeStatusUrl: Option<(string, string) -> string>)
      requires provider.log == []
      ensures this.provider == provider && this.deadline == deadline && this.graceMs == graceMs
      ensures start == provider.now && startReads == provider.readCount
      ensures InOrder() && completedAt.None?
      ensures identity.taskId == initial.summary.taskId && identity.resultUrl == initial.summary.resultUrl
      ensures initial.summary.statusUrl != "" ==> identity.statusUrl == initial.summary.statusUrl
      ensures initial.summary.statusUrl == "" ==>
                identity.statusUrl == if initial.summary.taskId != "" && defaultStatusUrl.Some?
                                      then defaultStatusUrl.value(initial.summary.taskId) else ""
      ensures snapshot == initial.summary.(retryAfterMs := snapshot.retryAfterMs)
      ensures snapshot.retryAfterMs == if initial.retryAfterMs.Some? then initial.retryAfterMs
                                       else initial.summary.retryAfterMs
    {
      start, startReads, turns, seenAt := provider.now, provider.readCount, 0, provider.now;
      this.provider, this.deadline, this.graceMs := provider, deadline, graceMs;
      this.statusTimeoutMs := statusTimeoutMs;
      this.defaultStatusUrl, this.normalizeStatusUrl := defaultStatusUrl, normalizeStatusUrl;
      var first := initial.summary;
      snapshot := Hinted(initial);
      identity := TaskIdentity(first.taskId,
                               if first.statusUrl == "" && first.taskId != "" && defaultStatusUrl.Some?
                               then defaultStatusUrl.value(first.taskId) else first.statusUrl,
                               first.resultUrl);
      completedAt := None;
    }

    function EffectiveDeadline(): int
      reads this
    {
      if completedAt.Some? then Min(deadline, completedAt.value + graceMs) else deadline
    }

    /** Never later than the deadline, nor than the grace period once a completed state was seen. */
    ghost predicate InTime()
      reads this, provider
    {
      && start <= provider.now <= Max(start, deadline)
      && (completedAt.Some? ==> start <= completedAt.value <= provider.now <= completedAt.value + Max(0, graceMs))
    }

    /** What is known before the first observation and after every later step. */
    ghost predicate InOrder()
      reads this, provider
    {
      && InTime()
      && Disciplined(provider.log)
      && TaskStays(provider.log, identity.taskId)
      && (completedAt.Some? ==> SawCompleted(provider.log))
    }

    /** The current snapshot has been observed and belongs to this task. */
    ghost predicate Current()
      reads this, provider
    {
      && Saw(provider.log, snapshot) && snapshot.pollAfterMs >= MIN_POLL_MS
      && snapshot.taskId == identity.taskId && snapshot.statusUrl == identity.statusUrl
      && snapshot.resultUrl == identity.resultUrl && seenAt <= provider.now
      && (snapshot.state in COMPLETED_STATES ==> completedAt.Some?)
    }

    /** The current snapshot has been observed just now. */
    ghost predicate JustObserved()
      reads this, provider
    {
      provider.log != [] && provider.log[|provider.log| - 1].Observed?
      && provider.log[|provider.log| - 1].snapshot == snapshot
    }

    /** The next thing to do is to read the status. */
    ghost predicate StatusIsNext()
      reads this, provider
    {
      Due(provider.log, ReadUrl(identity.statusUrl, StatusStage))
    }

    /** As much time has passed since the last observation as it asked for. */
    ghost predicate Rested()
      reads this, provider
    {
      && provider.now >= seenAt + snapshot.pollAfterMs
      && (snapshot.retryAfterMs.Some? ==> provider.now >= seenAt + snapshot.retryAfterMs.value)
    }

    /** The next wait would not end before the deadline. */
    predicate NoTimeToPoll()
      reads this, provider
    {
      || provider.now + snapshot.pollAfterMs >= EffectiveDeadline()
      || (snapshot.retryAfterMs.Some? && provider.now + snapshot.retryAfterMs.value >= EffectiveDeadline())
    }

    /** A failure speaks of this session's task, or is the one the last read threw. */
    ghost predicate Explains(failure: Failure)
      reads this, provider
    {
      || Threw(provider.log, failure)
      || (failure.TerminalFailure? && failure.taskId == identity.taskId && failure.state in TERMINAL_STATES)
      || (failure.RecoveryRequired? && failure.identity == identity)
    }

    /** The task id is write-once, the deadline never moves later, completion is noted once. */
    twostate predicate Steady()
      reads this
    {
      && (old(identity.taskId) != "" ==> identity.taskId == old(identity.taskId))
      && EffectiveDeadline() <= old(EffectiveDeadline())
      && (old(completedAt).Some? ==> completedAt == old(completedAt))
    }

    /** The known task id stays; a newer URL replaces the known one, and the status URL is normalised. */
    ghost predicate Newest(known: TaskIdentity, next: TaskSnapshot, after: TaskIdentity)
      reads this
    {
      && (known.taskId != "" ==> after.taskId == known.taskId)
      && (known.taskId == "" ==> after.taskId == next.taskId)
      && (next.resultUrl != "" ==> after.resultUrl == next.resultUrl)
      && (next.resultUrl == "" ==> after.resultUrl == known.resultUrl)
      && var url := if next.statusUrl != "" then next.statusUrl else known.statusUrl;
         after.statusUrl == if normalizeStatusUrl.Some? && url != ""
                            then normalizeStatusUrl.value(url, after.taskId) else url
    }

    /** The closure `observe`. */
    method Observe(next: TaskSnapshot) returns (raised: Option<Failure>)
      requires InOrder() && Reported(provider.log, next)
      modifies this`identity, this`snapshot, this`completedAt, this`seenAt, provider`log
      ensures InOrder() && Steady()
      ensures raised.None? ==> Current() && JustObserved() && OnTask(next, identity.taskId)
      ensures raised.None? ==>
                completedAt == if old(completedAt).None? && next.state in COMPLETED_STATES then Some(provider.now)
                               else old(completedAt)
      ensures raised.None? ==>
                identity == Joined(old(identity), next, normalizeStatusUrl)
                && snapshot == Stamped(next, identity)
      ensures raised.None? ==> Newest(old(identity), next, identity)
      ensures raised.None? ==> provider.log == old(provider.log) + [Observed(next, snapshot)]
      ensures raised.Some? ==>
                Explains(raised.value) && Refuses(raised.value, next) && provider.log == old(provider.log)
      ensures raised.Some? <==>
                !OnTask(next, Joined(old(identity), next, normalizeStatusUrl).taskId)
                || Refusal(Stamped(next, Joined(old(identity), next, normalizeStatusUrl)),
                           Joined(old(identity), next, normalizeStatusUrl)).Some?
    {
      hide Disciplined, Saw, SawCompleted, TaskStays, Refusal, Reported;
      if identity.taskId != "" && next.taskId != "" && next.taskId != identity.taskId
         && (next.state != "" || next.statusUrl != "") {
        return Some(RecoveryRequired(identity, StatusStage, "task_identity_mismatch"));
      }
      identity := Joined(identity, next, normalizeStatusUrl);
      snapshot := Stamped(next, identity);
      FirstTaskFits(provider.log, old(identity.taskId), identity.taskId);
      RefusalExplained(next, identity);
      raised := Refusal(snapshot, identity);
      if raised.Some? {
        return;
      }
      if snapshot.state in COMPLETED_STATES && completedAt.None? {
        completedAt := Some(provider.now);
      }
      seenAt := provider.now;
      Recorded(provider.log, Observed(next, snapshot));
      provider.log := provider.log + [Observed(next, snapshot)];
    }

    /** The closure `acquire`: downloads what the current snapshot names. */
    method Acquire() returns (result: Outcome<seq<string>>)
      requires InOrder() && Current() && JustObserved()
      modifies provider
      ensures InOrder() && Current() && provider.now >= old(provider.now)
      ensures provider.readCount <= old(provider.readCount) + READS_PER_OPERATION
      ensures old(provider.log) <= provider.log
      ensures if snapshot.images == [] && snapshot.assets == []
              then result == Ok([]) && provider.log == old(provider.log)
              else (result.Ok? ==> Delivered(provider.log, result.value))
      ensures result.Raised? ==> Explains(result.failure)
      ensures result.Raised? ==> ReadFailed(provider.log, result.failure, provider.now, EffectiveDeadline())
    {
      hide Disciplined, Saw, SawCompleted, TaskStays, GivesUpReading, OnlyAttempts, LeastWait, RetriedOnlyTransient;
      if snapshot.images == [] && snapshot.assets == [] {
        return Ok([]);
      }
      var operation := Download(snapshot);
      ghost var tries;
      var answer;
      answer, tries := RetryRead(provider, operation, identity, AssetStage, EffectiveDeadline(), READ_TIMEOUT_MS, None,
                                 true);
      if answer.Raised? {
        GivenUp(old(provider.log), tries, operation, answer.failure, provider.now, EffectiveDeadline(), true);
      }
      DisciplinedAttempts(old(provider.log), provider.log, operation);
      AttemptsSeeNothing(old(provider.log), provider.log, operation);
      result := if answer.Ok? then Ok(answer.value.images) else Raised(answer.failure);
    }

    /** A read of the task's status or of its result. */
    method Fetch(url: string, stage: Stage, timeoutMs: int, allowNotReady: bool) returns (result: Outcome<Body>)
      requires InOrder() && Current() && Due(provider.log, ReadUrl(url, stage))
      requires stage == ResultStage ==> completedAt.Some?
      modifies provider
      ensures InOrder() && Current() && provider.now >= old(provider.now)
      ensures provider.readCount <= old(provider.readCount) + READS_PER_OPERATION
      ensures old(provider.log) <= provider.log
      ensures result.Ok? ==> FirstReads(old(provider.log), provider.log, ReadUrl(url, stage))
      ensures result.Ok? ==>
                provider.log[|provider.log| - 1] == Attempted(ReadUrl(url, stage), Success(Document(result.value)))
      ensures old(provider.now) < EffectiveDeadline() ==> |provider.log| > |old(provider.log)|
      ensures result.Raised? ==> Explains(result.failure)
      ensures result.Raised? ==> ReadFailed(provider.log, result.failure, provider.now, EffectiveDeadline())
    {
      hide Disciplined, Saw, SawCompleted, TaskStays, GivesUpReading, LeastWait, RetriedOnlyTransient, Due;
      var operation := ReadUrl(url, stage);
      ghost var tries;
      var answer;
      answer, tries := RetryRead(provider, operation, identity, stage, EffectiveDeadline(), timeoutMs, None,
                                 allowNotReady);
      if answer.Raised? {
        GivenUp(old(provider.log), tries, operation, answer.failure, provider.now, EffectiveDeadline(), allowNotReady);
      }
      DisciplinedAttempts(old(provider.log), provider.log, operation);
      AttemptsSeeNothing(old(provider.log), provider.log, operation);
      result := if answer.Ok? then Ok(answer.value.body) else Raised(answer.failure);
    }

    /** The closure `readCompletedResult`. */
    method ReadCompletedResult() returns (result: Outcome<seq<string>>)
      requires InOrder() && Current() && provider.log != []
      requires provider.log[|provider.log| - 1].Observed? ==>
                 JustObserved() && !NamesImages(snapshot) && !FromResult(provider.log)
      modifies this`identity, this`snapshot, this`completedAt, this`seenAt, provider
      ensures InOrder() && Steady() && provider.now >= old(provider.now)
      ensures provider.readCount <= old(provider.readCount) + 2 * READS_PER_OPERATION
      ensures result.Ok? ==> Current()
      ensures result.Ok? && result.value != [] ==> Delivered(provider.log, result.value)
      ensures result.Raised? ==> Explains(result.failure)
      ensures old(provider.log) <= provider.log
      ensures if old(snapshot).state !in COMPLETED_STATES || old(identity).resultUrl == ""
              then result == Ok([]) && provider.log == old(provider.log)
              else result.Ok? ==>
                     FirstReads(old(provider.log), provider.log, ReadUrl(old(identity).resultUrl, ResultStage))
      ensures result == Ok([]) ==> StatusIsNext()
      ensures result.Raised? ==>
                || ReadFailed(provider.log, result.failure, provider.now, EffectiveDeadline())
                || AnswerRefused(provider.log, result.failure)
    {
      hide Disciplined, Saw, SawCompleted, TaskStays, ReadFailed;
      if snapshot.state !in COMPLETED_STATES || identity.resultUrl == "" {
        return Ok([]);
      }
      var answer := Fetch(identity.resultUrl, ResultStage, READ_TIMEOUT_MS, true);
      if answer.Raised? {
        return Raised(answer.failure);
      }
      var next := Hinted(answer.value);
      next := next.(state := if next.state != "" then next.state else snapshot.state,
                    pollAfterMs := Max(snapshot.pollAfterMs, next.pollAfterMs));
      var raised := Observe(next);
      if raised.Some? {
        return Raised(raised.value);
      }
      result := Acquire();
    }

    /** One turn of the polling loop, after the wait the last observation asked for: a status read, then
        what it makes available. */
    method PollOnce(missing: nat) returns (result: Outcome<seq<string>>)
      requires InOrder() && Current() && StatusIsNext() && Rested()
      modifies this`identity, this`snapshot, this`completedAt, this`seenAt, this`turns, provider
      ensures InOrder() && Steady() && turns == old(turns) + 1 && provider.now >= old(provider.now)
      ensures provider.readCount <= old(provider.readCount) + 4 * READS_PER_OPERATION
      ensures result.Ok? ==> Current()
      ensures result.Ok? && result.value != [] ==> Delivered(provider.log, result.value)
      ensures old(provider.log) <= provider.log
      ensures result.Ok? ==> FirstReads(old(provider.log), provider.log, ReadUrl(old(identity).statusUrl, StatusStage))
      ensures old(provider.now) < old(EffectiveDeadline()) ==> |provider.log| > |old(provider.log)|
      ensures result == Ok([]) ==> StatusIsNext()
      ensures result.Raised? ==> Explains(result.failure)
      ensures result.Raised? ==>
                || ReadFailed(provider.log, result.failure, provider.now, EffectiveDeadline())
                || AnswerRefused(provider.log, result.failure)
    {
      hide Disciplined, Saw, SawCompleted, TaskStays, ReadFailed, Joined, Stamped, OnTask, Refusal;
      turns := turns + 1;
      var status := Fetch(identity.statusUrl, StatusStage, statusTimeoutMs, missing < 2);
      if status.Raised? {
        return Raised(status.failure);
      }
      var raised := Observe(Hinted(status.value));
      if raised.Some? {
        return Raised(raised.value);
      }
      result := Acquire();
      if result.Raised? || result.value != [] {
        return;
      }
      result := ReadCompletedResult();
    }

    /** `for (let poll = 0; poll < 500; poll += 1)` and the two errors that end it: each turn follows a
        wait of at least a second, and the loop is left without images only after 500 turns, when the
        next wait does not fit before the deadline, or for what a read or its answer failed with. */
    method PollUntilDeadline() returns (result: Outcome<seq<string>>)
      requires InOrder() && Current() && StatusIsNext()
      modifies this`identity, this`snapshot, this`completedAt, this`seenAt, this`turns, provider
      ensures InOrder() && Steady()
      ensures turns <= old(turns) + MAX_POLLS && provider.now >= old(provider.now) + MIN_POLL_MS * (turns - old(turns))
      ensures provider.readCount <= old(provider.readCount) + (turns - old(turns)) * 4 * READS_PER_OPERATION
      ensures result.Ok? ==> result.value != [] && Delivered(provider.log, result.value)
      ensures old(provider.log) <= provider.log
      ensures result.Raised? && provider.log == old(provider.log) ==>
                result.failure
                == if completedAt.None? then RecoveryRequired(identity, StatusStage, "task_wait_exhausted")
                   else RecoveryRequired(identity, ResultStage, "result_not_ready")
      ensures result.Raised? ==> Explains(result.failure)
      ensures result.Raised? ==>
                || ReadFailed(provider.log, result.failure, provider.now, EffectiveDeadline())
                || AnswerRefused(provider.log, result.failure)
                || (StatusIsNext() && (turns == old(turns) + MAX_POLLS || NoTimeToPoll()))
    {
      hide Disciplined, Saw, SawCompleted, TaskStays, ReadFailed, AnswerRefused, Due;
      var poll := 0;
      while poll < MAX_POLLS
        invariant poll <= MAX_POLLS
        invariant InOrder() && Current() && Steady() && StatusIsNext() && old(provider.log) <= provider.log
        invariant turns == old(turns) + poll && provider.now >= old(provider.now) + MIN_POLL_MS * poll
        invariant provider.readCount <= old(provider.readCount) + poll * 4 * READS_PER_OPERATION
      {
        var delay := Max(if snapshot.pollAfterMs != 0 then snapshot.pollAfterMs else 2000,
                         if snapshot.retryAfterMs.Some? then snapshot.retryAfterMs.value else 0);
        if delay >= EffectiveDeadline() - provider.now {
          break;
        }
        provider.Wait(delay);
        result := PollOnce(poll);
        if result.Raised? || result.value != [] {
          return;
        }
        poll := poll + 1;
      }
      result := Raised(if completedAt.None?
                       then RecoveryRequired(identity, StatusStage, "task_wait_exhausted")
                       else RecoveryRequired(identity, ResultStage, "result_not_ready"));
    }

    /** `pollAcceptedImageTask` after its first local declarations. */
    method Poll() returns (result: Outcome<seq<string>>)
      requires InOrder() && provider.log == [] && completedAt.None?
      modifies this`identity, this`snapshot, this`completedAt, this`seenAt, this`turns, provider
      ensures InTime() && Steady() && Disciplined(provider.log)
      ensures turns <= old(turns) + MAX_POLLS && provider.now >= old(provider.now) + MIN_POLL_MS * (turns - old(turns))
      ensures provider.readCount <= old(provider.readCount) + 15 + 500 * 20
      ensures result.Ok? ==> result.value != [] && Delivered(provider.log, result.value)
      ensures result.Raised? ==> Explains(result.failure)
      ensures result.Raised? ==>
                || (provider.log == [] && Refuses(result.failure, old(snapshot)))
                || ReadFailed(provider.log, result.failure, provider.now, EffectiveDeadline())
                || AnswerRefused(provider.log, result.failure)
                || (StatusIsNext()
                    && (identity.statusUrl == "" || turns == old(turns) + MAX_POLLS || NoTimeToPoll()))
    {
      hide Disciplined, Saw, SawCompleted, TaskStays, ReadFailed, AnswerRefused;
      var raised := Observe(snapshot);
      if raised.Some? {
        return Raised(raised.value);
      }
      result := Acquire();
      if result.Raised? || result.value != [] {
        return;
      }
      result := ReadCompletedResult();
      if result.Raised? || result.value != [] {
        return;
      }
      if identity.taskId == "" && identity.statusUrl == "" {
        return Raised(RecoveryRequired(identity, StatusStage, "missing_task_receipt"));
      }
      if identity.statusUrl == "" {
        return Raised(RecoveryRequired(identity, StatusStage, "missing_status_url"));
      }
      result := PollUntilDeadline();
    }
  }

  /** A refusal names the session's task, and a snapshot that is not refused is not terminal. */
  lemma RefusalExplained(next: TaskSnapshot, identity: TaskIdentity)
    ensures var r := Refusal(Stamped(next, identity), identity);
            && (next.state in TERMINAL_STATES ==> r.Some?)
            && (next.state in {"uncertain", "pending_confirmation", "client_disconnected"} ==> r.Some?)
            && (next.state == "" && next.failure != "" && !NamesImages(next) ==> r.Some?)
            && (r.Some? ==>
                  && Refuses(r.value, next)
                  && (|| (r.value.TerminalFailure? && r.value.taskId == identity.taskId
                          && r.value.state in TERMINAL_STATES)
                      || (r.value.RecoveryRequired? && r.value.identity == identity)))
  {
  }

  /** Whatever a disciplined session delivers was downloaded from a snapshot it had observed for
      its own task, in a state that is not terminal; and that task is the task of every
      observation so far. */
  lemma DeliveredFromOwnTask(log: seq<Event>, images: seq<string>)
    requires Disciplined(log) && Delivered(log, images)
    ensures exists j :: 0 <= j < |log| - 1 && log[j].Observed?
                        && log[|log| - 1].operation == Download(log[j].snapshot)
                        && log[j].snapshot.state !in TERMINAL_STATES
                        && OnTask(log[j].next, log[j].snapshot.taskId)
                        && TaskStays(log[..j], log[j].snapshot.taskId)
  {
  }

  /** Two observations of a disciplined session that know a task id know the same one. */
  lemma OneTaskPerSession(log: seq<Event>, i: nat, j: nat)
    requires Disciplined(log) && i < j < |log| && log[i].Observed? && log[j].Observed?
    requires log[i].snapshot.taskId != ""
    ensures log[j].snapshot.taskId == log[i].snapshot.taskId
  {
  }

  /** The result URL is read only after a completed state was observed. */
  lemma ResultAfterCompletion(log: seq<Event>, i: nat)
    requires Disciplined(log) && i < |log| && log[i].Attempted?
    requires log[i].operation.ReadUrl? && log[i].operation.stage == ResultStage
    ensures exists j :: 0 <= j < i && log[j].Observed? && log[j].snapshot.state in COMPLETED_STATES
  {
  }
}
