/** The journal an image operation keeps in its request row
    (src/modules/ai/image-operation-service.ts). */
module Journals {
  import opened JsonValues
  import opened TaskMetadata

  datatype OpStatus =
    | Queued | Dispatching | Running | Paused | Uncertain
    | Success | Failed | Canceled | ClientDisconnected

  predicate Stopped(status: OpStatus) {
    status == Failed || status == Canceled || status == ClientDisconnected
  }

  predicate Ended(status: OpStatus) {
    status == Success || Stopped(status)
  }

  /** The seven fields every terminal transaction compares. */
  datatype Identity = Identity(
    fingerprint: string, providerId: string, routeId: string, submittedModel: string,
    receiptKey: string, operation: string, speed: string)

  datatype Origin = Origin(identity: Identity, connection: string, clientRequestId: string)

  datatype Delivery = Delivery(images: seq<string>, texts: seq<string>, uploadedUrls: seq<string>, requiresModal: bool)

  /** An absent `taskId` is `None`; a context is kept as its present keys. */
  datatype Journal = Journal(
    origin: Origin, taskId: Option<string>, status: OpStatus,
    context: Option<map<string, string>>, metadata: Option<Metadata>,
    delivery: Delivery, charged: int, nextRefreshAt: int,
    pollAfterMs: Option<int>, errorCode: Option<string>)

  /** The `result` column. Only operations keep a version-1 journal there. */
  datatype Stored = Nothing | Operation(journal: Journal) | Media | MusicReceipt

  /** `readJournal`: a FAILED row never shows a journal that still looks open. */
  function ReadJournal(rowFailed: bool, stored: Stored): Option<Journal> {
    match stored
    case Operation(journal) =>
      if rowFailed && !Stopped(journal.status)
      then Some(journal.(status := Failed, errorCode := Some("image_operation_failed"), charged := 0))
      else Some(journal)
    case _ => None
  }

  function ContextOf(j: Journal): map<string, string> {
    if j.context.Some? then j.context.value else map[]
  }

  /** What `saveJournal` writes over the prior journal it read. */
  function MergeJournal(prior: Journal, journal: Journal): Journal {
    var metadata := Merge(prior.metadata, journal.metadata);
    journal.(
      context := if prior.context.Some? || journal.context.Some?
                 then Some(ContextOf(prior) + ContextOf(journal)) else None,
      metadata := if metadata.Some? then metadata else journal.metadata)
  }

  predicate HasActions(j: Journal) {
    j.metadata.Some? && j.metadata.value.actions != []
  }

  /** The later journal knows every context key the earlier one had, still has metadata if the
      earlier one did, and still offers actions if the earlier one did. */
  ghost predicate Grows(earlier: Journal, later: Journal) {
    && (earlier.context.Some? ==> later.context.Some?)
    && ContextOf(earlier).Keys <= ContextOf(later).Keys
    && (earlier.metadata.Some? ==> later.metadata.Some?)
    && (HasActions(earlier) ==> HasActions(later))
  }

  lemma MergeGrows(prior: Journal, journal: Journal)
    ensures Grows(prior, MergeJournal(prior, journal))
    ensures MergeJournal(prior, journal).origin == journal.origin
    ensures MergeJournal(prior, journal).taskId == journal.taskId
    ensures forall key :: key in ContextOf(journal) ==>
              key in ContextOf(MergeJournal(prior, journal))
              && ContextOf(MergeJournal(prior, journal))[key] == ContextOf(journal)[key]
  {
  }

  // ---- recognising the provider's answer -----------------------------------------------------

  function SafeTaskId(value: Option<Json>): Option<string> {
    match value
    case Some(Text(id)) =>
      if 0 < |id| <= 512 && forall i :: 0 <= i < |id| ==> id[i] >= ' ' && id[i] != 127 as char
      then Some(id) else None
    case _ => None
  }

  function ExplicitTaskId(fields: seq<Field>): Option<string> {
    SafeTaskId(Either(fields, "task_id", "taskId"))
  }

  function NestedEnvelope(fields: seq<Field>, keys: seq<string>, expected: Option<string>): Option<seq<Field>> {
    if keys == [] then None
    else
      match Get(fields, keys[0])
      case Some(Object(nested)) =>
        var id := ExplicitTaskId(nested);
        if id.Some? && (expected.None? || expected == id) then Some(nested)
        else NestedEnvelope(fields, keys[1..], expected)
      case _ => NestedEnvelope(fields, keys[1..], expected)
  }

  /** `taskEnvelope`: the record that names the task itself, or the first nested record that does. */
  function TaskEnvelope(value: Json, expected: Option<string>): Option<seq<Field>> {
    match value
    case Object(fields) =>
      var explicit := ExplicitTaskId(fields);
      if explicit.Some? then (if expected.None? || expected == explicit then Some(fields) else None)
      else NestedEnvelope(fields, ["data", "task", "result", "response"], expected)
    case _ => None
  }

  lemma {:induction false} NestedEnvelopeIdentified(fields: seq<Field>, keys: seq<string>, expected: Option<string>)
    ensures var found := NestedEnvelope(fields, keys, expected);
            found.Some? ==>
              ExplicitTaskId(found.value).Some?
              && (expected.Some? ==> ExplicitTaskId(found.value) == expected)
  {
    if keys != [] {
      NestedEnvelopeIdentified(fields, keys[1..], expected);
    }
  }

  /** An accepted envelope always names a usable task, and the expected one when one is expected. */
  lemma TaskEnvelopeIdentified(value: Json, expected: Option<string>)
    ensures var found := TaskEnvelope(value, expected);
            found.Some? ==>
              ExplicitTaskId(found.value).Some?
              && (expected.Some? ==> ExplicitTaskId(found.value) == expected)
  {
    if value.Object? {
      NestedEnvelopeIdentified(value.fields, ["data", "task", "result", "response"], expected);
    }
  }

  /** A provider answer after the configured envelope, together with the values the route
      configuration and the clock add to it: classified state, status URL and next read time. */
  datatype Reading = Reading(envelope: Json, state: OpStatus, statusUrl: string, now: int, pause: nat)

  const INHERITED := {"originalImageDimensions", "parentOperation", "parentTaskId", "parentClientRequestId"}

  function Inherited(context: map<string, string>): map<string, string> {
    map key | key in context && key in INHERITED && context[key] != "" :: context[key]
  }

  function OwnContext(j: Journal, taskId: string, statusUrl: string): map<string, string> {
    var i := j.origin.identity;
    map[
      "version" := "1", "protocol" := "GENERIC_TASK", "providerId" := i.providerId, "routeId" := i.routeId,
      "submittedModel" := i.submittedModel, "operation" := i.operation, "speed" := i.speed,
      "taskId" := taskId, "providerConnectionFingerprint" := j.origin.connection, "statusUrl" := statusUrl]
  }

  function FreshContext(j: Journal, taskId: string, statusUrl: string): map<string, string> {
    Inherited(ContextOf(j)) + OwnContext(j, taskId, statusUrl)
  }

  /** The answer speaks about another operation, speed, parent or model than the one submitted. */
  predicate Contradicts(j: Journal, metadata: Option<Metadata>, fields: seq<Field>) {
    var parent := ContextOf(j);
    || (metadata.Some? && metadata.value.operation.Some?
        && metadata.value.operation.value != j.origin.identity.operation)
    || (metadata.Some? && metadata.value.speed.Some? && metadata.value.speed.value != j.origin.identity.speed)
    || ("parentTaskId" in parent && parent["parentTaskId"] != "" && metadata.Some?
        && metadata.value.parentTaskId.Some? && metadata.value.parentTaskId.value != parent["parentTaskId"])
    || (match Get(fields, "model")
        case Some(Text(model)) => model != j.origin.identity.submittedModel
        case _ => false)
  }

  /** The identity part of `processSnapshot`: the next journal, or `None` when the answer does not
      prove which task it belongs to. */
  function Interpret(p: Policy, j: Journal, r: Reading): Option<Journal> {
    match TaskEnvelope(r.envelope, j.taskId)
    case None => None
    case Some(fields) =>
      var id := ExplicitTaskId(fields);
      if id.None? then None
      else
        var metadata := Merge(j.metadata, Extract(p, Object(fields), id.value));
        if Contradicts(j, metadata, fields) then None
        else Some(j.(taskId := id, status := r.state,
                     context := Some(FreshContext(j, id.value, r.statusUrl)),
                     metadata := metadata, nextRefreshAt := r.now + r.pause,
                     pollAfterMs := Some(r.pause), errorCode := None))
  }

  /** The metadata names no other operation or speed than the receipt, and no other parent task than
      its context. */
  predicate Agrees(j: Journal) {
    var (identity, context) := (j.origin.identity, ContextOf(j));
    && "taskId" in context
    && (j.metadata.Some? ==>
          && j.metadata.value.operation in {None, Some(identity.operation)}
          && j.metadata.value.speed in {None, Some(identity.speed)}
          && ("parentTaskId" in context && j.metadata.value.parentTaskId.Some? ==>
              j.metadata.value.parentTaskId.value == context["parentTaskId"]))
  }

  lemma OwnIsNotInherited(j: Journal, taskId: string, statusUrl: string)
    ensures forall key :: key in INHERITED ==> key !in OwnContext(j, taskId, statusUrl)
    ensures "taskId" in OwnContext(j, taskId, statusUrl) && OwnContext(j, taskId, statusUrl)["taskId"] == taskId
  {
  }

  /** The later context has under this key the text of the earlier one, or nothing if that had none. */
  predicate Inherits(before: map<string, string>, after: map<string, string>, key: string) {
    if key in before && before[key] != "" then key in after && after[key] == before[key] else key !in after
  }

  lemma FreshInherits(j: Journal, taskId: string, statusUrl: string)
    ensures var context := FreshContext(j, taskId, statusUrl);
            && "taskId" in context && context["taskId"] == taskId
            && forall key :: key in INHERITED ==> Inherits(ContextOf(j), context, key)
  {
    hide ContextOf, OwnContext;
    OwnIsNotInherited(j, taskId, statusUrl);
  }

  /** What an answer leads to belongs to the same receipt: its origin and the task id it already had. */
  lemma InterpretIdentified(p: Policy, j: Journal, r: Reading)
    ensures var next := Interpret(p, j, r);
            next.Some? ==>
              && next.value.taskId.Some? && next.value.origin == j.origin
              && (j.taskId.Some? ==> next.value.taskId == j.taskId)
  {
    TaskEnvelopeIdentified(r.envelope, j.taskId);
  }

  lemma AgreesUncontradicted(j: Journal, next: Journal, fields: seq<Field>)
    requires next.origin == j.origin && "taskId" in ContextOf(next) && !Contradicts(j, next.metadata, fields)
    requires "parentTaskId" in ContextOf(next) ==>
               "parentTaskId" in ContextOf(j) && ContextOf(next)["parentTaskId"] == ContextOf(j)["parentTaskId"] != ""
    ensures Agrees(next)
  {
    hide ContextOf, Get;
    if next.metadata.Some? {
      var m := next.metadata.value;
      assert m.operation.None? || m.operation == Some(j.origin.identity.operation);
      assert m.speed.None? || m.speed == Some(j.origin.identity.speed);
    }
  }

  /** It also agrees with the operation, speed and parent that were submitted, names the accepted task
      in its context, and inherits what it was given of the parent. */
  lemma InterpretAgrees(p: Policy, j: Journal, r: Reading)
    ensures var next := Interpret(p, j, r);
            next.Some? ==>
              && Agrees(next.value)
              && Some(ContextOf(next.value)["taskId"]) == next.value.taskId
              && Inherits(ContextOf(j), ContextOf(next.value), "originalImageDimensions")
              && Inherits(ContextOf(j), ContextOf(next.value), "parentOperation")
              && Inherits(ContextOf(j), ContextOf(next.value), "parentTaskId")
              && Inherits(ContextOf(j), ContextOf(next.value), "parentClientRequestId")
  {
    hide TaskEnvelope, ExplicitTaskId, Extract, Merge, FreshContext, Contradicts, Agrees;
    var next := Interpret(p, j, r);
    if next.Some? {
      FreshInherits(j, next.value.taskId.value, r.statusUrl);
      assert ContextOf(next.value) == FreshContext(j, next.value.taskId.value, r.statusUrl);
      AgreesUncontradicted(j, next.value, TaskEnvelope(r.envelope, j.taskId).value);
    }
  }

  // ---- which answers are accepted ------------------------------------------------------------

  /** A task id is a text of 1 to 512 characters without control characters, under `task_id` or, where
      that is absent or null, under `taskId`. */
  predicate IsTaskId(fields: seq<Field>, id: string) {
    && (Get(fields, "task_id") == Some(Text(id))
        || (Get(fields, "task_id") in {None, Some(Null)} && Get(fields, "taskId") == Some(Text(id))))
    && 1 <= |id| <= 512 && forall c :: c in id ==> ' ' <= c && c != 127 as char
  }

  lemma ExplicitTaskIdIff(fields: seq<Field>, id: string)
    ensures ExplicitTaskId(fields) == Some(id) <==> IsTaskId(fields, id)
  {
    var plain := forall i :: 0 <= i < |id| ==> id[i] >= ' ' && id[i] != 127 as char;
    assert plain ==> forall c :: c in id ==> ' ' <= c && c != 127 as char;
    if forall c :: c in id ==> ' ' <= c && c != 127 as char {
      assert forall i :: 0 <= i < |id| ==> id[i] in id;
    }
    assert Either(fields, "task_id", "taskId") == Some(Text(id))
      <==> (Get(fields, "task_id") == Some(Text(id))
            || (Get(fields, "task_id") in {None, Some(Null)} && Get(fields, "taskId") == Some(Text(id))));
  }

  const WRAPPERS := ["data", "task", "result", "response"]

  /** The record of the answer that says which task it is about: the answer itself, or, if that names
      none, the first of its four wrapped records that names the expected task, or any if none is. */
  ghost predicate NamesTask(envelope: Json, expected: Option<string>, fields: seq<Field>, id: string) {
    && envelope.Object? && IsTaskId(fields, id) && expected in {None, Some(id)}
    && if exists own :: IsTaskId(envelope.fields, own) then fields == envelope.fields
       else exists i :: WrappedAt(envelope.fields, expected, i, fields)
  }

  ghost predicate Names(fields: seq<Field>, expected: Option<string>) {
    exists id :: IsTaskId(fields, id) && expected in {None, Some(id)}
  }

  ghost predicate WrappedAt(outer: seq<Field>, expected: Option<string>, i: int, fields: seq<Field>) {
    && 0 <= i < |WRAPPERS| && Get(outer, WRAPPERS[i]) == Some(Object(fields))
    && NoneNames(outer, expected, 0, i)
  }

  lemma NamesIff(fields: seq<Field>, expected: Option<string>)
    ensures var id := ExplicitTaskId(fields);
            Names(fields, expected) <==> id.Some? && (expected.None? || expected == id)
  {
    hide ExplicitTaskId, IsTaskId;
    forall id {
      ExplicitTaskIdIff(fields, id);
    }
    if ExplicitTaskId(fields).Some? {
      ExplicitTaskIdIff(fields, ExplicitTaskId(fields).value);
    }
  }

  /** No wrapped record from the n-th to the m-th names the expected task. */
  ghost predicate NoneNames(outer: seq<Field>, expected: Option<string>, n: int, m: int) {
    forall j :: 0 <= n <= j < m <= |WRAPPERS| ==>
      match Get(outer, WRAPPERS[j])
      case Some(Object(fields)) => !Names(fields, expected)
      case _ => true
  }

  lemma {:induction false} NestedIff(outer: seq<Field>, n: nat, expected: Option<string>)
    requires n <= |WRAPPERS|
    ensures var found := NestedEnvelope(outer, WRAPPERS[n..], expected);
            if found.Some?
            then Names(found.value, expected)
                 && exists i :: n <= i < |WRAPPERS| && Get(outer, WRAPPERS[i]) == Some(Object(found.value))
                      && NoneNames(outer, expected, n, i)
            else NoneNames(outer, expected, n, |WRAPPERS|)
    decreases |WRAPPERS| - n
  {
    hide Get, ExplicitTaskId, Names;
    if n < |WRAPPERS| {
      assert WRAPPERS[n..][1..] == WRAPPERS[n + 1..];
      NestedIff(outer, n + 1, expected);
      var value := Get(outer, WRAPPERS[n]);
      if value.Some? && value.value.Object? {
        NamesIff(value.value.fields, expected);
      }
    }
  }

  lemma NothingNamed(fields: seq<Field>)
    ensures ExplicitTaskId(fields).None? <==> forall id :: !IsTaskId(fields, id)
  {
    hide ExplicitTaskId, IsTaskId;
    forall id {
      ExplicitTaskIdIff(fields, id);
    }
    if ExplicitTaskId(fields).Some? {
      ExplicitTaskIdIff(fields, ExplicitTaskId(fields).value);
    }
  }

  lemma WrappedIff(outer: seq<Field>, expected: Option<string>, fields: seq<Field>)
    ensures NestedEnvelope(outer, WRAPPERS, expected) == Some(fields)
       <==> Names(fields, expected) && exists i :: WrappedAt(outer, expected, i, fields)
  {
    hide Get, Names, NestedEnvelope;
    NestedIff(outer, 0, expected);
    assert WRAPPERS[0..] == WRAPPERS;
    var found := NestedEnvelope(outer, WRAPPERS, expected);
    if found.Some? {
      var i :| 0 <= i < |WRAPPERS| && Get(outer, WRAPPERS[i]) == Some(Object(found.value))
        && NoneNames(outer, expected, 0, i);
      assert WrappedAt(outer, expected, i, found.value);
      forall m | WrappedAt(outer, expected, m, fields) && Names(fields, expected)
        ensures m == i
      {
      }
    }
  }

  /** The envelope is found exactly where an answer names its task. */
  lemma TaskEnvelopeIff(value: Json, expected: Option<string>, fields: seq<Field>)
    ensures TaskEnvelope(value, expected) == Some(fields) <==> exists id :: NamesTask(value, expected, fields, id)
  {
    hide ExplicitTaskId, IsTaskId, NestedEnvelope, WrappedAt;
    if value.Object? {
      NothingNamed(value.fields);
      NamesIff(value.fields, expected);
      WrappedIff(value.fields, expected, fields);
      if exists own :: IsTaskId(value.fields, own) {
        OwnIff(value, expected, fields);
      } else {
        WrapIff(value, expected, fields);
      }
    }
  }

  lemma WrapIff(value: Json, expected: Option<string>, fields: seq<Field>)
    requires value.Object? && !exists own :: IsTaskId(value.fields, own)
    ensures (exists id :: NamesTask(value, expected, fields, id))
       <==> Names(fields, expected) && exists i :: WrappedAt(value.fields, expected, i, fields)
  {
    hide IsTaskId, WrappedAt;
    if Names(fields, expected) && exists i :: WrappedAt(value.fields, expected, i, fields) {
      var id :| IsTaskId(fields, id) && expected in {None, Some(id)};
      assert NamesTask(value, expected, fields, id);
    }
  }

  lemma OwnIff(value: Json, expected: Option<string>, fields: seq<Field>)
    requires value.Object? && exists own :: IsTaskId(value.fields, own)
    ensures (exists id :: NamesTask(value, expected, fields, id)) <==> fields == value.fields && Names(fields, expected)
  {
    hide IsTaskId, WrappedAt;
    if fields == value.fields && Names(fields, expected) {
      var id :| IsTaskId(fields, id) && expected in {None, Some(id)};
      assert NamesTask(value, expected, fields, id);
    }
  }

  /** The answer says nothing else than was submitted: no other operation, speed, parent or model. */
  predicate SpeaksOf(p: Policy, j: Journal, fields: seq<Field>, id: string) {
    var (m, identity) := (Merge(j.metadata, Extract(p, Object(fields), id)), j.origin.identity);
    && (m.Some? ==>
          && m.value.operation in {None, Some(identity.operation)} && m.value.speed in {None, Some(identity.speed)}
          && (m.value.parentTaskId.None? || "parentTaskId" !in ContextOf(j) || ContextOf(j)["parentTaskId"] == ""
              || m.value.parentTaskId.value == ContextOf(j)["parentTaskId"]))
    && match Get(fields, "model")
       case Some(Text(model)) => model == identity.submittedModel
       case _ => true
  }

  ghost predicate Recognised(p: Policy, j: Journal, r: Reading, id: string) {
    exists fields :: NamesTask(r.envelope, j.taskId, fields, id) && SpeaksOf(p, j, fields, id)
  }

  /** An answer is accepted exactly when it names its task and speaks of what was submitted; then the
      journal has that task, the state that was read and the time of the next reading
      (`RecognisedNext`). */
  lemma AcceptedIff(p: Policy, j: Journal, r: Reading)
    ensures Interpret(p, j, r).Some? <==> exists id :: Recognised(p, j, r, id)
  {
    hide Recognised, SpeaksOf, Contradicts, NamesTask, TaskEnvelope, ExplicitTaskId;
    var found := TaskEnvelope(r.envelope, j.taskId);
    if Interpret(p, j, r).Some? {
      TaskEnvelopeIff(r.envelope, j.taskId, found.value);
      var id :| NamesTask(r.envelope, j.taskId, found.value, id);
      NamedId(r.envelope, j.taskId, found.value, id);
      SpeaksIff(p, j, found.value, id);
      RecognisedBy(p, j, r, found.value, id);
    }
    forall id | Recognised(p, j, r, id) {
      RecognisedNext(p, j, r, id);
    }
  }

  lemma RecognisedNext(p: Policy, j: Journal, r: Reading, id: string)
    requires Recognised(p, j, r, id)
    ensures var next := Interpret(p, j, r);
            && next.Some? && next.value.taskId == Some(id) && next.value.status == r.state
            && next.value.errorCode.None? && next.value.nextRefreshAt == r.now + r.pause
            && next.value.pollAfterMs == Some(r.pause) && next.value.origin == j.origin
            && next.value.delivery == j.delivery && next.value.charged == j.charged
  {
    hide SpeaksOf, Contradicts, NamesTask, TaskEnvelope, ExplicitTaskId, FreshContext, Merge, Extract;
    var fields :| NamesTask(r.envelope, j.taskId, fields, id) && SpeaksOf(p, j, fields, id);
    TaskEnvelopeIff(r.envelope, j.taskId, fields);
    NamedId(r.envelope, j.taskId, fields, id);
    SpeaksIff(p, j, fields, id);
  }

  lemma RecognisedBy(p: Policy, j: Journal, r: Reading, fields: seq<Field>, id: string)
    requires NamesTask(r.envelope, j.taskId, fields, id) && SpeaksOf(p, j, fields, id)
    ensures Recognised(p, j, r, id)
  {
  }

  lemma SpeaksIff(p: Policy, j: Journal, fields: seq<Field>, id: string)
    ensures SpeaksOf(p, j, fields, id)
       <==> !Contradicts(j, Merge(j.metadata, Extract(p, Object(fields), id)), fields)
  {
    hide Merge, Extract, Get;
  }

  lemma NamedId(envelope: Json, expected: Option<string>, fields: seq<Field>, id: string)
    requires NamesTask(envelope, expected, fields, id)
    ensures ExplicitTaskId(fields) == Some(id)
  {
    hide ExplicitTaskId, WrappedAt;
    ExplicitTaskIdIff(fields, id);
  }
}
