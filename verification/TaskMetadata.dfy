/** Bounded public task metadata (src/modules/ai/image-task-metadata.ts). */
module TaskMetadata {
  import opened JsonValues

  /** The two text classifiers the projection relies on: `safe` is the blank, control-character
      and credential filter of `text`; `dated` says that `Date.parse` yields a finite time. */
  datatype Policy = Policy(safe: string -> bool, dated: string -> bool)

  datatype Action = Action(
    actionId: string, operation: string,
    title: Option<string>, requiresPrompt: Option<bool>, requiresMask: Option<bool>)

  datatype Metadata = Metadata(
    taskId: string, actions: seq<Action>,
    operation: Option<string>, speed: Option<string>, requiresModal: Option<bool>,
    parentTaskId: Option<string>, expiresAt: Option<string>)

  const MAX_ACTIONS := 32
  const MAX_DEPTH := 4

  predicate Admissible(p: Policy, value: string, maximum: nat) {
    |value| <= maximum && p.safe(value)
  }

  function TextOf(p: Policy, value: Option<Json>, maximum: nat): Option<string> {
    match value
    case Some(Text(text)) => if Admissible(p, text, maximum) then Some(text) else None
    case _ => None
  }

  function FlagOf(value: Option<Json>): Option<bool> {
    match value
    case Some(Boolean(flag)) => Some(flag)
    case _ => None
  }

  function ActionOf(p: Policy, candidate: Json): Option<Action> {
    match candidate
    case Object(fields) =>
      var id := match Either(fields, "actionId", "action_id")
        case Some(json) => if json == Null then Get(fields, "custom_id") else Some(json)
        case None => Get(fields, "custom_id");
      var actionId := TextOf(p, id, 512);
      var operation := TextOf(p, Get(fields, "operation"), 64);
      if actionId.None? || operation.None? then None
      else Some(Action(actionId.value, operation.value,
                       TextOf(p, Get(fields, "label"), 200),
                       FlagOf(Either(fields, "requiresPrompt", "requires_prompt")),
                       FlagOf(Either(fields, "requiresMask", "requires_mask"))))
    case _ => None
  }

  predicate Listed(actions: seq<Action>, actionId: string) {
    exists i :: 0 <= i < |actions| && actions[i].actionId == actionId
  }

  /** The first occurrence of every recognised action, in order. */
  function ActionsOf(p: Policy, candidates: seq<Json>): (actions: seq<Action>)
    ensures |actions| <= |candidates|
    ensures DistinctIds(actions)
    ensures forall i :: 0 <= i < |actions| ==> ActionCanonical(p, actions[i])
  {
    if candidates == [] then []
    else
      var earlier := ActionsOf(p, candidates[..|candidates| - 1]);
      match ActionOf(p, candidates[|candidates| - 1])
      case None => earlier
      case Some(action) => if Listed(earlier, action.actionId) then earlier else earlier + [action]
  }

  /** `candidates.slice(0, 32)` */
  function FirstActions(candidates: seq<Json>): (first: seq<Json>)
    ensures |first| <= MAX_ACTIONS
    ensures first <= candidates
  {
    if |candidates| < MAX_ACTIONS then candidates else candidates[..MAX_ACTIONS]
  }

  /** The collecting loop of `metadataFromRow`. */
  method CollectActions(p: Policy, candidates: seq<Json>) returns (actions: seq<Action>)
    ensures actions == ActionsOf(p, FirstActions(candidates))
  {
    actions := [];
    var first := FirstActions(candidates);
    for i := 0 to |first|
      invariant actions == ActionsOf(p, first[..i])
    {
      assert first[..i + 1][..i] == first[..i];
      var action := ActionOf(p, first[i]);
      if action.None? || Listed(actions, action.value.actionId) {
        continue;
      }
      actions := actions + [action.value];
    }
    assert first[..|first|] == first;
  }

  function Candidates(fields: seq<Field>): seq<Json> {
    match Get(fields, "actions")
    case Some(Array(items)) => items
    case _ =>
      match Get(fields, "buttons")
      case Some(Array(items)) => items
      case _ => []
  }

  function FromRow(p: Policy, fields: seq<Field>, taskId: string): (m: Metadata)
    ensures Admissible(p, taskId, 512) ==> Canonical(p, m)
  {
    var expiry := TextOf(p, Either(fields, "expiresAt", "expires_at"), 80);
    Metadata(taskId,
             ActionsOf(p, FirstActions(Candidates(fields))),
             TextOf(p, Get(fields, "operation"), 64),
             TextOf(p, Get(fields, "speed"), 64),
             FlagOf(Either(fields, "requiresModal", "requires_modal")),
             TextOf(p, Either(fields, "parentTaskId", "parent_task_id"), 512),
             if expiry.Some? && p.dated(expiry.value) then expiry else None)
  }

  function Merge(previous: Option<Metadata>, next: Option<Metadata>): Option<Metadata> {
    if next.None? then previous
    else if previous.None? then next
    else if previous.value.taskId != next.value.taskId then previous
    else
      var a, b := previous.value, next.value;
      Some(Metadata(a.taskId, if b.actions != [] then b.actions else a.actions,
                    Over(a.operation, b.operation), Over(a.speed, b.speed),
                    Over(a.requiresModal, b.requiresModal), Over(a.parentTaskId, b.parentTaskId),
                    Over(a.expiresAt, b.expiresAt)))
  }

  /** One property of `{ ...previous, ...next }` */
  function Over<T>(previous: Option<T>, next: Option<T>): Option<T> {
    if next.Some? then next else previous
  }

  const NESTED_KEYS := ["raw", "data", "task", "result", "response", "image_task", "midjourney"]

  function Visit(p: Policy, found: Option<Metadata>, candidate: Option<Json>, taskId: string,
                 depth: nat): Option<Metadata>
    requires depth <= MAX_DEPTH + 1
    decreases MAX_DEPTH + 1 - depth, |NESTED_KEYS| + 1
  {
    match candidate
    case Some(Object(fields)) =>
      var explicit := Either(fields, "taskId", "task_id");
      if depth > MAX_DEPTH || (explicit.Some? && explicit != Some(Text(taskId))) then found
      else VisitKeys(p, Merge(found, Some(FromRow(p, fields, taskId))), fields, taskId, depth, NESTED_KEYS)
    case _ => found
  }

  function VisitKeys(p: Policy, found: Option<Metadata>, fields: seq<Field>, taskId: string, depth: nat,
                     keys: seq<string>): Option<Metadata>
    requires depth <= MAX_DEPTH
    decreases MAX_DEPTH + 1 - depth, |keys|
  {
    if keys == [] then found
    else VisitKeys(p, Visit(p, found, Get(fields, keys[0]), taskId, depth + 1), fields, taskId, depth, keys[1..])
  }

  function Extract(p: Policy, value: Json, acceptedTaskId: string): Option<Metadata> {
    if !Admissible(p, acceptedTaskId, 512) then None
    else Visit(p, None, Some(value), acceptedTaskId, 0)
  }

  function Project(p: Policy, value: Json): Option<Metadata> {
    match value
    case Object(fields) =>
      var taskId := TextOf(p, Get(fields, "taskId"), 512);
      if Get(fields, "version") == Some(Number("1")) && taskId.Some?
      then Some(FromRow(p, fields, taskId.value)) else None
    case _ => None
  }

  // ---- the stored representation -------------------------------------------------------------

  function TextJson(value: Option<string>): Option<Json> {
    match value case Some(text) => Some(Text(text)) case None => None
  }

  function FlagJson(value: Option<bool>): Option<Json> {
    match value case Some(flag) => Some(Boolean(flag)) case None => None
  }

  function ActionFields(a: Action): seq<Field> {
    Entry("actionId", Some(Text(a.actionId)))
    + (Entry("operation", Some(Text(a.operation)))
    + (Entry("label", TextJson(a.title))
    + (Entry("requiresPrompt", FlagJson(a.requiresPrompt))
    + (Entry("requiresMask", FlagJson(a.requiresMask)) + []))))
  }

  function ActionJsons(actions: seq<Action>): (jsons: seq<Json>)
    ensures |jsons| == |actions|
    ensures forall i :: 0 <= i < |actions| ==> jsons[i] == Object(ActionFields(actions[i]))
  {
    seq(|actions|, i requires 0 <= i < |actions| => Object(ActionFields(actions[i])))
  }

  function MetadataFields(m: Metadata): seq<Field> {
    Entry("version", Some(Number("1")))
    + (Entry("taskId", Some(Text(m.taskId)))
    + (Entry("actions", Some(Array(ActionJsons(m.actions))))
    + (Entry("operation", TextJson(m.operation))
    + (Entry("speed", TextJson(m.speed))
    + (Entry("requiresModal", FlagJson(m.requiresModal))
    + (Entry("parentTaskId", TextJson(m.parentTaskId))
    + (Entry("expiresAt", TextJson(m.expiresAt)) + [])))))))
  }

  function ToJson(m: Metadata): Json {
    Object(MetadataFields(m))
  }

  // ---- what the projection accepts -----------------------------------------------------------

  predicate OptionalText(p: Policy, value: Option<string>, maximum: nat) {
    value.Some? ==> Admissible(p, value.value, maximum)
  }

  predicate ActionCanonical(p: Policy, a: Action) {
    && Admissible(p, a.actionId, 512)
    && Admissible(p, a.operation, 64)
    && OptionalText(p, a.title, 200)
  }

  predicate DistinctIds(actions: seq<Action>) {
    forall i, j :: 0 <= i < j < |actions| ==> actions[i].actionId != actions[j].actionId
  }

  predicate Canonical(p: Policy, m: Metadata) {
    && Admissible(p, m.taskId, 512)
    && |m.actions| <= MAX_ACTIONS
    && DistinctIds(m.actions)
    && (forall i :: 0 <= i < |m.actions| ==> ActionCanonical(p, m.actions[i]))
    && OptionalText(p, m.operation, 64)
    && OptionalText(p, m.speed, 64)
    && OptionalText(p, m.parentTaskId, 512)
    && OptionalText(p, m.expiresAt, 80)
    && (m.expiresAt.Some? ==> p.dated(m.expiresAt.value))
  }

  ghost predicate AllCanonical(p: Policy, m: Option<Metadata>) {
    m.Some? ==> Canonical(p, m.value)
  }

  lemma ActionField(a: Action, key: string)
    ensures Get(ActionFields(a), key) ==
            if key == "actionId" then Some(Text(a.actionId))
            else if key == "operation" then Some(Text(a.operation))
            else if key == "label" then TextJson(a.title)
            else if key == "requiresPrompt" then FlagJson(a.requiresPrompt)
            else if key == "requiresMask" then FlagJson(a.requiresMask)
            else None
  {
    var tail4 := Entry("requiresMask", FlagJson(a.requiresMask)) + [];
    var tail3 := Entry("requiresPrompt", FlagJson(a.requiresPrompt)) + tail4;
    var tail2 := Entry("label", TextJson(a.title)) + tail3;
    var tail1 := Entry("operation", Some(Text(a.operation))) + tail2;
    GetEntry("actionId", Some(Text(a.actionId)), tail1, key);
    GetEntry("operation", Some(Text(a.operation)), tail2, key);
    GetEntry("label", TextJson(a.title), tail3, key);
    GetEntry("requiresPrompt", FlagJson(a.requiresPrompt), tail4, key);
    GetEntry("requiresMask", FlagJson(a.requiresMask), [], key);
  }

  lemma MetadataField(m: Metadata, key: string)
    ensures Get(MetadataFields(m), key) ==
            if key == "version" then Some(Number("1"))
            else if key == "taskId" then Some(Text(m.taskId))
            else if key == "actions" then Some(Array(ActionJsons(m.actions)))
            else if key == "operation" then TextJson(m.operation)
            else if key == "speed" then TextJson(m.speed)
            else if key == "requiresModal" then FlagJson(m.requiresModal)
            else if key == "parentTaskId" then TextJson(m.parentTaskId)
            else if key == "expiresAt" then TextJson(m.expiresAt)
            else None
  {
    var tail7 := Entry("expiresAt", TextJson(m.expiresAt)) + [];
    var tail6 := Entry("parentTaskId", TextJson(m.parentTaskId)) + tail7;
    var tail5 := Entry("requiresModal", FlagJson(m.requiresModal)) + tail6;
    var tail4 := Entry("speed", TextJson(m.speed)) + tail5;
    var tail3 := Entry("operation", TextJson(m.operation)) + tail4;
    var tail2 := Entry("actions", Some(Array(ActionJsons(m.actions)))) + tail3;
    var tail1 := Entry("taskId", Some(Text(m.taskId))) + tail2;
    GetEntry("version", Some(Number("1")), tail1, key);
    GetEntry("taskId", Some(Text(m.taskId)), tail2, key);
    GetEntry("actions", Some(Array(ActionJsons(m.actions))), tail3, key);
    GetEntry("operation", TextJson(m.operation), tail4, key);
    GetEntry("speed", TextJson(m.speed), tail5, key);
    GetEntry("requiresModal", FlagJson(m.requiresModal), tail6, key);
    GetEntry("parentTaskId", TextJson(m.parentTaskId), tail7, key);
    GetEntry("expiresAt", TextJson(m.expiresAt), [], key);
  }

  lemma ActionRoundTrip(p: Policy, a: Action)
    requires ActionCanonical(p, a)
    ensures ActionOf(p, Object(ActionFields(a))) == Some(a)
  {
    ActionField(a, "actionId");
    ActionField(a, "operation");
    ActionField(a, "label");
    ActionField(a, "requiresPrompt");
    ActionField(a, "requires_prompt");
    ActionField(a, "requiresMask");
    ActionField(a, "requires_mask");
  }

  lemma {:induction false} ActionsRoundTrip(p: Policy, actions: seq<Action>)
    requires DistinctIds(actions)
    requires forall i :: 0 <= i < |actions| ==> ActionCanonical(p, actions[i])
    ensures ActionsOf(p, ActionJsons(actions)) == actions
  {
    hide ActionOf, ActionFields;
    if actions == [] {
    } else {
      var n := |actions| - 1;
      ActionsRoundTrip(p, actions[..n]);
      ActionRoundTrip(p, actions[n]);
      assert ActionJsons(actions)[..n] == ActionJsons(actions[..n]);
      assert !Listed(actions[..n], actions[n].actionId);
      assert actions == actions[..n] + [actions[n]];
    }
  }

  /** A stored optional property is read back through its own key or not at all. */
  lemma StoredProperty(m: Metadata, key: string, alternative: string)
    requires key in {"requiresModal", "parentTaskId", "expiresAt"}
    requires alternative in {"requires_modal", "parent_task_id", "expires_at"}
    ensures Either(MetadataFields(m), key, alternative) == Get(MetadataFields(m), key)
  {
    MetadataField(m, key);
    MetadataField(m, alternative);
  }

  /** What the projection keeps of a stored value, property by property. */
  function Normalized(p: Policy, m: Metadata, actions: seq<Action>): Metadata {
    var expiry := TextOf(p, TextJson(m.expiresAt), 80);
    Metadata(m.taskId, actions,
             TextOf(p, TextJson(m.operation), 64), TextOf(p, TextJson(m.speed), 64),
             FlagOf(FlagJson(m.requiresModal)), TextOf(p, TextJson(m.parentTaskId), 512),
             if expiry.Some? && p.dated(expiry.value) then expiry else None)
  }

  lemma StoredRow(p: Policy, m: Metadata)
    ensures FromRow(p, MetadataFields(m), m.taskId)
         == Normalized(p, m, ActionsOf(p, FirstActions(ActionJsons(m.actions))))
  {
    MetadataField(m, "actions");
    MetadataField(m, "operation");
    MetadataField(m, "speed");
    StoredProperty(m, "requiresModal", "requires_modal");
    MetadataField(m, "requiresModal");
    StoredProperty(m, "parentTaskId", "parent_task_id");
    MetadataField(m, "parentTaskId");
    StoredProperty(m, "expiresAt", "expires_at");
    MetadataField(m, "expiresAt");
  }

  lemma CanonicalIsNormal(p: Policy, m: Metadata)
    requires Canonical(p, m)
    ensures Normalized(p, m, m.actions) == m
  {
  }

  lemma CanonicalActions(p: Policy, m: Metadata)
    requires Canonical(p, m)
    ensures ActionsOf(p, FirstActions(ActionJsons(m.actions))) == m.actions
  {
    assert FirstActions(ActionJsons(m.actions)) == ActionJsons(m.actions);
    ActionsRoundTrip(p, m.actions);
  }

  lemma ProjectStored(p: Policy, m: Metadata)
    ensures Project(p, ToJson(m)) ==
            if Admissible(p, m.taskId, 512) then Some(FromRow(p, MetadataFields(m), m.taskId)) else None
  {
    MetadataField(m, "version");
    MetadataField(m, "taskId");
  }

  /** Storing metadata and projecting it again gives it back exactly when it is canonical: at most
      32 actions, distinct ids, every text admissible and within its length. */
  lemma StoredValueFixedPoint(p: Policy, m: Metadata)
    ensures Project(p, ToJson(m)) == Some(m) <==> Canonical(p, m)
  {
    hide Project, ToJson, FromRow, Normalized, ActionsOf;
    ProjectStored(p, m);
    StoredRow(p, m);
    if Canonical(p, m) {
      CanonicalIsNormal(p, m);
      CanonicalActions(p, m);
    }
  }

  lemma MergeCanonical(p: Policy, previous: Option<Metadata>, next: Option<Metadata>)
    requires AllCanonical(p, previous) && AllCanonical(p, next)
    ensures AllCanonical(p, Merge(previous, next))
  {
  }

  lemma {:induction false} VisitCanonical(p: Policy, found: Option<Metadata>, candidate: Option<Json>, taskId: string,
                                          depth: nat)
    requires depth <= MAX_DEPTH + 1 && Admissible(p, taskId, 512)
    requires AllCanonical(p, found) && (found.Some? ==> found.value.taskId == taskId)
    ensures AllCanonical(p, Visit(p, found, candidate, taskId, depth))
    ensures Visit(p, found, candidate, taskId, depth).Some? ==>
              Visit(p, found, candidate, taskId, depth).value.taskId == taskId
    decreases MAX_DEPTH + 1 - depth, |NESTED_KEYS| + 1
  {
    if candidate.Some? && candidate.value.Object? && depth <= MAX_DEPTH {
      var fields := candidate.value.fields;
      var merged := Merge(found, Some(FromRow(p, fields, taskId)));
      MergeCanonical(p, found, Some(FromRow(p, fields, taskId)));
      VisitKeysCanonical(p, merged, fields, taskId, depth, NESTED_KEYS);
    }
  }

  lemma {:induction false} VisitKeysCanonical(p: Policy, found: Option<Metadata>, fields: seq<Field>, taskId: string,
                                              depth: nat, keys: seq<string>)
    requires depth <= MAX_DEPTH && Admissible(p, taskId, 512)
    requires AllCanonical(p, found) && (found.Some? ==> found.value.taskId == taskId)
    ensures AllCanonical(p, VisitKeys(p, found, fields, taskId, depth, keys))
    ensures VisitKeys(p, found, fields, taskId, depth, keys).Some? ==>
              VisitKeys(p, found, fields, taskId, depth, keys).value.taskId == taskId
    decreases MAX_DEPTH + 1 - depth, |keys|
  {
    if keys != [] {
      VisitCanonical(p, found, Get(fields, keys[0]), taskId, depth + 1);
      VisitKeysCanonical(p, Visit(p, found, Get(fields, keys[0]), taskId, depth + 1), fields, taskId, depth, keys[1..]);
    }
  }

  /** Everything extracted for an accepted task carries that task's id and survives storage. */
  lemma ExtractedIsFixedPoint(p: Policy, value: Json, taskId: string)
    ensures Extract(p, value, taskId).Some? ==>
              var m := Extract(p, value, taskId).value;
              m.taskId == taskId && Project(p, ToJson(m)) == Some(m)
  {
    if Admissible(p, taskId, 512) {
      VisitCanonical(p, None, Some(value), taskId, 0);
      var found := Extract(p, value, taskId);
      if found.Some? {
        StoredValueFixedPoint(p, found.value);
      }
    }
  }

  /** Whatever is known of `a` is known of `m`. */
  predicate KnowsWhat(m: Metadata, a: Metadata) {
    && (a.actions != [] ==> m.actions != [])
    && (a.operation.Some? ==> m.operation.Some?) && (a.speed.Some? ==> m.speed.Some?)
    && (a.requiresModal.Some? ==> m.requiresModal.Some?) && (a.parentTaskId.Some? ==> m.parentTaskId.Some?)
    && (a.expiresAt.Some? ==> m.expiresAt.Some?)
  }

  /** Whatever is known of `b` is so in `m`. */
  predicate Repeats(m: Metadata, b: Metadata) {
    && (b.actions != [] ==> m.actions == b.actions)
    && (b.operation.Some? ==> m.operation == b.operation) && (b.speed.Some? ==> m.speed == b.speed)
    && (b.requiresModal.Some? ==> m.requiresModal == b.requiresModal)
    && (b.parentTaskId.Some? ==> m.parentTaskId == b.parentTaskId)
    && (b.expiresAt.Some? ==> m.expiresAt == b.expiresAt)
  }

  /** Merging two stored values gives a stored value of the same task again, with no fewer known facts
      and with every fact the newer value of that task states. */
  lemma MergedIsFixedPoint(p: Policy, a: Metadata, b: Metadata)
    requires Project(p, ToJson(a)) == Some(a) && Project(p, ToJson(b)) == Some(b)
    ensures Merge(Some(a), Some(b)).Some?
    ensures var m := Merge(Some(a), Some(b)).value;
            && Project(p, ToJson(m)) == Some(m)
            && m.taskId == a.taskId
            && KnowsWhat(m, a)
            && (b.taskId == a.taskId ==> Repeats(m, b))
            && (b.taskId != a.taskId ==> m == a)
  {
    StoredValueFixedPoint(p, a);
    StoredValueFixedPoint(p, b);
    MergeCanonical(p, Some(a), Some(b));
    StoredValueFixedPoint(p, Merge(Some(a), Some(b)).value);
  }
}
