/** What `extractImageTaskMetadata` finds (src/modules/ai/image-task-metadata.ts:38-105): of each property,
    the last statement in reading order among the records of the answer that do not name another task. */
module MetadataExtraction {
  import opened JsonValues
  import opened TaskMetadata

  // ---- one record ----------------------------------------------------------------------------

  /** `row[first] ?? row[second]` is this value. */
  predicate IsUnder(fields: seq<Field>, first: string, second: string, value: Json)
    requires value != Null
  {
    || Get(fields, first) == Some(value)
    || (Get(fields, first) in {None, Some(Null)} && Get(fields, second) == Some(value))
  }

  lemma EitherIs(fields: seq<Field>, first: string, second: string, value: Json)
    requires value != Null
    ensures Either(fields, first, second) == Some(value) <==> IsUnder(fields, first, second, value)
  {
  }

  /** What a record states, property by property, under either spelling. */
  lemma RowStates(p: Policy, fields: seq<Field>, taskId: string, text: string, flag: bool)
    ensures var m := FromRow(p, fields, taskId);
            && m.taskId == taskId
            && (m.operation == Some(text) <==>
                Get(fields, "operation") == Some(Text(text)) && |text| <= 64 && p.safe(text))
            && (m.speed == Some(text) <==> Get(fields, "speed") == Some(Text(text)) && |text| <= 64 && p.safe(text))
            && (m.requiresModal == Some(flag) <==>
                IsUnder(fields, "requiresModal", "requires_modal", Boolean(flag)))
            && (m.parentTaskId == Some(text) <==>
                IsUnder(fields, "parentTaskId", "parent_task_id", Text(text)) && |text| <= 512 && p.safe(text))
            && (m.expiresAt == Some(text) <==>
                IsUnder(fields, "expiresAt", "expires_at", Text(text)) && |text| <= 80 && p.safe(text) && p.dated(text))
  {
    hide ActionsOf, Candidates, Get;
    EitherIs(fields, "requiresModal", "requires_modal", Boolean(flag));
    EitherIs(fields, "parentTaskId", "parent_task_id", Text(text));
    EitherIs(fields, "expiresAt", "expires_at", Text(text));
  }

  /** Its list of actions is under `actions`, or, where that is no list, under `buttons`; 32 entries count. */
  lemma RowListsActions(p: Policy, fields: seq<Field>, taskId: string, items: seq<Json>)
    ensures var (actions, buttons, m) := (Get(fields, "actions"), Get(fields, "buttons"), FromRow(p, fields, taskId));
            var counted := if |items| <= 32 then items else items[..32];
            && (|| actions == Some(Array(items))
                || ((actions.None? || !actions.value.Array?) && buttons == Some(Array(items))) ==>
                m.actions == ActionsOf(p, counted))
            && ((actions.None? || !actions.value.Array?) && (buttons.None? || !buttons.value.Array?) ==>
                m.actions == [])
  {
    hide ActionsOf, Get;
    NoActions(p);
    assert |items| == 32 ==> items[..32] == items;
  }

  lemma NoActions(p: Policy)
    ensures ActionsOf(p, []) == []
  {
  }

  predicate FlagUnder(fields: seq<Field>, first: string, second: string, flag: Option<bool>) {
    && (flag == Some(true) <==> IsUnder(fields, first, second, Boolean(true)))
    && (flag == Some(false) <==> IsUnder(fields, first, second, Boolean(false)))
  }

  /** An entry is an action when it names itself, under one of three keys, and its operation. */
  lemma ActionStates(p: Policy, candidate: Json, a: Action)
    ensures ActionOf(p, candidate) == Some(a) <==>
              && candidate.Object?
              && var fields := candidate.fields;
              && (IsUnder(fields, "actionId", "action_id", Text(a.actionId))
                  || (Get(fields, "actionId") in {None, Some(Null)} && Get(fields, "action_id") in {None, Some(Null)}
                      && Get(fields, "custom_id") == Some(Text(a.actionId))))
              && |a.actionId| <= 512 && p.safe(a.actionId)
              && Get(fields, "operation") == Some(Text(a.operation)) && |a.operation| <= 64 && p.safe(a.operation)
              && a.title == TextOf(p, Get(fields, "label"), 200)
              && FlagUnder(fields, "requiresPrompt", "requires_prompt", a.requiresPrompt)
              && FlagUnder(fields, "requiresMask", "requires_mask", a.requiresMask)
  {
    hide Get, TextOf;
    if candidate.Object? {
      EitherIs(candidate.fields, "requiresPrompt", "requires_prompt", Boolean(true));
      EitherIs(candidate.fields, "requiresPrompt", "requires_prompt", Boolean(false));
      EitherIs(candidate.fields, "requiresMask", "requires_mask", Boolean(true));
      EitherIs(candidate.fields, "requiresMask", "requires_mask", Boolean(false));
      FlagIs(Either(candidate.fields, "requiresPrompt", "requires_prompt"), a.requiresPrompt);
      FlagIs(Either(candidate.fields, "requiresMask", "requires_mask"), a.requiresMask);
      TextIs(p, Get(candidate.fields, "operation"), 64, a.operation);
      EitherIs(candidate.fields, "actionId", "action_id", Text(a.actionId));
      IdIs(p, candidate.fields, a.actionId);
    }
  }

  lemma FlagIs(value: Option<Json>, flag: Option<bool>)
    ensures FlagOf(value) == flag <==>
              (flag == Some(true) <==> value == Some(Boolean(true)))
              && (flag == Some(false) <==> value == Some(Boolean(false)))
  {
    if flag.Some? {
      if flag.value {
        assert flag == Some(true);
      } else {
        assert flag == Some(false);
      }
    }
  }

  lemma TextIs(p: Policy, value: Option<Json>, maximum: nat, text: string)
    ensures TextOf(p, value, maximum) == Some(text) <==> value == Some(Text(text)) && |text| <= maximum && p.safe(text)
  {
  }

  lemma IdIs(p: Policy, fields: seq<Field>, actionId: string)
    ensures var id := match Either(fields, "actionId", "action_id")
              case Some(json) => if json == Null then Get(fields, "custom_id") else Some(json)
              case None => Get(fields, "custom_id");
            TextOf(p, id, 512) == Some(actionId)
            <==> && (IsUnder(fields, "actionId", "action_id", Text(actionId))
                     || (Get(fields, "actionId") in {None, Some(Null)} && Get(fields, "action_id") in {None, Some(Null)}
                         && Get(fields, "custom_id") == Some(Text(actionId))))
                 && |actionId| <= 512 && p.safe(actionId)
  {
    hide Get;
  }

  /** The list of actions of a record has the first of each id among its first 32 entries, in their order. */
  ghost predicate FirstWithId(p: Policy, candidates: seq<Json>, i: int, a: Action) {
    && 0 <= i < |candidates| && ActionOf(p, candidates[i]) == Some(a)
    && forall j :: 0 <= j < i && ActionOf(p, candidates[j]).Some? ==>
                     ActionOf(p, candidates[j]).value.actionId != a.actionId
  }

  lemma {:induction false} ActionsAreFirst(p: Policy, candidates: seq<Json>)
    ensures forall a :: a in ActionsOf(p, candidates) ==> exists i :: FirstWithId(p, candidates, i, a)
    ensures forall i, a :: FirstWithId(p, candidates, i, a) ==> a in ActionsOf(p, candidates)
    ensures forall i :: 0 <= i < |candidates| && ActionOf(p, candidates[i]).Some? ==>
              Listed(ActionsOf(p, candidates), ActionOf(p, candidates[i]).value.actionId)
  {
    hide ActionOf;
    if candidates != [] {
      var (front, last) := (candidates[..|candidates| - 1], candidates[|candidates| - 1]);
      ActionsAreFirst(p, front);
      var (earlier, actions) := (ActionsOf(p, front), ActionsOf(p, candidates));
      LastIsListed(p, candidates);
      forall i | 0 <= i < |candidates| && ActionOf(p, candidates[i]).Some?
        ensures Listed(actions, ActionOf(p, candidates[i]).value.actionId)
      {
        if i < |front| {
          assert front[i] == candidates[i];
          StaysListed(p, candidates, ActionOf(p, candidates[i]).value.actionId);
        }
      }
      forall a | a in actions
        ensures exists i :: FirstWithId(p, candidates, i, a)
      {
        if a in earlier {
          var i :| FirstWithId(p, front, i, a);
          assert FirstWithId(p, candidates, i, a);
        } else {
          NewIsFirst(p, candidates, a);
        }
      }
      forall i, a | FirstWithId(p, candidates, i, a)
        ensures a in actions
      {
        if i < |front| {
          assert FirstWithId(p, front, i, a);
        } else {
          FirstIsNew(p, candidates, a);
        }
      }
    }
  }

  lemma LastIsListed(p: Policy, candidates: seq<Json>)
    requires candidates != []
    ensures var last := ActionOf(p, candidates[|candidates| - 1]);
            last.Some? ==> Listed(ActionsOf(p, candidates), last.value.actionId)
  {
    hide ActionOf;
    var (last, actions) := (ActionOf(p, candidates[|candidates| - 1]), ActionsOf(p, candidates));
    if last.Some? && !Listed(ActionsOf(p, candidates[..|candidates| - 1]), last.value.actionId) {
      assert actions[|actions| - 1] == last.value;
    }
  }

  lemma StaysListed(p: Policy, candidates: seq<Json>, actionId: string)
    requires candidates != [] && Listed(ActionsOf(p, candidates[..|candidates| - 1]), actionId)
    ensures Listed(ActionsOf(p, candidates), actionId)
  {
    hide ActionOf;
    var (earlier, actions) := (ActionsOf(p, candidates[..|candidates| - 1]), ActionsOf(p, candidates));
    var i :| 0 <= i < |earlier| && earlier[i].actionId == actionId;
    assert actions[i] == earlier[i];
  }

  lemma NewIsFirst(p: Policy, candidates: seq<Json>, a: Action)
    requires candidates != [] && a in ActionsOf(p, candidates)
    requires a !in ActionsOf(p, candidates[..|candidates| - 1])
    requires var front := candidates[..|candidates| - 1];
             forall i :: 0 <= i < |front| && ActionOf(p, front[i]).Some? ==>
               Listed(ActionsOf(p, front), ActionOf(p, front[i]).value.actionId)
    ensures FirstWithId(p, candidates, |candidates| - 1, a)
  {
    hide ActionOf;
    var front := candidates[..|candidates| - 1];
    forall j | 0 <= j < |front| && ActionOf(p, candidates[j]).Some?
      ensures ActionOf(p, candidates[j]).value.actionId != a.actionId
    {
      assert front[j] == candidates[j];
    }
  }

  lemma FirstIsNew(p: Policy, candidates: seq<Json>, a: Action)
    requires candidates != [] && FirstWithId(p, candidates, |candidates| - 1, a)
    requires var front := candidates[..|candidates| - 1];
             forall b :: b in ActionsOf(p, front) ==> exists i :: FirstWithId(p, front, i, b)
    ensures a in ActionsOf(p, candidates)
  {
    hide ActionOf;
    var front := candidates[..|candidates| - 1];
    var earlier := ActionsOf(p, front);
    if Listed(earlier, a.actionId) {
      var k :| 0 <= k < |earlier| && earlier[k].actionId == a.actionId;
      assert earlier[k] in earlier;
      var i :| FirstWithId(p, front, i, earlier[k]);
      assert false;
    }
  }

  /** Further entries never change what is listed already. */
  lemma {:induction false} ActionsGrow(p: Policy, candidates: seq<Json>, n: nat)
    requires n <= |candidates|
    ensures ActionsOf(p, candidates[..n]) <= ActionsOf(p, candidates)
    decreases |candidates|
  {
    hide ActionOf;
    if n == |candidates| {
      assert candidates[..n] == candidates;
    } else {
      var front := candidates[..|candidates| - 1];
      ActionsGrow(p, front, n);
      assert front[..n] == candidates[..n];
    }
  }

  // ---- the records of an answer --------------------------------------------------------------

  /** The record at a path of nested keys; a step is the position of its key in reading order. */
  function RecordAt(value: Option<Json>, path: seq<nat>): Option<seq<Field>>
    decreases |path|
  {
    match value
    case Some(Object(fields)) =>
      if path == [] then Some(fields)
      else if path[0] < |NESTED_KEYS| then RecordAt(Get(fields, NESTED_KEYS[path[0]]), path[1..])
      else None
    case _ => None
  }

  /** The record names no task, or this one. */
  predicate OfTask(fields: seq<Field>, taskId: string) {
    Either(fields, "taskId", "task_id") in {None, Some(Text(taskId))}
  }

  /** Every record on the way, and the last, is there and of this task, at no more than the depth bound. */
  predicate Visits(value: Option<Json>, taskId: string, depth: nat, path: seq<nat>)
    decreases |path|
  {
    match value
    case Some(Object(fields)) =>
      && depth <= MAX_DEPTH && OfTask(fields, taskId)
      && (path != [] ==>
            && path[0] < |NESTED_KEYS|
            && Visits(Get(fields, NESTED_KEYS[path[0]]), taskId, depth + 1, path[1..]))
    case _ => false
  }

  lemma {:induction false} VisitsRecord(value: Option<Json>, taskId: string, depth: nat, path: seq<nat>)
    requires Visits(value, taskId, depth, path)
    ensures depth + |path| <= MAX_DEPTH && RecordAt(value, path).Some?
    decreases |path|
  {
    if path != [] {
      VisitsRecord(Get(value.value.fields, NESTED_KEYS[path[0]]), taskId, depth + 1, path[1..]);
    }
  }

  /** Reading order: a record before what is nested in it, and that key by key. */
  predicate Precedes(p: seq<nat>, q: seq<nat>)
    decreases |q|
  {
    q != [] && (p == [] || p[0] < q[0] || (p[0] == q[0] && Precedes(p[1..], q[1..])))
  }

  // ---- what is stated ------------------------------------------------------------------------

  datatype Property = OfActions | OfOperation | OfSpeed | OfModal | OfParent | OfExpiry
  datatype Statement = Offers(actions: seq<Action>) | Says(text: string) | Claims(flag: bool)

  function Stated(m: Metadata, property: Property): Option<Statement> {
    match property
    case OfActions => if m.actions == [] then None else Some(Offers(m.actions))
    case OfOperation => if m.operation.Some? then Some(Says(m.operation.value)) else None
    case OfSpeed => if m.speed.Some? then Some(Says(m.speed.value)) else None
    case OfModal => if m.requiresModal.Some? then Some(Claims(m.requiresModal.value)) else None
    case OfParent => if m.parentTaskId.Some? then Some(Says(m.parentTaskId.value)) else None
    case OfExpiry => if m.expiresAt.Some? then Some(Says(m.expiresAt.value)) else None
  }

  function Known(m: Option<Metadata>, property: Property): Option<Statement> {
    if m.Some? then Stated(m.value, property) else None
  }

  lemma MergeStates(a: Option<Metadata>, b: Metadata, property: Property)
    requires a.Some? ==> a.value.taskId == b.taskId
    ensures Known(Merge(a, Some(b)), property)
         == if Stated(b, property).Some? then Stated(b, property) else Known(a, property)
    ensures Merge(a, Some(b)).Some? && Merge(a, Some(b)).value.taskId == b.taskId
  {
  }

  /** What the record at a path states. */
  function StatedAt(p: Policy, value: Option<Json>, taskId: string, path: seq<nat>, property: Property)
      : Option<Statement>
  {
    var fields := RecordAt(value, path);
    if fields.Some? then Stated(FromRow(p, fields.value, taskId), property) else None
  }

  /** A visited record; with `from` above 0 only those in the nested records from that position on. */
  predicate Within(value: Option<Json>, taskId: string, depth: nat, from: nat, path: seq<nat>) {
    Visits(value, taskId, depth, path) && (from > 0 ==> path != [] && path[0] >= from - 1)
  }

  ghost predicate LastAt(p: Policy, value: Option<Json>, taskId: string, depth: nat, from: nat, property: Property,
                         path: seq<nat>) {
    && Within(value, taskId, depth, from, path)
    && forall later :: Within(value, taskId, depth, from, later) && Precedes(path, later) ==>
         StatedAt(p, value, taskId, later, property).None?
  }

  /** This is the last statement among those records, or there is none. */
  ghost predicate IsLast(p: Policy, value: Option<Json>, taskId: string, depth: nat, from: nat, property: Property,
                         statement: Option<Statement>) {
    if statement.None? then
      forall path :: Within(value, taskId, depth, from, path) ==> StatedAt(p, value, taskId, path, property).None?
    else
      exists path :: LastAt(p, value, taskId, depth, from, property, path)
        && StatedAt(p, value, taskId, path, property) == statement
  }

  function LastOf(first: Option<Statement>, second: Option<Statement>): Option<Statement> {
    if second.Some? then second else first
  }

  /** The statements of a record come before those of what is nested in it. */
  lemma OwnThenNested(p: Policy, fields: seq<Field>, taskId: string, depth: nat, property: Property,
                      nested: Option<Statement>)
    requires depth <= MAX_DEPTH && OfTask(fields, taskId)
    requires IsLast(p, Some(Object(fields)), taskId, depth, 1, property, nested)
    ensures IsLast(p, Some(Object(fields)), taskId, depth, 0, property,
                   LastOf(Stated(FromRow(p, fields, taskId), property), nested))
  {
    hide FromRow, Stated, Visits;
    var (value, own) := (Some(Object(fields)), Stated(FromRow(p, fields, taskId), property));
    assert StatedAt(p, value, taskId, [], property) == own;
    assert Visits(value, taskId, depth, []) by { RootIsVisited(fields, taskId, depth); }
    forall path | Within(value, taskId, depth, 0, path) && path != []
      ensures Within(value, taskId, depth, 1, path)
    {
    }
    if nested.Some? {
      var path :| LastAt(p, value, taskId, depth, 1, property, path)
        && StatedAt(p, value, taskId, path, property) == nested;
      assert LastAt(p, value, taskId, depth, 0, property, path);
    } else if own.Some? {
      assert LastAt(p, value, taskId, depth, 0, property, []);
    }
  }

  lemma RootIsVisited(fields: seq<Field>, taskId: string, depth: nat)
    requires depth <= MAX_DEPTH && OfTask(fields, taskId)
    ensures Visits(Some(Object(fields)), taskId, depth, [])
  {
  }

  lemma Under(p: Policy, fields: seq<Field>, taskId: string, depth: nat, property: Property, path: seq<nat>)
    requires path != [] && path[0] < |NESTED_KEYS| && depth <= MAX_DEPTH && OfTask(fields, taskId)
    ensures var (value, child) := (Some(Object(fields)), Get(fields, NESTED_KEYS[path[0]]));
            && (Visits(value, taskId, depth, path) <==> Visits(child, taskId, depth + 1, path[1..]))
            && StatedAt(p, value, taskId, path, property) == StatedAt(p, child, taskId, path[1..], property)
  {
    hide FromRow, Stated;
  }

  lemma VisitedStep(fields: seq<Field>, taskId: string, depth: nat, path: seq<nat>)
    requires Visits(Some(Object(fields)), taskId, depth, path) && path != []
    ensures path[0] < |NESTED_KEYS|
  {
  }

  lemma NothingBeyond(p: Policy, fields: seq<Field>, taskId: string, depth: nat, from: nat, property: Property)
    requires from > |NESTED_KEYS|
    ensures IsLast(p, Some(Object(fields)), taskId, depth, from, property, None)
  {
    hide FromRow, Stated, RecordAt;
  }

  /** The statements under one key come before those under the next ones. */
  lemma KeyThenNext(p: Policy, fields: seq<Field>, taskId: string, depth: nat, n: nat, property: Property,
                    here: Option<Statement>, next: Option<Statement>)
    requires n < |NESTED_KEYS| && depth <= MAX_DEPTH && OfTask(fields, taskId)
    requires IsLast(p, Get(fields, NESTED_KEYS[n]), taskId, depth + 1, 0, property, here)
    requires IsLast(p, Some(Object(fields)), taskId, depth, n + 2, property, next)
    ensures IsLast(p, Some(Object(fields)), taskId, depth, n + 1, property, LastOf(here, next))
  {
    hide FromRow, Stated, Visits, StatedAt;
    var (value, child) := (Some(Object(fields)), Get(fields, NESTED_KEYS[n]));
    forall path | Within(value, taskId, depth, n + 1, path) && !Within(value, taskId, depth, n + 2, path)
      ensures path[0] == n && Within(child, taskId, depth + 1, 0, path[1..])
      ensures StatedAt(p, value, taskId, path, property) == StatedAt(p, child, taskId, path[1..], property)
    {
      VisitedStep(fields, taskId, depth, path);
      Under(p, fields, taskId, depth, property, path);
    }
    if next.Some? {
      var path :| LastAt(p, value, taskId, depth, n + 2, property, path)
        && StatedAt(p, value, taskId, path, property) == next;
      assert LastAt(p, value, taskId, depth, n + 1, property, path);
    } else if here.Some? {
      var rest :| LastAt(p, child, taskId, depth + 1, 0, property, rest)
        && StatedAt(p, child, taskId, rest, property) == here;
      var path := [n] + rest;
      assert path[1..] == rest;
      Under(p, fields, taskId, depth, property, path);
      assert LastAt(p, value, taskId, depth, n + 1, property, path);
    }
  }

  lemma {:induction false} VisitLast(p: Policy, found: Option<Metadata>, value: Option<Json>, taskId: string,
                                     depth: nat, property: Property) returns (statement: Option<Statement>)
    requires depth <= MAX_DEPTH + 1 && (found.Some? ==> found.value.taskId == taskId)
    ensures IsLast(p, value, taskId, depth, 0, property, statement)
    ensures var result := Visit(p, found, value, taskId, depth);
            && Known(result, property) == LastOf(Known(found, property), statement)
            && (result.Some? <==> found.Some? || Visits(value, taskId, depth, []))
            && (result.Some? ==> result.value.taskId == taskId)
    decreases MAX_DEPTH + 1 - depth, |NESTED_KEYS| + 1
  {
    hide FromRow, Stated;
    if Visits(value, taskId, depth, []) {
      var fields := value.value.fields;
      var own := FromRow(p, fields, taskId);
      RowIsOf(p, fields, taskId);
      MergeStates(found, own, property);
      var nested := KeysLast(p, Merge(found, Some(own)), fields, taskId, depth, 0, property);
      assert NESTED_KEYS[0..] == NESTED_KEYS;
      OwnThenNested(p, fields, taskId, depth, property, nested);
      statement := LastOf(Stated(own, property), nested);
    } else {
      statement := None;
    }
  }

  lemma RowIsOf(p: Policy, fields: seq<Field>, taskId: string)
    ensures FromRow(p, fields, taskId).taskId == taskId
  {
  }

  lemma {:induction false} KeysLast(p: Policy, found: Option<Metadata>, fields: seq<Field>, taskId: string, depth: nat,
                                    n: nat, property: Property) returns (statement: Option<Statement>)
    requires depth <= MAX_DEPTH && OfTask(fields, taskId) && n <= |NESTED_KEYS|
    requires found.Some? && found.value.taskId == taskId
    ensures IsLast(p, Some(Object(fields)), taskId, depth, n + 1, property, statement)
    ensures var result := VisitKeys(p, found, fields, taskId, depth, NESTED_KEYS[n..]);
            && Known(result, property) == LastOf(Known(found, property), statement)
            && result.Some? && result.value.taskId == taskId
    decreases MAX_DEPTH + 1 - depth, |NESTED_KEYS| - n
  {
    hide FromRow, Stated, Visit;
    if n == |NESTED_KEYS| {
      statement := None;
      NothingBeyond(p, fields, taskId, depth, n + 1, property);
    } else {
      var here := VisitLast(p, found, Get(fields, NESTED_KEYS[n]), taskId, depth + 1, property);
      assert NESTED_KEYS[n..][1..] == NESTED_KEYS[n + 1..];
      var after := Visit(p, found, Get(fields, NESTED_KEYS[n]), taskId, depth + 1);
      var next := KeysLast(p, after, fields, taskId, depth, n + 1, property);
      KeyThenNext(p, fields, taskId, depth, n, property, here, next);
      statement := LastOf(here, next);
    }
  }

  /** Something is extracted exactly when the task id is admissible and the answer is a record of that task
      or of none; and of each property it is the last statement in reading order, or nothing if no visited
      record states it. */
  lemma ExtractedIsLast(p: Policy, value: Json, taskId: string, property: Property)
    ensures var m := Extract(p, value, taskId);
            && (m.Some? <==> |taskId| <= 512 && p.safe(taskId) && value.Object? && OfTask(value.fields, taskId))
            && (m.Some? ==> IsLast(p, Some(value), taskId, 0, 0, property, Stated(m.value, property)))
  {
    if Admissible(p, taskId, 512) {
      var statement := VisitLast(p, None, Some(value), taskId, 0, property);
    }
  }
}
