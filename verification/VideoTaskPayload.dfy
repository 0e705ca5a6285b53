/** Scoping a provider's video answer to one task (src/modules/ai/image-service.ts:5064-5167): the
    search for the task's record and the pruning of records that belong to other tasks. */
module VideoTaskPayload {
  import opened JsonValues

  const TASK_ID_KEYS := {"task_id", "taskId", "taskid", "video_generation_id", "videoGenerationId",
                         "video_id", "videoId", "job_id", "jobId", "generation_id", "generationId"}
  const STATE_KEYS := {"status", "state", "task_status", "taskStatus", "phase"}
  const MAX_DEPTH := 10

  predicate IsSpace(c: char) {
    c in "\t\n\U{b}\U{c}\r \U{a0}\U{1680}\U{2028}\U{2029}\U{202f}\U{205f}\U{3000}\U{feff}"
    || '\U{2000}' <= c <= '\U{200a}'
  }

  /** `text.trim()` */
  function Trim(text: string): string {
    if text == "" then ""
    else if IsSpace(text[0]) then Trim(text[1..])
    else if IsSpace(text[|text| - 1]) then Trim(text[..|text| - 1])
    else text
  }

  predicate IsContainer(value: Json) {
    value.Array? || value.Object?
  }

  predicate IsScalar(value: Json) {
    value.Text? || value.Number?
  }

  /** `String(candidate).trim()` of a text or a number. */
  function IdText(value: Json): string {
    match value
    case Text(text) => Trim(text)
    case Number(rendering) => Trim(rendering)
    case _ => ""
  }

  function KeyIds(fields: seq<Field>): set<string> {
    set f | f in fields && f.key in TASK_ID_KEYS && IdText(f.value) != "" :: IdText(f.value)
  }

  /** `directVideoTaskIds` */
  function DirectIds(fields: seq<Field>): set<string> {
    KeyIds(fields) + set f | f in fields && f.key == "id" && IdText(f.value) != "" :: IdText(f.value)
  }

  /** `hasDirectVideoTaskState` */
  predicate HasState(fields: seq<Field>) {
    exists f :: f in fields && f.key in STATE_KEYS && f.value.Text?
  }

  /** The ids that decide pruning: a plain `id` counts only beside a state, but then even when blank. */
  function BoundIds(fields: seq<Field>): set<string> {
    var plain := set f | f in fields && f.key == "id" && IsScalar(f.value) :: IdText(f.value);
    KeyIds(fields) + if HasState(fields) then plain else {}
  }

  /** The record carries ids, and none of them is the expected one. */
  predicate Mismatched(fields: seq<Field>, expected: string) {
    BoundIds(fields) != {} && expected !in BoundIds(fields)
  }

  function Room(depth: nat): nat {
    if depth > MAX_DEPTH then 0 else MAX_DEPTH + 1 - depth
  }

  /** `pruneMismatchedVideoTasks`; `None` is `undefined`. */
  function Prune(value: Json, expected: string, depth: nat): Option<Json>
    decreases Room(depth), 0
  {
    if !IsContainer(value) || depth > MAX_DEPTH then Some(value)
    else if value.Array? then Some(Array(PruneItems(value.items, expected, depth + 1)))
    else if Mismatched(value.fields, expected) then None
    else Some(Object(PruneFields(value.fields, expected, depth + 1)))
  }

  function PruneItems(items: seq<Json>, expected: string, depth: nat): seq<Json>
    decreases Room(depth), |items| + 1
  {
    if items == [] then []
    else
      var rest := PruneItems(items[1..], expected, depth);
      match Prune(items[0], expected, depth) case Some(kept) => [kept] + rest case None => rest
  }

  function PruneFields(fields: seq<Field>, expected: string, depth: nat): seq<Field>
    decreases Room(depth), |fields| + 1
  {
    if fields == [] then []
    else
      var rest := PruneFields(fields[1..], expected, depth);
      match Prune(fields[0].value, expected, depth)
      case Some(kept) => [Field(fields[0].key, kept)] + rest
      case None => rest
  }

  /** The values directly inside an array or a record, in iteration order. */
  function Children(value: Json): seq<Json> {
    match value
    case Array(items) => items
    case Object(fields) => seq(|fields|, i requires 0 <= i < |fields| => fields[i].value)
    case _ => []
  }

  /** `findVideoTaskPayload` */
  function Find(value: Json, expected: string, depth: nat): Option<Json>
    decreases Room(depth), 0
  {
    if !IsContainer(value) || depth > MAX_DEPTH then None
    else
      var nested := FindFirst(Children(value), expected, depth + 1);
      if nested.Some? then nested
      else if value.Object? && expected in DirectIds(value.fields) then Prune(value, expected, depth)
      else None
  }

  function FindFirst(values: seq<Json>, expected: string, depth: nat): Option<Json>
    decreases Room(depth), |values| + 1
  {
    if values == [] then None
    else
      var first := Find(values[0], expected, depth);
      if first.Some? then first else FindFirst(values[1..], expected, depth)
  }

  /** `selectVideoTaskPayload` */
  function Select(value: Json, taskId: string): Option<Json> {
    var expected := Trim(taskId);
    if expected == "" then None else Find(value, expected, 0)
  }

  // ---- positions -----------------------------------------------------------------------------

  /** The value at a path of child indices. */
  function At(value: Json, path: seq<nat>): Option<Json> {
    if path == [] then Some(value)
    else if path[0] < |Children(value)| then At(Children(value)[path[0]], path[1..])
    else None
  }

  /** The record is the expected task's: it names it, and is not bound to another one. */
  predicate Eligible(value: Json, expected: string) {
    value.Object? && expected in DirectIds(value.fields) && !Mismatched(value.fields, expected)
  }

  ghost predicate EligibleAt(value: Json, path: seq<nat>, expected: string) {
    At(value, path).Some? && Eligible(At(value, path).value, expected)
  }

  lemma {:induction false} AtConcat(value: Json, p: seq<nat>, q: seq<nat>)
    requires At(value, p).Some?
    ensures At(value, p + q) == At(At(value, p).value, q)
  {
    if p == [] {
      assert p + q == q;
    } else {
      assert (p + q)[0] == p[0] && (p + q)[1..] == p[1..] + q;
      AtConcat(Children(value)[p[0]], p[1..], q);
    }
  }

  // ---- pruning -------------------------------------------------------------------------------

  lemma {:induction false} KeptFields(fields: seq<Field>, expected: string, depth: nat, field: Field)
    requires !IsContainer(field.value)
    ensures field in PruneFields(fields, expected, depth) <==> field in fields
  {
    if fields != [] {
      KeptFields(fields[1..], expected, depth, field);
      assert fields == [fields[0]] + fields[1..];
    }
  }

  /** Ids and states are scalars, which pruning keeps, so it changes no record's ids. */
  lemma PruneKeepsIds(fields: seq<Field>, expected: string, depth: nat)
    ensures var pruned := PruneFields(fields, expected, depth);
            DirectIds(pruned) == DirectIds(fields) && BoundIds(pruned) == BoundIds(fields)
  {
    hide PruneFields, Trim;
    var pruned := PruneFields(fields, expected, depth);
    forall f: Field | !IsContainer(f.value)
      ensures f in pruned <==> f in fields
    {
      KeptFields(fields, expected, depth, f);
    }
    assert HasState(pruned) == HasState(fields);
    assert KeyIds(pruned) == KeyIds(fields);
    assert DirectIds(pruned) == DirectIds(fields);
  }

  /** What pruning keeps is of the same kind, and a record it keeps is not bound to another task. */
  lemma PruneVerdict(value: Json, expected: string, depth: nat)
    requires Prune(value, expected, depth).Some? && depth <= MAX_DEPTH
    ensures var pruned := Prune(value, expected, depth).value;
            && pruned.Object? == value.Object?
            && (value.Object? ==> !Mismatched(value.fields, expected) && !Mismatched(pruned.fields, expected)
                                  && DirectIds(pruned.fields) == DirectIds(value.fields))
  {
    hide KeyIds, HasState, IsScalar, IdText;
    if value.Object? {
      PruneKeepsIds(value.fields, expected, depth + 1);
    }
  }

  lemma {:induction false} ItemOrigin(items: seq<Json>, expected: string, depth: nat, k: nat) returns (i: nat)
    requires k < |PruneItems(items, expected, depth)|
    ensures i < |items| && Prune(items[i], expected, depth) == Some(PruneItems(items, expected, depth)[k])
  {
    if Prune(items[0], expected, depth).Some? && k == 0 {
      i := 0;
    } else {
      var j := ItemOrigin(items[1..], expected, depth, if Prune(items[0], expected, depth).Some? then k - 1 else k);
      i := j + 1;
    }
  }

  lemma {:induction false} FieldOrigin(fields: seq<Field>, expected: string, depth: nat, k: nat) returns (i: nat)
    requires k < |PruneFields(fields, expected, depth)|
    ensures i < |fields|
    ensures Prune(fields[i].value, expected, depth) == Some(PruneFields(fields, expected, depth)[k].value)
  {
    hide Prune;
    if Prune(fields[0].value, expected, depth).Some? && k == 0 {
      i := 0;
    } else {
      var before := if Prune(fields[0].value, expected, depth).Some? then 1 else 0;
      var j := FieldOrigin(fields[1..], expected, depth, k - before);
      i := j + 1;
    }
  }

  lemma ChildOrigin(value: Json, expected: string, depth: nat, k: nat) returns (i: nat)
    requires Prune(value, expected, depth).Some? && k < |Children(Prune(value, expected, depth).value)|
    ensures i < |Children(value)|
    ensures Prune(Children(value)[i], expected, depth + 1) == Some(Children(Prune(value, expected, depth).value)[k])
  {
    hide Mismatched;
    if depth > MAX_DEPTH {
      i := k;
    } else if value.Array? {
      i := ItemOrigin(value.items, expected, depth + 1, k);
    } else {
      i := FieldOrigin(value.fields, expected, depth + 1, k);
    }
  }

  /** Whatever lies in the pruned value is the pruning of something at the same depth of the
      original. */
  lemma {:induction false} PrunedFrom(value: Json, expected: string, depth: nat, q: seq<nat>) returns (p: seq<nat>)
    requires Prune(value, expected, depth).Some? && At(Prune(value, expected, depth).value, q).Some?
    ensures |p| == |q| && At(value, p).Some?
    ensures Prune(At(value, p).value, expected, depth + |q|) == At(Prune(value, expected, depth).value, q)
    decreases |q|
  {
    hide Prune, Children;
    if q == [] {
      p := [];
    } else {
      var i := ChildOrigin(value, expected, depth, q[0]);
      var rest := PrunedFrom(Children(value)[i], expected, depth + 1, q[1..]);
      p := [i] + rest;
    }
  }

  /** No record within the depth bound of a pruned value is bound only to another task. */
  lemma PrunedIsScoped(value: Json, expected: string, depth: nat, q: seq<nat>)
    requires Prune(value, expected, depth).Some? && depth + |q| <= MAX_DEPTH
    ensures var inner := At(Prune(value, expected, depth).value, q);
            inner.Some? && inner.value.Object? ==> !Mismatched(inner.value.fields, expected)
  {
    hide Prune, Mismatched, At;
    var inner := At(Prune(value, expected, depth).value, q);
    if inner.Some? && inner.value.Object? {
      var p := PrunedFrom(value, expected, depth, q);
      PruneVerdict(At(value, p).value, expected, depth + |q|);
    }
  }

  /** Pruning twice changes nothing more, whatever the depth of the payload. */
  lemma {:induction false} PruneIdempotent(value: Json, expected: string, depth: nat)
    requires Prune(value, expected, depth).Some?
    ensures Prune(Prune(value, expected, depth).value, expected, depth) == Prune(value, expected, depth)
    decreases Room(depth), 0
  {
    hide Mismatched, DirectIds, PruneItems, PruneFields;
    if IsContainer(value) && depth <= MAX_DEPTH {
      if value.Array? {
        ItemsIdempotent(value.items, expected, depth + 1);
      } else {
        PruneVerdict(value, expected, depth);
        FieldsIdempotent(value.fields, expected, depth + 1);
      }
    }
  }

  lemma {:induction false} ItemsIdempotent(items: seq<Json>, expected: string, depth: nat)
    ensures var kept := PruneItems(items, expected, depth); PruneItems(kept, expected, depth) == kept
    decreases Room(depth), |items| + 1
  {
    if items != [] {
      ItemsIdempotent(items[1..], expected, depth);
      if Prune(items[0], expected, depth).Some? {
        PruneIdempotent(items[0], expected, depth);
        assert PruneItems(items, expected, depth)[1..] == PruneItems(items[1..], expected, depth);
      }
    }
  }

  lemma {:induction false} FieldsIdempotent(fields: seq<Field>, expected: string, depth: nat)
    ensures var kept := PruneFields(fields, expected, depth); PruneFields(kept, expected, depth) == kept
    decreases Room(depth), |fields| + 1
  {
    if fields != [] {
      FieldsIdempotent(fields[1..], expected, depth);
      if Prune(fields[0].value, expected, depth).Some? {
        PruneIdempotent(fields[0].value, expected, depth);
        assert PruneFields(fields, expected, depth)[1..] == PruneFields(fields[1..], expected, depth);
      }
    }
  }

  /** Every value on the way to this one, and itself, is no record that is bound to another task. */
  ghost predicate Spared(value: Json, expected: string, depth: nat, p: seq<nat>) {
    forall n :: 0 <= n <= |p| && depth + n <= MAX_DEPTH ==> ScopedAt(value, p[..n], expected)
  }

  lemma {:induction false} ItemImage(items: seq<Json>, expected: string, depth: nat, i: nat) returns (k: nat)
    requires i < |items| && Prune(items[i], expected, depth).Some?
    ensures k < |PruneItems(items, expected, depth)|
    ensures Some(PruneItems(items, expected, depth)[k]) == Prune(items[i], expected, depth)
  {
    hide Prune;
    if i == 0 {
      k := 0;
    } else {
      k := ItemImage(items[1..], expected, depth, i - 1);
      k := k + if Prune(items[0], expected, depth).Some? then 1 else 0;
    }
  }

  lemma {:induction false} FieldImage(fields: seq<Field>, expected: string, depth: nat, i: nat) returns (k: nat)
    requires i < |fields| && Prune(fields[i].value, expected, depth).Some?
    ensures k < |PruneFields(fields, expected, depth)| && PruneFields(fields, expected, depth)[k].key == fields[i].key
    ensures Some(PruneFields(fields, expected, depth)[k].value) == Prune(fields[i].value, expected, depth)
  {
    hide Prune;
    if i == 0 {
      k := 0;
    } else {
      k := FieldImage(fields[1..], expected, depth, i - 1);
      k := k + if Prune(fields[0].value, expected, depth).Some? then 1 else 0;
    }
  }

  lemma ChildImage(value: Json, expected: string, depth: nat, i: nat) returns (k: nat)
    requires Prune(value, expected, depth).Some? && i < |Children(value)|
    requires Prune(Children(value)[i], expected, depth + 1).Some?
    requires depth <= MAX_DEPTH
    ensures k < |Children(Prune(value, expected, depth).value)|
    ensures Some(Children(Prune(value, expected, depth).value)[k]) == Prune(Children(value)[i], expected, depth + 1)
  {
    hide Mismatched;
    if value.Array? {
      k := ItemImage(value.items, expected, depth + 1, i);
    } else {
      k := FieldImage(value.fields, expected, depth + 1, i);
    }
  }

  /** Pruning takes nothing else away: what lies in no record of another task is still there, at the same
      depth, pruned itself. */
  lemma {:induction false} SparedIsKept(value: Json, expected: string, depth: nat, p: seq<nat>) returns (q: seq<nat>)
    requires At(value, p).Some? && Spared(value, expected, depth, p) && depth + |p| <= MAX_DEPTH + 1
    ensures Prune(value, expected, depth).Some? && |q| == |p|
    ensures At(Prune(value, expected, depth).value, q) == Prune(At(value, p).value, expected, depth + |p|)
    decreases |p|
  {
    hide Mismatched, PruneItems, PruneFields, Children;
    if depth <= MAX_DEPTH {
      assert p[..0] == [];
      assert ScopedAt(value, p[..0], expected);
    }
    if p == [] {
      q := [];
    } else {
      var child := Children(value)[p[0]];
      forall n | 0 <= n <= |p[1..]| && depth + 1 + n <= MAX_DEPTH
        ensures ScopedAt(child, p[1..][..n], expected)
      {
        assert ScopedAt(value, p[..n + 1], expected);
        assert p[..n + 1][1..] == p[1..][..n] && p[..n + 1][0] == p[0];
      }
      var rest := SparedIsKept(child, expected, depth + 1, p[1..]);
      var k := ChildImage(value, expected, depth, p[0]);
      q := [k] + rest;
    }
  }

  /** No record within the bound is bound to another task. */
  ghost predicate AllScoped(value: Json, expected: string, depth: nat) {
    forall p :: depth + |p| <= MAX_DEPTH ==> ScopedAt(value, p, expected)
  }

  lemma ChildScoped(value: Json, expected: string, depth: nat, i: nat)
    requires AllScoped(value, expected, depth) && i < |Children(value)|
    ensures AllScoped(Children(value)[i], expected, depth + 1)
  {
    hide Mismatched, Children;
    forall p | depth + 1 + |p| <= MAX_DEPTH
      ensures ScopedAt(Children(value)[i], p, expected)
    {
      assert ScopedAt(value, [i] + p, expected);
      assert ([i] + p)[1..] == p;
    }
  }

  /** A payload without foreign records is not changed at all. */
  lemma {:induction false} PruneKeepsOwn(value: Json, expected: string, depth: nat)
    requires AllScoped(value, expected, depth)
    ensures Prune(value, expected, depth) == Some(value)
    decreases Room(depth), 0
  {
    hide Mismatched, PruneItems, PruneFields, AllScoped;
    if IsContainer(value) && depth <= MAX_DEPTH {
      forall i: nat | i < |Children(value)|
        ensures AllScoped(Children(value)[i], expected, depth + 1)
      {
        ChildScoped(value, expected, depth, i);
      }
      if value.Array? {
        assert forall i :: 0 <= i < |value.items| ==> value.items[i] == Children(value)[i];
        ItemsKept(value.items, expected, depth + 1);
      } else {
        OwnScoped(value, expected, depth);
        assert forall i :: 0 <= i < |value.fields| ==> value.fields[i].value == Children(value)[i];
        FieldsKept(value.fields, expected, depth + 1);
      }
    }
  }

  lemma OwnScoped(value: Json, expected: string, depth: nat)
    requires AllScoped(value, expected, depth) && depth <= MAX_DEPTH && value.Object?
    ensures !Mismatched(value.fields, expected)
  {
    hide Mismatched;
    assert ScopedAt(value, [], expected);
  }

  lemma {:induction false} ItemsKept(items: seq<Json>, expected: string, depth: nat)
    requires forall i :: 0 <= i < |items| ==> AllScoped(items[i], expected, depth)
    ensures PruneItems(items, expected, depth) == items
    decreases Room(depth), |items| + 1
  {
    hide Prune, AllScoped;
    if items != [] {
      PruneKeepsOwn(items[0], expected, depth);
      ItemsKept(items[1..], expected, depth);
    }
  }

  lemma {:induction false} FieldsKept(fields: seq<Field>, expected: string, depth: nat)
    requires forall i :: 0 <= i < |fields| ==> AllScoped(fields[i].value, expected, depth)
    ensures PruneFields(fields, expected, depth) == fields
    decreases Room(depth), |fields| + 1
  {
    hide Prune, AllScoped;
    if fields != [] {
      PruneKeepsOwn(fields[0].value, expected, depth);
      FieldsKept(fields[1..], expected, depth);
    }
  }

  // ---- whose record it is --------------------------------------------------------------------

  predicate AllSpace(text: string) {
    forall i :: 0 <= i < |text| ==> IsSpace(text[i])
  }

  /** Trimming takes spaces from the two ends, and all of them. */
  lemma {:induction false} TrimStrips(text: string) returns (left: string, right: string)
    ensures text == left + Trim(text) + right && AllSpace(left) && AllSpace(right)
    decreases |text|
  {
    hide IsSpace;
    if text == "" {
      left, right := "", "";
    } else if IsSpace(text[0]) {
      var rest;
      rest, right := TrimStrips(text[1..]);
      left := [text[0]] + rest;
      assert text == [text[0]] + text[1..] == [text[0]] + (rest + Trim(text[1..]) + right);
    } else if IsSpace(text[|text| - 1]) {
      var rest;
      left, rest := TrimStrips(text[..|text| - 1]);
      right := rest + [text[|text| - 1]];
      assert text == text[..|text| - 1] + [text[|text| - 1]]
               == (left + Trim(text[..|text| - 1]) + rest) + [text[|text| - 1]];
    } else {
      left, right := "", "";
    }
  }

  lemma {:induction false} TrimmedEnds(text: string)
    ensures Trim(text) != "" ==> !IsSpace(Trim(text)[0]) && !IsSpace(Trim(text)[|Trim(text)| - 1])
    decreases |text|
  {
    hide IsSpace;
    if text == "" {
    } else if IsSpace(text[0]) {
      TrimmedEnds(text[1..]);
    } else if IsSpace(text[|text| - 1]) {
      TrimmedEnds(text[..|text| - 1]);
    }
  }

  /** A text or a number that says this id. */
  predicate Says(value: Json, id: string) {
    match value
    case Text(text) => Trim(text) == id
    case Number(rendering) => Trim(rendering) == id
    case _ => false
  }

  /** A record is bound to a task under a task id key, and under `id` only beside a state. */
  predicate BoundTo(fields: seq<Field>, id: string) {
    || (id != "" && exists f :: f in fields && f.key in TASK_ID_KEYS && Says(f.value, id))
    || ((exists f :: f in fields && f.key in STATE_KEYS && f.value.Text?)
        && exists f :: f in fields && f.key == "id" && Says(f.value, id))
  }

  /** A record belongs to another task when it is bound to one, and not to this. */
  lemma MismatchedIff(fields: seq<Field>, expected: string)
    ensures Mismatched(fields, expected) <==> (exists id :: BoundTo(fields, id)) && !BoundTo(fields, expected)
  {
    hide BoundIds, BoundTo;
    forall id
      ensures id in BoundIds(fields) <==> BoundTo(fields, id)
    {
      IdsOfRecord(fields, id);
    }
    if BoundIds(fields) != {} {
      var id :| id in BoundIds(fields);
      assert BoundTo(fields, id);
    }
  }

  /** It names a task under a task id key or under `id`. */
  lemma IdsOfRecord(fields: seq<Field>, id: string)
    ensures id in DirectIds(fields) <==>
              id != "" && exists f :: f in fields && (f.key in TASK_ID_KEYS || f.key == "id") && Says(f.value, id)
    ensures id in BoundIds(fields) <==> BoundTo(fields, id)
  {
    hide Trim;
  }

  // ---- the search ----------------------------------------------------------------------------

  /** A found payload is the pruning of an eligible record with no eligible record inside it. */
  ghost predicate NarrowestAt(value: Json, expected: string, depth: nat, path: seq<nat>, found: Json) {
    && depth + |path| <= MAX_DEPTH && EligibleAt(value, path, expected)
    && Prune(At(value, path).value, expected, depth + |path|) == Some(found)
    && forall q :: q != [] && depth + |path| + |q| <= MAX_DEPTH ==> !EligibleAt(At(value, path).value, q, expected)
  }

  lemma EligibleIsFound(value: Json, expected: string, depth: nat)
    requires Eligible(value, expected) && depth <= MAX_DEPTH
    ensures Find(value, expected, depth).Some?
  {
    hide DirectIds, Mismatched, Children;
  }

  lemma {:induction false} FindNone(value: Json, expected: string, depth: nat, path: seq<nat>)
    requires Find(value, expected, depth).None? && depth + |path| <= MAX_DEPTH
    ensures !EligibleAt(value, path, expected)
    decreases |path|
  {
    hide Mismatched, DirectIds, Prune, Eligible;
    if path == [] {
      if Eligible(value, expected) {
        EligibleIsFound(value, expected, depth);
      }
    } else if IsContainer(value) && path[0] < |Children(value)| {
      FirstNone(Children(value), expected, depth + 1, path[0]);
      FindNone(Children(value)[path[0]], expected, depth + 1, path[1..]);
    }
  }

  lemma {:induction false} FirstNone(values: seq<Json>, expected: string, depth: nat, i: nat)
    requires FindFirst(values, expected, depth).None? && i < |values|
    ensures Find(values[i], expected, depth).None?
  {
    hide Find;
    if i > 0 {
      FirstNone(values[1..], expected, depth, i - 1);
    }
  }

  lemma {:induction false} FirstSome(values: seq<Json>, expected: string, depth: nat) returns (i: nat)
    requires FindFirst(values, expected, depth).Some?
    ensures i < |values| && Find(values[i], expected, depth) == FindFirst(values, expected, depth)
    ensures forall j :: 0 <= j < i ==> Find(values[j], expected, depth).None?
  {
    hide Find;
    if Find(values[0], expected, depth).Some? {
      i := 0;
    } else {
      var j := FirstSome(values[1..], expected, depth);
      i := j + 1;
    }
  }

  /** In the order of the search, which visits what lies in a value before the value itself. */
  predicate Earlier(p: seq<nat>, q: seq<nat>)
    decreases |p|
  {
    p != [] && (q == [] || p[0] < q[0] || (p[0] == q[0] && Earlier(p[1..], q[1..])))
  }

  lemma FirstFound(value: Json, expected: string, depth: nat, i: nat, rest: seq<nat>, q: seq<nat>)
    requires i < |Children(value)| && depth + |q| <= MAX_DEPTH && EligibleAt(value, q, expected)
    requires forall j :: 0 <= j < i ==> Find(Children(value)[j], expected, depth + 1).None?
    requires forall r :: depth + 1 + |r| <= MAX_DEPTH && EligibleAt(Children(value)[i], r, expected) ==>
               r == rest || Earlier(rest, r)
    ensures q == [i] + rest || Earlier([i] + rest, q)
  {
    hide Mismatched, DirectIds, Children, Find;
    assert ([i] + rest)[1..] == rest;
    if q != [] {
      assert q == [q[0]] + q[1..];
      if q[0] < i {
        FindNone(Children(value)[q[0]], expected, depth + 1, q[1..]);
      }
    }
  }

  lemma {:induction false} FindSome(value: Json, expected: string, depth: nat) returns (path: seq<nat>)
    requires Find(value, expected, depth).Some?
    ensures NarrowestAt(value, expected, depth, path, Find(value, expected, depth).value)
    ensures forall q :: depth + |q| <= MAX_DEPTH && EligibleAt(value, q, expected) ==> q == path || Earlier(path, q)
    decreases Room(depth)
  {
    hide Mismatched, DirectIds, Prune, Children;
    if FindFirst(Children(value), expected, depth + 1).Some? {
      var i := FirstSome(Children(value), expected, depth + 1);
      var rest := FindSome(Children(value)[i], expected, depth + 1);
      path := [i] + rest;
      assert At(value, path) == At(Children(value)[i], rest);
      forall q | depth + |q| <= MAX_DEPTH && EligibleAt(value, q, expected)
        ensures q == path || Earlier(path, q)
      {
        FirstFound(value, expected, depth, i, rest, q);
      }
    } else {
      path := [];
      PruneVerdict(value, expected, depth);
      forall q | q != [] && depth + |q| <= MAX_DEPTH
        ensures !EligibleAt(value, q, expected)
      {
        if q[0] < |Children(value)| {
          FirstNone(Children(value), expected, depth + 1, q[0]);
          FindNone(Children(value)[q[0]], expected, depth + 1, q[1..]);
        }
      }
    }
  }

  /** The search finds something exactly when an eligible record lies within the depth bound. */
  lemma FindsIffEligible(value: Json, expected: string)
    ensures Find(value, expected, 0).Some? <==> exists path :: |path| <= MAX_DEPTH && EligibleAt(value, path, expected)
  {
    if Find(value, expected, 0).Some? {
      var path := FindSome(value, expected, 0);
      assert EligibleAt(value, path, expected);
    } else {
      forall path | |path| <= MAX_DEPTH
        ensures !EligibleAt(value, path, expected)
      {
        FindNone(value, expected, 0, path);
      }
    }
  }

  /** No array or record lies deeper than the bound. */
  ghost predicate WithinBound(value: Json) {
    forall p :: |p| > MAX_DEPTH && At(value, p).Some? ==> !IsContainer(At(value, p).value)
  }

  /** The selected payload is the first record of the requested task that the search comes to. Within the
      depth bound nothing in it is bound only to another task, no record nested in it would be selected in
      its place, and pruning it again changes nothing; for a payload within the bound that is the whole of
      it. */
  lemma SelectedPayload(value: Json, taskId: string) returns (path: seq<nat>)
    requires Select(value, taskId).Some?
    ensures NarrowestAt(value, Trim(taskId), 0, path, Select(value, taskId).value)
    ensures Eligible(Select(value, taskId).value, Trim(taskId))
    ensures forall q :: |q| <= MAX_DEPTH && EligibleAt(value, q, Trim(taskId)) ==> q == path || Earlier(path, q)
    ensures Prune(Select(value, taskId).value, Trim(taskId), |path|) == Select(value, taskId)
    ensures forall q :: |path| + |q| <= MAX_DEPTH || WithinBound(value) ==>
              ScopedAt(Select(value, taskId).value, q, Trim(taskId))
    ensures forall q :: q != [] && |path| + |q| <= MAX_DEPTH ==>
              !EligibleAt(Select(value, taskId).value, q, Trim(taskId))
  {
    hide Mismatched, DirectIds, Prune, Children, At, Trim, Find;
    var (expected, found) := (Trim(taskId), Select(value, taskId).value);
    path := FindSome(value, expected, 0);
    var record := At(value, path).value;
    PruneVerdict(record, expected, |path|);
    PruneIdempotent(record, expected, |path|);
    forall q | |path| + |q| <= MAX_DEPTH || WithinBound(value)
      ensures ScopedAt(found, q, expected)
    {
      if |path| + |q| <= MAX_DEPTH {
        PrunedIsScoped(record, expected, |path|, q);
      } else if At(found, q).Some? {
        NothingDeeper(value, path, expected, q);
      }
    }
    forall q | q != [] && |path| + |q| <= MAX_DEPTH
      ensures !EligibleAt(found, q, expected)
    {
      PrunedIsNarrowest(record, expected, |path|, q);
    }
  }

  /** Below the bound a payload within the bound has no records, pruned or not. */
  lemma NothingDeeper(value: Json, path: seq<nat>, expected: string, q: seq<nat>)
    requires WithinBound(value) && At(value, path).Some? && Prune(At(value, path).value, expected, |path|).Some?
    requires |path| + |q| > MAX_DEPTH && At(Prune(At(value, path).value, expected, |path|).value, q).Some?
    ensures !IsContainer(At(Prune(At(value, path).value, expected, |path|).value, q).value)
  {
    hide Mismatched, Children, At, PruneFields, PruneItems;
    var p := PrunedFrom(At(value, path).value, expected, |path|, q);
    AtConcat(value, path, p);
    assert |path + p| > MAX_DEPTH;
  }

  /** Pruning creates no match. */
  lemma PrunedIsNarrowest(record: Json, expected: string, depth: nat, q: seq<nat>)
    requires Prune(record, expected, depth).Some? && depth + |q| <= MAX_DEPTH
    requires forall p :: |p| == |q| ==> !EligibleAt(record, p, expected)
    ensures !EligibleAt(Prune(record, expected, depth).value, q, expected)
  {
    hide Mismatched, DirectIds, Prune, At;
    if EligibleAt(Prune(record, expected, depth).value, q, expected) {
      var p := PrunedFrom(record, expected, depth, q);
      PruneVerdict(At(record, p).value, expected, depth + |q|);
      assert false;
    }
  }

  ghost predicate ScopedAt(value: Json, path: seq<nat>, expected: string) {
    At(value, path).Some? && At(value, path).value.Object? ==> !Mismatched(At(value, path).value.fields, expected)
  }
}
