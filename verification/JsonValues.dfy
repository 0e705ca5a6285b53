/** JSON values as the server reads them out of provider answers and journal columns. */
module JsonValues {

  datatype Option<+T> = None | Some(value: T)

  /** A number is kept as its JavaScript rendering; an object keeps its entry order. */
  datatype Json =
    | Null
    | Boolean(flag: bool)
    | Number(rendering: string)
    | Text(text: string)
    | Array(items: seq<Json>)
    | Object(fields: seq<Field>)

  datatype Field = Field(key: string, value: Json)

  /** `row[key]`; `None` is JavaScript's `undefined`. */
  function Get(fields: seq<Field>, key: string): Option<Json> {
    if fields == [] then None
    else if fields[0].key == key then Some(fields[0].value)
    else Get(fields[1..], key)
  }

  /** `row[first] ?? row[second]` */
  function Either(fields: seq<Field>, first: string, second: string): Option<Json> {
    match Get(fields, first)
    case Some(value) => if value == Null then Get(fields, second) else Some(value)
    case None => Get(fields, second)
  }

  /** The entry `...(value !== undefined ? { key: value } : {})` */
  function Entry(key: string, value: Option<Json>): seq<Field> {
    match value
    case Some(json) => [Field(key, json)]
    case None => []
  }

  lemma {:induction false} GetConcat(left: seq<Field>, right: seq<Field>, key: string)
    ensures Get(left + right, key) == if Get(left, key).Some? then Get(left, key) else Get(right, key)
  {
    if left == [] {
      assert left + right == right;
    } else {
      assert (left + right)[1..] == left[1..] + right;
      GetConcat(left[1..], right, key);
    }
  }

  /** A leading optional entry is found under its own key and passed over otherwise. */
  lemma GetEntry(name: string, value: Option<Json>, rest: seq<Field>, key: string)
    ensures Get(Entry(name, value) + rest, key)
         == if name == key && value.Some? then value else Get(rest, key)
  {
    GetConcat(Entry(name, value), rest, key);
  }
}
