/** Keyset pagination: the next page is the rows strictly after the last one in query order. */
module Keyset {
  import opened JsonValues

  /** (createdAt, id); ids are ranked by their own order. */
  datatype Key = Key(at: int, id: nat)
  datatype Keyed<+T> = Keyed(key: Key, row: T)
  datatype Order = Ascending | Descending

  predicate Precedes(order: Order, a: Key, b: Key) {
    match order
    case Ascending => a.at < b.at || (a.at == b.at && a.id < b.id)
    case Descending => b.at < a.at || (a.at == b.at && b.id < a.id)
  }

  ghost predicate Ordered<T>(rows: seq<Keyed<T>>, order: Order) {
    forall i, j :: 0 <= i < j < |rows| ==> Precedes(order, rows[i].key, rows[j].key)
  }

  /** The query without its `take`. */
  function Beyond<T>(rows: seq<Keyed<T>>, cursor: Option<Key>, order: Order): seq<Keyed<T>> {
    if rows == [] then []
    else
      var rest := Beyond(rows[1..], cursor, order);
      if cursor.None? || Precedes(order, cursor.value, rows[0].key) then [rows[0]] + rest else rest
  }

  function Page<T>(rows: seq<Keyed<T>>, cursor: Option<Key>, order: Order, take: nat): seq<Keyed<T>> {
    var found := Beyond(rows, cursor, order);
    if |found| <= take then found else found[..take]
  }

  /** The cursor that stands after the first `n` rows. */
  function CursorAt<T>(rows: seq<Keyed<T>>, n: nat): Option<Key>
    requires n <= |rows|
  {
    if n == 0 then None else Some(rows[n - 1].key)
  }

  lemma {:induction false} BeyondAll<T>(rows: seq<Keyed<T>>, cursor: Option<Key>, order: Order)
    requires forall i :: 0 <= i < |rows| ==> cursor.None? || Precedes(order, cursor.value, rows[i].key)
    ensures Beyond(rows, cursor, order) == rows
  {
    if rows != [] {
      BeyondAll(rows[1..], cursor, order);
    }
  }

  /** In an ordered table a page continues exactly where the previous rows ended. */
  lemma {:induction false} BeyondCursor<T>(rows: seq<Keyed<T>>, n: nat, order: Order)
    requires Ordered(rows, order) && n <= |rows|
    ensures Beyond(rows, CursorAt(rows, n), order) == rows[n..]
  {
    if n == 0 {
      BeyondAll(rows, None, order);
    } else {
      BeyondSkips(rows, rows[n - 1].key, n, order);
      BeyondAll(rows[n..], CursorAt(rows, n), order);
    }
  }

  lemma {:induction false} BeyondSkips<T>(rows: seq<Keyed<T>>, cursor: Key, n: nat, order: Order)
    requires n <= |rows|
    requires forall i :: 0 <= i < n ==> !Precedes(order, cursor, rows[i].key)
    ensures Beyond(rows, Some(cursor), order) == Beyond(rows[n..], Some(cursor), order)
  {
    if n > 0 {
      BeyondSkips(rows[1..], cursor, n - 1, order);
      assert rows[1..][n - 1..] == rows[n..];
    } else {
      assert rows[0..] == rows;
    }
  }

  lemma PageContinues<T>(rows: seq<Keyed<T>>, n: nat, order: Order, take: nat)
    requires Ordered(rows, order) && n <= |rows|
    ensures Page(rows, CursorAt(rows, n), order, take) == rows[n..if n + take <= |rows| then n + take else |rows|]
  {
    BeyondCursor(rows, n, order);
    if n + take <= |rows| {
      assert rows[n..][..take] == rows[n..n + take];
    }
  }
}
