/** The bounded in-memory reference store (src/modules/ai/reference-store.ts). */
module ReferenceStore {
  import opened JsonValues

  const TTL_MS: nat := 20 * 60000
  const MAX_BYTES: nat := 256 * 1024 * 1024

  /** A stored reference; of its content only the length matters here. */
  datatype Reference = Reference(key: string, bytes: nat, mime: string, createdAt: int, expiresAt: int)

  function TotalBytes(references: seq<Reference>): nat {
    if references == [] then 0 else TotalBytes(references[..|references| - 1]) + references[|references| - 1].bytes
  }

  ghost predicate KeysUnique(references: seq<Reference>) {
    forall i, j :: 0 <= i < j < |references| ==> references[i].key != references[j].key
  }

  /** The references kept when some are removed, in their order. */
  function Except(references: seq<Reference>, gone: set<Reference>): seq<Reference> {
    if references == [] then []
    else
      var (rest, last) := (Except(references[..|references| - 1], gone), references[|references| - 1]);
      if last in gone then rest else rest + [last]
  }

  function Expired(references: seq<Reference>, now: int): set<Reference> {
    set r | r in references && r.expiresAt <= now
  }

  /** `Array.from(entries).sort((left, right) => left.createdAt - right.createdAt)`, which is stable. */
  function ByAge(references: seq<Reference>): seq<Reference> {
    if references == [] then [] else Inserted(ByAge(references[..|references| - 1]), references[|references| - 1])
  }

  function Inserted(sorted: seq<Reference>, r: Reference): seq<Reference> {
    if sorted == [] || sorted[|sorted| - 1].createdAt <= r.createdAt then sorted + [r]
    else Inserted(sorted[..|sorted| - 1], r) + [sorted[|sorted| - 1]]
  }

  ghost predicate OldestFirst(references: seq<Reference>) {
    forall i, j :: 0 <= i < j < |references| ==> references[i].createdAt <= references[j].createdAt
  }

  function Elements(references: seq<Reference>): set<Reference> {
    set r | r in references
  }

  lemma {:induction false} InsertedKeepsOrder(sorted: seq<Reference>, r: Reference)
    requires OldestFirst(sorted)
    ensures OldestFirst(Inserted(sorted, r)) && |Inserted(sorted, r)| == |sorted| + 1
    ensures forall x :: x in Inserted(sorted, r) <==> x in sorted || x == r
  {
    if sorted != [] && sorted[|sorted| - 1].createdAt > r.createdAt {
      var (front, last) := (sorted[..|sorted| - 1], sorted[|sorted| - 1]);
      InsertedKeepsOrder(front, r);
      assert sorted == front + [last];
      var inserted := Inserted(front, r);
      forall i | 0 <= i < |inserted|
        ensures inserted[i].createdAt <= last.createdAt
      {
        assert inserted[i] in inserted;
      }
    }
  }

  lemma {:induction false} ByAgeSorts(references: seq<Reference>)
    ensures OldestFirst(ByAge(references)) && |ByAge(references)| == |references|
    ensures forall x :: x in ByAge(references) <==> x in references
  {
    if references != [] {
      var (front, last) := (references[..|references| - 1], references[|references| - 1]);
      ByAgeSorts(front);
      InsertedKeepsOrder(ByAge(front), last);
      assert references == front + [last];
    }
  }

  /** Sorting loses and doubles nothing: distinct keys stay distinct. */
  lemma {:induction false} InsertedKeepsKeys(sorted: seq<Reference>, r: Reference)
    requires OldestFirst(sorted) && KeysUnique(sorted) && forall x :: x in sorted ==> x.key != r.key
    ensures KeysUnique(Inserted(sorted, r))
  {
    if sorted != [] && sorted[|sorted| - 1].createdAt > r.createdAt {
      var (front, last) := (sorted[..|sorted| - 1], sorted[|sorted| - 1]);
      InsertedKeepsKeys(front, r);
      InsertedKeepsOrder(front, r);
      var inserted := Inserted(front, r);
      forall i | 0 <= i < |inserted|
        ensures inserted[i].key != last.key
      {
        assert inserted[i] in inserted;
        assert last in sorted;
      }
    }
  }

  lemma {:induction false} ByAgeKeepsKeys(references: seq<Reference>)
    requires KeysUnique(references)
    ensures KeysUnique(ByAge(references))
  {
    if references != [] {
      var front := references[..|references| - 1];
      ByAgeKeepsKeys(front);
      ByAgeSorts(front);
      InsertedKeepsKeys(ByAge(front), references[|references| - 1]);
    }
  }

  lemma {:induction false} ExceptElements(references: seq<Reference>, gone: set<Reference>)
    ensures forall r :: r in Except(references, gone) <==> r in references && r !in gone
    ensures KeysUnique(references) ==> KeysUnique(Except(references, gone))
  {
    if references != [] {
      var (front, last) := (references[..|references| - 1], references[|references| - 1]);
      ExceptElements(front, gone);
      assert references == front + [last];
      var rest := Except(front, gone);
      assert forall i :: 0 <= i < |rest| ==> rest[i] in front;
    }
  }

  lemma {:induction false} ExceptTwice(references: seq<Reference>, first: set<Reference>, second: set<Reference>)
    ensures Except(Except(references, first), second) == Except(references, first + second)
  {
    if references != [] {
      var front := references[..|references| - 1];
      ExceptTwice(front, first, second);
      var kept := Except(references, first);
      assert references[|references| - 1] !in first ==> kept[..|kept| - 1] == Except(front, first);
    }
  }

  lemma {:induction false} ExceptAbsent(references: seq<Reference>, r: Reference)
    requires r !in references
    ensures Except(references, {r}) == references
  {
    if references != [] {
      ExceptAbsent(references[..|references| - 1], r);
    }
  }

  /** Removing a stored reference takes exactly its bytes from the total. */
  lemma {:induction false} ExceptOne(references: seq<Reference>, r: Reference)
    requires KeysUnique(references) && r in references
    ensures TotalBytes(Except(references, {r})) + r.bytes == TotalBytes(references)
  {
    var (front, last) := (references[..|references| - 1], references[|references| - 1]);
    if last == r {
      ExceptAbsent(front, r);
    } else {
      ExceptOne(front, r);
      assert Except(references, {r})[..|Except(front, {r})|] == Except(front, {r});
    }
  }

  /** What eviction may leave of the live references: the shortest oldest-first prefix is gone that
      brings the rest within the cap. */
  ghost predicate Evicted(live: seq<Reference>, left: seq<Reference>, k: nat) {
    && k <= |ByAge(live)| && left == Except(live, Elements(ByAge(live)[..k]))
    && TotalBytes(left) <= MAX_BYTES
    && (k > 0 ==> TotalBytes(Except(live, Elements(ByAge(live)[..k - 1]))) > MAX_BYTES)
  }

  /** Nothing kept is older than anything evicted, and nothing is evicted when all fits. */
  lemma EvictsOldest(live: seq<Reference>, left: seq<Reference>, k: nat, kept: Reference, gone: Reference)
    requires Evicted(live, left, k) && KeysUnique(live)
    requires kept in left && gone in live && gone !in left
    ensures gone.createdAt <= kept.createdAt && TotalBytes(live) > MAX_BYTES
  {
    hide ByAge, Except, TotalBytes;
    var order := ByAge(live);
    ByAgeSorts(live);
    ExceptElements(live, Elements(order[..k]));
    var i :| 0 <= i < |order| && order[i] == kept;
    assert kept !in order[..k] && gone in order[..k];
    var g :| 0 <= g < k && order[..k][g] == gone;
    assert order[g] == gone && i >= k;
    ExceptBytes(live, Elements(order[..k - 1]));
  }

  lemma {:induction false} ExceptBytes(references: seq<Reference>, gone: set<Reference>)
    ensures TotalBytes(Except(references, gone)) <= TotalBytes(references)
  {
    if references != [] {
      ExceptBytes(references[..|references| - 1], gone);
      var kept := Except(references, gone);
      assert references[|references| - 1] !in gone ==>
               kept[..|kept| - 1] == Except(references[..|references| - 1], gone);
    }
  }

  // ---- the store -----------------------------------------------------------------------------

  class Store {
    var references: seq<Reference>
    var storedBytes: int

    constructor ()
      ensures Valid() && references == []
    {
      references, storedBytes := [], 0;
    }

    /** The counter is the sum of the stored references; a map holds a key once. */
    ghost predicate Valid()
      reads this
    {
      storedBytes == TotalBytes(references) && KeysUnique(references)
    }

    /** `removeReference` */
    method Remove(key: string)
      requires Valid()
      modifies this
      ensures Valid()
      ensures forall r :: r in old(references) && r.key == key ==> references == Except(old(references), {r})
      ensures (forall r :: r in old(references) ==> r.key != key) ==> references == old(references)
    {
      if i :| 0 <= i < |references| && references[i].key == key {
        var existing := references[i];
        ExceptOne(references, existing);
        ExceptElements(references, {existing});
        storedBytes := storedBytes - existing.bytes;
        references := Except(references, {existing});
      }
    }

    /** The first loop of `pruneImageReferences`, over the map as it changes. */
    method RemoveExpired(now: int)
      requires Valid()
      modifies this
      ensures Valid() && references == Except(old(references), Expired(old(references), now))
    {
      hide Except, TotalBytes, KeysUnique;
      var all := references;
      NothingExcepted(all);
      assert Expired(all[..0], now) == {};
      for i := 0 to |all|
        invariant Valid() && references == Except(all, Expired(all[..i], now))
      {
        ghost var gone := Expired(all[..i], now);
        assert all[..i + 1] == all[..i] + [all[i]];
        assert Expired(all[..i + 1], now) == if all[i].expiresAt <= now then gone + {all[i]} else gone;
        if all[i].expiresAt <= now {
          StillStored(all, gone, i);
          Remove(all[i].key);
          ExceptTwice(all, gone, {all[i]});
        }
      }
      assert all[..|all|] == all;
    }

    /** `pruneImageReferences`: nothing expired is left, the rest is within the cap, and what is
        evicted for it is the shortest oldest-first prefix. */
    method Prune(now: int) returns (ghost evicted: nat)
      requires Valid()
      modifies this
      ensures Valid()
      ensures Evicted(Except(old(references), Expired(old(references), now)), references, evicted)
      ensures forall r :: r in references ==> r in old(references) && r.expiresAt > now
      ensures storedBytes <= MAX_BYTES
    {
      hide Except, TotalBytes, KeysUnique, ByAge, Expired;
      RemoveExpired(now);
      ghost var live := references;
      LiveOnly(old(references), now);
      evicted := 0;
      NothingExcepted(live);
      assert Elements(ByAge(live)[..0]) == {};
      if storedBytes <= MAX_BYTES {
        return;
      }
      var oldest := ByAge(references);
      ByAgeSorts(live);
      ByAgeKeepsKeys(live);
      var i := 0;
      while i < |oldest|
        invariant 0 <= i <= |oldest| && evicted == i
        invariant Valid() && references == Except(live, Elements(oldest[..i]))
        invariant storedBytes > MAX_BYTES
      {
        assert oldest[..i + 1] == oldest[..i] + [oldest[i]];
        assert Elements(oldest[..i + 1]) == Elements(oldest[..i]) + {oldest[i]};
        OldestIsNext(live, oldest, i);
        Remove(oldest[i].key);
        ExceptTwice(live, Elements(oldest[..i]), {oldest[i]});
        i, evicted := i + 1, evicted + 1;
        if storedBytes <= MAX_BYTES {
          break;
        }
      }
      ExceptElements(live, Elements(oldest[..i]));
      if storedBytes > MAX_BYTES {
        assert oldest[..i] == oldest;
        if references != [] {
          HasElement(references);
          assert false;
        }
        NothingStored();
      }
    }

    /** `createImageReference`; the three times are those its prunes and its entry read. With a clock
        that does not run backwards the new reference is readable exactly when it fits by itself. */
    method Create(key: string, bytes: nat, mime: string, first: int, now: int, last: int)
      requires Valid() && forall r :: r in references ==> r.key != key
      modifies this
      ensures Valid() && storedBytes <= MAX_BYTES
      ensures forall r :: r in references ==> r.expiresAt > last
      ensures forall r :: r in references ==>
                r in old(references) || r == Reference(key, bytes, mime, now, now + TTL_MS)
      ensures (forall r :: r in old(references) ==> r.createdAt <= now) && last < now + TTL_MS ==>
                (Reference(key, bytes, mime, now, now + TTL_MS) in references <==> bytes <= MAX_BYTES)
    {
      hide TotalBytes, Except, ByAge, Evicted, Expired;
      var _ := Prune(first);
      var added := Reference(key, bytes, mime, now, now + TTL_MS);
      ghost var before := references;
      Appended(references, added);
      references := references + [added];
      storedBytes := storedBytes + bytes;
      ghost var stored := references;
      ghost var k := Prune(last);
      if (forall r :: r in old(references) ==> r.createdAt <= now) && last < now + TTL_MS {
        AppendedLive(before, added, last);
        ExceptElements(before, Expired(before, last));
        ExceptElements(stored, Expired(stored, last));
        NewestSurvives(Except(before, Expired(before, last)), added, references, k);
      }
    }

    /** `getImageReference`: an expired reference is never returned, and is dropped. */
    method Get(key: string, now: int) returns (found: Option<Reference>)
      requires Valid()
      modifies this
      ensures Valid()
      ensures forall r :: r in old(references) && r.key == key ==>
                if r.expiresAt > now then found == Some(r) && references == old(references)
                else found == None && references == Except(old(references), {r})
      ensures (forall r :: r in old(references) ==> r.key != key) ==> found == None && references == old(references)
    {
      found := None;
      if i :| 0 <= i < |references| && references[i].key == key {
        var value := references[i];
        if value.expiresAt <= now {
          Remove(key);
        } else {
          found := Some(value);
        }
      }
    }
  }

  lemma Appended(references: seq<Reference>, r: Reference)
    requires KeysUnique(references) && forall x :: x in references ==> x.key != r.key
    ensures TotalBytes(references + [r]) == TotalBytes(references) + r.bytes && KeysUnique(references + [r])
  {
  }

  lemma {:induction false} ExceptIrrelevant(references: seq<Reference>, gone: set<Reference>, more: set<Reference>)
    requires forall r :: r in references ==> (r in gone <==> r in more)
    ensures Except(references, gone) == Except(references, more)
  {
    if references != [] {
      ExceptIrrelevant(references[..|references| - 1], gone, more);
    }
  }

  lemma AppendedLive(references: seq<Reference>, r: Reference, now: int)
    requires r.expiresAt > now
    ensures Except(references + [r], Expired(references + [r], now))
         == Except(references, Expired(references, now)) + [r]
  {
    var longer := references + [r];
    assert longer[..|references|] == references;
    ExceptIrrelevant(references, Expired(longer, now), Expired(references, now));
  }

  lemma {:induction false} AtLeastItsBytes(references: seq<Reference>, r: Reference)
    requires r in references
    ensures TotalBytes(references) >= r.bytes
  {
    if r != references[|references| - 1] {
      AtLeastItsBytes(references[..|references| - 1], r);
    }
  }

  /** The newest reference is the last to be evicted, so it goes only when it alone exceeds the cap. */
  lemma NewestSurvives(others: seq<Reference>, r: Reference, left: seq<Reference>, k: nat)
    requires KeysUnique(others + [r]) && Evicted(others + [r], left, k)
    requires forall x :: x in others ==> x.createdAt <= r.createdAt
    ensures r in left <==> r.bytes <= MAX_BYTES
  {
    hide ByAge, Except, TotalBytes;
    var live := others + [r];
    NewestIsLast(others, r);
    ByAgeSorts(others);
    ByAgeSorts(live);
    ByAgeKeepsKeys(live);
    var order := ByAge(live);
    ExceptElements(live, Elements(order[..k]));
    if k == |order| {
      assert order[..k] == order && r in order;
      var only := Except(live, Elements(order[..k - 1]));
      OnlyTheNewest(others, r, order);
    } else {
      LastIsNew(order, k);
      assert r in left;
      AtLeastItsBytes(left, r);
    }
  }

  lemma LastIsNew(references: seq<Reference>, k: nat)
    requires KeysUnique(references) && k < |references|
    ensures references[|references| - 1] !in references[..k]
  {
  }

  /** A reference larger than the cap, alone in the store, is evicted as soon as it is created. */
  lemma OversizedReference(left: seq<Reference>, k: nat)
    requires Evicted([Reference("key.png", MAX_BYTES + 1, "image/png", 0, TTL_MS)], left, k)
    ensures left == []
  {
    var r := Reference("key.png", MAX_BYTES + 1, "image/png", 0, TTL_MS);
    assert [] + [r] == [r];
    NewestSurvives([], r, left, k);
    ExceptElements([r], Elements(ByAge([r])[..k]));
    if left != [] {
      HasElement(left);
      assert false;
    }
  }

  lemma NewestIsLast(others: seq<Reference>, r: Reference)
    requires forall x :: x in others ==> x.createdAt <= r.createdAt
    ensures ByAge(others + [r]) == ByAge(others) + [r]
  {
    assert (others + [r])[..|others|] == others;
    ByAgeSorts(others);
    assert ByAge(others) != [] ==> ByAge(others)[|ByAge(others)| - 1] in others;
  }

  lemma {:induction false} AllGone(references: seq<Reference>, gone: set<Reference>)
    requires forall r :: r in references ==> r in gone
    ensures Except(references, gone) == []
  {
    if references != [] {
      AllGone(references[..|references| - 1], gone);
    }
  }

  lemma OnlyTheNewest(others: seq<Reference>, r: Reference, order: seq<Reference>)
    requires order == ByAge(others) + [r] && KeysUnique(others + [r])
    ensures TotalBytes(Except(others + [r], Elements(order[..|order| - 1]))) == r.bytes
  {
    hide ByAge;
    ByAgeSorts(others);
    var gone := Elements(order[..|order| - 1]);
    assert order[..|order| - 1] == ByAge(others);
    assert (others + [r])[..|others|] == others;
    AllGone(others, gone);
    LastIsNew(others + [r], |others|);
    OneStored(r);
  }

  lemma NothingStored()
    ensures TotalBytes([]) == 0
  {
  }

  lemma OneStored(r: Reference)
    ensures TotalBytes([r]) == r.bytes
  {
  }

  lemma HasElement(references: seq<Reference>)
    requires references != []
    ensures references[0] in references
  {
  }

  lemma {:induction false} NothingExcepted(references: seq<Reference>)
    ensures Except(references, {}) == references
  {
    if references != [] {
      NothingExcepted(references[..|references| - 1]);
    }
  }

  /** While references are removed one by one, the next one of the snapshot is still stored, and it
      is the one that its key names. */
  lemma StillStored(all: seq<Reference>, gone: set<Reference>, i: nat)
    requires i < |all| && KeysUnique(all) && forall r :: r in gone ==> r in all[..i]
    ensures all[i] in Except(all, gone)
  {
  }

  lemma LiveOnly(references: seq<Reference>, now: int)
    ensures forall r :: r in Except(references, Expired(references, now)) ==> r in references && r.expiresAt > now
  {
    var live := Except(references, Expired(references, now));
    ExceptElements(references, Expired(references, now));
  }

  lemma OldestIsNext(live: seq<Reference>, oldest: seq<Reference>, i: nat)
    requires i < |oldest| && KeysUnique(oldest) && forall r :: r in oldest ==> r in live
    ensures oldest[i] in Except(live, Elements(oldest[..i]))
  {
    ExceptElements(live, Elements(oldest[..i]));
  }
}
