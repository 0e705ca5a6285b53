/** The paged sweep over stale reservations (src/modules/ai/request-recovery.ts). */
module StaleRecovery {
  import opened JsonValues
  import opened Keyset
  import opened Wallet
  import opened WalletBooks
  import opened WalletStore

  datatype Candidate = Candidate(id: nat, estimate: nat, snapshot: Option<Snapshot>)

  /** The candidates no operation tariff holds, in queue order. */
  function Eligible(queue: seq<Keyed<Candidate>>): (eligible: seq<Candidate>)
    ensures |eligible| <= |queue|
    ensures forall c :: c in eligible ==> !Held(c.snapshot)
  {
    if queue == [] then []
    else
      var earlier := Eligible(queue[..|queue| - 1]);
      var last := queue[|queue| - 1].row;
      if Held(last.snapshot) then earlier else earlier + [last]
  }

  lemma {:induction false} EligibleConcat(a: seq<Keyed<Candidate>>, b: seq<Keyed<Candidate>>)
    ensures Eligible(a + b) == Eligible(a) + Eligible(b)
  {
    if b == [] {
      assert a + b == a;
    } else {
      EligibleConcat(a, b[..|b| - 1]);
      assert (a + b)[..|a + b| - 1] == a + b[..|b| - 1];
    }
  }

  function First(candidates: seq<Candidate>, n: nat): seq<Candidate> {
    if |candidates| <= n then candidates else candidates[..n]
  }

  function SweepCalls(candidates: seq<Candidate>, staleBefore: int): (calls: seq<Call>)
    ensures |calls| == |candidates|
    ensures forall i :: 0 <= i < |calls| ==>
              calls[i] == Call.Sweep(candidates[i].id, candidates[i].estimate, staleBefore)
  {
    seq(|candidates|, i requires 0 <= i < |candidates| =>
      Call.Sweep(candidates[i].id, candidates[i].estimate, staleBefore))
  }

  function BatchSize(limit: int): (size: nat)
    ensures 1 <= size <= 500 && (1 <= limit <= 500 ==> size == limit)
    ensures (limit < 1 ==> size == 1) && (limit > 500 ==> size == 500)
  {
    if limit < 1 then 1 else if limit > 500 then 500 else limit
  }

  lemma {:induction false} RunAppend(s: State, calls: seq<Call>, call: Call)
    ensures Run(s, calls + [call]) == After(Run(s, calls), call)
    decreases |calls|
  {
    if calls == [] {
      assert [call][1..] == [];
    } else {
      assert (calls + [call])[1..] == calls[1..] + [call];
      RunAppend(After(s, calls[0]), calls[1..], call);
    }
  }

  lemma {:induction false} SweepsAreExact(s: State, candidates: seq<Candidate>, staleBefore: int)
    ensures AllExact(s, SweepCalls(candidates, staleBefore))
    decreases |candidates|
  {
    if candidates != [] {
      var call := Call.Sweep(candidates[0].id, candidates[0].estimate, staleBefore);
      assert SweepCalls(candidates, staleBefore)[1..] == SweepCalls(candidates[1..], staleBefore);
      SweepsAreExact(After(s, call), candidates[1..], staleBefore);
    }
  }

  /** The query: open image and video reservations that are old enough, in (createdAt, id) order. */
  predicate Stale(row: Row, staleBefore: int) {
    && (row.capability == IMAGE || row.capability == VIDEO)
    && Active(row) && row.createdAt < staleBefore && !row.completed
  }

  ghost predicate QueueOf(rows: seq<Row>, staleBefore: int, queue: seq<Keyed<Candidate>>) {
    && Ordered(queue, Ascending)
    && (forall i :: 0 <= i < |queue| ==>
          var c := queue[i].row;
          && c.id < |rows| && Stale(rows[c.id], staleBefore)
          && queue[i].key == Keyset.Key(rows[c.id].createdAt, c.id)
          && c.estimate == rows[c.id].estimated && c.snapshot == rows[c.id].snapshot)
    && (forall id :: 0 <= id < |rows| && Stale(rows[id], staleBefore) ==>
        exists i :: 0 <= i < |queue| && queue[i].row.id == id)
  }

  function Swept(s: State, candidates: seq<Candidate>, staleBefore: int): State {
    Run(s, SweepCalls(candidates, staleBefore))
  }

  lemma SweptOneMore(s: State, candidates: seq<Candidate>, c: Candidate, staleBefore: int)
    ensures Swept(s, candidates + [c], staleBefore)
            == After(Swept(s, candidates, staleBefore), Call.Sweep(c.id, c.estimate, staleBefore))
  {
    var call := Call.Sweep(c.id, c.estimate, staleBefore);
    assert SweepCalls(candidates + [c], staleBefore) == SweepCalls(candidates, staleBefore) + [call];
    RunAppend(s, SweepCalls(candidates, staleBefore), call);
  }

  /** How many of these sweeps release their row. */
  function Released(s: State, candidates: seq<Candidate>, staleBefore: int): nat {
    if candidates == [] then 0
    else
      var (earlier, c) := (candidates[..|candidates| - 1], candidates[|candidates| - 1]);
      var call := Call.Sweep(c.id, c.estimate, staleBefore);
      Released(s, earlier, staleBefore)
      + if Effect(Swept(s, earlier, staleBefore), call).outcome == Done then 1 else 0
  }

  lemma ReleasedOneMore(s: State, candidates: seq<Candidate>, c: Candidate, staleBefore: int)
    ensures var call := Call.Sweep(c.id, c.estimate, staleBefore);
            Released(s, candidates + [c], staleBefore)
            == Released(s, candidates, staleBefore)
               + if Effect(Swept(s, candidates, staleBefore), call).outcome == Done then 1 else 0
  {
  }

  lemma EligibleNext(queue: seq<Keyed<Candidate>>, n: nat)
    requires n < |queue|
    ensures Eligible(queue[..n + 1])
         == Eligible(queue[..n]) + if Held(queue[n].row.snapshot) then [] else [queue[n].row]
  {
    assert queue[..n + 1][..n] == queue[..n];
  }

  lemma EligibleSoFar(queue: seq<Keyed<Candidate>>, n: nat, batchSize: nat)
    requires n <= |queue| && |Eligible(queue[..n])| <= batchSize
    requires n == |queue| || |Eligible(queue[..n])| == batchSize
    ensures Eligible(queue[..n]) == First(Eligible(queue), batchSize)
  {
    assert queue[..n] + queue[n..] == queue;
    EligibleConcat(queue[..n], queue[n..]);
  }

  /** Over a fixed queue the sweep attempts exactly the first `BatchSize(limit)` candidates that
      are not held, each once and in order, however many pages the held ones fill. */
  method RecoverStaleRequests(db: Database, queue: seq<Keyed<Candidate>>, staleBefore: int, limit: int)
      returns (scanned: nat, recovered: nat, ghost attempted: seq<Candidate>)
    requires QueueOf(db.rows, staleBefore, queue)
    modifies db
    ensures attempted == First(Eligible(queue), BatchSize(limit))
    ensures db.View() == Swept(old(db.View()), attempted, staleBefore)
    ensures scanned <= |queue| && attempted == Eligible(queue[..scanned])
    ensures recovered == Released(old(db.View()), attempted, staleBefore)
    ensures DistinctIds(attempted)
    ensures old(Covered(db.View())) ==>
              && recovered == |attempted|
              && forall c :: c in attempted ==> c.id < |db.rows| && db.rows[c.id].status == FAILED
    ensures |attempted| == BatchSize(limit) || attempted == Eligible(queue)
    ensures old(Covered(db.View())) && |attempted| < BatchSize(limit) ==>
              forall id ::
                && 0 <= id < |old(db.rows)|
                && Stale(old(db.rows)[id], staleBefore) && !Held(old(db.rows)[id].snapshot) ==>
                  id < |db.rows| && db.rows[id].status == FAILED
  {
    hide Swept, Eligible, Page, QueueOf, Ordered, Released, Effect, Stale, Held, Covered, DistinctIds;
    var batchSize := BatchSize(limit);
    var candidates := FetchCandidates(queue, staleBefore, db.rows, None, 0, batchSize);
    var offset, eligible := 0, 0;
    scanned, recovered, attempted := 0, 0, [];
    NothingSwept(db.View(), queue, staleBefore);
    while eligible < batchSize
      invariant offset <= |candidates| && offset <= scanned <= |queue|
      invariant candidates == Slice(queue, scanned - offset, batchSize)
      invariant eligible == |attempted| <= batchSize && recovered == Released(old(db.View()), attempted, staleBefore)
      invariant attempted == Eligible(queue[..scanned])
      invariant db.View() == Swept(old(db.View()), attempted, staleBefore)
      decreases |queue| - scanned
    {
      if offset >= |candidates| {
        if |candidates| < batchSize {
          break;
        }
        candidates := FetchCandidates(queue, staleBefore, old(db.rows), Some(candidates[|candidates| - 1].key), scanned,
                                      batchSize);
        offset := 0;
        if |candidates| == 0 {
          break;
        }
      }
      var candidate := candidates[offset].row;
      EligibleNext(queue, scanned);
      offset := offset + 1;
      scanned := scanned + 1;
      if Held(candidate.snapshot) {
        continue;
      }
      eligible := eligible + 1;
      SweptOneMore(old(db.View()), attempted, candidate, staleBefore);
      ReleasedOneMore(old(db.View()), attempted, candidate, staleBefore);
      attempted := attempted + [candidate];
      var outcome := db.Sweep(candidate.id, candidate.estimate, staleBefore);
      if outcome == Done {
        recovered := recovered + 1;
      }
    }
    EligibleSoFar(queue, scanned, batchSize);
    StaleIsEligible(old(db.rows), staleBefore, queue);
    EligibleDistinct(old(db.rows), staleBefore, queue, scanned);
    if old(Covered(db.View())) {
      EligibleSweepable(old(db.View()), staleBefore, queue, scanned);
      SweepReleasesAll(old(db.View()), attempted, staleBefore);
      AllReleased(old(db.View()), attempted, staleBefore);
    }
  }

  /** Every stale row that no operation tariff holds is among the candidates. */
  lemma StaleIsEligible(rows: seq<Row>, staleBefore: int, queue: seq<Keyed<Candidate>>)
    requires QueueOf(rows, staleBefore, queue)
    ensures forall id :: 0 <= id < |rows| && Stale(rows[id], staleBefore) && !Held(rows[id].snapshot) ==>
              exists c :: c in Eligible(queue) && c.id == id
  {
    hide Held, Stale;
    EligibleMembers(queue);
    forall id | 0 <= id < |rows| && Stale(rows[id], staleBefore) && !Held(rows[id].snapshot)
      ensures exists c :: c in Eligible(queue) && c.id == id
    {
      var i :| 0 <= i < |queue| && queue[i].row.id == id;
      assert queue[i].row in Eligible(queue);
    }
  }

  /** What the query selects is what the release transaction does not skip. */
  lemma StaleIff(s: State, id: nat, staleBefore: int)
    requires id < |s.rows|
    ensures Stale(s.rows[id], staleBefore)
       <==> Effect(s, Call.Sweep(id, s.rows[id].estimated, staleBefore)).outcome != Skipped
  {
  }

  /** Every reservation of an operation is held, and nothing else is: no video, and no image without an
      operation's tariff. */
  lemma HeldTariffs(snapshot: Snapshot)
    ensures OperationSnapshot(snapshot) ==> Held(Some(snapshot))
    ensures snapshot.modality != "image" || !Tariffed(Some(snapshot)) ==> !Held(Some(snapshot))
    ensures snapshot.operation.None? || snapshot.speed.None? ==> !Held(Some(snapshot))
    ensures !Held(None)
  {
  }

  ghost predicate DistinctIds(candidates: seq<Candidate>) {
    forall i, j :: 0 <= i < j < |candidates| ==> candidates[i].id != candidates[j].id
  }

  function Slice(queue: seq<Keyed<Candidate>>, from: nat, take: nat): (page: seq<Keyed<Candidate>>)
    requires from <= |queue|
    ensures |page| == if from + take <= |queue| then take else |queue| - from
    ensures forall i :: 0 <= i < |page| ==> page[i] == queue[from + i]
  {
    queue[from..if from + take <= |queue| then from + take else |queue|]
  }

  lemma NothingSwept(s: State, queue: seq<Keyed<Candidate>>, staleBefore: int)
    ensures Swept(s, [], staleBefore) == s && Released(s, [], staleBefore) == 0 && Eligible(queue[..0]) == []
  {
  }

  /** `fetchCandidates(cursor)`: the next page after the row the sweep has reached. */
  method FetchCandidates(queue: seq<Keyed<Candidate>>, ghost staleBefore: int, ghost rows: seq<Row>,
                         cursor: Option<Keyset.Key>, ghost reached: nat, take: nat)
      returns (page: seq<Keyed<Candidate>>)
    requires QueueOf(rows, staleBefore, queue)
    requires reached <= |queue| && cursor == CursorAt(queue, reached)
    ensures page == Slice(queue, reached, take)
  {
    PageContinues(queue, reached, Ascending, take);
    page := Page(queue, cursor, Ascending, take);
  }

  // ---- what the swept candidates become ------------------------------------------------------

  lemma EligibleFromQueue(rows: seq<Row>, staleBefore: int, queue: seq<Keyed<Candidate>>, n: nat)
    requires QueueOf(rows, staleBefore, queue) && n <= |queue|
    ensures forall c :: c in Eligible(queue[..n]) ==> exists i :: 0 <= i < n && queue[i].row == c
    ensures forall c :: c in Eligible(queue[..n]) ==>
              c.id < |rows| && c.snapshot == rows[c.id].snapshot && !Held(c.snapshot)
  {
    EligibleMembers(queue[..n]);
    forall c | c in Eligible(queue[..n])
      ensures exists i :: 0 <= i < n && queue[i].row == c
    {
      var i :| 0 <= i < n && queue[..n][i].row == c;
      assert queue[i].row == c;
    }
  }

  lemma {:induction false} EligibleMembers(queue: seq<Keyed<Candidate>>)
    ensures forall c :: c in Eligible(queue) ==> exists i :: 0 <= i < |queue| && queue[i].row == c
    ensures forall i :: 0 <= i < |queue| && !Held(queue[i].row.snapshot) ==> queue[i].row in Eligible(queue)
  {
    hide Held;
    if queue != [] {
      var n := |queue| - 1;
      EligibleMembers(queue[..n]);
      forall i | 0 <= i < |queue| && !Held(queue[i].row.snapshot)
        ensures queue[i].row in Eligible(queue)
      {
        if i < n {
          assert queue[..n][i] == queue[i];
        }
      }
      forall c | c in Eligible(queue)
        ensures exists i :: 0 <= i < |queue| && queue[i].row == c
      {
        if c in Eligible(queue[..n]) {
          var i :| 0 <= i < n && queue[..n][i].row == c;
          assert queue[i].row == c;
        } else {
          assert queue[n].row == c;
        }
      }
    }
  }

  lemma {:induction false} SweepLeavesOthers(s: State, candidates: seq<Candidate>, staleBefore: int, id: nat)
    requires id < |s.rows| && forall c :: c in candidates ==> c.id != id
    ensures id < |Swept(s, candidates, staleBefore).rows| && Swept(s, candidates, staleBefore).rows[id] == s.rows[id]
    decreases |candidates|
  {
    if candidates != [] {
      var call := Call.Sweep(candidates[0].id, candidates[0].estimate, staleBefore);
      assert SweepCalls(candidates, staleBefore)[1..] == SweepCalls(candidates[1..], staleBefore);
      SweepLeavesOthers(After(s, call), candidates[1..], staleBefore, id);
    }
  }

  /** However long they have been waiting, held operations are never claimed. */
  lemma HeldOperationsStayOpen(s: State, staleBefore: int, queue: seq<Keyed<Candidate>>, n: nat, id: nat)
    requires QueueOf(s.rows, staleBefore, queue) && n <= |queue|
    requires id < |s.rows| && Held(s.rows[id].snapshot)
    ensures id < |Swept(s, Eligible(queue[..n]), staleBefore).rows|
    ensures Swept(s, Eligible(queue[..n]), staleBefore).rows[id] == s.rows[id]
  {
    EligibleFromQueue(s.rows, staleBefore, queue, n);
    SweepLeavesOthers(s, Eligible(queue[..n]), staleBefore, id);
  }

  /** The candidate is still what the query saw. */
  predicate Sweepable(s: State, c: Candidate, staleBefore: int) {
    c.id < |s.rows| && Stale(s.rows[c.id], staleBefore) && c.estimate == s.rows[c.id].estimated
  }

  /** The strict order of the queue is by (createdAt, id), so no row is in it twice. */
  lemma LaterIsAnother(rows: seq<Row>, staleBefore: int, queue: seq<Keyed<Candidate>>, j: nat, n: nat)
    requires QueueOf(rows, staleBefore, queue) && j < n < |queue|
    ensures queue[j].row.id != queue[n].row.id
  {
    assert Precedes(Ascending, queue[j].key, queue[n].key);
  }

  lemma {:induction false} EligibleDistinct(rows: seq<Row>, staleBefore: int, queue: seq<Keyed<Candidate>>, n: nat)
    requires QueueOf(rows, staleBefore, queue) && n <= |queue|
    ensures DistinctIds(Eligible(queue[..n]))
  {
    hide QueueOf, Held, Ordered;
    if n > 0 {
      EligibleDistinct(rows, staleBefore, queue, n - 1);
      EligibleNext(queue, n - 1);
      var (earlier, last) := (Eligible(queue[..n - 1]), queue[n - 1]);
      EligibleFromQueue(rows, staleBefore, queue, n - 1);
      forall i | 0 <= i < |earlier|
        ensures earlier[i].id != last.row.id
      {
        assert earlier[i] in earlier;
        var j :| 0 <= j < n - 1 && queue[j].row == earlier[i];
        LaterIsAnother(rows, staleBefore, queue, j, n - 1);
      }
    }
  }

  lemma EligibleSweepable(s: State, staleBefore: int, queue: seq<Keyed<Candidate>>, n: nat)
    requires QueueOf(s.rows, staleBefore, queue) && n <= |queue|
    ensures forall c :: c in Eligible(queue[..n]) ==> Sweepable(s, c, staleBefore)
  {
    EligibleFromQueue(s.rows, staleBefore, queue, n);
  }

  /** A sweep of a candidate that is still as the query saw it releases it, unless its wallet holds
      less than the estimate. */
  lemma SweepOutcome(s: State, c: Candidate, staleBefore: int)
    requires Sweepable(s, c, staleBefore) && Solvent(s) && s.rows[c.id].user in s.purses
    ensures Effect(s, Call.Sweep(c.id, c.estimate, staleBefore)).outcome
         == if ExceedsHold(s, c.id, c.estimate) then Refused("constraint") else Done
  {
  }

  lemma SweepsDone(s: State, c: Candidate, staleBefore: int)
    requires Sweepable(s, c, staleBefore) && Covered(s)
    ensures Effect(s, Call.Sweep(c.id, c.estimate, staleBefore)).outcome == Done
  {
    hide Effect, RowSum;
    OpenIsCovered(s, c.id);
    SweepOutcome(s, c, staleBefore);
  }

  /** What a sweep does, if it does anything: it closes its row and releases the estimate. */
  lemma SweptChange(s: State, call: Call)
    requires call.Sweep?
    ensures var change := Effect(s, call).change;
            change == Keep
            || (&& call.id < |s.rows| && Active(s.rows[call.id]) && call.estimate == s.rows[call.id].estimated
                && change == Put(call.id, s.rows[call.id].(status := FAILED, completed := true),
                                 Some(Wallet.Releasing(call.estimate))))
  {
  }

  lemma SweepKeepsCovered(s: State, call: Call)
    requires call.Sweep? && Covered(s)
    ensures Covered(After(s, call))
  {
    hide Effect, RowSum, Total, Latest;
    var change := Effect(s, call).change;
    SweptChange(s, call);
    StaysSolvent(s, change);
    if change.Put? {
      PutTotals(s, change.id, change.row, change.money);
    }
  }

  lemma {:induction false} SweptKeepsCovered(s: State, candidates: seq<Candidate>, staleBefore: int)
    requires Covered(s)
    ensures Covered(Swept(s, candidates, staleBefore))
    decreases |candidates|
  {
    hide Covered, Effect;
    if candidates != [] {
      var call := Call.Sweep(candidates[0].id, candidates[0].estimate, staleBefore);
      assert SweepCalls(candidates, staleBefore)[1..] == SweepCalls(candidates[1..], staleBefore);
      SweepKeepsCovered(s, call);
      SweptKeepsCovered(After(s, call), candidates[1..], staleBefore);
    }
  }

  lemma {:induction false} AllReleased(s: State, candidates: seq<Candidate>, staleBefore: int)
    requires Covered(s)
    requires DistinctIds(candidates) && forall c :: c in candidates ==> Sweepable(s, c, staleBefore)
    ensures Released(s, candidates, staleBefore) == |candidates|
  {
    hide Effect, Swept, After, Covered;
    if candidates != [] {
      var (earlier, last) := (candidates[..|candidates| - 1], candidates[|candidates| - 1]);
      AllReleased(s, earlier, staleBefore);
      assert Sweepable(s, last, staleBefore);
      SweepLeavesOthers(s, earlier, staleBefore, last.id);
      SweptKeepsCovered(s, earlier, staleBefore);
      SweepsDone(Swept(s, earlier, staleBefore), last, staleBefore);
    }
  }

  /** A done sweep leaves its own row FAILED and the other candidates as the query saw them. */
  lemma SweptFirst(s: State, first: Candidate, staleBefore: int)
    requires Sweepable(s, first, staleBefore) && Covered(s)
    ensures var after := After(s, Call.Sweep(first.id, first.estimate, staleBefore));
            && first.id < |after.rows| && after.rows[first.id].status == FAILED
            && forall c: Candidate ::
                 c.id != first.id && Sweepable(s, c, staleBefore) ==> Sweepable(after, c, staleBefore)
  {
    hide Effect, Covered;
    var call := Call.Sweep(first.id, first.estimate, staleBefore);
    SweepsDone(s, first, staleBefore);
    SweptChange(s, call);
    DoneChanges(s, call);
  }

  lemma DoneChanges(s: State, call: Call)
    requires call.Sweep? && Effect(s, call).outcome == Done
    ensures Effect(s, call).change.Put?
  {
  }

  /** Where the wallets cover the open rows, every attempted candidate ends up FAILED. */
  lemma {:induction false} SweepReleasesAll(s: State, candidates: seq<Candidate>, staleBefore: int)
    requires DistinctIds(candidates) && Covered(s)
    requires forall c :: c in candidates ==> Sweepable(s, c, staleBefore)
    ensures var after := Swept(s, candidates, staleBefore);
            forall c :: c in candidates ==> c.id < |after.rows| && after.rows[c.id].status == FAILED
    decreases |candidates|
  {
    hide After, Sweepable, Effect, Covered;
    if candidates != [] {
      var first, rest := candidates[0], candidates[1..];
      var call := Call.Sweep(first.id, first.estimate, staleBefore);
      assert SweepCalls(candidates, staleBefore)[1..] == SweepCalls(rest, staleBefore);
      SweptFirst(s, first, staleBefore);
      forall c | c in rest
        ensures c.id != first.id && Sweepable(After(s, call), c, staleBefore)
      {
        var j :| 0 <= j < |rest| && rest[j] == c;
        assert candidates[j + 1] == c;
      }
      SweepKeepsCovered(s, call);
      SweepReleasesAll(After(s, call), rest, staleBefore);
      SweepLeavesOthers(After(s, call), rest, staleBefore, first.id);
    }
  }

  /** The whole sweep keeps the wallet books. */
  lemma SweepKeepsBooks(s: State, opening: map<string, int>, candidates: seq<Candidate>, staleBefore: int)
    requires Books(s, opening)
    ensures Books(Swept(s, candidates, staleBefore), opening)
  {
    SweepsAreExact(s, candidates, staleBefore);
    RunKeepsBooks(s, opening, SweepCalls(candidates, staleBefore));
  }
}
