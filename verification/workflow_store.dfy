/** The workflow table and the functions of the queue over it, statement by statement. What
    other processes write between two statements of one call is a parameter. */
module WorkflowStore {
  import opened Options
  import opened WorkflowRows
  import Hex

  type Table = map<Id, Row>

  /** A row as a query returned it. */
  datatype Seen = Seen(id: Id, row: Row)

  /** What happens to the table before the `k`-th statement of a loop. */
  type Interference = (nat, Table) -> Table

  const QUIET: Interference := (k, t) => t

  datatype Answer = Done | LockLost | NotFound | ConflictRunning | ConflictSucceeded | InvalidStatus

  // --------------------------------------------------------------- claiming, as a function

  datatype Claims = Claims(ids: seq<Id>, table: Table)

  /** The table in front of the `k`-th claim. */
  function TableBefore(found: seq<Seen>, k: nat, limit: nat, t: Table, others: Interference, now: Time,
                       w: WorkerId): Table
    requires k < |found|
  {
    others(k, ClaimUpTo(found, k, limit, t, others, now, w).table)
  }

  /** What the loop has done after `k` candidates; nothing more once the limit is reached. */
  function ClaimUpTo(found: seq<Seen>, k: nat, limit: nat, t: Table, others: Interference, now: Time,
                     w: WorkerId): Claims
    requires k <= |found|
    decreases k
  {
    if k == 0 then Claims([], t)
    else
      var c := ClaimUpTo(found, k - 1, limit, t, others, now, w);
      if |c.ids| >= limit then c
      else
        var id, before := found[k - 1].id, others(k - 1, c.table);
        if id in before && Due(before[id], now)
        then Claims(c.ids + [id], before[id := Claimed(before[id], found[k - 1].row.startedAt, now, w)])
        else Claims(c.ids, before)
  }

  /** `ids` are some of the candidates, in their order. */
  predicate PickedFrom(ids: seq<Id>, found: seq<Seen>) {
    if ids == [] then true
    else found != [] &&
         (if found[|found| - 1].id == ids[|ids| - 1]
          then PickedFrom(ids[..|ids| - 1], found[..|found| - 1])
          else PickedFrom(ids, found[..|found| - 1]))
  }

  predicate DistinctSeen(found: seq<Seen>) {
    forall i, j | 0 <= i < j < |found| :: found[i].id != found[j].id
  }

  /** At most `limit` rows, in the order of the candidates. */
  lemma {:induction false} ClaimsInOrder(found: seq<Seen>, k: nat, limit: nat, t: Table, others: Interference,
                                         now: Time, w: WorkerId)
    requires k <= |found| && DistinctSeen(found)
    ensures var ids := ClaimUpTo(found, k, limit, t, others, now, w).ids;
            |ids| <= limit && PickedFrom(ids, found[..k])
    decreases k
  {
    if k > 0 {
      ClaimsInOrder(found, k - 1, limit, t, others, now, w);
      assert found[..k][..k - 1] == found[..k - 1];
      var before := ClaimUpTo(found, k - 1, limit, t, others, now, w).ids;
      var after := ClaimUpTo(found, k, limit, t, others, now, w).ids;
      if after == before {
        if after != [] { PickedIsThere(after, found[..k - 1], |after| - 1); }
      } else {
        assert after[..|after| - 1] == before;
      }
    }
  }

  lemma {:induction false} PickedIsThere(ids: seq<Id>, found: seq<Seen>, i: nat)
    requires PickedFrom(ids, found) && i < |ids|
    ensures exists j :: 0 <= j < |found| && found[j].id == ids[i]
    decreases |found|
  {
    var n := |found| - 1;
    if found[n].id != ids[|ids| - 1] {
      PickedIsThere(ids, found[..n], i);
    } else if i < |ids| - 1 {
      PickedIsThere(ids[..|ids| - 1], found[..n], i);
    }
  }

  lemma {:induction false} PickedDistinct(ids: seq<Id>, found: seq<Seen>)
    requires PickedFrom(ids, found) && DistinctSeen(found)
    ensures forall i, j | 0 <= i < j < |ids| :: ids[i] != ids[j]
    decreases |found|
  {
    if ids != [] {
      var n, m := |found| - 1, |ids| - 1;
      if found[n].id == ids[m] {
        PickedDistinct(ids[..m], found[..n]);
        forall i | 0 <= i < m ensures ids[i] != ids[m] {
          PickedIsThere(ids[..m], found[..n], i);
          var j :| 0 <= j < n && found[..n][j].id == ids[..m][i];
          assert found[j].id == ids[i];
        }
      } else {
        PickedDistinct(ids, found[..n]);
      }
    }
  }

  /** Whatever the others do: each claimed row was due at the statement that claimed it. */
  lemma {:induction false} DueAtItsClaim(found: seq<Seen>, k: nat, limit: nat, t: Table, others: Interference,
                                         now: Time, w: WorkerId, id: Id)
    requires k <= |found| && id in ClaimUpTo(found, k, limit, t, others, now, w).ids
    ensures exists j :: 0 <= j < k && found[j].id == id &&
              var before := TableBefore(found, j, limit, t, others, now, w);
              id in before && Due(before[id], now)
    decreases k
  {
    var ids := ClaimUpTo(found, k - 1, limit, t, others, now, w).ids;
    if id in ids {
      DueAtItsClaim(found, k - 1, limit, t, others, now, w, id);
    } else {
      assert found[k - 1].id == id;
      var before := TableBefore(found, k - 1, limit, t, others, now, w);
      assert id in before && Due(before[id], now);
    }
  }

  // ------------------------------------------------------- claiming without interference

  /** `orderBy: [{ priority: "desc" }, { createdAt: "asc" }]`. */
  predicate Before(a: Row, b: Row) {
    a.priority > b.priority || (a.priority == b.priority && a.createdAt <= b.createdAt)
  }

  /** The first `take` due rows of the table in that order, ties in any order. */
  predicate QueryResult(t: Table, now: Time, take: nat, found: seq<Seen>) {
    && DistinctSeen(found) && |found| <= take
    && (forall i | 0 <= i < |found| :: found[i].id in t && t[found[i].id] == found[i].row && Due(found[i].row, now))
    && (forall i, j | 0 <= i < j < |found| :: Before(found[i].row, found[j].row))
    && (forall id | id in t && Due(t[id], now) && (forall i | 0 <= i < |found| :: found[i].id != id) ::
          |found| == take && (forall i | 0 <= i < |found| :: Before(found[i].row, t[id])))
  }

  function Ids(found: seq<Seen>): seq<Id> {
    seq(|found|, i requires 0 <= i < |found| => found[i].id)
  }

  /** The table with the first `n` candidates claimed. */
  function AllClaimed(t: Table, found: seq<Seen>, n: nat, now: Time, w: WorkerId): Table
    requires n <= |found|
  {
    map id | id in t :: if id in Ids(found[..n]) then Claimed(t[id], t[id].startedAt, now, w) else t[id]
  }

  lemma {:induction false} ClaimsFirst(found: seq<Seen>, k: nat, limit: nat, t: Table, now: Time, w: WorkerId,
                                       take: nat)
    requires k <= |found| && QueryResult(t, now, take, found)
    ensures var n := if k <= limit then k else limit;
            ClaimUpTo(found, k, limit, t, QUIET, now, w) == Claims(Ids(found[..n]), AllClaimed(t, found, n, now, w))
    decreases k
  {
    if k > 0 {
      ClaimsFirst(found, k - 1, limit, t, now, w, take);
      if k <= limit { OneMoreClaimed(t, found, k - 1, now, w); }
    } else {
      assert AllClaimed(t, found, 0, now, w) == t;
    }
  }

  lemma OneMoreClaimed(t: Table, found: seq<Seen>, k: nat, now: Time, w: WorkerId)
    requires k < |found| && DistinctSeen(found) && found[k].id in t && t[found[k].id] == found[k].row
    ensures Ids(found[..k + 1]) == Ids(found[..k]) + [found[k].id]
    ensures found[k].id !in Ids(found[..k])
    ensures AllClaimed(t, found, k + 1, now, w)
         == AllClaimed(t, found, k, now, w)[found[k].id := Claimed(found[k].row, found[k].row.startedAt, now, w)]
  {
  }

  /** The row runs on this worker's lease of five minutes; it starts now unless it has before. */
  predicate Leased(before: Row, after: Row, now: Time, w: WorkerId) {
    after == before.(status := Running, lockedBy := Some(w), lockExpiresAt := Some(now + 300000), completedAt := None,
                     startedAt := if before.startedAt.Some? then before.startedAt else Some(now))
  }

  /** With nobody else writing: the claimed rows are the first `limit` due rows of the table, or
      all of them if there are fewer; they come in order, and no other row changes. */
  lemma ClaimsExactlyTheFirst(found: seq<Seen>, limit: nat, t: Table, now: Time, w: WorkerId)
    requires QueryResult(t, now, 3 * limit, found)
    ensures var c := ClaimUpTo(found, |found|, limit, t, QUIET, now, w);
            && (forall id | id in c.ids :: id in t && Due(t[id], now))
            && (forall i, j | 0 <= i < j < |c.ids| ::
                  var x, y := t[c.ids[i]], t[c.ids[j]];
                  x.priority > y.priority || (x.priority == y.priority && x.createdAt <= y.createdAt))
            && (forall id | id in t && Due(t[id], now) && id !in c.ids ::
                  |c.ids| == limit
                  && forall x | x in c.ids ::
                       t[x].priority > t[id].priority
                       || (t[x].priority == t[id].priority && t[x].createdAt <= t[id].createdAt))
            && c.table.Keys == t.Keys
            && (forall id | id in t :: c.table[id] ==
                  if id in c.ids then Claimed(t[id], t[id].startedAt, now, w) else t[id])
            && (forall id | id in c.ids :: Leased(t[id], c.table[id], now, w))
  {
    var n := if |found| <= limit then |found| else limit;
    ClaimsFirst(found, |found|, limit, t, now, w, 3 * limit);
    FirstOnes(found, n, t, now, 3 * limit);
    forall id | id in t && Due(t[id], now) && id !in Ids(found[..n])
      ensures n == limit && forall x | x in Ids(found[..n]) :: Before(t[x], t[id])
    {
      NotAmongFirst(found, n, limit, t, now, id);
    }
  }

  lemma FirstOnes(found: seq<Seen>, n: nat, t: Table, now: Time, take: nat)
    requires n <= |found| && QueryResult(t, now, take, found)
    ensures var ids := Ids(found[..n]);
            && (forall id | id in ids :: id in t && Due(t[id], now))
            && (forall i, j | 0 <= i < j < |ids| :: Before(t[ids[i]], t[ids[j]]))
  {
    forall i | 0 <= i < n ensures Ids(found[..n])[i] == found[i].id && t[found[i].id] == found[i].row {}
  }

  lemma NotAmongFirst(found: seq<Seen>, n: nat, limit: nat, t: Table, now: Time, id: Id)
    requires n == (if |found| <= limit then |found| else limit) && QueryResult(t, now, 3 * limit, found)
    requires id in t && Due(t[id], now) && id !in Ids(found[..n])
    ensures n == limit && forall x | x in Ids(found[..n]) :: Before(t[x], t[id])
  {
    var ids := Ids(found[..n]);
    if i :| 0 <= i < |found| && found[i].id == id {
      LaterRow(found, n, i, t, id, ids);
    } else {
      forall x | x in ids ensures Before(t[x], t[id]) {
        var j :| 0 <= j < n && ids[j] == x;
        assert t[x] == found[j].row;
      }
    }
  }

  lemma LaterRow(found: seq<Seen>, n: nat, i: nat, t: Table, id: Id, ids: seq<Id>)
    requires n <= |found| && i < |found| && found[i].id == id && ids == Ids(found[..n]) && id !in ids
    requires forall j | 0 <= j < |found| :: found[j].id in t && t[found[j].id] == found[j].row
    requires forall j, k | 0 <= j < k < |found| :: Before(found[j].row, found[k].row)
    ensures i >= n && forall x | x in ids :: Before(t[x], t[id])
  {
    forall j | 0 <= j < n ensures found[j].id != id { assert ids[j] in ids; }
    forall x | x in ids ensures Before(t[x], t[id]) {
      var j :| 0 <= j < n && ids[j] == x;
      assert t[x] == found[j].row;
    }
  }

  // --------------------------------------------------------------- the reconciler

  datatype Decision = MissingData | AlreadyClaimed | MaxRequeues | Requeue

  predicate Present(s: Option<string>) {
    s.Some? && Hex.Trim(s.value) != ""
  }

  predicate ClaimDone(txHash: string, action: string) {
    Hex.Trim(txHash) != "" || action == "claimed" || action == "already_claimed"
  }

  /** Both claims of a finished bridge run are on record. */
  predicate HasClaimCompletion(r: Option<ResultJson>) {
    && r.Some? && ClaimDone(r.value.sourceClaimTxHash, r.value.sourceClaimAction)
    && ClaimDone(r.value.headBClaimTxHash, r.value.headBClaimAction)
  }

  function Decide(r: Row, max: nat): Decision {
    if !Present(r.payload.sourceTxHash) || !Present(r.payload.sourceRef) || !Present(r.payload.preimage)
      then MissingData
    else if HasClaimCompletion(r.result) then AlreadyClaimed
    else if r.payload.reconcileRequeues >= max then MaxRequeues
    else Requeue
  }

  function CountDecided(found: seq<Seen>, d: Decision, max: nat): (n: nat)
    ensures n <= |found|
  {
    if found == [] then 0
    else CountDecided(found[..|found| - 1], d, max) + if Decide(found[|found| - 1].row, max) == d then 1 else 0
  }

  lemma {:induction false} EveryOneDecided(found: seq<Seen>, max: nat)
    ensures CountDecided(found, MissingData, max) + CountDecided(found, AlreadyClaimed, max)
          + CountDecided(found, MaxRequeues, max) + CountDecided(found, Requeue, max) == |found|
  {
    if found != [] { EveryOneDecided(found[..|found| - 1], max); }
  }

  function OnceMore(p: Payload): Payload {
    p.(reconcileRequeues := p.reconcileRequeues + 1)
  }

  /** The table after the first `k` candidates, each of which is decided on the row that the query
      returned and written to the table as it is then. */
  function Reconciled(found: seq<Seen>, k: nat, max: nat, t: Table, others: Interference): Table
    requires k <= |found|
    decreases k
  {
    if k == 0 then t
    else
      var s, before := found[k - 1], others(k - 1, Reconciled(found, k - 1, max, t, others));
      if Decide(s.row, max) == Requeue && s.id in before
      then before[s.id := Resubmitted(before[s.id], OnceMore(s.row.payload))]
      else before
  }

  lemma OneMoreDecided(found: seq<Seen>, k: nat, max: nat, t: Table, others: Interference)
    requires k < |found|
    ensures forall d :: CountDecided(found[..k + 1], d, max) ==
              CountDecided(found[..k], d, max) + if Decide(found[k].row, max) == d then 1 else 0
    ensures var before, s := others(k, Reconciled(found, k, max, t, others)), found[k];
            Reconciled(found, k + 1, max, t, others) ==
              if Decide(s.row, max) == Requeue && s.id in before
              then before[s.id := Resubmitted(before[s.id], OnceMore(s.row.payload))] else before
  {
    assert found[..k + 1][..k] == found[..k];
  }

  lemma NoneDecided(found: seq<Seen>, max: nat, t: Table, others: Interference)
    ensures Reconciled(found, 0, max, t, others) == t && forall d :: CountDecided(found[..0], d, max) == 0
  {
  }

  /** `step?.attempt ?? 1`. */
  function StepAttempt(t: Table, id: Id, step: StepName): nat {
    if id in t then t[id].steps.Get(step).attempt else 1
  }

  datatype Counts = Counts(scanned: nat, requeued: nat, missing: nat, claimed: nat, maxed: nat)

  // ---------------------------------------------------------------------- the table

  /** The reconciler queues a row again if and only if transaction, reference and preimage are more
      than white space, not both claims are on record, by a transaction or as claimed, and the
      limit is not reached. */
  lemma RequeuesIff(r: Row, max: nat)
    ensures Decide(r, max) == Requeue <==>
      && r.payload.sourceTxHash.Some? && Hex.Trim(r.payload.sourceTxHash.value) != ""
      && r.payload.sourceRef.Some? && Hex.Trim(r.payload.sourceRef.value) != ""
      && r.payload.preimage.Some? && Hex.Trim(r.payload.preimage.value) != ""
      && (r.result.None?
          || (Hex.Trim(r.result.value.sourceClaimTxHash) == ""
              && r.result.value.sourceClaimAction !in {"claimed", "already_claimed"})
          || (Hex.Trim(r.result.value.headBClaimTxHash) == ""
              && r.result.value.headBClaimAction !in {"claimed", "already_claimed"}))
      && r.payload.reconcileRequeues < max
  {
  }

  /** What is queued again has one re-queue more in the payload that the query returned. */
  lemma ReconciledRow(found: seq<Seen>, k: nat, max: nat, t: Table, others: Interference)
    requires k < |found|
    ensures var s, before := found[k], others(k, Reconciled(found, k, max, t, others));
            var after := Reconciled(found, k + 1, max, t, others);
            && (forall id | id in before && id != s.id :: id in after && after[id] == before[id])
            && (s.id in before ==> s.id in after)
            && (s.id in before && Decide(s.row, max) == Requeue ==>
                  var p := s.row.payload;
                  QueuedWith(before[s.id], after[s.id], p.(reconcileRequeues := p.reconcileRequeues + 1)))
            && (s.id in before && Decide(s.row, max) != Requeue ==> after[s.id] == before[s.id])
  {
  }

  class Store {
    var table: Table

    constructor (t: Table)
      ensures table == t
    {
      table := t;
    }

    /** `updateMany` on one id with a guard. */
    method UpdateIf(id: Id, guard: Row -> bool, data: Row -> Row) returns (count: nat)
      modifies this
      ensures count == if id in old(table) && guard(old(table)[id]) then 1 else 0
      ensures table == if count == 1 then old(table)[id := data(old(table)[id])] else old(table)
    {
      if id in table && guard(table[id]) {
        table := table[id := data(table[id])];
        count := 1;
      } else {
        count := 0;
      }
    }

    method RefreshWorkflowLock(id: Id, w: WorkerId, now: Time) returns (r: Answer)
      modifies this
      ensures r == (if id in old(table) && OwnedLive(old(table)[id], w, now) then Done else LockLost)
      ensures r.Done? <==>
        && id in old(table) && old(table)[id].status == Running && old(table)[id].lockedBy == Some(w)
        && old(table)[id].lockExpiresAt.Some? && old(table)[id].lockExpiresAt.value > now
      ensures table == if r.Done? then old(table)[id := Refreshed(old(table)[id], now)] else old(table)
      ensures r.Done? ==> table[id] == old(table)[id].(lockExpiresAt := Some(now + 300000))
    {
      var count := UpdateIf(id, x => OwnedLive(x, w, now), x => Refreshed(x, now));
      r := if count != 1 then LockLost else Done;
    }

    method SetWorkflowDraftResultLocked(id: Id, result: ResultJson, w: WorkerId) returns (r: Answer)
      modifies this
      ensures r == (if id in old(table) && Owned(old(table)[id], w) then Done else LockLost)
      ensures table == if r.Done? then old(table)[id := Drafted(old(table)[id], result)] else old(table)
      ensures r.Done? ==> table[id] == old(table)[id].(result := Some(result))
    {
      var count := UpdateIf(id, x => Owned(x, w), x => Drafted(x, result));
      r := if count != 1 then LockLost else Done;
    }

    method MarkWorkflowSucceededLocked(id: Id, result: ResultJson, w: WorkerId, now: Time) returns (r: Answer)
      modifies this
      ensures r == (if id in old(table) && Owned(old(table)[id], w) then Done else LockLost)
      ensures table == if r.Done? then old(table)[id := Completed(old(table)[id], result, now)] else old(table)
      ensures r.Done? ==> SucceededWith(old(table)[id], table[id], result, now)
    {
      var count := UpdateIf(id, x => Owned(x, w), x => Completed(x, result, now));
      r := if count != 1 then LockLost else Done;
    }

    /** Reads the attempt count in one statement, writes in the next. */
    method MarkWorkflowFailedLocked(id: Id, f: Failure, w: WorkerId, now: Time, others: Table -> Table)
        returns (r: Answer)
      modifies this
      ensures
        var t, t' := old(table), others(old(table));
        if !(id in t && Owned(t[id], w)) then r == LockLost && table == t
        else if !(id in t' && Owned(t'[id], w)) then r == LockLost && table == t'
        else r == Done && table == t'[id := AfterFailure(t'[id], t[id].attemptCount, f, now)]
             && FailedAfter(t'[id], table[id], t[id].attemptCount, f, now)
    {
      if id !in table || !Owned(table[id], w) { return LockLost; }
      var current := table[id];
      table := others(table);
      var count := UpdateIf(id, x => Owned(x, w), x => AfterFailure(x, current.attemptCount, f, now));
      r := if count != 1 then LockLost else Done;
    }

    /** Reads the row, then the step's attempts, and writes: three statements. */
    method MarkWorkflowDeferredLocked(id: Id, step: StepName, base: nat, w: WorkerId, now: Time,
                                      between: Table -> Table, others: Table -> Table)
      returns (r: Answer)
      modifies this
      ensures
        var t, t1 := old(table), between(old(table));
        var t2 := others(t1);
        if !(id in t && Owned(t[id], w)) then r == LockLost && table == t
        else if !(id in t2 && Owned(t2[id], w)) then r == LockLost && table == t2
        else r == Done && table == t2[id := Deferred(t2[id], base, StepAttempt(t1, id, step), now)]
             && QueuedAgain(t2[id], table[id].(nextRetryAt := None))
             && table[id].attemptCount == t2[id].attemptCount && table[id].result == t2[id].result
             && table[id].payload == t2[id].payload && table[id].steps == t2[id].steps
             && var attempt := if id in t1 then t1[id].steps.Get(step).attempt else 1;
                table[id].nextRetryAt == Some(now + 1000 * DeferralDelay(base, Max(1, attempt)))
    {
      if id !in table || !Owned(table[id], w) { return LockLost; }
      table := between(table);
      var stepAttempt := StepAttempt(table, id, step);
      table := others(table);
      var count := UpdateIf(id, x => Owned(x, w), x => Deferred(x, base, stepAttempt, now));
      r := if count != 1 then LockLost else Done;
    }

    /** The claim loop over the candidates of one query. */
    method ClaimDueWorkflows(limit: nat, w: WorkerId, now: Time, found: seq<Seen>, others: Interference)
      returns (claimedIds: seq<Id>)
      requires |found| <= 3 * limit
      modifies this
      ensures Claims(claimedIds, table) == ClaimUpTo(found, |found|, limit, old(table), others, now, w)
    {
      claimedIds := [];
      var k := 0;
      while k < |found|
        invariant k <= |found| && (|claimedIds| < limit || k == |found|)
        invariant Claims(claimedIds, table) == ClaimUpTo(found, k, limit, old(table), others, now, w)
      {
        var wf := found[k];
        table := others(k, table);
        var count := UpdateIf(wf.id, x => Due(x, now), x => Claimed(x, wf.row.startedAt, now, w));
        k := k + 1;
        if count != 1 { continue; }
        claimedIds := claimedIds + [wf.id];
        if |claimedIds| >= limit {
          NothingAfterLimit(found, k, |found|, limit, old(table), others, now, w);
          k := |found|;
        }
      }
    }

    /** `retryWorkflowNow`: reads the row, decides, and updates without a guard. */
    method RetryWorkflowNow(id: Id, force: bool, others: Table -> Table) returns (r: Answer)
      modifies this
      ensures
        var t, t' := old(table), others(old(table));
        if id !in t then r == NotFound && table == t
        else if !force && t[id].status == Running then r == ConflictRunning && table == t
        else if !force && t[id].status == Succeeded then r == ConflictSucceeded && table == t
        else if !force && t[id].status == Pending then r == InvalidStatus && table == t
        else if id !in t' then r == NotFound && table == t'
        else
          && r == Done && table == t'[id := if t[id].status == Succeeded then Reset(t'[id]) else Requeued(t'[id])]
          && QueuedAgain(t'[id], table[id]) && table[id].payload == t'[id].payload
          && if t[id].status == Succeeded then Untried(table[id].(startedAt := None))
             else table[id].steps == t'[id].steps && table[id].result == t'[id].result
                  && table[id].attemptCount == t'[id].attemptCount
    {
      if id !in table { return NotFound; }
      var current := table[id];
      if !force && current.status == Running { return ConflictRunning; }
      if !force && current.status == Succeeded { return ConflictSucceeded; }
      if !force && current.status !in {Failed, Cancelled} { return InvalidStatus; }
      table := others(table);
      var resets := force && current.status == Succeeded;
      var count := UpdateIf(id, x => true, x => if resets then Reset(x) else Requeued(x));
      r := if count != 1 then NotFound else Done;
    }

    /** The reconciler loop over the candidates of one query, with whatever others write in
        between. */
    method ReconcileBuyTicketClaims(limit: nat, maxRequeues: nat, found: seq<Seen>, others: Interference)
      returns (c: Counts)
      modifies this
      ensures c.scanned <= |found| && table == Reconciled(found, c.scanned, maxRequeues, old(table), others)
      ensures c.scanned == c.requeued + c.missing + c.claimed + c.maxed
      ensures c.requeued == CountDecided(found[..c.scanned], Requeue, maxRequeues)
      ensures c.missing == CountDecided(found[..c.scanned], MissingData, maxRequeues)
      ensures c.claimed == CountDecided(found[..c.scanned], AlreadyClaimed, maxRequeues)
      ensures c.requeued <= limit && (c.requeued < limit ==> c.scanned == |found|)
    {
      hide Reconciled, CountDecided;
      c := Counts(0, 0, 0, 0, 0);
      NoneDecided(found, maxRequeues, table, others);
      while c.scanned < |found| && c.requeued < limit
        invariant c.scanned <= |found| && table == Reconciled(found, c.scanned, maxRequeues, old(table), others)
        invariant c.scanned == c.requeued + c.missing + c.claimed + c.maxed && c.requeued <= limit
        invariant c.requeued == CountDecided(found[..c.scanned], Requeue, maxRequeues)
        invariant c.missing == CountDecided(found[..c.scanned], MissingData, maxRequeues)
        invariant c.claimed == CountDecided(found[..c.scanned], AlreadyClaimed, maxRequeues)
        decreases |found| - c.scanned
      {
        var wf := found[c.scanned];
        OneMoreDecided(found, c.scanned, maxRequeues, old(table), others);
        table := others(c.scanned, table);
        c := c.(scanned := c.scanned + 1);
        if !Present(wf.row.payload.sourceTxHash) || !Present(wf.row.payload.sourceRef)
          || !Present(wf.row.payload.preimage) {
          c := c.(missing := c.missing + 1);
          continue;
        }
        if HasClaimCompletion(wf.row.result) {
          c := c.(claimed := c.claimed + 1);
          continue;
        }
        if wf.row.payload.reconcileRequeues >= maxRequeues {
          c := c.(maxed := c.maxed + 1);
          continue;
        }
        var count := UpdateIf(wf.id, x => true, x => Resubmitted(x, OnceMore(wf.row.payload)));
        c := c.(requeued := c.requeued + 1);
      }
    }
  }

  lemma {:induction false} NothingAfterLimit(found: seq<Seen>, k: nat, n: nat, limit: nat, t: Table,
                                             others: Interference, now: Time, w: WorkerId)
    requires k <= n <= |found| && |ClaimUpTo(found, k, limit, t, others, now, w).ids| >= limit
    ensures ClaimUpTo(found, n, limit, t, others, now, w) == ClaimUpTo(found, k, limit, t, others, now, w)
    decreases n
  {
    if k < n { NothingAfterLimit(found, k, n - 1, limit, t, others, now, w); }
  }
}
