/** The queue as a state machine. One step is one database statement or transaction of a
    worker, a route, the reconciler or an operator, in any order, on any rows. */
module WorkflowQueue {
  import opened Options
  import opened WorkflowRows

  /** A row, and what has happened to it: `epoch` counts claims and re-queues of every kind;
      `claims` and `outcomes` are totals; `failures` and `requeues` count since the last reset. */
  datatype Cell = Cell(row: Row, epoch: nat, claims: nat, outcomes: nat, failures: nat, requeues: nat)

  /** A claimed workflow, with the epoch its own claim left behind. */
  datatype Ticket = Ticket(id: Id, epoch: nat)

  /** One process. `Claiming` is inside `claimDueWorkflows`; `Executing` works off the batch,
      and may have read the attempt count of its first row. A crashed process stays dead: its
      successor has another id. */
  datatype Worker =
    | Idle
    | Claiming(now: Time, todo: seq<Id>, batch: seq<Ticket>)
    | Executing(batch: seq<Ticket>, read: Option<nat>)
    | Dead

  datatype State = State(db: map<Id, Cell>, workers: map<WorkerId, Worker>) {
    function At(w: WorkerId): Worker {
      if w in workers then workers[w] else Idle
    }

    function Put(w: WorkerId, k: Worker): State {
      this.(workers := workers[w := k])
    }

    function Write(id: Id, c: Cell): State {
      this.(db := db[id := c])
    }

    /** The execution of the first workflow of the batch is over. */
    function Next(w: WorkerId): State {
      match At(w)
      case Executing(batch, _) => Put(w, if |batch| <= 1 then Idle else Executing(batch[1..], None))
      case _ => this
    }
  }

  const LIMIT := 10

  datatype LockedWrite =
    | Refresh(now: Time)
    | Draft(result: ResultJson)
    | Succeed(result: ResultJson, now: Time)
    | Fail(failure: Failure, now: Time)
    | Defer(base: nat, stepAttempt: nat, now: Time)
  {
    predicate Outcome() {
      Succeed? || Fail? || Defer?
    }
  }

  datatype Event =
    | Create(id: Id, kind: Kind, key: string, payload: Payload, priority: int, maxAttempts: nat, now: Time)
    | Query(w: WorkerId, now: Time, found: seq<Id>)
    | TryClaim(w: WorkerId, seen: Option<Time>)
    | Begin(w: WorkerId)
    | Locked(w: WorkerId, write: LockedWrite)
    | ReadAttempts(w: WorkerId)
    | WriteStep(w: WorkerId, name: StepName, status: Status, now: Time, detail: Option<string>)
    | Abandon(w: WorkerId)
    | Crash(w: WorkerId)
    | Requeue(id: Id)
    | ForceReset(id: Id)
    | Resubmit(id: Id, payload: Payload)
    | Patch(id: Id, payload: Payload)

  // --------------------------------------------------------------------- the steps

  predicate Distinct<T(==)>(s: seq<T>) {
    forall i, j | 0 <= i < j < |s| :: s[i] != s[j]
  }

  predicate KeyTaken(s: State, kind: Kind, key: string) {
    exists id | id in s.db :: s.db[id].row.kind == kind && s.db[id].row.key == key
  }

  /** The condition of the `updateMany`. */
  predicate Effective(r: Row, w: WorkerId, write: LockedWrite) {
    if write.Refresh? then OwnedLive(r, w, write.now) else Owned(r, w)
  }

  function Locked'(c: Cell, write: LockedWrite, read: nat): Cell {
    match write
    case Refresh(now) => c.(row := Refreshed(c.row, now))
    case Draft(result) => c.(row := Drafted(c.row, result))
    case Succeed(result, now) => c.(row := Completed(c.row, result, now), outcomes := c.outcomes + 1)
    case Fail(f, now) =>
      c.(row := AfterFailure(c.row, read, f, now), outcomes := c.outcomes + 1, failures := c.failures + 1)
    case Defer(base, stepAttempt, now) => c.(row := Deferred(c.row, base, stepAttempt, now), outcomes := c.outcomes + 1)
  }

  function ClaimedCell(c: Cell, w: WorkerId, seen: Option<Time>, now: Time): Cell {
    c.(row := Claimed(c.row, seen, now, w), epoch := c.epoch + 1, claims := c.claims + 1)
  }

  function ClaimStep(s: State, w: WorkerId, k: Worker, seen: Option<Time>): State
    requires k.Claiming? && k.todo != []
  {
    var id := k.todo[0];
    if id in s.db && Due(s.db[id].row, k.now) then
      var c := ClaimedCell(s.db[id], w, seen, k.now);
      s.Write(id, c).Put(w, Claiming(k.now, k.todo[1..], k.batch + [Ticket(id, c.epoch)]))
    else s.Put(w, Claiming(k.now, k.todo[1..], k.batch))
  }

  /** A write guarded by ownership: it takes effect or raises the lock error, which ends the
      execution of this workflow, as the outcomes do. */
  function LockedStep(s: State, w: WorkerId, k: Worker, write: LockedWrite): State
    requires k.Executing? && k.batch != []
  {
    var id := k.batch[0].id;
    if id in s.db && Effective(s.db[id].row, w, write) then
      if write.Fail? && k.read.None? then s
      else
        var s' := s.Write(id, Locked'(s.db[id], write, if k.read.Some? then k.read.value else 0));
        if write.Outcome() then s'.Next(w) else s'
    else s.Next(w)
  }

  function Touched(c: Cell, r: Row): Cell {
    c.(row := r, epoch := c.epoch + 1, requeues := c.requeues + 1)
  }

  /** The writes of routes, reconciler and operators, which check no lock. */
  function External(c: Cell, e: Event): Cell
    requires e.Requeue? || e.ForceReset? || e.Resubmit? || e.Patch?
  {
    match e
    case Requeue(_) => Touched(c, Requeued(c.row))
    case ForceReset(_) => Touched(c, Reset(c.row)).(failures := 0, requeues := 0)
    case Resubmit(_, payload) => Touched(c, Resubmitted(c.row, payload))
    case Patch(_, payload) => c.(row := Patched(c.row, payload))
  }

  function Apply(s: State, e: Event): State {
    match e
    case Create(id, kind, key, payload, priority, maxAttempts, now) =>
      if id in s.db || KeyTaken(s, kind, key) || maxAttempts == 0 then s
      else s.Write(id, Cell(Created(kind, key, payload, priority, maxAttempts, now), 0, 0, 0, 0, 0))
    case Query(w, now, found) =>
      if s.At(w).Idle? && Distinct(found) then s.Put(w, Claiming(now, found, [])) else s
    case TryClaim(w, seen) =>
      if s.At(w).Claiming? && s.At(w).todo != [] && |s.At(w).batch| < LIMIT then ClaimStep(s, w, s.At(w), seen) else s
    case Begin(w) =>
      if s.At(w).Claiming? && (s.At(w).todo == [] || |s.At(w).batch| == LIMIT)
      then s.Put(w, if s.At(w).batch == [] then Idle else Executing(s.At(w).batch, None)) else s
    case Locked(w, write) =>
      if s.At(w).Executing? && s.At(w).batch != [] then LockedStep(s, w, s.At(w), write) else s
    case ReadAttempts(w) =>
      if s.At(w).Executing? && s.At(w).batch != [] then
        var id := s.At(w).batch[0].id;
        if id in s.db && Owned(s.db[id].row, w)
        then s.Put(w, s.At(w).(read := Some(s.db[id].row.attemptCount))) else s.Next(w)
      else s
    case WriteStep(w, name, status, now, detail) =>
      if s.At(w).Executing? && s.At(w).batch != [] && s.At(w).batch[0].id in s.db then
        var c := s.db[s.At(w).batch[0].id];
        var step := StepWritten(c.row.steps.Get(name), status, now, detail);
        s.Write(s.At(w).batch[0].id, c.(row := c.row.(steps := c.row.steps.Set(name, step))))
      else s
    case Abandon(w) => if s.At(w).Dead? then s else s.Put(w, Idle)
    case Crash(w) => s.Put(w, Dead)
    case _ => if e.id in s.db then s.Write(e.id, External(s.db[e.id], e)) else s
  }

  function Run(es: seq<Event>): State {
    if es == [] then State(map[], map[]) else Apply(Run(es[..|es| - 1]), es[|es| - 1])
  }

  // ------------------------------------------------------------------ the invariant

  /** One row: well-formed, no more outcomes than claims (and one fewer while it runs), the
      attempt count being the number of recorded failures, and bounded. */
  predicate CellOk(c: Cell) {
    && WellFormed(c.row) && c.row.maxAttempts > 0
    && c.outcomes + (if c.row.status == Running then 1 else 0) <= c.claims <= c.epoch
    && c.row.attemptCount == c.failures
    && c.failures <= c.row.maxAttempts + c.requeues - (if c.row.status == Cancelled then 0 else 1)
  }

  /** A ticket is current for as long as its worker owns the row. */
  predicate TicketOk(db: map<Id, Cell>, w: WorkerId, t: Ticket) {
    t.id in db && t.epoch <= db[t.id].epoch && (Owned(db[t.id].row, w) ==> t.epoch == db[t.id].epoch)
  }

  predicate TicketsOk(db: map<Id, Cell>, w: WorkerId, batch: seq<Ticket>) {
    && (forall i | 0 <= i < |batch| :: TicketOk(db, w, batch[i]))
    && (forall i, j | 0 <= i < j < |batch| :: batch[i].id != batch[j].id)
  }

  predicate WorkerOk(db: map<Id, Cell>, w: WorkerId, k: Worker) {
    match k
    case Claiming(_, todo, batch) =>
      TicketsOk(db, w, batch) && Distinct(todo) && (forall i | 0 <= i < |batch| :: batch[i].id !in todo)
    case Executing(batch, read) =>
      && TicketsOk(db, w, batch) && batch != []
      && (read.Some? && Owned(db[batch[0].id].row, w) ==> db[batch[0].id].row.attemptCount == read.value)
    case _ => true
  }

  predicate CellsOk(s: State) {
    forall id | id in s.db :: CellOk(s.db[id])
  }

  predicate WorkersOk(s: State) {
    forall w | w in s.workers :: WorkerOk(s.db, w, s.workers[w])
  }

  predicate UniqueKeys(s: State) {
    forall a, b | a in s.db && b in s.db && a != b ::
      s.db[a].row.kind != s.db[b].row.kind || s.db[a].row.key != s.db[b].row.key
  }

  predicate Inv(s: State) {
    CellsOk(s) && WorkersOk(s) && UniqueKeys(s)
  }

  /** A write to a row that no ticket of `w` can notice: it never makes `w` an owner, and what
      `w` still owns keeps its epoch and attempt count. */
  predicate Harmless(c: Cell, c': Cell, w: WorkerId) {
    && c'.epoch >= c.epoch
    && (Owned(c'.row, w) ==> Owned(c.row, w) && c'.epoch == c.epoch && c'.row.attemptCount == c.row.attemptCount)
  }

  predicate SameKey(c: Cell, c': Cell) {
    c'.row.kind == c.row.kind && c'.row.key == c.row.key
  }

  lemma HarmlessWrite(s: State, id: Id, c: Cell)
    requires Inv(s) && id in s.db && CellOk(c) && SameKey(s.db[id], c)
    requires forall w :: Harmless(s.db[id], c, w)
    ensures Inv(s.Write(id, c))
  {
    forall w | w in s.workers ensures WorkerOk(s.Write(id, c).db, w, s.workers[w]) {
      assert Harmless(s.db[id], c, w);
    }
  }

  lemma NewRow(s: State, id: Id, c: Cell)
    requires Inv(s) && id !in s.db && CellOk(c) && !KeyTaken(s, c.row.kind, c.row.key)
    ensures Inv(s.Write(id, c))
  {
  }

  lemma MoveWorker(s: State, w: WorkerId, k: Worker)
    requires Inv(s) && WorkerOk(s.db, w, k)
    ensures Inv(s.Put(w, k))
  {
  }

  lemma AtOk(s: State, w: WorkerId)
    requires Inv(s)
    ensures WorkerOk(s.db, w, s.At(w))
  {
  }

  lemma NextKeeps(s: State, w: WorkerId)
    requires Inv(s)
    ensures Inv(s.Next(w))
  {
    AtOk(s, w);
    if s.At(w).Executing? && |s.At(w).batch| > 1 {
      var rest := s.At(w).batch[1..];
      assert forall i | 0 <= i < |rest| :: rest[i] == s.At(w).batch[i + 1];
      MoveWorker(s, w, Executing(rest, None));
    }
  }

  lemma ClaimKeeps(s: State, w: WorkerId, seen: Option<Time>)
    requires Inv(s) && s.At(w).Claiming? && s.At(w).todo != []
    ensures Inv(ClaimStep(s, w, s.At(w), seen))
  {
    var k := s.At(w);
    var id := k.todo[0];
    FewerToClaim(s, w);
    if id in s.db && Due(s.db[id].row, k.now) {
      ClaimedCellOk(s.db[id], w, seen, k.now);
      ClaimWrite(s, w, id, ClaimedCell(s.db[id], w, seen, k.now));
    } else {
      MoveWorker(s, w, Claiming(k.now, k.todo[1..], k.batch));
    }
  }

  lemma FewerToClaim(s: State, w: WorkerId)
    requires Inv(s) && s.At(w).Claiming? && s.At(w).todo != []
    ensures var k := s.At(w);
            WorkerOk(s.db, w, Claiming(k.now, k.todo[1..], k.batch)) && k.todo[0] !in k.todo[1..]
  {
    AtOk(s, w);
    var k := s.At(w);
    assert Distinct(k.todo[1..]);
    assert k.todo[0] !in k.todo[1..];
  }

  lemma ClaimedCellOk(c: Cell, w: WorkerId, seen: Option<Time>, now: Time)
    requires CellOk(c) && Due(c.row, now)
    ensures CellOk(ClaimedCell(c, w, seen, now)) && SameKey(c, ClaimedCell(c, w, seen, now))
    ensures Owned(ClaimedCell(c, w, seen, now).row, w)
  {
  }

  lemma ClaimWrite(s: State, w: WorkerId, id: Id, c: Cell)
    requires Inv(s) && s.At(w).Claiming? && s.At(w).todo != [] && s.At(w).todo[0] == id && id in s.db
    requires Distinct(s.At(w).todo[1..]) && id !in s.At(w).todo[1..]
    requires CellOk(c) && SameKey(s.db[id], c) && c.epoch == s.db[id].epoch + 1 && Owned(c.row, w)
    ensures Inv(s.Write(id, c).Put(w, Claiming(s.At(w).now, s.At(w).todo[1..], s.At(w).batch + [Ticket(id, c.epoch)])))
  {
    AtOk(s, w);
    var k := s.At(w);
    var s' := s.Write(id, c).Put(w, Claiming(k.now, k.todo[1..], k.batch + [Ticket(id, c.epoch)]));
    forall v | v in s'.workers && v != w ensures WorkerOk(s'.db, v, s'.workers[v]) {
      AtOk(s, v);
      assert Harmless(s.db[id], c, v);
    }
  }

  lemma LockedKeeps(s: State, w: WorkerId, write: LockedWrite)
    requires Inv(s) && s.At(w).Executing? && s.At(w).batch != []
    ensures Inv(LockedStep(s, w, s.At(w), write))
  {
    AtOk(s, w);
    var k := s.At(w);
    var id := k.batch[0].id;
    if !Effective(s.db[id].row, w, write) {
      NextKeeps(s, w);
    } else if !(write.Fail? && k.read.None?) {
      var c' := Locked'(s.db[id], write, if k.read.Some? then k.read.value else 0);
      HarmlessWrite(s, id, c');
      NextKeeps(s.Write(id, c'), w);
    }
  }

  lemma ApplyKeeps(s: State, e: Event)
    requires Inv(s)
    ensures Inv(Apply(s, e))
  {
    match e
    case Create(id, kind, key, payload, priority, maxAttempts, now) =>
      if id !in s.db && !KeyTaken(s, kind, key) && maxAttempts > 0 {
        NewRow(s, id, Cell(Created(kind, key, payload, priority, maxAttempts, now), 0, 0, 0, 0, 0));
      }
    case TryClaim(w, seen) =>
      if s.At(w).Claiming? && s.At(w).todo != [] && |s.At(w).batch| < LIMIT { ClaimKeeps(s, w, seen); }
    case Locked(w, write) =>
      if s.At(w).Executing? && s.At(w).batch != [] { LockedKeeps(s, w, write); }
    case Query(_, _, _) => WorkerMoves(s, e);
    case Begin(_) => WorkerMoves(s, e);
    case ReadAttempts(_) => WorkerMoves(s, e);
    case Abandon(_) => WorkerMoves(s, e);
    case Crash(_) => WorkerMoves(s, e);
    case _ => RowWrites(s, e);
  }

  lemma WorkerMoves(s: State, e: Event)
    requires Inv(s) && (e.Query? || e.Begin? || e.ReadAttempts? || e.Abandon? || e.Crash?)
    ensures Inv(Apply(s, e))
  {
    AtOk(s, e.w);
    if e.ReadAttempts? { NextKeeps(s, e.w); }
  }

  lemma RowWrites(s: State, e: Event)
    requires Inv(s) && (e.WriteStep? || e.Requeue? || e.ForceReset? || e.Resubmit? || e.Patch?)
    ensures Inv(Apply(s, e))
  {
    if e.WriteStep? {
      if s.At(e.w).Executing? && s.At(e.w).batch != [] && s.At(e.w).batch[0].id in s.db {
        var id := s.At(e.w).batch[0].id;
        HarmlessWrite(s, id, Apply(s, e).db[id]);
      }
    } else if e.id in s.db {
      UnlocksOk(s.db[e.id], e);
      HarmlessWrite(s, e.id, External(s.db[e.id], e));
    }
  }

  lemma UnlocksOk(c: Cell, e: Event)
    requires CellOk(c) && (e.Requeue? || e.ForceReset? || e.Resubmit? || e.Patch?)
    ensures CellOk(External(c, e)) && SameKey(c, External(c, e)) && forall w :: Harmless(c, External(c, e), w)
  {
  }

  /** No worker has more than ten workflows at a time. */
  lemma {:induction false} TenAtMost(es: seq<Event>, w: WorkerId)
    ensures var k := Run(es).At(w); (k.Claiming? || k.Executing? ==> |k.batch| <= 10)
    decreases |es|
  {
    if es != [] {
      var n := |es| - 1;
      TenAtMost(es[..n], w);
      TenKept(Run(es[..n]), es[n], w);
    }
  }

  lemma TenKept(s: State, e: Event, w: WorkerId)
    requires var k := s.At(w); (k.Claiming? || k.Executing? ==> |k.batch| <= 10)
    ensures var k := Apply(s, e).At(w); (k.Claiming? || k.Executing? ==> |k.batch| <= 10)
  {
  }

  lemma {:induction false} RunKeeps(es: seq<Event>)
    ensures Inv(Run(es))
  {
    if es != [] {
      RunKeeps(es[..|es| - 1]);
      ApplyKeeps(Run(es[..|es| - 1]), es[|es| - 1]);
    }
  }

  // ------------------------------------------------------------------- main results

  /** A claim that takes effect, or a re-queue of any kind. */
  predicate Touches(s: State, e: Event, id: Id) {
    match e
    case TryClaim(w, _) =>
      var k := s.At(w);
      && k.Claiming? && k.todo != [] && |k.batch| < LIMIT && k.todo[0] == id
      && id in s.db && Due(s.db[id].row, k.now)
    case Requeue(x) => x == id
    case ForceReset(x) => x == id
    case Resubmit(x, _) => x == id
    case _ => false
  }

  lemma EpochCounts(s: State, e: Event, id: Id)
    requires id in s.db
    ensures id in Apply(s, e).db
    ensures Apply(s, e).db[id].epoch == s.db[id].epoch + if Touches(s, e, id) then 1 else 0
  {
    match e
    case TryClaim(w, _) =>
    case Locked(w, write) => LockedCounts(s, w, write, id);
    case WriteStep(_, _, _, _, _) =>
    case Requeue(_) => ExternalCounts(s, e, id);
    case ForceReset(_) => ExternalCounts(s, e, id);
    case Resubmit(_, _) => ExternalCounts(s, e, id);
    case Patch(_, _) => ExternalCounts(s, e, id);
    case _ => OthersCount(s, e, id);
  }

  /** A row is created if and only if its id and its key are free and it may be tried at all; then
      it is what `Create` says, and nothing has been counted. */
  lemma CreatesIfFree(s: State, e: Event, id: Id)
    requires e.Create? && id !in s.db
    ensures id in Apply(s, e).db <==>
      e.id == id && e.maxAttempts > 0 && forall x | x in s.db :: s.db[x].row.kind != e.kind || s.db[x].row.key != e.key
    ensures id in Apply(s, e).db ==>
      var c := Apply(s, e).db[id];
      && Untried(c.row) && c.row.kind == e.kind && c.row.key == e.key && c.row.payload == e.payload
      && c.row.priority == e.priority && c.row.maxAttempts == e.maxAttempts && c.row.createdAt == e.now
      && c.epoch == c.claims == c.outcomes == c.failures == c.requeues == 0
  {
  }

  /** A worker's guarded write counts if it takes effect: an outcome, and a failure if it is one. */
  lemma OutcomeCounts(s: State, w: WorkerId, write: LockedWrite)
    requires s.At(w).Executing? && s.At(w).batch != [] && s.At(w).batch[0].id in s.db
    requires write.Fail? ==> s.At(w).read.Some?
    ensures var id := s.At(w).batch[0].id;
            var c, s' := s.db[id], Apply(s, Locked(w, write));
            && id in s'.db && s'.db[id].claims == c.claims && s'.db[id].requeues == c.requeues
            && var counts := Effective(c.row, w, write);
               var outcome := counts && (write.Succeed? || write.Fail? || write.Defer?);
               && s'.db[id].outcomes == c.outcomes + (if outcome then 1 else 0)
               && s'.db[id].failures == c.failures + (if counts && write.Fail? then 1 else 0)
  {
  }

  /** What each guarded write leaves in the row. */
  lemma LockedRow(c: Cell, write: LockedWrite, read: nat)
    ensures var r := Locked'(c, write, read).row;
            match write
            case Refresh(now) => r == c.row.(lockExpiresAt := Some(now + 300000))
            case Draft(result) => r == c.row.(result := Some(result))
            case Succeed(result, now) => SucceededWith(c.row, r, result, now)
            case Fail(f, now) => FailedAfter(c.row, r, read, f, now)
            case Defer(base, stepAttempt, now) =>
              r == c.row.(status := Pending, lockedBy := None, lockExpiresAt := None, completedAt := None,
                          nextRetryAt := Some(now + 1000 * DeferralDelay(base, Max(1, stepAttempt))),
                          errorMessage := None, lastErrorCode := None)
  {
  }

  /** After an outcome, and after a guarded write that found the lease gone, the worker goes on with
      the next workflow of its batch, if there is one. */
  lemma GoesOn(s: State, w: WorkerId, write: LockedWrite)
    requires s.At(w).Executing? && s.At(w).batch != [] && (write.Fail? ==> s.At(w).read.Some?)
    ensures var k, s' := s.At(w), Apply(s, Locked(w, write));
            var lost := k.batch[0].id !in s.db || !Effective(s.db[k.batch[0].id].row, w, write);
            s'.At(w) ==
              if !lost && (write.Refresh? || write.Draft?) then k
              else if |k.batch| == 1 then Idle else Executing(k.batch[1..], None)
  {
  }

  /** A claim of a due row counts, and is the worker's from then on. */
  lemma ClaimCounts(s: State, w: WorkerId, seen: Option<Time>)
    requires s.At(w).Claiming? && s.At(w).todo != [] && |s.At(w).batch| < 10 && s.At(w).todo[0] in s.db
    requires Due(s.db[s.At(w).todo[0]].row, s.At(w).now)
    ensures var id, s' := s.At(w).todo[0], Apply(s, TryClaim(w, seen));
            && id in s'.db && s'.db[id].claims == s.db[id].claims + 1 && Owned(s'.db[id].row, w)
            && s'.At(w).Claiming? && s'.At(w).batch == s.At(w).batch + [Ticket(id, s'.db[id].epoch)]
            && s'.At(w).todo == s.At(w).todo[1..]
  {
  }

  /** Re-queues count since the last reset, which also forgets the failures. */
  lemma RequeueCounts(s: State, e: Event)
    requires (e.Requeue? || e.ForceReset? || e.Resubmit? || e.Patch?) && e.id in s.db
    ensures var c, s' := s.db[e.id], Apply(s, e);
            && e.id in s'.db && s'.db[e.id].claims == c.claims && s'.db[e.id].outcomes == c.outcomes
            && s'.db[e.id].failures == (if e.ForceReset? then 0 else c.failures)
            && s'.db[e.id].requeues == (if e.ForceReset? then 0 else if e.Patch? then c.requeues else c.requeues + 1)
  {
  }

  lemma LockedCounts(s: State, w: WorkerId, write: LockedWrite, id: Id)
    requires id in s.db
    ensures id in Apply(s, Locked(w, write)).db && Apply(s, Locked(w, write)).db[id].epoch == s.db[id].epoch
  {
  }

  lemma ExternalCounts(s: State, e: Event, id: Id)
    requires id in s.db && (e.Requeue? || e.ForceReset? || e.Resubmit? || e.Patch?)
    ensures id in Apply(s, e).db
    ensures Apply(s, e).db[id].epoch == s.db[id].epoch + if Touches(s, e, id) then 1 else 0
  {
  }

  /** These write no row that is there. */
  lemma OthersCount(s: State, e: Event, id: Id)
    requires id in s.db
    requires e.Create? || e.Query? || e.Begin? || e.ReadAttempts? || e.Abandon? || e.Crash?
    ensures id in Apply(s, e).db && Apply(s, e).db[id] == s.db[id]
  {
  }

  /** No step of `mid` touches the row, when it follows `pre`. */
  predicate Untouched(pre: seq<Event>, mid: seq<Event>, id: Id) {
    mid != [] ==>
      var n := |mid| - 1;
      Untouched(pre, mid[..n], id) && !Touches(Run(pre + mid[..n]), mid[n], id)
  }

  lemma {:induction false} EpochAlong(pre: seq<Event>, mid: seq<Event>, id: Id)
    requires id in Run(pre).db
    ensures id in Run(pre + mid).db && Run(pre + mid).db[id].epoch >= Run(pre).db[id].epoch
    ensures Run(pre + mid).db[id].epoch == Run(pre).db[id].epoch ==> Untouched(pre, mid, id)
  {
    if mid == [] {
      assert pre + mid == pre;
    } else {
      EpochAlong(pre, mid[..|mid| - 1], id);
      LastStep(pre, mid, id);
    }
  }

  lemma LastStep(pre: seq<Event>, mid: seq<Event>, id: Id)
    requires mid != [] && id in Run(pre + mid[..|mid| - 1]).db
    ensures var before, e := Run(pre + mid[..|mid| - 1]), mid[|mid| - 1];
            && id in Run(pre + mid).db
            && Run(pre + mid).db[id].epoch == before.db[id].epoch + if Touches(before, e, id) then 1 else 0
  {
    assert (pre + mid)[..|pre + mid| - 1] == pre + mid[..|mid| - 1];
    EpochCounts(Run(pre + mid[..|mid| - 1]), mid[|mid| - 1], id);
  }

  lemma {:induction false} NeverTouched(pre: seq<Event>, mid: seq<Event>, id: Id, k: nat)
    requires Untouched(pre, mid, id) && k < |mid|
    ensures !Touches(Run(pre + mid[..k]), mid[k], id)
    decreases |mid|
  {
    var n := |mid| - 1;
    if k < n {
      assert mid[..n][..k] == mid[..k];
      NeverTouched(pre, mid[..n], id, k);
    }
  }

  /** Worker `w` is executing the workflow of ticket `t`. */
  predicate Executes(s: State, w: WorkerId, t: Ticket) {
    s.At(w).Executing? && s.At(w).batch != [] && s.At(w).batch[0] == t && t.id in s.db
  }

  /** Fencing. Worker `w` claims row `id` with the last step of `pre`. Whatever happens in
      `mid`: if a guarded write of that execution takes effect after it, then no claim and no
      re-queue has touched the row in between. */
  lemma Fencing(pre: seq<Event>, claim: Event, mid: seq<Event>, id: Id, write: LockedWrite)
    requires claim.TryClaim? && Touches(Run(pre), claim, id)
    requires Executes(Run(pre + [claim] + mid), claim.w, Ticket(id, Run(pre).db[id].epoch + 1))
    requires Effective(Run(pre + [claim] + mid).db[id].row, claim.w, write)
    ensures forall k | 0 <= k < |mid| :: !Touches(Run(pre + [claim] + mid[..k]), mid[k], id)
  {
    hide Run, Touches, Executes, Effective;
    FencedOff(pre, claim, mid, id, write);
    forall k | 0 <= k < |mid| ensures !Touches(Run(pre + [claim] + mid[..k]), mid[k], id) {
      NeverTouched(pre + [claim], mid, id, k);
    }
  }

  lemma FencedOff(pre: seq<Event>, claim: Event, mid: seq<Event>, id: Id, write: LockedWrite)
    requires claim.TryClaim? && Touches(Run(pre), claim, id)
    requires Executes(Run(pre + [claim] + mid), claim.w, Ticket(id, Run(pre).db[id].epoch + 1))
    requires Effective(Run(pre + [claim] + mid).db[id].row, claim.w, write)
    ensures Untouched(pre + [claim], mid, id)
  {
    var s := Run(pre + [claim] + mid);
    assert (pre + [claim])[..|pre|] == pre;
    RunKeeps(pre + [claim] + mid);
    AtOk(s, claim.w);
    EpochAlong(pre + [claim], mid, id);
    assert TicketOk(s.db, claim.w, s.At(claim.w).batch[0]);
  }

  /** Outcome writes never outnumber claims, and stay behind them while the row runs. */
  lemma OutcomesWithinClaims(es: seq<Event>, id: Id)
    requires id in Run(es).db
    ensures var c := Run(es).db[id]; c.outcomes + (if c.row.status == Running then 1 else 0) <= c.claims
  {
    RunKeeps(es);
  }

  /** `attemptCount` is the number of failures recorded since the last reset, no failure lost or
      counted twice, and at most `maxAttempts` plus the re-queues since then. */
  lemma AttemptsBounded(es: seq<Event>, id: Id)
    requires id in Run(es).db
    ensures var c := Run(es).db[id];
            && c.row.attemptCount == c.failures <= c.row.maxAttempts + c.requeues
            && (c.row.status == Failed ==> c.row.attemptCount < c.row.maxAttempts)
  {
    RunKeeps(es);
  }

  /** Without re-queues since creation or reset there are at most `maxAttempts` recorded
      failures, and with the last of them the workflow is cancelled. */
  lemma CancelledInTime(es: seq<Event>, id: Id)
    requires id in Run(es).db && Run(es).db[id].requeues == 0
    ensures var c := Run(es).db[id];
            && c.failures <= c.row.maxAttempts
            && (c.failures == c.row.maxAttempts ==> c.row.status == Cancelled)
  {
    RunKeeps(es);
  }

  lemma RowsWellFormed(es: seq<Event>, id: Id)
    requires id in Run(es).db
    ensures var r := Run(es).db[id].row;
            && (r.status == Running <==> r.lockedBy.Some?) && (r.status == Running <==> r.lockExpiresAt.Some?)
            && (r.completedAt.Some? <==> r.status == Succeeded || r.status == Cancelled)
            && (r.status == Failed ==> r.nextRetryAt.Some? && r.attemptCount < r.maxAttempts)
            && (r.completedAt.Some? ==> r.nextRetryAt.None?)
  {
    RunKeeps(es);
  }

  /** One row per type and idempotency key. */
  lemma OneRowPerKey(es: seq<Event>, a: Id, b: Id)
    requires a in Run(es).db && b in Run(es).db
    requires Run(es).db[a].row.kind == Run(es).db[b].row.kind && Run(es).db[a].row.key == Run(es).db[b].row.key
    ensures a == b
  {
    RunKeeps(es);
  }
}
