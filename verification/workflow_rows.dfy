/** A workflow row, its three steps, and every way the source writes to them. Each function
    is the data part of one statement or transaction. */
module WorkflowRows {
  import opened Options

  type Id = string
  type WorkerId = string
  type Time = int

  datatype Kind = RequestFunds | BuyTicket | AdminHeadOperation | PayRandomWinner

  datatype Status = Pending | Running | Succeeded | Failed | Cancelled

  datatype StepName = Prepare | Submit | Confirm

  datatype Step = Step(status: Status, attempt: nat, startedAt: Option<Time>, finishedAt: Option<Time>,
                       errorDetail: Option<string>)

  datatype Steps = Steps(prepare: Step, submit: Step, confirm: Step) {
    function Get(n: StepName): Step {
      match n case Prepare => prepare case Submit => submit case Confirm => confirm
    }

    function Set(n: StepName, s: Step): Steps {
      match n
      case Prepare => this.(prepare := s)
      case Submit => this.(submit := s)
      case Confirm => this.(confirm := s)
    }

    predicate Done(n: StepName) {
      Get(n).status == Succeeded
    }
  }

  /** The parts of a payload that the queue, the routes and the reconciler read or write. */
  datatype Payload = Payload(identity: Identity, requestHash: Option<Identity>, preimage: Option<string>,
                             sourceTxHash: Option<string>, sourceRef: Option<string>, headBRef: Option<string>,
                             reconcileRequeues: nat)

  /** What a buy-ticket request asks for. The hash of its normalized form is taken to be
      injective, and modelled as that form itself. */
  datatype Identity = Identity(actor: string, address: string, amountLovelace: string, htlcHash: string,
                               timeoutMinutes: string, sourceHead: string)

  /** What the reconciler reads of a result; an absent string is empty. */
  datatype ResultJson = ResultJson(sourceClaimTxHash: string, headBClaimTxHash: string, sourceClaimAction: string,
                                   headBClaimAction: string)

  datatype Row = Row(kind: Kind, key: string, status: Status, priority: int, createdAt: Time, startedAt: Option<Time>,
                     lockedBy: Option<WorkerId>, lockExpiresAt: Option<Time>, completedAt: Option<Time>,
                     nextRetryAt: Option<Time>, attemptCount: nat, maxAttempts: nat, errorMessage: Option<string>,
                     lastErrorCode: Option<string>, payload: Payload, result: Option<ResultJson>, steps: Steps)

  // ----------------------------------------------------------------------- creation

  const FRESH_STEP := Step(Pending, 0, None, None, None)
  const FRESH_STEPS := Steps(FRESH_STEP, FRESH_STEP, FRESH_STEP)

  /** What the database fills in where nothing is given. */
  const DEFAULT_PRIORITY := 0
  const DEFAULT_MAX_ATTEMPTS := 5

  function Created(kind: Kind, key: string, payload: Payload, priority: int, maxAttempts: nat, now: Time): Row {
    Row(kind, key, Pending, priority, now, None, None, None, None, None, 0, maxAttempts, None, None, payload, None,
        FRESH_STEPS)
  }

  // ------------------------------------------------------------------- worker writes

  const LOCK_MS := 300000

  predicate Due(r: Row, now: Time) {
    || r.status == Pending
    || (r.status == Failed && r.nextRetryAt.Some? && r.nextRetryAt.value <= now)
    || (r.status == Running && r.lockExpiresAt.Some? && r.lockExpiresAt.value <= now)
  }

  predicate Owned(r: Row, w: WorkerId) {
    r.status == Running && r.lockedBy == Some(w)
  }

  predicate OwnedLive(r: Row, w: WorkerId, now: Time) {
    Owned(r, w) && r.lockExpiresAt.Some? && r.lockExpiresAt.value > now
  }

  /** `seen` is the start time in the query's snapshot, which may be older than the row. */
  function Claimed(r: Row, seen: Option<Time>, now: Time, w: WorkerId): Row {
    r.(status := Running, startedAt := if seen.Some? then seen else Some(now), completedAt := None,
       lockExpiresAt := Some(now + LOCK_MS), lockedBy := Some(w))
  }

  function Refreshed(r: Row, now: Time): Row {
    r.(lockExpiresAt := Some(now + LOCK_MS))
  }

  function Drafted(r: Row, result: ResultJson): Row {
    r.(result := Some(result))
  }

  function Completed(r: Row, result: ResultJson, now: Time): Row {
    r.(status := Succeeded, result := Some(result), nextRetryAt := None, errorMessage := None, lastErrorCode := None,
       lockExpiresAt := None, lockedBy := None, completedAt := Some(now))
  }

  function Power2(n: nat): (r: nat)
    ensures r > 0
  {
    if n == 0 then 1 else 2 * Power2(n - 1)
  }

  function Min(a: int, b: int): int {
    if a < b then a else b
  }

  function Max(a: int, b: int): int {
    if a < b then b else a
  }

  datatype Failure = Failure(reason: string, code: string, retryable: bool)

  /** `read` is the attempt count the worker read in the statement before. */
  function AfterFailure(r: Row, read: nat, f: Failure, now: Time): Row {
    var attempt := read + 1;
    var canRetry := f.retryable && attempt < r.maxAttempts;
    r.(status := if canRetry then Failed else Cancelled, errorMessage := Some(f.reason), lastErrorCode := Some(f.code),
       attemptCount := attempt,
       nextRetryAt := if canRetry then Some(now + Min(60, Power2(attempt)) * 1000) else None,
       lockExpiresAt := None, lockedBy := None, completedAt := if canRetry then None else Some(now))
  }

  function DeferralDelay(base: nat, stepAttempt: nat): nat {
    Max(1, Min(120, base * Power2(Max(0, stepAttempt - 1))))
  }

  /** `stepAttempt` is the attempt counter of the waiting step, at least 1. */
  function Deferred(r: Row, base: nat, stepAttempt: nat, now: Time): Row {
    r.(status := Pending, nextRetryAt := Some(now + DeferralDelay(base, Max(1, stepAttempt)) * 1000),
       lockExpiresAt := None, lockedBy := None, completedAt := None, errorMessage := None, lastErrorCode := None)
  }

  function StepWritten(s: Step, status: Status, now: Time, detail: Option<string>): Step {
    Step(status, if status == Running then s.attempt + 1 else s.attempt,
         if status == Running then Some(now) else s.startedAt,
         if status in {Succeeded, Failed} then Some(now) else None, detail)
  }

  // ---------------------------------------------------------------- everybody else's

  /** The plain re-queue of `retryWorkflowNow`, which is also part of the other three. */
  function Requeued(r: Row): Row {
    r.(status := Pending, nextRetryAt := None, lockExpiresAt := None, lockedBy := None, completedAt := None,
       errorMessage := None, lastErrorCode := None)
  }

  /** The forced re-queue of a succeeded workflow. */
  function Reset(r: Row): Row {
    Requeued(r).(attemptCount := 0, result := None, steps := FRESH_STEPS)
  }

  function Reopened(s: Step): Step {
    s.(status := Pending, finishedAt := None, errorDetail := None)
  }

  /** The re-queue of the reconciler and of both routes: submit and confirm run again. */
  function Resubmitted(r: Row, payload: Payload): Row {
    Requeued(r).(payload := payload,
                 steps := r.steps.(submit := Reopened(r.steps.submit), confirm := Reopened(r.steps.confirm)))
  }

  function Patched(r: Row, payload: Payload): Row {
    r.(payload := payload)
  }

  // ------------------------------------------------------------------ well-formedness

  /** A lock exactly while running, a completion time exactly when finished, a retry time
      while failed and none when finished, and attempts left while failed. */
  predicate WellFormed(r: Row) {
    && (r.status == Running <==> r.lockedBy.Some?)
    && (r.status == Running <==> r.lockExpiresAt.Some?)
    && (r.completedAt.Some? <==> r.status in {Succeeded, Cancelled})
    && (r.status == Failed ==> r.nextRetryAt.Some? && r.attemptCount < r.maxAttempts)
    && (r.status in {Succeeded, Cancelled} ==> r.nextRetryAt.None?)
  }

  // --------------------------------------------------------------- what a row looks like

  /** Back in the queue, with nothing of the last run but its result and its count of failures. */
  predicate QueuedAgain(before: Row, after: Row) {
    after == before.(status := Pending, nextRetryAt := None, lockExpiresAt := None, lockedBy := None,
                     completedAt := None, errorMessage := None, lastErrorCode := None,
                     payload := after.payload, steps := after.steps, result := after.result,
                     attemptCount := after.attemptCount)
  }

  /** A step that is to run again keeps its start and its count of attempts. */
  predicate RunsAgain(before: Step, after: Step) {
    after == Step(Pending, before.attempt, before.startedAt, None, None)
  }

  /** The row is queued with this payload; submit and confirm run again. */
  predicate QueuedWith(before: Row, after: Row, payload: Payload) {
    && QueuedAgain(before, after) && after.payload == payload
    && after.result == before.result && after.attemptCount == before.attemptCount
    && after.steps.prepare == before.steps.prepare
    && RunsAgain(before.steps.submit, after.steps.submit) && RunsAgain(before.steps.confirm, after.steps.confirm)
  }

  /** Nothing has been done yet, and nobody is at it. */
  predicate Untried(r: Row) {
    && r.status == Pending && r.attemptCount == 0 && r.result.None? && r.startedAt.None?
    && r.steps.prepare == Step(Pending, 0, None, None, None)
    && r.steps.submit == r.steps.prepare && r.steps.confirm == r.steps.prepare
    && r.lockedBy.None? && r.lockExpiresAt.None? && r.nextRetryAt.None? && r.completedAt.None?
    && r.errorMessage.None? && r.lastErrorCode.None?
  }

  /** Finished, with the result and the time, and nothing left of lease, delay or error. */
  predicate SucceededWith(before: Row, after: Row, result: ResultJson, now: Time) {
    after == before.(status := Succeeded, result := Some(result), completedAt := Some(now), lockedBy := None,
                     lockExpiresAt := None, nextRetryAt := None, errorMessage := None, lastErrorCode := None)
  }

  /** What a failure leaves: an attempt more than was read, its reason, and either a time for the
      next one or the end. */
  predicate FailedAfter(before: Row, after: Row, read: nat, f: Failure, now: Time) {
    && after == before.(status := after.status, nextRetryAt := after.nextRetryAt, completedAt := after.completedAt,
                        attemptCount := read + 1, errorMessage := Some(f.reason), lastErrorCode := Some(f.code),
                        lockedBy := None, lockExpiresAt := None)
    && if f.retryable && read + 1 < before.maxAttempts
       then after.status == Failed && after.nextRetryAt == Some(now + 1000 * RetrySeconds(read + 1))
            && after.completedAt.None?
       else after.status == Cancelled && after.nextRetryAt.None? && after.completedAt == Some(now)
  }

  /** The delay of the `n`-th retry. */
  function RetrySeconds(n: nat): (s: nat)
    ensures n > 5 ==> s == 60
    ensures n <= 5 ==> s == [1, 2, 4, 8, 16, 32][n]
  {
    Power2Grows(n);
    Min(60, Power2(n))
  }

  lemma {:induction false} Power2Grows(n: nat)
    ensures n <= 5 ==> Power2(n) == [1, 2, 4, 8, 16, 32][n]
    ensures n > 5 ==> Power2(n) >= 64
  {
    if n > 0 { Power2Grows(n - 1); }
  }

  /** A deferral waits `base` seconds, twice as long at every attempt, from one second to two
      minutes. */
  lemma DeferralDoubles(base: nat, n: nat)
    ensures base in {1, 2, 120} ==> DeferralDelay(base, 1) == base
    ensures base == 0 ==> DeferralDelay(base, n) == 1
    ensures n > 0 && base > 0 ==> DeferralDelay(base, n + 1) == Min(120, 2 * DeferralDelay(base, n))
    ensures 1 <= DeferralDelay(base, n) <= 120
  {
    if n > 0 {
      assert Power2(n) == 2 * Power2(n - 1);
      Twice(base, Power2(n - 1));
    }
  }

  lemma Twice(base: nat, p: nat)
    requires p > 0
    ensures base * (2 * p) == 2 * (base * p) && (base > 0 ==> base * p > 0)
  {
  }

  /** A step that is written counts an attempt and the time when it starts, and its end when it is
      over. */
  lemma StepFields(s: Step, status: Status, now: Time, detail: Option<string>)
    ensures var t := StepWritten(s, status, now, detail);
            && t.status == status && t.errorDetail == detail
            && (status == Running ==> t.attempt == s.attempt + 1 && t.startedAt == Some(now) && t.finishedAt.None?)
            && (status != Running ==> t.attempt == s.attempt && t.startedAt == s.startedAt)
            && (t.finishedAt == if status == Succeeded || status == Failed then Some(now) else None)
  {
  }

  // ------------------------------------------------------------------ who is due when

  /** The delay of a retry in seconds: doubling from 2, and never more than a minute. */
  lemma RetryDelayDoubles(n: nat)
    requires n > 0
    ensures 2 <= Min(60, Power2(n)) <= 60 && Min(60, Power2(n + 1)) == Min(60, 2 * Min(60, Power2(n)))
  {
    assert Power2(n) == 2 * Power2(n - 1);
  }

  /** When a row can be claimed again: leases and retry delays hold to the moment, finished rows
      never come back, and everything pending is due at once, a deferral whatever its delay. */
  lemma DueAgain(r: Row, seen: Option<Time>, now: Time, w: WorkerId, result: ResultJson, read: nat, f: Failure,
                 base: nat, attempt: nat, t: Time)
    ensures Due(Claimed(r, seen, now, w), t) <==> t >= now + 300000
    ensures r.status == Running ==> (Due(Refreshed(r, now), t) <==> t >= now + 300000)
    ensures !Due(Completed(r, result, now), t)
    ensures Due(AfterFailure(r, read, f, now), t) <==>
            f.retryable && read + 1 < r.maxAttempts && t >= now + 1000 * Min(60, Power2(read + 1))
    ensures Due(Deferred(r, base, attempt, now), t) && Due(Requeued(r), t) && Due(Reset(r), t)
  {
  }
}
