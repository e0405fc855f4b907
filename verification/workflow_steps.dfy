/** One workflow under the step executor. Workers may stop at any statement, and stay
    stopped; a lease runs out only on a stopped worker; re-queues meet rows that do not run. */
module WorkflowSteps {
  import opened Options
  import opened WorkflowRows

  /** Where an execution stands: `Loading` follows its claim; `Before` checks whether the step is
      done in the rows it loaded; `Acting`, `Acted` and `Kept` are inside the step, before its
      action, after it, and with its result persisted; then come the three outcome writes. */
  datatype Pc =
    | Loading
    | Before(name: StepName)
    | Acting(name: StepName)
    | Acted(name: StepName)
    | Kept(name: StepName)
    | Finishing
    | Failing
    | Waiting(name: StepName)

  datatype Execution = Execution(seen: Steps, pc: Pc)

  /** What the history of the submit step shows. */
  datatype Entry = SubmitRun | SubmitSucceeded | Reopen

  datatype State = State(row: Row, live: map<WorkerId, Execution>, log: seq<Entry>) {
    function Go(w: WorkerId, pc: Pc): State
      requires w in live
    {
      this.(live := live[w := live[w].(pc := pc)])
    }

    function Stop(w: WorkerId): State {
      this.(live := live - {w})
    }

    function StepTo(n: StepName, status: Status, now: Time, detail: Option<string>): State {
      this.(row := row.(steps := row.steps.Set(n, StepWritten(row.steps.Get(n), status, now, detail))))
    }

    predicate In(w: WorkerId, pc: Pc) {
      w in live && live[w].pc == pc
    }

    predicate Inside(w: WorkerId) {
      w in live && (live[w].pc.Acting? || live[w].pc.Acted? || live[w].pc.Kept?)
    }
  }

  datatype Event =
    | Claim(w: WorkerId, now: Time)
    | Load(w: WorkerId)
    | Skip(w: WorkerId)
    | Start(w: WorkerId, now: Time)
    | Act(w: WorkerId)
    | Keep(w: WorkerId, draft: Option<ResultJson>)
    | StepDone(w: WorkerId, now: Time)
    | StepFails(w: WorkerId, now: Time, reason: string)
    | StepWaits(w: WorkerId, now: Time)
    | MarkSucceeded(w: WorkerId, result: ResultJson, now: Time)
    | MarkFailed(w: WorkerId, failure: Failure, now: Time)
    | MarkDeferred(w: WorkerId, now: Time)
    | Stopped(w: WorkerId)
    | Retry
    | ForceReset
    | Resubmit(payload: Payload)
    | Patch(payload: Payload)

  function After(n: StepName): Pc {
    match n case Prepare => Before(Submit) case Submit => Before(Confirm) case Confirm => Finishing
  }

  predicate CanClaim(s: State, w: WorkerId, now: Time) {
    && w !in s.live && Due(s.row, now)
    && (s.row.status == Running ==> s.row.lockedBy.Some? && s.row.lockedBy.value !in s.live)
  }

  /** An event that is not possible in a state leaves it as it is. */
  function Apply(s: State, e: Event): State {
    match e
    case Retry => if s.row.status == Running then s else s.(row := Requeued(s.row))
    case ForceReset =>
      if s.row.status == Succeeded then s.(row := Reset(s.row), log := s.log + [Reopen]) else s
    case Resubmit(payload) =>
      if s.row.status == Running then s else s.(row := Resubmitted(s.row, payload), log := s.log + [Reopen])
    case Patch(payload) => s.(row := Patched(s.row, payload))
    case Claim(w, now) =>
      if CanClaim(s, w, now)
      then s.(row := Claimed(s.row, s.row.startedAt, now, w), live := s.live[w := Execution(s.row.steps, Loading)])
      else s
    case _ => if e.w in s.live then Advance(s, e) else s
  }

  /** A claim takes a row that is due, from nobody who is at it, and for a worker who is idle. */
  lemma ClaimsTheDue(s: State, w: WorkerId, now: Time)
    ensures var s' := Apply(s, Claim(w, now));
            if w !in s.live && Due(s.row, now)
               && (s.row.status == Running ==> s.row.lockedBy.Some? && s.row.lockedBy.value !in s.live)
            then Owned(s'.row, w) && s'.In(w, Loading) && s'.log == s.log && s'.row.steps == s.row.steps
            else s' == s
  {
  }

  /** The statements of `executeWorkflowStep` and of the workflow functions around it. */
  function Advance(s: State, e: Event): State
    requires !(e.Retry? || e.ForceReset? || e.Resubmit? || e.Patch? || e.Claim?) && e.w in s.live
  {
    var pc := s.live[e.w].pc;
    match e
    case Load(w) => if pc.Loading? then s.(live := s.live[w := Execution(s.row.steps, Before(Prepare))]) else s
    case Skip(w) => if pc.Before? && s.live[w].seen.Done(pc.name) then s.Go(w, After(pc.name)) else s
    case Start(w, now) =>
      if pc.Before? && !s.live[w].seen.Done(pc.name)
      then s.StepTo(pc.name, Running, now, None).Go(w, Acting(pc.name)) else s
    case Act(w) =>
      if !pc.Acting? then s
      else s.Go(w, Acted(pc.name)).(log := if pc.name == Submit then s.log + [SubmitRun] else s.log)
    case Keep(w, draft) =>
      if !pc.Acted? || (pc.name == Submit && draft.None?) then s
      else s.Go(w, Kept(pc.name)).(row := if draft.Some? then Drafted(s.row, draft.value) else s.row)
    case StepDone(w, now) =>
      if !pc.Kept? then s
      else s.StepTo(pc.name, Succeeded, now, None).Go(w, After(pc.name))
            .(log := if pc.name == Submit then s.log + [SubmitSucceeded] else s.log)
    case StepFails(w, now, reason) =>
      if s.Inside(w) then s.StepTo(pc.name, Failed, now, Some(reason)).Go(w, Failing) else s
    case StepWaits(w, now) =>
      if s.Inside(w) then s.StepTo(pc.name, Pending, now, None).Go(w, Waiting(pc.name)) else s
    case MarkSucceeded(w, result, now) =>
      if pc.Finishing? then s.(row := Completed(s.row, result, now)).Stop(w) else s
    case MarkFailed(w, failure, now) =>
      if pc.Waiting? then s else s.(row := AfterFailure(s.row, s.row.attemptCount, failure, now)).Stop(w)
    case MarkDeferred(w, now) =>
      if pc.Waiting? then s.(row := Deferred(s.row, 2, s.row.steps.Get(pc.name).attempt, now)).Stop(w) else s
    case Stopped(w) => s.Stop(w)
  }

  function Run(row: Row, es: seq<Event>): State {
    if es == [] then State(row, map[], []) else Apply(Run(row, es[..|es| - 1]), es[|es| - 1])
  }

  // ------------------------------------------------------------------ the invariant

  /** Confirmed implies submitted implies prepared, and submitted implies a result. */
  predicate Ordered(r: Row) {
    && (r.steps.Done(Confirm) ==> r.steps.Done(Submit))
    && (r.steps.Done(Submit) ==> r.steps.Done(Prepare) && r.result.Some?)
    && (r.status == Succeeded ==> r.steps.Done(Confirm))
  }

  predicate Earlier(r: Row, n: StepName) {
    match n case Prepare => true case Submit => r.steps.Done(Prepare) case Confirm => r.steps.Done(Submit)
  }

  /** Steps from `n` on are as the execution loaded them. */
  predicate SeenFrom(r: Row, seen: Steps, n: StepName) {
    && r.steps.Done(Confirm) == seen.Done(Confirm)
    && (n != Confirm ==> r.steps.Done(Submit) == seen.Done(Submit))
    && (n == Prepare ==> r.steps.Done(Prepare) == seen.Done(Prepare))
  }

  /** From `n` on nothing is done. */
  predicate NoneFrom(r: Row, n: StepName) {
    !r.steps.Done(Confirm) && !r.steps.Done(n) && (n == Prepare ==> !r.steps.Done(Submit))
  }

  predicate PcOk(r: Row, x: Execution) {
    match x.pc
    case Before(n) => Earlier(r, n) && SeenFrom(r, x.seen, n)
    case Acting(n) => Earlier(r, n) && NoneFrom(r, n) && SeenFrom(r, x.seen, n)
    case Acted(n) => Earlier(r, n) && NoneFrom(r, n) && SeenFrom(r, x.seen, n)
    case Kept(n) =>
      Earlier(r, n) && NoneFrom(r, n) && SeenFrom(r, x.seen, n) && (n == Submit ==> r.result.Some?)
    case Finishing => r.steps.Done(Confirm)
    case _ => true
  }

  /** The submit step is done: its success is later than the last re-opening. */
  predicate Settled(log: seq<Entry>) {
    log != [] &&
      match log[|log| - 1]
      case SubmitSucceeded => true
      case Reopen => false
      case SubmitRun => Settled(log[..|log| - 1])
  }

  /** Between a success of the submit step and a later run of its action there is a re-opening. */
  predicate NoReplay(log: seq<Entry>) {
    forall i, j | 0 <= i < j < |log| && log[i] == SubmitSucceeded && log[j] == SubmitRun ::
      exists k :: i < k < j && log[k] == Reopen
  }

  predicate RowInv(s: State) {
    && WellFormed(s.row) && Ordered(s.row)
    && (forall w | w in s.live :: Owned(s.row, w) && PcOk(s.row, s.live[w]))
  }

  predicate LogInv(s: State) {
    (s.row.steps.Done(Submit) <==> Settled(s.log)) && NoReplay(s.log)
  }

  predicate Inv(s: State) {
    RowInv(s) && LogInv(s)
  }

  lemma {:induction false} ReopenedSince(log: seq<Entry>, i: nat)
    requires i < |log| && log[i] == SubmitSucceeded && !Settled(log)
    ensures exists k :: i < k < |log| && log[k] == Reopen
  {
    var last := |log| - 1;
    if log[last] == SubmitRun {
      ReopenedSince(log[..last], i);
      var k :| i < k < last && log[..last][k] == Reopen;
      assert log[k] == Reopen;
    } else {
      assert log[last] == Reopen;
    }
  }

  lemma LogGrows(log: seq<Entry>, x: Entry)
    requires NoReplay(log) && (x == SubmitRun ==> !Settled(log))
    ensures NoReplay(log + [x])
    ensures Settled(log + [x]) <==> x == SubmitSucceeded || (x == SubmitRun && Settled(log))
  {
    var more := log + [x];
    assert more[..|log|] == log;
    forall i, j | 0 <= i < j < |more| && more[i] == SubmitSucceeded && more[j] == SubmitRun
      ensures exists k :: i < k < j && more[k] == Reopen
    {
      if j == |log| { ReopenedSince(log, i); }
      var k :| i < k < j && log[k] == Reopen;
      assert more[k] == Reopen;
    }
  }

  lemma OnlyLive(s: State, v: WorkerId, w: WorkerId)
    requires RowInv(s) && v in s.live && w in s.live
    ensures v == w
  {
  }

  lemma ExternalKeeps(s: State, e: Event)
    requires Inv(s) && (e.Retry? || e.ForceReset? || e.Resubmit? || e.Patch? || e.Claim?)
    ensures Inv(Apply(s, e))
  {
    LogGrows(s.log, Reopen);
  }

  lemma AdvanceKeepsRow(s: State, e: Event)
    requires RowInv(s) && !(e.Retry? || e.ForceReset? || e.Resubmit? || e.Patch? || e.Claim?) && e.w in s.live
    ensures RowInv(Advance(s, e))
  {
    forall v | v in s.live ensures v == e.w { OnlyLive(s, v, e.w); }
  }

  lemma LogEffect(s: State, e: Event)
    requires RowInv(s) && !(e.Retry? || e.ForceReset? || e.Resubmit? || e.Patch? || e.Claim?) && e.w in s.live
    ensures var s' := Advance(s, e);
            || (s'.log == s.log && s'.row.steps.Done(Submit) == s.row.steps.Done(Submit))
            || (s'.log == s.log + [SubmitRun] && !s.row.steps.Done(Submit) && !s'.row.steps.Done(Submit))
            || (s'.log == s.log + [SubmitSucceeded] && s'.row.steps.Done(Submit))
  {
    assert PcOk(s.row, s.live[e.w]);
  }

  lemma AdvanceKeepsLog(s: State, e: Event)
    requires Inv(s) && !(e.Retry? || e.ForceReset? || e.Resubmit? || e.Patch? || e.Claim?) && e.w in s.live
    ensures LogInv(Advance(s, e))
  {
    LogEffect(s, e);
    LogGrows(s.log, SubmitSucceeded);
    if !Settled(s.log) { LogGrows(s.log, SubmitRun); }
  }

  lemma {:induction false} RunKeeps(row: Row, es: seq<Event>)
    requires Fresh(row)
    ensures Inv(Run(row, es))
  {
    if es != [] {
      var before, e := Run(row, es[..|es| - 1]), es[|es| - 1];
      RunKeeps(row, es[..|es| - 1]);
      if e.Retry? || e.ForceReset? || e.Resubmit? || e.Patch? || e.Claim? {
        ExternalKeeps(before, e);
      } else if e.w in before.live {
        AdvanceKeepsRow(before, e);
        AdvanceKeepsLog(before, e);
      }
    }
  }

  // ------------------------------------------------------------------- main results

  predicate Fresh(row: Row) {
    row.steps == FRESH_STEPS && row.status == Pending && WellFormed(row)
  }

  /** In every run: steps succeed in order, the submit step never without a persisted result,
      and a succeeded workflow has all three. */
  lemma StepsSucceedInOrder(row: Row, es: seq<Event>)
    requires Fresh(row)
    ensures var r := Run(row, es).row;
            && (r.status == Succeeded ==> r.steps.confirm.status == Succeeded)
            && (r.steps.confirm.status == Succeeded ==> r.steps.submit.status == Succeeded)
            && (r.steps.submit.status == Succeeded ==> r.steps.prepare.status == Succeeded && r.result.Some?)
  {
    RunKeeps(row, es);
  }

  /** In every run: once the submit step has succeeded, its action is not run again before the
      step has been re-opened. */
  lemma SubmitNotReplayed(row: Row, es: seq<Event>)
    requires Fresh(row)
    ensures var log := Run(row, es).log;
            forall i, j | 0 <= i < j < |log| && log[i] == SubmitSucceeded && log[j] == SubmitRun ::
              exists k :: i < k < j && log[k] == Reopen
  {
    RunKeeps(row, es);
  }

  /** In every run at most one execution is live, and it owns the row. */
  lemma OneExecution(row: Row, es: seq<Event>, v: WorkerId, w: WorkerId)
    requires Fresh(row) && v in Run(row, es).live && w in Run(row, es).live
    ensures v == w && Owned(Run(row, es).row, w)
  {
    RunKeeps(row, es);
    OnlyLive(Run(row, es), v, w);
  }
}
