/** `executeWorkflow` and `executeWorkflowStep`: one undisturbed execution, and how what its
    actions do decides the outcome of the workflow. */
module WorkflowExecutor {
  import opened Options
  import opened WorkflowRows
  import opened WorkflowSteps

  /** How a step ends. `NoLease`: the refresh before it finds the lease gone; `LosesLock`: so does
      a later refresh or guarded write, perhaps with a draft already persisted; `Defers`: an error
      that only asks for waiting. */
  datatype Action =
    | NoLease
    | Returns(draft: Option<ResultJson>)
    | LosesLock(persisted: Option<ResultJson>)
    | Defers
    | Throws(failure: Failure)

  /** The four ways out of a step. */
  datatype Signal = Fine | Lost | Waiting | Thrown(failure: Failure)

  function SignalOf(a: Action): Signal {
    match a
    case Returns(_) => Fine
    case NoLease => Lost
    case LosesLock(_) => Lost
    case Defers => Signal.Waiting
    case Throws(f) => Thrown(f)
  }

  /** The step after its action; without a lease it has not been touched. */
  predicate Earned(before: Step, a: Action, after: Step) {
    match a
    case NoLease => after == before
    case Returns(_) => after.status == Succeeded && after.attempt == before.attempt + 1
    case LosesLock(_) => after.status == Running && after.attempt == before.attempt + 1
    case Defers => after.status == Pending && after.attempt == before.attempt + 1
    case Throws(_) => after.status == Failed && after.attempt == before.attempt + 1
  }

  /** What a step persists as the result of the row. */
  function DraftOf(a: Action): Option<ResultJson> {
    match a
    case Returns(draft) => draft
    case LosesLock(persisted) => persisted
    case _ => None
  }

  function Later(draft: Option<ResultJson>, before: Option<ResultJson>): Option<ResultJson> {
    if draft.Some? then draft else before
  }

  /** The first step that was not done when the row was loaded and whose action does not return. */
  function Stumbles(seen: Steps, actions: StepName -> Action): Option<StepName> {
    if !seen.Done(Prepare) && !actions(Prepare).Returns? then Some(Prepare)
    else if !seen.Done(Submit) && !actions(Submit).Returns? then Some(Submit)
    else if !seen.Done(Confirm) && !actions(Confirm).Returns? then Some(Confirm)
    else None
  }

  class Executor {
    var state: State

    constructor (s: State)
      ensures state == s
    {
      state := s;
    }

    method Do(e: Event)
      requires Inv(state)
      modifies this
      ensures state == Apply(old(state), e) && Inv(state)
    {
      ApplyKeeps(state, e);
      state := Apply(state, e);
    }

    /** The step is marked as running, and its action runs. */
    method Perform(w: WorkerId, name: StepName, now: Time)
      requires Inv(state) && state.In(w, Before(name)) && !state.live[w].seen.Done(name)
      modifies this
      ensures Inv(state) && state.In(w, Acted(name)) && state.live[w].seen == old(state.live[w].seen)
      ensures state.row == old(state.row).(steps := old(state.row.steps).Set(name,
                StepWritten(old(state.row.steps.Get(name)), Running, now, None)))
    {
      Do(Start(w, now));
      Do(Act(w));
    }

    /** The result is persisted, and the step succeeds. */
    method Complete(w: WorkerId, name: StepName, draft: Option<ResultJson>, now: Time)
      requires Inv(state) && state.In(w, Acted(name)) && (name == Submit ==> draft.Some?)
      modifies this
      ensures Inv(state) && state.In(w, After(name)) && state.live[w].seen == old(state.live[w].seen)
      ensures state.row == old(state.row).(result := if draft.Some? then draft else old(state.row.result),
        steps := old(state.row.steps).Set(name, StepWritten(old(state.row.steps.Get(name)), Succeeded, now, None)))
    {
      Do(Keep(w, draft));
      Do(StepDone(w, now));
    }

    /** The step goes back to pending. */
    method Wait(w: WorkerId, name: StepName, now: Time)
      requires Inv(state) && state.In(w, Acted(name))
      modifies this
      ensures Inv(state) && state.In(w, Pc.Waiting(name)) && state.live[w].seen == old(state.live[w].seen)
      ensures state.row == old(state.row).(steps := old(state.row.steps).Set(name,
                StepWritten(old(state.row.steps.Get(name)), Pending, now, None)))
    {
      Do(StepWaits(w, now));
    }

    /** The step fails. */
    method Break(w: WorkerId, name: StepName, reason: string, now: Time)
      requires Inv(state) && state.In(w, Acted(name))
      modifies this
      ensures Inv(state) && state.In(w, Failing) && state.live[w].seen == old(state.live[w].seen)
      ensures state.row == old(state.row).(steps := old(state.row.steps).Set(name,
                StepWritten(old(state.row.steps.Get(name)), Failed, now, Some(reason))))
    {
      Do(StepFails(w, now, reason));
    }

    method KeepDraft(w: WorkerId, name: StepName, draft: Option<ResultJson>)
      requires Inv(state) && state.In(w, Acted(name))
      modifies this
      ensures Inv(state) && w in state.live && state.live[w].seen == old(state.live[w].seen)
      ensures state.row == old(state.row).(result := if draft.Some? then draft else old(state.row.result))
    {
      if draft.Some? { Do(Keep(w, draft)); }
    }

    /** Only this step is written, once more attempted, and left in the status its action earns. */
    method ExecuteWorkflowStep(w: WorkerId, name: StepName, a: Action, now: Time) returns (s: Signal)
      requires Inv(state) && state.In(w, Before(name)) && !state.live[w].seen.Done(name)
      requires name == Submit && a.Returns? ==> a.draft.Some?
      modifies this
      ensures Inv(state) && w in state.live && state.live[w].seen == old(state.live[w].seen) && s == SignalOf(a)
      ensures state.row.(steps := old(state.row.steps), result := old(state.row.result)) == old(state.row)
      ensures state.row.result == Later(DraftOf(a), old(state.row.result))
      ensures state.row.steps == old(state.row.steps).Set(name, state.row.steps.Get(name))
      ensures Earned(old(state.row.steps.Get(name)), a, state.row.steps.Get(name))
      ensures a.Returns? ==> state.live[w].pc == After(name)
      ensures a.Defers? ==> state.live[w].pc == Pc.Waiting(name)
      ensures a.Throws? ==> state.live[w].pc == Failing
    {
      hide Inv;
      if a.NoLease? { return Lost; }
      Perform(w, name, now);
      match a
      case Returns(draft) =>
        Complete(w, name, draft, now);
        s := Fine;
      case LosesLock(persisted) =>
        KeepDraft(w, name, persisted);
        s := Lost;
      case Defers =>
        Wait(w, name, now);
        s := Signal.Waiting;
      case Throws(f) =>
        Break(w, name, f.reason, now);
        s := Thrown(f);
    }

    /** `if (!hasSucceededStep(..)) await executeWorkflowStep(..)`. */
    method StepUnlessDone(w: WorkerId, name: StepName, a: Action, now: Time) returns (s: Signal)
      requires Inv(state) && state.In(w, Before(name))
      requires name == Submit && a.Returns? ==> a.draft.Some?
      modifies this
      ensures Inv(state) && w in state.live && state.live[w].seen == old(state.live[w].seen)
      ensures state.row.(steps := old(state.row.steps), result := old(state.row.result)) == old(state.row)
      ensures state.row.steps == old(state.row.steps).Set(name, state.row.steps.Get(name))
      ensures state.row.result ==
        Later(if old(state.live[w].seen.Done(name)) then None else DraftOf(a), old(state.row.result))
      ensures var done := old(state.live[w].seen.Done(name));
              && s == (if done then Fine else SignalOf(a))
              && (done ==> state.row == old(state.row))
              && (!done ==> Earned(old(state.row.steps.Get(name)), a, state.row.steps.Get(name)))
              && (s.Fine? ==> state.live[w].pc == After(name))
              && (s.Waiting? ==> state.live[w].pc == Pc.Waiting(name))
              && (s.Thrown? ==> state.live[w].pc == Failing)
    {
      if state.live[w].seen.Done(name) {
        Do(Skip(w));
        s := Fine;
      } else {
        s := ExecuteWorkflowStep(w, name, a, now);
      }
    }

    method RunSteps(w: WorkerId, actions: StepName -> Action, now: Time) returns (s: Signal)
      requires Inv(state) && state.In(w, Before(Prepare))
      requires actions(Submit).Returns? ==> actions(Submit).draft.Some?
      modifies this
      ensures Inv(state) && w in state.live
      ensures state.row.(steps := old(state.row.steps), result := old(state.row.result)) == old(state.row)
      ensures Stepped(old(state.row.steps), old(state.live[w].seen), actions, state.row.steps)
      ensures state.row.result == LastDraft(old(state.live[w].seen), actions, old(state.row.result))
      ensures
        match Stumbles(old(state.live[w].seen), actions)
        case None => s == Fine && state.live[w].pc == Finishing
        case Some(n) =>
          s == SignalOf(actions(n)) && (s.Waiting? ==> state.live[w].pc == Pc.Waiting(n))
          && (s.Thrown? ==> state.live[w].pc == Failing)
    {
      hide Inv, Earned;
      s := StepUnlessDone(w, Prepare, actions(Prepare), now);
      if !s.Fine? { return; }
      s := StepUnlessDone(w, Submit, actions(Submit), now);
      if !s.Fine? { return; }
      s := StepUnlessDone(w, Confirm, actions(Confirm), now);
    }

    /** The outcome write, or none when the lease is lost. */
    method Finish(w: WorkerId, s: Signal, result: ResultJson, now: Time)
      requires Inv(state) && w in state.live && (s.Fine? ==> state.live[w].pc.Finishing?)
      requires (s.Waiting? ==> state.live[w].pc.Waiting?) && (s.Thrown? ==> state.live[w].pc.Failing?)
      modifies this
      ensures Inv(state) && w !in state.live && state.row.steps == old(state.row.steps)
      ensures state.row == match s
        case Fine => Completed(old(state.row), result, now)
        case Lost => old(state.row)
        case Waiting => Deferred(old(state.row), 2, old(state.row.steps.Get(state.live[w].pc.name).attempt), now)
        case Thrown(f) => AfterFailure(old(state.row), old(state.row.attemptCount), f, now)
    {
      match s
      case Fine => Do(MarkSucceeded(w, result, now));
      case Lost => Do(Stopped(w));
      case Waiting => Do(MarkDeferred(w, now));
      case Thrown(f) => Do(MarkFailed(w, f, now));
    }

    /** The whole execution after a claim: the result of the steps decides the outcome write. */
    method ExecuteWorkflow(w: WorkerId, actions: StepName -> Action, result: ResultJson, now: Time)
      requires Inv(state) && state.In(w, Loading)
      requires actions(Submit).Returns? ==> actions(Submit).draft.Some?
      modifies this
      ensures Inv(state) && w !in state.live
      ensures Stepped(old(state.row.steps), old(state.row.steps), actions, state.row.steps)
      ensures Outcome(old(state.row), Stumbles(old(state.row.steps), actions), actions, result, now, state.row)
    {
      hide Inv, LastDraft;
      Do(Load(w));
      var s := RunSteps(w, actions, now);
      Finish(w, s, result, now);
    }
  }

  /** Steps that were done are left alone, as are those behind the one that stumbles; all others
      have what their action earned. */
  predicate Stepped(before: Steps, seen: Steps, actions: StepName -> Action, after: Steps) {
    forall n: StepName ::
      if !seen.Done(n) && Reached(seen, actions, n) then Earned(before.Get(n), actions(n), after.Get(n))
      else after.Get(n) == before.Get(n)
  }

  predicate Reached(seen: Steps, actions: StepName -> Action, n: StepName) {
    match Stumbles(seen, actions)
    case None => true
    case Some(m) => n == m || n == Prepare || m == Confirm
  }

  /** The last result that a reached step has persisted, or the one that was there. */
  function LastDraft(seen: Steps, actions: StepName -> Action, before: Option<ResultJson>): Option<ResultJson> {
    Later(Drafted(seen, actions, Confirm),
          Later(Drafted(seen, actions, Submit), Later(Drafted(seen, actions, Prepare), before)))
  }

  function Drafted(seen: Steps, actions: StepName -> Action, n: StepName): Option<ResultJson> {
    if !seen.Done(n) && Reached(seen, actions, n) then DraftOf(actions(n)) else None
  }

  /** Succeeded with the result if nothing stumbles; otherwise as the action that stumbled says,
      with the last result persisted. A lost lease leaves the row running, for another worker to
      claim. */
  predicate Outcome(before: Row, stumbles: Option<StepName>, actions: StepName -> Action, result: ResultJson, now: Time,
                    after: Row) {
    var worked := before.(steps := after.steps, result := LastDraft(before.steps, actions, before.result));
    match stumbles
    case None =>
      && SucceededWith(worked, after, result, now)
      && after.steps.Done(Prepare) && after.steps.Done(Submit) && after.steps.Done(Confirm)
    case Some(n) =>
      match actions(n)
      case Throws(f) => FailedAfter(worked, after, before.attemptCount, f, now)
      case Defers =>
        && after == worked.(status := Pending, nextRetryAt := after.nextRetryAt, lockedBy := None,
                            lockExpiresAt := None,
                            completedAt := None, errorMessage := None, lastErrorCode := None)
        && after.nextRetryAt == Some(now + 1000 * DeferralDelay(2, before.steps.Get(n).attempt + 1))
      case _ => after == worked
  }

  /** The actions of `executePayRandomWinnerWorkflow`. Confirm takes the draft from the row as it
      was claimed, not from the submit step of the same execution. */
  function PayWinnerActions(claimed: Row, submit: Action, relay: Action): StepName -> Action {
    (n: StepName) =>
      match n
      case Prepare => Returns(None)
      case Submit => submit
      case Confirm =>
        if claimed.result.Some? then relay
        else Throws(Failure("pay_random_winner confirm missing draft result", "WORKFLOW_ERROR", true))
  }

  /** Hence the execution that submits the payout never finishes the workflow: it costs an attempt,
      although submit has succeeded. With a draft at claim time the relay decides. */
  lemma PayoutNeedsAnotherExecution(row: Row, submit: Action, relay: Action, result: ResultJson, now: Time,
                                    after: Row)
    requires row.status == Running && !row.steps.Done(Confirm) && (row.steps.Done(Submit) || submit.Returns?)
    requires var acts := PayWinnerActions(row, submit, relay);
             Outcome(row, Stumbles(row.steps, acts), acts, result, now, after)
    ensures row.result.None? ==>
      && after.status in {Failed, Cancelled} && after.attemptCount == row.attemptCount + 1
      && after.lastErrorCode == Some("WORKFLOW_ERROR")
      && after.errorMessage == Some("pay_random_winner confirm missing draft result")
    ensures row.result.Some? ==> (after.status == Succeeded <==> relay.Returns?)
  {
    var acts := PayWinnerActions(row, submit, relay);
    assert Stumbles(row.steps, acts) == if acts(Confirm).Returns? then None else Some(Confirm);
  }

  lemma ApplyKeeps(s: State, e: Event)
    requires Inv(s)
    ensures Inv(Apply(s, e))
  {
    if e.Retry? || e.ForceReset? || e.Resubmit? || e.Patch? || e.Claim? {
      ExternalKeeps(s, e);
    } else if e.w in s.live {
      AdvanceKeepsRow(s, e);
      AdvanceKeepsLog(s, e);
    }
  }
}
