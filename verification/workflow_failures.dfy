/** What goes wrong in the queue when a worker outlives its lease: the writes of steps carry no
    guard, unlike those of rows. */
module WorkflowFailures {
  import opened Options
  import opened WorkflowRows
  import opened WorkflowQueue

  const ID := "wf"
  const SLOW := "slow"
  const QUICK := "quick"

  /** A run that ends in state `t`. */
  predicate Reaches(es: seq<Event>, t: State) {
    Run(es) == t
  }

  lemma Then(es: seq<Event>, t: State, e: Event) returns (more: seq<Event>, t': State)
    requires Reaches(es, t)
    ensures more == es + [e] && t' == Apply(t, e) && Reaches(more, t')
  {
    more, t' := es + [e], Apply(t, e);
    assert more[..|more| - 1] == es;
  }


  /** A free worker claims the one row, which is due, and begins. */
  lemma Claims(es: seq<Event>, t: State, w: WorkerId, c: Cell, now: Time)
      returns (more: seq<Event>, t': State, k: Ticket)
    requires Reaches(es, t) && t.db == map[ID := c] && t.At(w) == Idle && Due(c.row, now)
    ensures Reaches(more, t') && t'.db == map[ID := ClaimedCell(c, w, None, now)] && k.id == ID
    ensures t'.workers == t.workers[w := Executing([k], None)]
  {
    hide Run;
    k := Ticket(ID, c.epoch + 1);
    more, t' := Then(es, t, Query(w, now, [ID]));
    assert t'.workers == t.workers[w := Claiming(now, [ID], [])];
    assert [ID][1..] == [] && [] + [k] == [k];
    more, t' := Then(more, t', TryClaim(w, None));
    assert t'.workers == t.workers[w := Claiming(now, [], [k])];
    more, t' := Then(more, t', Begin(w));
    assert t'.workers == t.workers[w := Executing([k], None)];
  }

  /** The worker writes a step, whether it owns the row or not. */
  lemma StepWrites(es: seq<Event>, t: State, w: WorkerId, c: Cell, k: Ticket, n: StepName, status: Status, now: Time,
              detail: Option<string>)
    returns (more: seq<Event>, t': State, c': Cell)
    requires Reaches(es, t) && t.db == map[ID := c] && t.At(w) == Executing([k], None) && k.id == ID
    ensures c' == c.(row := c.row.(steps := c.row.steps.Set(n, StepWritten(c.row.steps.Get(n), status, now, detail))))
    ensures Reaches(more, t') && t' == t.(db := map[ID := c'])
  {
    hide Run;
    more, t' := Then(es, t, WriteStep(w, n, status, now, detail));
    c' := t'.db[ID];
  }

  /** All three steps, and the outcome. */
  lemma Finishes(es: seq<Event>, t: State, w: WorkerId, c: Cell, k: Ticket, result: ResultJson, now: Time)
    returns (more: seq<Event>, t': State, c': Cell)
    requires Reaches(es, t) && t.db == map[ID := c] && t.At(w) == Executing([k], None) && k.id == ID && Owned(c.row, w)
    ensures Reaches(more, t') && t'.db == map[ID := c'] && c'.row.status == Succeeded
    ensures c'.row.steps.Done(Prepare) && c'.row.steps.Done(Submit) && c'.row.steps.Done(Confirm)
    ensures forall v | v != w :: t'.At(v) == t.At(v)
  {
    hide Run;
    more, t', c' := StepWrites(es, t, w, c, k, Prepare, Running, now, None);
    more, t', c' := StepWrites(more, t', w, c', k, Prepare, Succeeded, now, None);
    more, t', c' := StepWrites(more, t', w, c', k, Submit, Running, now, None);
    more, t', c' := StepWrites(more, t', w, c', k, Submit, Succeeded, now, None);
    more, t', c' := StepWrites(more, t', w, c', k, Confirm, Running, now, None);
    more, t', c' := StepWrites(more, t', w, c', k, Confirm, Succeeded, now, None);
    more, t' := Then(more, t', Locked(w, Succeed(result, now)));
    c' := t'.db[ID];
  }

  lemma Creates(kind: Kind, key: string, payload: Payload, now: Time) returns (es: seq<Event>, t: State, c: Cell)
    ensures Reaches(es, t) && t == State(map[ID := c], map[])
    ensures c == Cell(Created(kind, key, payload, DEFAULT_PRIORITY, DEFAULT_MAX_ATTEMPTS, now), 0, 0, 0, 0, 0)
  {
    var create := Create(ID, kind, key, payload, DEFAULT_PRIORITY, DEFAULT_MAX_ATTEMPTS, now);
    assert Run([]) == State(map[], map[]);
    es, t := Then([], State(map[], map[]), create);
    c := Cell(Created(kind, key, payload, DEFAULT_PRIORITY, DEFAULT_MAX_ATTEMPTS, now), 0, 0, 0, 0, 0);
    assert !KeyTaken(State(map[], map[]), kind, key);
  }

  /** A worker claims the new row, and begins with its first step. */
  lemma SlowBegins(es: seq<Event>, t: State, c: Cell, now: Time)
    returns (more: seq<Event>, t': State, c': Cell, k: Ticket)
    requires Reaches(es, t) && t == State(map[ID := c], map[]) && c.row.status == Pending
    ensures Reaches(more, t') && t'.db == map[ID := c'] && Due(c'.row, now + LOCK_MS) && k.id == ID
    ensures t'.At(SLOW) == Executing([k], None) && t'.At(QUICK) == Idle
  {
    hide Run;
    more, t', k := Claims(es, t, SLOW, c, now);
    c' := ClaimedCell(c, SLOW, None, now);
    more, t' := Then(more, t', Locked(SLOW, Refresh(now)));
    c' := c'.(row := Refreshed(c'.row, now));
    assert t'.db == map[ID := c'];
    more, t', c' := StepWrites(more, t', SLOW, c', k, Prepare, Running, now, None);
  }

  /** From every creation on: one worker begins a step and lasts longer than its lease; a second one
      does the whole workflow; then the action of the first one throws, and it writes its step. The
      workflow has succeeded, and its first step has failed. */
  lemma LateStepWrite(kind: Kind, key: string, payload: Payload, result: ResultJson, now: Time, reason: string)
    returns (es: seq<Event>)
    ensures ID in Run(es).db
    ensures var r := Run(es).db[ID].row;
            r.status == Succeeded && r.steps.Get(Prepare).status == Failed && r.steps.Done(Submit)
              && r.steps.Done(Confirm)
  {
    hide Run;
    var t, c, k, k';
    es, t, c := Creates(kind, key, payload, now);
    es, t, c, k := SlowBegins(es, t, c, now);
    es, t, k' := Claims(es, t, QUICK, c, now + LOCK_MS);
    c := t.db[ID];
    es, t, c := Finishes(es, t, QUICK, c, k', result, now + LOCK_MS);
    es, t, c := StepWrites(es, t, SLOW, c, k, Prepare, Failed, now + LOCK_MS, Some(reason));
  }
}
