/** The two routes that write to workflows, and what they do to a payload over time. */
module WorkflowRoutes {
  import opened Options
  import opened WorkflowRows
  import opened WorkflowStore
  import Hex

  datatype Request = Request(key: string, identity: Identity, preimage: Option<string>, sourceTxHash: Option<string>,
                             sourceRef: Option<string>, headBRef: Option<string>)

  datatype Posted = Accepted(id: Id, replay: bool) | Mismatch(id: Id)

  /** What `buildBuyTicketHash` hashes. */
  function Normalized(i: Identity): Identity {
    Identity(Hex.Normal(i.actor), Hex.Trim(i.address), Hex.Trim(i.amountLovelace), Hex.Normal(i.htlcHash),
             Hex.Trim(i.timeoutMinutes),
             Hex.Normal(i.sourceHead))
  }

  function HashOf(p: Payload): Identity {
    if p.requestHash.Some? then p.requestHash.value else Normalized(p.identity)
  }

  /** `preimage?.trim() || null`. */
  function Trimmed(s: Option<string>): Option<string> {
    if s.Some? && Hex.Trim(s.value) != "" then Some(Hex.Trim(s.value)) else None
  }

  function OrElse(a: Option<string>, b: Option<string>): Option<string> {
    if a.Some? then a else b
  }

  function NewPayload(q: Request): Payload {
    Payload(q.identity.(htlcHash := Hex.Normal(q.identity.htlcHash)), Some(Normalized(q.identity)), Trimmed(q.preimage),
            q.sourceTxHash, q.sourceRef, q.headBRef, 0)
  }

  predicate BothArtifacts(q: Request) {
    q.sourceTxHash.Some? && q.sourceTxHash.value != "" && q.sourceRef.Some? && q.sourceRef.value != ""
  }

  predicate ShouldPatch(p: Payload, q: Request) {
    || (BothArtifacts(q) && (p.sourceTxHash != q.sourceTxHash || p.sourceRef != q.sourceRef))
    || (Trimmed(q.preimage).Some? && p.preimage != Trimmed(q.preimage))
  }

  function PostPatch(p: Payload, q: Request): Payload {
    var p' := p.(preimage := OrElse(Trimmed(q.preimage), p.preimage));
    if BothArtifacts(q)
    then p'.(sourceTxHash := q.sourceTxHash, sourceRef := q.sourceRef, headBRef := OrElse(q.headBRef, p.headBRef))
    else p'
  }

  predicate SubmitPatches(p: Payload, txHash: string, ref: string, preimage: Option<string>) {
    || p.sourceTxHash != Some(txHash) || p.sourceRef != Some(ref)
    || (Trimmed(preimage).Some? && p.preimage != Trimmed(preimage))
  }

  function SubmitPatch(p: Payload, txHash: string, ref: string, preimage: Option<string>): Payload {
    p.(sourceTxHash := Some(txHash), sourceRef := Some(ref), preimage := OrElse(Trimmed(preimage), p.preimage))
  }

  // ------------------------------------------------------------ what a request leaves

  /** A preimage that is more than white space is stored without it; else the old one stays. */
  predicate PreimageKept(old': Option<string>, sent: Option<string>, now: Option<string>) {
    now == if sent.None? || Hex.Trim(sent.value) == "" then old' else Some(Hex.Trim(sent.value))
  }

  /** Nothing that the request sends is new to the payload. */
  predicate NothingNew(p: Payload, txHash: Option<string>, ref: Option<string>, preimage: Option<string>) {
    && (txHash.Some? && ref.Some? ==> p.sourceTxHash == txHash && p.sourceRef == ref)
    && PreimageKept(p.preimage, preimage, p.preimage)
  }

  /** The payload `after` has what the buy-ticket request has sent, and else what was read in `p`:
      transaction and reference come together, and the reference on head B only with them. */
  predicate PostKept(p: Payload, q: Request, after: Payload) {
    var both := q.sourceTxHash.Some? && q.sourceRef.Some? && q.sourceTxHash.value != "" && q.sourceRef.value != "";
    && after.identity == p.identity && after.requestHash == p.requestHash
    && after.reconcileRequeues == p.reconcileRequeues
    && PreimageKept(p.preimage, q.preimage, after.preimage)
    && (both ==> after.sourceTxHash == q.sourceTxHash && after.sourceRef == q.sourceRef)
    && (!both ==> after.sourceTxHash == p.sourceTxHash && after.sourceRef == p.sourceRef)
    && (after != p ==> after.headBRef == if both && q.headBRef.Some? then q.headBRef else p.headBRef)
  }

  /** The same of the submit route. */
  predicate SubmitKept(p: Payload, txHash: string, ref: string, preimage: Option<string>, after: Payload) {
    && after.identity == p.identity && after.requestHash == p.requestHash
    && after.reconcileRequeues == p.reconcileRequeues && after.headBRef == p.headBRef
    && PreimageKept(p.preimage, preimage, after.preimage)
    && after.sourceTxHash == Some(txHash) && after.sourceRef == Some(ref)
  }

  /** The payload of a new workflow. */
  predicate FirstKept(q: Request, after: Payload) {
    && after.identity == q.identity.(htlcHash := Hex.LowerAll(Hex.Trim(q.identity.htlcHash)))
    && after.requestHash.Some? && SameRequest(after.requestHash.value, q.identity)
    && PreimageKept(None, q.preimage, after.preimage)
    && after.sourceTxHash == q.sourceTxHash && after.sourceRef == q.sourceRef && after.headBRef == q.headBRef
    && after.reconcileRequeues == 0
  }

  /** Two requests ask for the same: white space around never matters, nor the case of actor, hash
      and head. */
  predicate SameRequest(i: Identity, j: Identity) {
    && Hex.LowerAll(Hex.Trim(i.actor)) == Hex.LowerAll(Hex.Trim(j.actor))
    && Hex.Trim(i.address) == Hex.Trim(j.address) && Hex.Trim(i.amountLovelace) == Hex.Trim(j.amountLovelace)
    && Hex.LowerAll(Hex.Trim(i.htlcHash)) == Hex.LowerAll(Hex.Trim(j.htlcHash))
    && Hex.Trim(i.timeoutMinutes) == Hex.Trim(j.timeoutMinutes)
    && Hex.LowerAll(Hex.Trim(i.sourceHead)) == Hex.LowerAll(Hex.Trim(j.sourceHead))
  }

  lemma NormalizedIff(i: Identity, j: Identity)
    ensures Normalized(i) == Normalized(j) <==> SameRequest(i, j)
    ensures SameRequest(Normalized(i), i)
  {
    Hex.NormalTwice(i.actor);
    Hex.NormalTwice(i.htlcHash);
    Hex.NormalTwice(i.sourceHead);
    Hex.TrimTwice(i.address);
    Hex.TrimTwice(i.amountLovelace);
    Hex.TrimTwice(i.timeoutMinutes);
  }

  // ----------------------------------------------------------------- over the table

  predicate HasKey(r: Row, kind: Kind, key: string) {
    r.kind == kind && r.key == key
  }

  /** The unique index on type and key. */
  predicate KeysUnique(t: Table) {
    forall a, b | a in t && b in t && HasKey(t[b], t[a].kind, t[a].key) :: a == b
  }

  predicate Lookup(t: Table, kind: Kind, key: string, r: Option<Id>) {
    match r
    case Some(id) => id in t && HasKey(t[id], kind, key)
    case None => forall id | id in t :: !HasKey(t[id], kind, key)
  }

  method FindWorkflowByIdempotency(store: Store, kind: Kind, key: string) returns (r: Option<Id>)
    ensures Lookup(store.table, kind, key, r)
  {
    if id: Id :| id in store.table && HasKey(store.table[id], kind, key) {
      r := Some(id);
    } else {
      r := None;
    }
  }

  /** A new row: not tried yet, five attempts, no priority. */
  predicate Fresh(r: Row, kind: Kind, key: string, payload: Payload, now: Time) {
    && r.kind == kind && r.key == key && r.payload == payload && r.createdAt == now
    && r.priority == 0 && r.maxAttempts == 5 && Untried(r)
  }

  /** Others may create the same workflow between the lookup and the insert, which then fails
      on the unique index; the row that is there is returned. */
  method CreateWorkflow(store: Store, kind: Kind, key: string, payload: Payload, newId: Id, now: Time,
                        others: Table -> Table)
    returns (id: Id)
    requires KeysUnique(store.table) && KeysUnique(others(store.table)) && newId !in others(store.table)
    modifies store
    ensures KeysUnique(store.table) && id in store.table && HasKey(store.table[id], kind, key)
    ensures
      var t, t' := old(store.table), others(old(store.table));
      if exists x :: x in t && HasKey(t[x], kind, key) then store.table == t
      else if exists x :: x in t' && HasKey(t'[x], kind, key) then store.table == t'
      else id == newId && store.table == t'[newId := Created(kind, key, payload, DEFAULT_PRIORITY,
                                                             DEFAULT_MAX_ATTEMPTS, now)]
           && Fresh(store.table[id], kind, key, payload, now)
  {
    var existing := FindWorkflowByIdempotency(store, kind, key);
    if existing.Some? { return existing.value; }
    store.table := others(store.table);
    var raced := FindWorkflowByIdempotency(store, kind, key);
    if raced.Some? { return raced.value; }
    store.table := store.table[newId := Created(kind, key, payload, DEFAULT_PRIORITY, DEFAULT_MAX_ATTEMPTS, now)];
    id := newId;
  }

  /** The replay of a request: refused if it asks for something else, by the hash stored with the
      row; else its news are stored, and queue the row again. `t` is the table as read, `t'` as
      met by the write. */
  predicate Replayed(t: Table, t': Table, id: Id, q: Request, r: Posted, after: Table)
    requires id in t
  {
    var p := t[id].payload;
    var same := if p.requestHash.Some? then p.requestHash.value == Normalized(q.identity)
                else SameRequest(p.identity, q.identity);
    if !same then r == Mismatch(id) && after == t
    else
      && r == Accepted(id, true) && id in after && PostKept(p, q, after[id].payload)
      && if Unpatched(p, q) then after == t
         else id in t' && QueuedWith(t'[id], after[id], after[id].payload)
  }

  predicate Unpatched(p: Payload, q: Request) {
    if q.sourceTxHash == Some("") || q.sourceRef == Some("") then PreimageKept(p.preimage, q.preimage, p.preimage)
    else NothingNew(p, q.sourceTxHash, q.sourceRef, q.preimage)
  }

  lemma ReplayKeeps(t: Table, t': Table, id: Id, q: Request)
    requires id in t && id in t'
    ensures var p := t[id].payload;
            && (HashOf(p) != Normalized(q.identity) ==> Replayed(t, t', id, q, Mismatch(id), t))
            && (HashOf(p) == Normalized(q.identity) ==>
                  Replayed(t, t', id, q, Accepted(id, true),
                           if ShouldPatch(p, q) then t'[id := Resubmitted(t'[id], PostPatch(p, q))] else t))
  {
    NormalizedIff(t[id].payload.identity, q.identity);
    hide Normalized, SameRequest;
    PatchKeeps(t[id].payload, q);
    hide PostPatch, ShouldPatch, PostKept, Unpatched;
  }

  lemma PatchKeeps(p: Payload, q: Request)
    ensures PostKept(p, q, if ShouldPatch(p, q) then PostPatch(p, q) else p)
            && (Unpatched(p, q) <==> !ShouldPatch(p, q))
  {
  }

  lemma NewIsFirst(q: Request)
    ensures FirstKept(q, NewPayload(q))
  {
    NormalizedIff(q.identity, q.identity);
  }

  /** The buy-ticket route behind its validation. */
  method BuyTicketPost(store: Store, q: Request, newId: Id, now: Time, others: Table -> Table) returns (r: Posted)
    requires KeysUnique(store.table) && KeysUnique(others(store.table)) && newId !in others(store.table)
    requires forall id | id in store.table :: id in others(store.table)
    modifies store
    ensures
      var t, t' := old(store.table), others(old(store.table));
      && r.id in store.table
      && (forall id | id in t && HasKey(t[id], BuyTicket, q.key) ::
            r == (if HashOf(t[id].payload) == Normalized(q.identity) then Accepted(id, true) else Mismatch(id))
            && store.table ==
               if r.Mismatch? || !ShouldPatch(t[id].payload, q) then t
               else t'[id := Resubmitted(t'[id], PostPatch(t[id].payload, q))])
      && (forall id | id in t && HasKey(t[id], BuyTicket, q.key) :: Replayed(t, t', id, q, r, store.table))
      && (forall id | id in t && HasKey(t[id], BuyTicket, q.key) :: Enacts(t, t', id, Post(q), store.table))
      && ((forall id | id in t :: !HasKey(t[id], BuyTicket, q.key)) ==>
            r == Accepted(r.id, false) && HasKey(store.table[r.id], BuyTicket, q.key)
            && (r.id in t' ==> store.table == t')
            && (r.id !in t' ==>
                  r.id == newId && store.table == t'[newId := Created(BuyTicket, q.key, NewPayload(q), DEFAULT_PRIORITY,
                                                                      DEFAULT_MAX_ATTEMPTS, now)])
            && (r.id !in t' ==> FirstKept(q, store.table[r.id].payload)
                                && Fresh(store.table[r.id], BuyTicket, q.key, store.table[r.id].payload, now)))
  {
    hide PostPatch, ShouldPatch, HashOf, Replayed, Resubmitted, FirstKept, Normalized;
    NewIsFirst(q);
    var existing := FindWorkflowByIdempotency(store, BuyTicket, q.key);
    if existing.Some? {
      var id := existing.value;
      var p := store.table[id].payload;
      ReplayKeeps(store.table, others(store.table), id, q);
      if HashOf(p) != Normalized(q.identity) { return Mismatch(id); }
      if ShouldPatch(p, q) {
        store.table := others(store.table);
        var count := store.UpdateIf(id, x => true, x => Resubmitted(x, PostPatch(p, q)));
      }
      return Accepted(id, true);
    }
    var id := CreateWorkflow(store, BuyTicket, q.key, NewPayload(q), newId, now, others);
    r := Accepted(id, false);
  }

  /** The submit route after a successful submission: a running row keeps its lease, any other
      is queued again. The status is the one read, not the one at the update. */
  method HtlcSubmitPost(store: Store, key: string, txHash: string, ref: string, preimage: Option<string>,
                        others: Table -> Table)
    requires KeysUnique(store.table) && forall id | id in store.table :: id in others(store.table)
    modifies store
    ensures
      var t, t' := old(store.table), others(old(store.table));
      && (forall id | id in t && HasKey(t[id], BuyTicket, key) ::
            var p := SubmitPatch(t[id].payload, txHash, ref, preimage);
            store.table ==
              if !SubmitPatches(t[id].payload, txHash, ref, preimage) then t
              else if t[id].status == Running then t'[id := Patched(t'[id], p)]
              else t'[id := Resubmitted(t'[id], p)])
      && (forall id | id in t && HasKey(t[id], BuyTicket, key) ::
            Enacts(t, t', id, Event.Submit(txHash, ref, preimage), store.table))
      && (forall id | id in t && HasKey(t[id], BuyTicket, key) ::
            && id in store.table && SubmitKept(t[id].payload, txHash, ref, preimage, store.table[id].payload)
            && if NothingNew(t[id].payload, Some(txHash), Some(ref), preimage) then store.table == t
               else if t[id].status == Running then store.table[id].(payload := t'[id].payload) == t'[id]
               else QueuedWith(t'[id], store.table[id], store.table[id].payload))
      && ((forall id | id in t :: !HasKey(t[id], BuyTicket, key)) ==> store.table == t)
  {
    var found := FindWorkflowByIdempotency(store, BuyTicket, key);
    if found.None? { return; }
    var id := found.value;
    var workflow := store.table[id];
    if !SubmitPatches(workflow.payload, txHash, ref, preimage) { return; }
    var p := SubmitPatch(workflow.payload, txHash, ref, preimage);
    store.table := others(store.table);
    var count := store.UpdateIf(id, x => true,
                                x => if workflow.status == Running then Patched(x, p) else Resubmitted(x, p));
  }

  // ---------------------------------------------------------------- payload history

  /** What happens to the payload of one buy-ticket row. The routes and the reconciler read the
      row, decide, and write the whole payload later; `Work` is everything else, which leaves the
      payload alone. */
  datatype Event =
    | Post(q: Request)
    | Submit(txHash: string, ref: string, preimage: Option<string>)
    | Reconcile(max: nat)
    | Work(row: Row)

  /** It writes, going by the row it has seen. */
  predicate Writes(seen: Row, e: Event) {
    match e
    case Post(q) => HashOf(seen.payload) == Normalized(q.identity) && ShouldPatch(seen.payload, q)
    case Submit(txHash, ref, preimage) => SubmitPatches(seen.payload, txHash, ref, preimage)
    case Reconcile(max) => seen.status in {Cancelled, Succeeded} && Decide(seen, max) == Requeue
    case Work(_) => false
  }

  /** The row `r` after an event that has seen `seen`. */
  function Apply(r: Row, seen: Row, e: Event): Row {
    match e
    case Work(row) => row.(payload := r.payload)
    case _ =>
      if !Writes(seen, e) then r
      else
        match e
        case Post(q) => Resubmitted(r, PostPatch(seen.payload, q))
        case Submit(txHash, ref, preimage) =>
          var p := SubmitPatch(seen.payload, txHash, ref, preimage);
          if seen.status == Running then Patched(r, p) else Resubmitted(r, p)
        case _ => Resubmitted(r, OnceMore(seen.payload))
  }

  /** What a route does to the table is what the event does to the row that the route has read: `t`
      is the table as read, `t'` as met by the write. */
  predicate Enacts(t: Table, t': Table, id: Id, e: Event, after: Table)
    requires id in t
  {
    if Writes(t[id], e) then id in t' && after == t'[id := Apply(t'[id], t[id], e)] else after == t
  }

  /** And the reconciler does the same, for each row it has read as finished. */
  lemma ReconcilerEnacts(found: seq<Seen>, k: nat, max: nat, t: Table, others: Interference)
    requires k < |found| && found[k].row.status in {Cancelled, Succeeded}
    ensures var s, before := found[k], others(k, Reconciled(found, k, max, t, others));
            Reconciled(found, k + 1, max, t, others) ==
              if s.id in before && Writes(s.row, Reconcile(max))
              then before[s.id := Apply(before[s.id], s.row, Reconcile(max))] else before
  {
  }

  /** An event and the number of events that were over when it read the row. */
  datatype Timed = Timed(e: Event, readAt: nat)

  /** What the `n`-th event has seen: at the latest the row that it meets. */
  function SeenBy(r: Row, es: seq<Timed>, n: nat): Row
    requires n < |es|
    decreases |es|, 0
  {
    Run(r, es[..if es[n].readAt < n then es[n].readAt else n])
  }

  function Run(r: Row, es: seq<Timed>): Row
    decreases |es|, 1
  {
    if es == [] then r
    else
      var n := |es| - 1;
      Apply(Run(r, es[..n]), SeenBy(r, es, n), es[n].e)
  }

  /** How often the reconciler has queued the row again. */
  function Reconciliations(r: Row, es: seq<Timed>): nat {
    if es == [] then 0
    else
      var n := |es| - 1;
      Reconciliations(r, es[..n]) + if es[n].e.Reconcile? && Writes(SeenBy(r, es, n), es[n].e) then 1 else 0
  }

  lemma SeenInPrefix(r: Row, es: seq<Timed>, n: nat, m: nat)
    requires n < m <= |es|
    ensures SeenBy(r, es[..m], n) == SeenBy(r, es, n)
  {
    var k := if es[n].readAt < n then es[n].readAt else n;
    assert es[..m][..k] == es[..k];
  }

  // ------------------------------------------------------- what is kept, and what is lost

  predicate KeepsSet(a: Payload, b: Payload) {
    && (a.preimage.Some? ==> b.preimage.Some?) && (a.sourceTxHash.Some? ==> b.sourceTxHash.Some?)
    && (a.sourceRef.Some? ==> b.sourceRef.Some?) && (a.headBRef.Some? ==> b.headBRef.Some?)
  }

  predicate BringsPreimage(e: Event) {
    match e
    case Post(q) => Trimmed(q.preimage).Some?
    case Submit(_, _, preimage) => Trimmed(preimage).Some?
    case _ => false
  }

  predicate BringsArtifacts(e: Event) {
    e.Submit? || (e.Post? && BothArtifacts(e.q))
  }

  predicate BringsHeadBRef(e: Event) {
    e.Post? && BothArtifacts(e.q) && e.q.headBRef.Some?
  }

  /** Something in `p` has been set since `seen` was read, and the event does not bring it. */
  predicate Overlooks(p: Payload, seen: Payload, e: Event) {
    || (p.preimage.Some? && seen.preimage.None? && !BringsPreimage(e))
    || (p.sourceTxHash.Some? && seen.sourceTxHash.None? && !BringsArtifacts(e))
    || (p.sourceRef.Some? && seen.sourceRef.None? && !BringsArtifacts(e))
    || (p.headBRef.Some? && seen.headBRef.None? && !BringsHeadBRef(e))
  }

  /** A write loses something that was set if and only if it overlooks it. */
  lemma LosesIffOverlooks(r: Row, seen: Row, e: Event)
    ensures KeepsSet(r.payload, Apply(r, seen, e).payload) <==>
            !(Writes(seen, e) && Overlooks(r.payload, seen.payload, e))
  {
  }

  /** The counter after a write is the one it has seen, not the one it meets. */
  lemma CounterStep(r: Row, seen: Row, e: Event)
    ensures Apply(r, seen, e).payload.reconcileRequeues ==
      if !Writes(seen, e) then r.payload.reconcileRequeues
      else seen.payload.reconcileRequeues + if e.Reconcile? then 1 else 0
  {
  }

  /** What the request asked for never changes, whatever has been read when. */
  lemma {:induction false} PromiseStays(r: Row, es: seq<Timed>)
    ensures var p := Run(r, es).payload; p.identity == r.payload.identity && p.requestHash == r.payload.requestHash
    decreases |es|
  {
    if es != [] {
      var n := |es| - 1;
      PromiseStays(r, es[..n]);
      PromiseStays(r, es[..if es[n].readAt < n then es[n].readAt else n]);
    }
  }

  /** From `n` on no write overlooks anything. */
  predicate NothingOverlooked(r: Row, es: seq<Timed>, n: nat) {
    forall k | n <= k < |es| && Writes(SeenBy(r, es, k), es[k].e) ::
      !Overlooks(Run(r, es[..k]).payload, SeenBy(r, es, k).payload, es[k].e)
  }

  lemma NothingOverlookedBefore(r: Row, es: seq<Timed>, n: nat, m: nat)
    requires NothingOverlooked(r, es, n) && n <= m <= |es|
    ensures NothingOverlooked(r, es[..m], n)
  {
    forall k | n <= k < m ensures SeenBy(r, es[..m], k) == SeenBy(r, es, k) && es[..m][..k] == es[..k] {
      SeenInPrefix(r, es, k, m);
    }
  }

  /** From any point of a run on: what has been set stays set while no write overlooks it. */
  lemma {:induction false} PayloadHistory(r: Row, es: seq<Timed>, n: nat)
    requires n <= |es| && NothingOverlooked(r, es, n)
    ensures KeepsSet(Run(r, es[..n]).payload, Run(r, es).payload)
    decreases |es|
  {
    hide Run, NothingOverlooked;
    if n == |es| {
      assert es[..n] == es;
    } else {
      var m := |es| - 1;
      NothingOverlookedBefore(r, es, n, m);
      PayloadHistory(r, es[..m], n);
      LastKeeps(r, es, n);
      assert es[..m][..n] == es[..n];
    }
  }

  lemma LastKeeps(r: Row, es: seq<Timed>, n: nat)
    requires n < |es| && NothingOverlooked(r, es, n)
    ensures KeepsSet(Run(r, es[..|es| - 1]).payload, Run(r, es).payload)
  {
    var m := |es| - 1;
    hide Overlooks, Writes, KeepsSet, SeenBy;
    LosesIffOverlooks(Run(r, es[..m]), SeenBy(r, es, m), es[m].e);
  }

  /** Every write meets the counter that it has seen. */
  predicate CountersFresh(r: Row, es: seq<Timed>) {
    forall k | 0 <= k < |es| && Writes(SeenBy(r, es, k), es[k].e) ::
      SeenBy(r, es, k).payload.reconcileRequeues == Run(r, es[..k]).payload.reconcileRequeues
  }

  lemma FreshPrefix(r: Row, es: seq<Timed>, m: nat)
    requires CountersFresh(r, es) && m <= |es|
    ensures CountersFresh(r, es[..m])
  {
    forall k | 0 <= k < m ensures SeenBy(r, es[..m], k) == SeenBy(r, es, k) && es[..m][..k] == es[..k] {
      SeenInPrefix(r, es, k, m);
    }
  }

  /** In every run from creation on the counter in the payload is at most the number of
      reconciliations; it is that number while every write meets the counter it has seen. */
  lemma {:induction false} CounterCounts(r: Row, es: seq<Timed>)
    requires r.payload.reconcileRequeues == 0
    ensures Run(r, es).payload.reconcileRequeues <= Reconciliations(r, es)
    ensures CountersFresh(r, es) ==> Run(r, es).payload.reconcileRequeues == Reconciliations(r, es)
    decreases |es|
  {
    if es != [] {
      var n := |es| - 1;
      var m := if es[n].readAt < n then es[n].readAt else n;
      CounterCounts(r, es[..n]);
      CounterCounts(r, es[..m]);
      ReconciliationsGrow(r, es, m, n);
      CounterStep(Run(r, es[..n]), SeenBy(r, es, n), es[n].e);
      if CountersFresh(r, es) { FreshPrefix(r, es, n); }
    }
  }

  lemma {:induction false} ReconciliationsGrow(r: Row, es: seq<Timed>, m: nat, n: nat)
    requires m <= n <= |es|
    ensures Reconciliations(r, es[..m]) <= Reconciliations(r, es[..n])
    decreases n
  {
    hide Writes, SeenBy;
    if m < n {
      ReconciliationsGrow(r, es, m, n - 1);
      assert es[..n][..n - 1] == es[..n - 1];
    }
  }

  predicate Limited(es: seq<Timed>, max: nat) {
    forall t | t in es && t.e.Reconcile? :: t.e.max == max
  }

  /** With a fixed limit, and while every write meets the counter it has seen, the reconciler
      queues a row at most that many times. */
  lemma {:induction false} ReconcilerStops(r: Row, es: seq<Timed>, max: nat)
    requires r.payload.reconcileRequeues == 0 && CountersFresh(r, es)
    requires Limited(es, max)
    ensures Reconciliations(r, es) <= max
    decreases |es|
  {
    hide CountersFresh, Run, SeenBy, Writes;
    if es != [] {
      var n := |es| - 1;
      FreshPrefix(r, es, n);
      ReconcilerStops(r, es[..n], max);
      CounterCounts(r, es[..n]);
      if es[n].e.Reconcile? && Writes(SeenBy(r, es, n), es[n].e) {
        FreshAt(r, es, n);
        BelowLimit(SeenBy(r, es, n), es[n].e);
      }
      assert es[n] in es;
    }
  }

  lemma FreshAt(r: Row, es: seq<Timed>, k: nat)
    requires CountersFresh(r, es) && k < |es| && Writes(SeenBy(r, es, k), es[k].e)
    ensures SeenBy(r, es, k).payload.reconcileRequeues == Run(r, es[..k]).payload.reconcileRequeues
  {
  }

  lemma BelowLimit(seen: Row, e: Event)
    requires e.Reconcile? && Writes(seen, e)
    ensures seen.payload.reconcileRequeues < e.max
  {
  }

  /** Where each event reads the row that it meets, as in one transaction, nothing is overlooked and
      every counter is fresh. */
  lemma AtomicIsFresh(r: Row, es: seq<Timed>)
    requires forall k | 0 <= k < |es| :: es[k].readAt >= k
    ensures NothingOverlooked(r, es, 0) && CountersFresh(r, es)
  {
    forall k | 0 <= k < |es| ensures SeenBy(r, es, k) == Run(r, es[..k]) {}
  }

  // ------------------------------------------------------- a limit that does not hold

  /** A finished row that the reconciler queues again, and a request for it with another preimage. */
  predicate Contested(r: Row, q: Request) {
    && r.status == Cancelled && Decide(r, 1) == Requeue && r.payload.reconcileRequeues == 0
    && HashOf(r.payload) == Normalized(q.identity) && q.sourceTxHash.None?
    && Trimmed(q.preimage).Some? && r.payload.preimage != Trimmed(q.preimage)
  }

  /** The row with the preimage of this request. */
  function WithPreimage(r: Row, q: Request): Row {
    r.(payload := r.payload.(preimage := Trimmed(q.preimage)))
  }

  /** The route reads the row, the reconciler queues it again, the route writes what it has read:
      the counter is what it was. Then the row is cancelled once more. */
  function Round(r: Row, es: seq<Timed>, q: Request): seq<Timed> {
    es + [Timed(Reconcile(1), |es|)] + [Timed(Post(q), |es|)] + [Timed(Work(Run(r, es)), |es| + 2)]
  }

  lemma OneMore(r: Row, es: seq<Timed>, e: Event, readAt: nat)
    requires readAt <= |es|
    ensures var seen, more := Run(r, es[..readAt]), es + [Timed(e, readAt)];
            && Run(r, more) == Apply(Run(r, es), seen, e)
            && Reconciliations(r, more) == Reconciliations(r, es) + if e.Reconcile? && Writes(seen, e) then 1 else 0
  {
    var more := es + [Timed(e, readAt)];
    assert more[..|es|] == es && more[..readAt] == es[..readAt];
  }

  lemma RoundCountsNothing(r: Row, es: seq<Timed>, q: Request)
    requires Contested(Run(r, es), q)
    ensures var s, more := Run(r, es), Round(r, es, q);
            && Run(r, more) == WithPreimage(s, q) && Reconciliations(r, more) == Reconciliations(r, es) + 1
  {
    hide Writes, Apply, Run, Reconciliations;
    var s, n := Run(r, es), |es|;
    var one := es + [Timed(Reconcile(1), n)];
    var two := one + [Timed(Post(q), n)];
    assert es[..n] == es && one[..n] == es && two[..n + 2] == two;
    OneMore(r, es, Reconcile(1), n);
    OneMore(r, one, Post(q), n);
    OneMore(r, two, Work(s), n + 2);
    Requeues(s);
    Patches(s, Run(r, one), q);
    Cancels(s, Run(r, two));
  }

  lemma Requeues(s: Row)
    requires s.status == Cancelled && Decide(s, 1) == Requeue
    ensures Writes(s, Reconcile(1))
  {
  }

  lemma Patches(s: Row, r: Row, q: Request)
    requires Contested(s, q)
    ensures Apply(r, s, Post(q)).payload == s.payload.(preimage := Trimmed(q.preimage))
  {
  }

  lemma Cancels(s: Row, r: Row)
    ensures Apply(r, r, Work(s)) == s.(payload := r.payload) && !Writes(r, Work(s))
  {
  }

  lemma RoundLimited(r: Row, es: seq<Timed>, q: Request)
    requires Limited(es, 1)
    ensures Limited(Round(r, es, q), 1)
  {
  }

  function Turn(q: Request, q': Request, n: nat): Request {
    if n % 2 == 0 then q' else q
  }

  /** Two requests that take turns: under a limit of one the reconciler queues the row again any
      number of times. */
  lemma {:induction false} LimitNotKept(r: Row, q: Request, q': Request, n: nat) returns (es: seq<Timed>)
    requires Contested(r, q) && r.payload.preimage == Trimmed(q'.preimage)
    requires Normalized(q'.identity) == Normalized(q.identity) && q'.sourceTxHash.None?
    ensures Reconciliations(r, es) == n && Limited(es, 1)
    ensures Run(r, es) == WithPreimage(r, Turn(q, q', n))
  {
    hide Run, Reconciliations, Contested, WithPreimage, Limited, Round, Turn;
    es := [];
    if n == 0 {
      NoRounds(r, q, q');
    } else {
      es := LimitNotKept(r, q, q', n - 1);
      TakeTurns(r, q, q', n);
      RoundCountsNothing(r, es, Turn(q, q', n));
      RoundLimited(r, es, Turn(q, q', n));
      es := Round(r, es, Turn(q, q', n));
    }
  }

  lemma NoRounds(r: Row, q: Request, q': Request)
    requires r.payload.preimage == Trimmed(q'.preimage)
    ensures Run(r, []) == WithPreimage(r, Turn(q, q', 0)) && Reconciliations(r, []) == 0 && Limited([], 1)
  {
  }

  lemma TakeTurns(r: Row, q: Request, q': Request, n: nat)
    requires n > 0 && Contested(r, q) && r.payload.preimage == Trimmed(q'.preimage)
    requires Normalized(q'.identity) == Normalized(q.identity) && q'.sourceTxHash.None?
    ensures var last, next := Turn(q, q', n - 1), Turn(q, q', n);
            Contested(WithPreimage(r, last), next) && WithPreimage(WithPreimage(r, last), next) == WithPreimage(r, next)
  {
    Hex.TrimTwice(q.preimage.value);
    assert n % 2 == 0 <==> (n - 1) % 2 != 0;
  }

  /** A replay is accepted exactly for the same request, up to case and outer white space; and
      it makes no difference whether the hash was stored or is computed again. */
  lemma ReplayIffSameRequest(q: Request, p: Request)
    ensures HashOf(NewPayload(q)) == Normalized(p.identity) <==> Normalized(q.identity) == Normalized(p.identity)
    ensures HashOf(NewPayload(q).(requestHash := None)) == HashOf(NewPayload(q))
  {
    Hex.NormalTwice(q.identity.htlcHash);
  }
}
