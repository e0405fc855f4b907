/** What holds in every run of the bridge: who spends what, Ida's books, and the order of her
    claims. */
module BridgeBooks {
  import opened Options
  import opened HtlcData
  import opened HeadLedger
  import opened BridgeRuns

  // ------------------------------------------------------------- what outputs look like

  /** The payout that a ticket carries goes to Ida, for the prize. */
  predicate TicketGood(w: World, t: Ticket) {
    && t.datum.Some? && t.datum.value.HtlcInline?
    && t.datum.value.htlc.desired.address == Key(w.setup.ida)
    && LovelaceOf(t.datum.value.htlc.desired.value) == w.prize
  }

  predicate LockGood(w: World, o: Output, n: nat) {
    o.address == Script(w.setup.htlcScript) && o.datum.HtlcDatum? && o.lovelace == n && Wanted(o) == n
  }

  predicate OutputGood(w: World, h: Head, o: Output) {
    && (o.nft <==> o.origin == LotteryOut)
    && match o.origin
       case UserLock => !h.B? && LockGood(w, o, w.cost) && o.datum.htlc.desired.address == Key(w.setup.ida)
       case IdaLock =>
         && h.B? && LockGood(w, o, w.cost) && o.datum.htlc.desired.address == Script(w.ticketScript)
         && o.datum.htlc.desired.datum.Some? && o.datum.htlc.desired.datum.value.TicketInline?
         && TicketGood(w, o.datum.htlc.desired.datum.value.ticket)
       case RelayLock =>
         && !h.B? && LockGood(w, o, w.prize)
         && o.datum.htlc.desired.address.Key? && o.datum.htlc.desired.address != Key(w.setup.ida)
       case PayoutLock => h.B? && LockGood(w, o, w.prize) && o.datum.htlc.desired.address == Key(w.setup.ida)
       case TicketOut =>
         && h.B? && o.address == Script(w.ticketScript) && o.lovelace == w.cost && o.datum.TicketDatum?
         && TicketGood(w, o.datum.ticket)
       case LotteryOut =>
         h.B? && o.address == Script(w.lotteryScript) && o.datum.LotteryDatum? && o.datum.lottery.prize == w.prize
  }

  /** Transactions are told apart by their hash, and each makes at most one lock. */
  predicate Dated(s: State, o: Output) {
    && o.ref.tx < s.nextTx
    && (o.ref.tx in s.userTxs ==> o.origin == Origin.UserLock)
    && (o.ref.tx in s.lockTxs ==> o.origin == IdaLock)
    && (o.origin == IdaLock ==> o.ref.tx in s.lockTxs)
  }

  predicate HeadGood(w: World, s: State, h: Head) {
    && (forall o | o in s.On(h).outputs :: OutputGood(w, h, o) && Dated(s, o))
    && RefsTell(s.On(h).outputs)
  }

  /** A reference names one output. */
  predicate RefsTell(os: seq<Output>) {
    forall o, p | o in os && p in os && o.ref == p.ref :: o == p
  }

  predicate LedgersGood(w: World, s: State) {
    && HeadGood(w, s, A) && HeadGood(w, s, B) && HeadGood(w, s, C)
    && (forall t | t in s.userTxs :: t < s.nextTx) && (forall t | t in s.lockTxs :: t < s.nextTx)
  }

  // ----------------------------------------------------------------- what runs look like

  /** An output of that reference, if it is still there, is of one of these kinds, and locked by
      this hash. */
  predicate Names(s: State, h: Head, ref: Ref, kinds: set<Origin>, hash: string) {
    && ref.tx < s.nextTx
    && forall o | o in s.On(h).outputs && o.ref == ref :: o.origin in kinds && LockedBy(o, hash)
  }

  predicate LockedBy(o: Output, hash: string) {
    o.datum.HtlcDatum? && SameHash(o.datum.htlc.hash, hash)
  }

  /** What a run of this kind spends as its target, and as its source. Where ticket and prize
      cost the same, a relay may take the buyer's own lock for the one it is to claim. */
  function Targets(w: World, k: Work): set<Origin> {
    if k.Bridge? then {IdaLock} else if w.cost == w.prize then {RelayLock, Origin.UserLock} else {RelayLock}
  }

  function Sources(k: Work): set<Origin> {
    if k.Bridge? then {Origin.UserLock} else {PayoutLock, IdaLock}
  }

  predicate PcGood(w: World, s: State, r: Run) {
    match r.pc
    case Scan => r.work.Bridge?
    case Lock => r.work.Bridge?
    case Detect(lockTx) => r.work.Bridge? && lockTx in s.lockTxs
    case Redetect => r.work.Bridge?
    case FindSource => r.work.Relay?
    case FindTarget(source) => r.work.Relay? && Names(s, B, source, Sources(Relay), r.hash)
    case LockTarget(source) => r.work.Relay? && Names(s, B, source, Sources(Relay), r.hash)
    case FindAgain(source) => r.work.Relay? && Names(s, B, source, Sources(Relay), r.hash)
    case ClaimTarget(target, next) =>
      && Names(s, ClaimHead(r), target, Targets(w, r.work), r.hash) && (next.Some? <==> r.work.Relay?)
      && (next.Some? ==> Names(s, B, next.value, Sources(Relay), r.hash))
    case ClaimSource(source) => Names(s, ClaimHead(r), source, Sources(r.work), r.hash)
    case Over => true
  }

  /** The target claim comes first; before it nothing is claimed, and after it only the source.
      Both spend outputs of the right kind, locked by the hash of the run. */
  predicate OrderGood(w: World, r: Run) {
    && (r.gave.Some? ==> r.gave.value.origin in Targets(w, r.work) && SameHash(r.gave.value.hash, r.hash))
    && (r.took.Some? ==> r.took.value.origin in Sources(r.work) && SameHash(r.took.value.hash, r.hash))
    && (r.took.Some? ==> r.gave.Some? || r.stray) && (r.stray ==> r.gave.None?)
    && (r.pc.Redetect? || r.pc.ClaimSource? ==> (r.gave.Some? || r.stray) && r.took.None?)
    && (!(r.pc.Redetect? || r.pc.ClaimSource? || r.pc.Over?) ==> r.gave.None? && r.took.None? && !r.stray)
  }

  predicate RunGood(w: World, s: State, r: Run) {
    && !r.head.B? && (r.work.Bridge? ==> r.sourceTx in s.userTxs) && (r.work.Relay? ==> r.buyer != w.setup.ida)
    && PcGood(w, s, r) && OrderGood(w, r)
  }

  predicate Inv(w: World, s: State) {
    LedgersGood(w, s) && forall i | 0 <= i < |s.runs| :: RunGood(w, s, s.runs[i])
  }

  // ------------------------------------------------------------------- the invariant

  /** Later states: outputs are spent or new, and what has been named stays named. */
  predicate Later(s: State, s': State) {
    && s.nextTx <= s'.nextTx && s.userTxs <= s'.userTxs && s.lockTxs <= s'.lockTxs
    && LaterHead(s, s', A) && LaterHead(s, s', B) && LaterHead(s, s', C)
  }

  predicate LaterHead(s: State, s': State, h: Head) {
    forall o | o in s'.On(h).outputs :: o in s.On(h).outputs || o.ref.tx >= s.nextTx
  }

  lemma RunStaysGood(w: World, s: State, s': State, r: Run)
    requires RunGood(w, s, r) && Later(s, s')
    ensures RunGood(w, s', r)
  {
  }

  /** One run moves, and no head. */
  lemma OnlyRunMoves(w: World, s: State, i: nat, r: Run)
    requires Inv(w, s) && i < |s.runs| && RunGood(w, s, r)
    ensures Inv(w, s.SetRun(i, r))
  {
    var s' := s.SetRun(i, r);
    SameHeads(w, s, s');
    forall k | 0 <= k < |s'.runs| ensures RunGood(w, s', s'.runs[k]) { RunStaysGood(w, s, s', s'.runs[k]); }
  }

  lemma SameHeads(w: World, s: State, s': State)
    requires LedgersGood(w, s) && s' == s.(runs := s'.runs)
    ensures LedgersGood(w, s') && Later(s, s')
  {
  }

  /** One head moves and perhaps one run; everybody else looks on. */
  lemma HeadMoves(w: World, s: State, s': State, i: nat, r: Run)
    requires Inv(w, s) && Later(s, s') && LedgersGood(w, s') && (i < |s.runs| ==> RunGood(w, s', r))
    requires s'.runs == if i < |s.runs| then s.runs[i := r] else s.runs
    ensures Inv(w, s')
  {
    forall k | 0 <= k < |s'.runs| ensures RunGood(w, s', s'.runs[k]) {
      if k != i { RunStaysGood(w, s, s', s.runs[k]); }
    }
  }

  lemma FindAt(os: seq<Output>, ref: Ref)
    requires Find(os, ref) < |os|
    ensures os[Find(os, ref)] in os
  {
  }

  lemma ReadKeeps(w: World, s: State, i: nat, pick: Option<Ref>, sourceSeen: bool, now: int)
    requires Inv(w, s)
    ensures Inv(w, Apply(w, s, Read(i, pick, sourceSeen, now)))
  {
    if i < |s.runs| {
      var r := s.runs[i];
      if pick.None? {
        NotFoundGood(w, s, r);
        OnlyRunMoves(w, s, i, r.(pc := NotFound(r)));
      } else {
        var os := s.On(ReadHead(r)).outputs;
        var k := Find(os, pick.value);
        if k < |os| && Accepts(w, r, os[k], now) {
          FindAt(os, pick.value);
          FoundGood(w, s, r, os[k], sourceSeen, now);
          OnlyRunMoves(w, s, i, r.(pc := Found(r, os[k], sourceSeen)));
        }
      }
    }
  }

  lemma NotFoundGood(w: World, s: State, r: Run)
    requires RunGood(w, s, r)
    ensures RunGood(w, s, r.(pc := NotFound(r)))
  {
  }

  /** What a lookup accepts is of the right kind. */
  lemma FoundGood(w: World, s: State, r: Run, o: Output, sourceSeen: bool, now: int)
    requires LedgersGood(w, s) && RunGood(w, s, r)
    requires o in s.On(ReadHead(r)).outputs && Accepts(w, r, o, now)
    ensures RunGood(w, s, r.(pc := Found(r, o, sourceSeen)))
  {
    assert HeadGood(w, s, ReadHead(r)) && OutputGood(w, ReadHead(r), o) && Dated(s, o);
  }

  /** A transaction `s.nextTx` on head `h`, whose outputs are good. */
  lemma NewTransaction(w: World, s: State, s': State, h: Head)
    requires LedgersGood(w, s) && s'.nextTx == s.nextTx + 1
    requires s.userTxs <= s'.userTxs <= s.userTxs + {s.nextTx} && s.lockTxs <= s'.lockTxs <= s.lockTxs + {s.nextTx}
    requires forall g: Head | g != h :: s'.On(g) == s.On(g)
    requires forall o | o in s'.On(h).outputs ::
               o in s.On(h).outputs || (o.ref.tx == s.nextTx && OutputGood(w, h, o) && Dated(s', o))
    requires forall o, p | o in s'.On(h).outputs && p in s'.On(h).outputs ::
               o.ref == p.ref && o.ref.tx == s.nextTx ==> o == p
    ensures LedgersGood(w, s') && Later(s, s')
  {
    forall g: Head ensures HeadGood(w, s', g) && LaterHead(s, s', g) {
      assert HeadGood(w, s, g);
      if g != h { assert s'.On(g) == s.On(g); }
    }
  }

  lemma OldRefs(w: World, s: State, h: Head)
    requires LedgersGood(w, s)
    ensures forall o | o in s.On(h).outputs :: o.ref.tx < s.nextTx
  {
    assert HeadGood(w, s, h);
  }

  lemma UserLockKeeps(w: World, s: State, h: Head, hash: string, buyer: string, timeout: int)
    requires Inv(w, s)
    ensures Inv(w, Apply(w, s, Event.UserLock(h, hash, buyer, timeout)))
  {
    var s' := Apply(w, s, Event.UserLock(h, hash, buyer, timeout));
    if !h.B? && s.On(h).others >= w.cost {
      NewTransaction(w, s, s', h);
      NoRunMoves(w, s, s');
    }
  }

  lemma NoRunMoves(w: World, s: State, s': State)
    requires Inv(w, s) && Later(s, s') && LedgersGood(w, s') && s'.runs == s.runs
    ensures Inv(w, s')
  {
    forall k | 0 <= k < |s'.runs| ensures RunGood(w, s', s'.runs[k]) { RunStaysGood(w, s, s', s.runs[k]); }
  }

  lemma StartKeeps(w: World, s: State, e: Event)
    requires Inv(w, s) && (e.StartBridge? || e.StartRelay?)
    ensures Inv(w, Apply(w, s, e))
  {
    var s' := Apply(w, s, e);
    SameHeads(w, s, s');
    forall k | 0 <= k < |s.runs| ensures RunGood(w, s', s'.runs[k]) { RunStaysGood(w, s, s', s.runs[k]); }
  }

  lemma OverGood(w: World, s: State, r: Run)
    requires RunGood(w, s, r)
    ensures RunGood(w, s, r.(pc := Over))
  {
  }

  lemma LockKeeps(w: World, s: State, i: nat, fate: Fate, timeout: int, payoutTimeout: int)
    requires Inv(w, s) && i < |s.runs| && (s.runs[i].pc.Lock? || s.runs[i].pc.LockTarget?)
    ensures Inv(w, SendLock(w, s, i, fate, timeout, payoutTimeout))
  {
    hide OutputGood, RunGood, Dated;
    var r, s' := s.runs[i], SendLock(w, s, i, fate, timeout, payoutTimeout);
    var h, n := if r.pc.Lock? then B else r.head, if r.pc.Lock? then w.cost else w.prize;
    if s.On(h).ida < n {
      OverGood(w, s, r);
      OnlyRunMoves(w, s, i, r.(pc := Over));
    } else {
      LockOutputGood(w, s, s', r, timeout, payoutTimeout);
      OldRefs(w, s, h);
      NewTransaction(w, s, s', h);
      LockedGood(w, s, s', r, s'.runs[i]);
      HeadMoves(w, s, s', i, s'.runs[i]);
    }
  }

  lemma LockedGood(w: World, s: State, s': State, r: Run, r': Run)
    requires RunGood(w, s, r) && Later(s, s') && (r.pc.Lock? || r.pc.LockTarget?)
    requires r' == r.(pc := Over) || r' == r.(pc := if r.pc.Lock? then Detect(s.nextTx) else FindAgain(r.pc.source))
    requires r.pc.Lock? ==> s.nextTx in s'.lockTxs
    ensures RunGood(w, s', r')
  {
    RunStaysGood(w, s, s', r);
  }

  lemma LockOutputGood(w: World, s: State, s': State, r: Run, timeout: int, payoutTimeout: int)
    requires RunGood(w, s, r) && (r.pc.Lock? || r.pc.LockTarget?) && LedgersGood(w, s)
    requires s'.nextTx == s.nextTx + 1 && s'.userTxs == s.userTxs
    requires s'.lockTxs == if r.pc.Lock? then s.lockTxs + {s.nextTx} else s.lockTxs
    ensures var lock := LockOutput(w, r, s.nextTx, timeout, payoutTimeout);
            OutputGood(w, if r.pc.Lock? then B else r.head, lock) && Dated(s', lock)
  {
  }

  lemma ClaimKeeps(w: World, s: State, i: nat, fate: Fate)
    requires Inv(w, s) && i < |s.runs| && (s.runs[i].pc.ClaimTarget? || s.runs[i].pc.ClaimSource?)
    ensures Inv(w, SendClaim(w, s, i, fate))
  {
    hide RunGood, OutputGood, Claim;
    var r, s' := s.runs[i], SendClaim(w, s, i, fate);
    var h := ClaimHead(r);
    var k := Find(s.On(h).outputs, ClaimRef(r));
    if Lands(fate) && Claimable(w.setup, s.On(h), k) {
      FindAt(s.On(h).outputs, ClaimRef(r));
      ClaimTransaction(w, s, s', h, k);
      ClaimedGood(w, s, r, s.On(h).outputs[k], fate.Applied?);
      RunStaysGood(w, s, s', s'.runs[i]);
      HeadMoves(w, s, s', i, s'.runs[i]);
    } else {
      NotClaimedGood(w, s, r, fate.StrayAnswer?);
      OnlyRunMoves(w, s, i, Claimed(r, None, fate.StrayAnswer?));
    }
  }

  lemma ClaimedGood(w: World, s: State, r: Run, o: Output, goesOn: bool)
    requires RunGood(w, s, r) && (r.pc.ClaimTarget? || r.pc.ClaimSource?)
    requires o in s.On(ClaimHead(r)).outputs && o.ref == ClaimRef(r)
    ensures RunGood(w, s, Claimed(r, Some(SpentOf(o)), goesOn))
  {
  }

  lemma NotClaimedGood(w: World, s: State, r: Run, goesOn: bool)
    requires RunGood(w, s, r) && (r.pc.ClaimTarget? || r.pc.ClaimSource?)
    ensures RunGood(w, s, Claimed(r, None, goesOn))
  {
  }

  lemma ClaimTransaction(w: World, s: State, s': State, h: Head, k: nat)
    requires LedgersGood(w, s) && Claimable(w.setup, s.On(h), k)
    requires s'.(runs := s.runs) == s.Put(h, Claim(w.setup, s.On(h), k, s.nextTx)).(nextTx := s.nextTx + 1)
    ensures LedgersGood(w, s') && Later(s, s')
  {
    hide RefsTell;
    assert OutputGood(w, h, s.On(h).outputs[k]) by {
      assert HeadGood(w, s, h);
      assert s.On(h).outputs[k] in s.On(h).outputs;
    }
    assert forall o | o in Without(s.On(h).outputs, k) :: o in s.On(h).outputs;
    OldRefs(w, s, h);
    NewTransaction(w, s, s', h);
  }

  lemma PayWinnerKeeps(w: World, s: State, lottery: Ref, ticket: Ref)
    requires Inv(w, s)
    ensures Inv(w, Apply(w, s, PayWinnerTx(lottery, ticket)))
  {
    var i, j, s' := Find(s.b.outputs, lottery), Find(s.b.outputs, ticket), Apply(w, s, PayWinnerTx(lottery, ticket));
    if Payable(s.b, i, j) && s.b.outputs[j].datum.ticket.lotteryId == w.lotteryId {
      PayWinnerTransaction(w, s, s', i, j);
      NoRunMoves(w, s, s');
    }
  }

  lemma PayWinnerTransaction(w: World, s: State, s': State, i: nat, j: nat)
    requires LedgersGood(w, s) && Payable(s.b, i, j)
    requires s' == s.(b := PayWinner(w.setup, s.b, i, j, s.nextTx), nextTx := s.nextTx + 1, payouts := s.payouts + 1)
    ensures LedgersGood(w, s') && Later(s, s')
  {
    assert HeadGood(w, s, B);
    assert s.On(B) == s.b && s'.On(B) == s'.b && s.b.outputs[i] in s.b.outputs && s.b.outputs[j] in s.b.outputs;
    assert OutputGood(w, B, s.b.outputs[i]) && OutputGood(w, B, s.b.outputs[j]);
    RestWithin(s.b.outputs, i, j);
    NewTransaction(w, s, s', B);
  }

  lemma RestWithin(os: seq<Output>, i: nat, j: nat)
    requires i < |os| && j < |os| && i != j
    ensures forall o | o in Rest(os, i, j) :: o in os
  {
  }

  lemma ApplyKeeps(w: World, s: State, e: Event)
    requires Inv(w, s)
    ensures Inv(w, Apply(w, s, e))
  {
    match e
    case UserLock(h, hash, buyer, timeout) => UserLockKeeps(w, s, h, hash, buyer, timeout);
    case StartBridge(_, _, _, _) => StartKeeps(w, s, e);
    case StartRelay(_, _, _) => StartKeeps(w, s, e);
    case Read(i, pick, sourceSeen, now) => ReadKeeps(w, s, i, pick, sourceSeen, now);
    case Send(i, fate, timeout, payoutTimeout) =>
      if i < |s.runs| && (s.runs[i].pc.Lock? || s.runs[i].pc.LockTarget?) {
        LockKeeps(w, s, i, fate, timeout, payoutTimeout);
      } else if i < |s.runs| && (s.runs[i].pc.ClaimTarget? || s.runs[i].pc.ClaimSource?) {
        ClaimKeeps(w, s, i, fate);
      }
    case Crash(i) => if i < |s.runs| { OnlyRunMoves(w, s, i, s.runs[i].(pc := Over)); }
    case PayWinnerTx(lottery, ticket) => PayWinnerKeeps(w, s, lottery, ticket);
  }

  /** No run yet, nothing on heads A and C, and on head B the lottery alone. */
  predicate Start(w: World, s: State) {
    && s.runs == [] && s.userTxs == {} && s.lockTxs == {} && s.payouts == 0
    && s.a.outputs == [] && s.c.outputs == [] && |s.b.outputs| == 1
    && var o := s.b.outputs[0];
       OutputGood(w, B, o) && o.nft && o.ref.tx < s.nextTx && !o.datum.lottery.paidWinner && w.prize <= o.lovelace
  }

  lemma {:induction false} StepsKeep(w: World, s: State, es: seq<Event>)
    requires Start(w, s)
    ensures Inv(w, Steps(w, s, es))
    decreases |es|
  {
    if es != [] {
      StepsKeep(w, s, es[..|es| - 1]);
      ApplyKeeps(w, Steps(w, s, es[..|es| - 1]), es[|es| - 1]);
    }
  }

  // ---------------------------------------------------------------------- the books

  /** What a claim of an output is worth to Ida, who had locked the outputs she spends as
      targets. */
  function WorthOf(w: World, o: Origin): int {
    match o
    case UserLock => w.cost
    case IdaLock => 0 - w.cost
    case PayoutLock => w.prize
    case RelayLock => 0 - w.prize
    case _ => 0
  }

  function Worth(w: World, spent: Option<Spent>): int {
    if spent.Some? then WorthOf(w, spent.value.origin) else 0
  }

  function RunWorth(w: World, runs: seq<Run>): int {
    if runs == [] then 0
    else RunWorth(w, runs[..|runs| - 1]) + Worth(w, runs[|runs| - 1].gave) + Worth(w, runs[|runs| - 1].took)
  }

  lemma {:induction false} RunWorthUpdate(w: World, runs: seq<Run>, i: nat, r: Run)
    requires i < |runs|
    ensures RunWorth(w, runs[i := r])
         == RunWorth(w, runs) - Worth(w, runs[i].gave) - Worth(w, runs[i].took) + Worth(w, r.gave) + Worth(w, r.took)
  {
    var n := |runs| - 1;
    if i < n {
      RunWorthUpdate(w, runs[..n], i, r);
      assert runs[i := r][..n] == runs[..n][i := r];
    } else {
      assert runs[i := r][..n] == runs[..n];
    }
  }

  /** Ida's wallet on a head, and what she has locked there. */
  function Position(l: Ledger): int {
    l.ida + SumOf(l.outputs, IdaLocks) + SumOf(l.outputs, RelayLocks)
  }

  function Wealth(s: State): int {
    Position(s.a) + Position(s.b) + Position(s.c)
  }

  lemma WealthPut(s: State, h: Head, l: Ledger)
    ensures Wealth(s.Put(h, l)) == Wealth(s) - Position(s.On(h)) + Position(l)
  {
  }

  lemma ClaimWorth(w: World, l: Ledger, h: Head, k: nat, tx: TxId)
    requires Claimable(w.setup, l, k) && OutputGood(w, h, l.outputs[k])
    ensures Position(Claim(w.setup, l, k, tx)) == Position(l) + WorthOf(w, l.outputs[k].origin)
  {
    var o := l.outputs[k];
    SumWithout(l.outputs, k, IdaLocks);
    SumWithout(l.outputs, k, RelayLocks);
    var made := Output(Ref(tx, 0), o.datum.htlc.desired.address, Wanted(o), false,
                       DatumOf(o.datum.htlc.desired.datum), TicketOut);
    SumWith(Without(l.outputs, k), made, IdaLocks);
    SumWith(Without(l.outputs, k), made, RelayLocks);
  }

  lemma LockWorth(l: Ledger, o: Output)
    requires o.lovelace <= l.ida && o.origin in {IdaLock, RelayLock}
    ensures Position(Pay(l, o, true)) == Position(l)
  {
    SumWith(l.outputs, o, IdaLocks);
    SumWith(l.outputs, o, RelayLocks);
  }

  lemma PayWinnerWorth(w: World, l: Ledger, i: nat, j: nat, tx: TxId)
    requires Payable(l, i, j) && OutputGood(w, B, l.outputs[i]) && OutputGood(w, B, l.outputs[j])
    ensures Position(PayWinner(w.setup, l, i, j, tx)) == Position(l)
  {
    var l' := PayWinner(w.setup, l, i, j, tx);
    var n := |l'.outputs| - 2;
    SumRest(l.outputs, i, j, IdaLocks);
    SumRest(l.outputs, i, j, RelayLocks);
    SumWith(Rest(l.outputs, i, j), l'.outputs[n], IdaLocks);
    SumWith(Rest(l.outputs, i, j), l'.outputs[n], RelayLocks);
    SumWith(Rest(l.outputs, i, j) + [l'.outputs[n]], l'.outputs[n + 1], IdaLocks);
    SumWith(Rest(l.outputs, i, j) + [l'.outputs[n]], l'.outputs[n + 1], RelayLocks);
  }

  /** Each step changes Ida's wealth by what the claims of the runs are worth. */
  lemma StepBalances(w: World, s: State, e: Event)
    requires Inv(w, s)
    ensures Wealth(Apply(w, s, e)) - RunWorth(w, Apply(w, s, e).runs) == Wealth(s) - RunWorth(w, s.runs)
  {
    match e
    case UserLock(h, hash, buyer, timeout) =>
      if !h.B? && s.On(h).others >= w.cost { UserLockBalances(w, s, h, hash, buyer, timeout); }
    case Read(i, _, _, _) => MoveBalances(w, s, e);
    case Crash(i) => MoveBalances(w, s, e);
    case Send(i, fate, timeout, payoutTimeout) =>
      if i < |s.runs| && (s.runs[i].pc.Lock? || s.runs[i].pc.LockTarget?) {
        LockBalances(w, s, i, fate, timeout, payoutTimeout);
      } else if i < |s.runs| && (s.runs[i].pc.ClaimTarget? || s.runs[i].pc.ClaimSource?) {
        ClaimBalances(w, s, i, fate);
      }
    case PayWinnerTx(lottery, ticket) =>
      var i, j := Find(s.b.outputs, lottery), Find(s.b.outputs, ticket);
      if Payable(s.b, i, j) {
        OnHeadB(w, s, i);
        OnHeadB(w, s, j);
        PayWinnerWorth(w, s.b, i, j, s.nextTx);
      }
    case StartBridge(_, _, _, _) => StartBalances(w, s, e);
    case StartRelay(_, _, _) => StartBalances(w, s, e);
  }

  lemma UserLockBalances(w: World, s: State, h: Head, hash: string, buyer: string, timeout: int)
    requires !h.B? && s.On(h).others >= w.cost
    ensures var s' := Apply(w, s, Event.UserLock(h, hash, buyer, timeout));
            Wealth(s') == Wealth(s) && s'.runs == s.runs
  {
    var l := Apply(w, s, Event.UserLock(h, hash, buyer, timeout)).On(h);
    SumWith(s.On(h).outputs, l.outputs[|l.outputs| - 1], IdaLocks);
    SumWith(s.On(h).outputs, l.outputs[|l.outputs| - 1], RelayLocks);
    WealthPut(s, h, l);
  }

  lemma MoveBalances(w: World, s: State, e: Event)
    requires e.Read? || e.Crash?
    ensures Wealth(Apply(w, s, e)) - RunWorth(w, Apply(w, s, e).runs) == Wealth(s) - RunWorth(w, s.runs)
  {
    if e.i < |s.runs| { RunWorthUpdate(w, s.runs, e.i, Apply(w, s, e).runs[e.i]); }
  }

  lemma OnHeadB(w: World, s: State, i: nat)
    requires LedgersGood(w, s) && i < |s.b.outputs|
    ensures OutputGood(w, B, s.b.outputs[i])
  {
    assert s.On(B) == s.b && s.b.outputs[i] in s.b.outputs;
  }

  lemma StartBalances(w: World, s: State, e: Event)
    requires e.StartBridge? || e.StartRelay?
    ensures Wealth(Apply(w, s, e)) - RunWorth(w, Apply(w, s, e).runs) == Wealth(s) - RunWorth(w, s.runs)
  {
    var more := Apply(w, s, e).runs;
    if |more| > |s.runs| { assert more[..|more| - 1] == s.runs; }
  }

  lemma LockBalances(w: World, s: State, i: nat, fate: Fate, timeout: int, payoutTimeout: int)
    requires i < |s.runs| && (s.runs[i].pc.Lock? || s.runs[i].pc.LockTarget?)
    ensures var s' := SendLock(w, s, i, fate, timeout, payoutTimeout);
            Wealth(s') - RunWorth(w, s'.runs) == Wealth(s) - RunWorth(w, s.runs)
  {
    var r, s' := s.runs[i], SendLock(w, s, i, fate, timeout, payoutTimeout);
    RunWorthUpdate(w, s.runs, i, s'.runs[i]);
    var h, n := if r.pc.Lock? then B else r.head, if r.pc.Lock? then w.cost else w.prize;
    if s.On(h).ida >= n {
      LockWorth(s.On(h), LockOutput(w, r, s.nextTx, timeout, payoutTimeout));
      WealthPut(s, h, Pay(s.On(h), LockOutput(w, r, s.nextTx, timeout, payoutTimeout), true));
    }
  }

  lemma ClaimBalances(w: World, s: State, i: nat, fate: Fate)
    requires Inv(w, s) && i < |s.runs| && (s.runs[i].pc.ClaimTarget? || s.runs[i].pc.ClaimSource?)
    ensures var s' := SendClaim(w, s, i, fate);
            Wealth(s') - RunWorth(w, s'.runs) == Wealth(s) - RunWorth(w, s.runs)
  {
    RunWorthUpdate(w, s.runs, i, SendClaim(w, s, i, fate).runs[i]);
    NothingYet(w, s, i);
    SpentIsWorth(w, s, i, fate);
  }

  lemma SpentIsWorth(w: World, s: State, i: nat, fate: Fate)
    requires Inv(w, s) && i < |s.runs| && (s.runs[i].pc.ClaimTarget? || s.runs[i].pc.ClaimSource?)
    ensures var h := ClaimHead(s.runs[i]);
            var k := Find(s.On(h).outputs, ClaimRef(s.runs[i]));
            Wealth(SendClaim(w, s, i, fate)) == Wealth(s) +
              if Lands(fate) && Claimable(w.setup, s.On(h), k) then WorthOf(w, s.On(h).outputs[k].origin) else 0
  {
    var h := ClaimHead(s.runs[i]);
    var k := Find(s.On(h).outputs, ClaimRef(s.runs[i]));
    if Lands(fate) && Claimable(w.setup, s.On(h), k) {
      FindAt(s.On(h).outputs, ClaimRef(s.runs[i]));
      assert OutputGood(w, h, s.On(h).outputs[k]) by { assert HeadGood(w, s, h); }
      ClaimWorth(w, s.On(h), h, k, s.nextTx);
      WealthPut(s, h, Claim(w.setup, s.On(h), k, s.nextTx));
    }
  }

  /** Before a claim the run has not made that claim. */
  lemma NothingYet(w: World, s: State, i: nat)
    requires Inv(w, s) && i < |s.runs|
    ensures s.runs[i].pc.ClaimTarget? ==> s.runs[i].gave.None? && s.runs[i].took.None?
    ensures s.runs[i].pc.ClaimSource? ==> s.runs[i].took.None?
  {
    assert RunGood(w, s, s.runs[i]);
  }

  /** Ida's books, in every run of bridges, relays and payouts together: her wallets and open
      locks differ from the start by what her claims were worth. */
  lemma {:induction false} BooksBalance(w: World, s: State, es: seq<Event>)
    requires Start(w, s)
    ensures Wealth(Steps(w, s, es)) == Wealth(s) + RunWorth(w, Steps(w, s, es).runs)
    decreases |es|
  {
    if es != [] {
      BooksBalance(w, s, es[..|es| - 1]);
      StepsKeep(w, s, es[..|es| - 1]);
      StepBalances(w, Steps(w, s, es[..|es| - 1]), es[|es| - 1]);
    }
  }
}
