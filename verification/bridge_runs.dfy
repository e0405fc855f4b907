/** Any number of bridge, relay and payout runs over three heads, in any interleaving, with
    crashes anywhere and answers of a head that may be lost or belong to somebody else. */
module BridgeRuns {
  import opened Options
  import opened HtlcData
  import opened HeadLedger
  import Hex

  datatype Head = A | B | C

  /** One lottery for the whole run, and the scripts. */
  datatype World = World(setup: Setup, lotteryId: string, ticketScript: string, lotteryScript: string, cost: nat,
                         prize: nat) {
    function Purchase(hash: string, buyer: string): Purchase {
      HtlcData.Purchase(hash, buyer, lotteryId, ticketScript, cost, prize)
    }
  }

  datatype Work = Bridge | Relay

  /** Where a run stands: each name is the next access to a head. */
  datatype Pc =
    | Scan
    | Lock
    | Detect(lockTx: TxId)
    | FindSource
    | FindTarget(source: Ref)
    | LockTarget(source: Ref)
    | FindAgain(source: Ref)
    | ClaimTarget(target: Ref, next: Option<Ref>)
    | Redetect
    | ClaimSource(source: Ref)
    | Over

  /** What a claim has spent: which kind of output, and the hash that locked it. */
  datatype Spent = Spent(origin: Origin, hash: string)

  function SpentOf(o: Output): Spent
    requires o.datum.HtlcDatum?
  {
    Spent(o.origin, o.datum.htlc.hash)
  }

  /** Hashes are compared whatever their case. */
  predicate SameHash(a: string, b: string) {
    Hex.LowerAll(a) == Hex.LowerAll(b)
  }

  /** One execution. `head` is the buyer's head: source of a bridge run, target of a relay.
      `gave` and `took` say what its target and source claims have spent; `stray` that its target
      claim was taken for done because of another transaction's answer. */
  datatype Run = Run(work: Work, head: Head, sourceTx: TxId, hash: string, buyer: string, pc: Pc, gave: Option<Spent>,
                     took: Option<Spent>, stray: bool)

  /** How a submission ends: the handler waits for the first answer on the head's socket that
      says a transaction is valid, whichever transaction it is about. */
  datatype Fate = Applied | AppliedButThrows | Rejected | StrayAnswer

  datatype State = State(a: Ledger, b: Ledger, c: Ledger, nextTx: TxId, userTxs: set<TxId>, lockTxs: set<TxId>,
                         runs: seq<Run>, payouts: nat) {
    function On(h: Head): Ledger {
      match h case A => a case B => b case C => c
    }

    function Put(h: Head, l: Ledger): State {
      match h case A => this.(a := l) case B => this.(b := l) case C => this.(c := l)
    }

    function SetRun(i: nat, r: Run): State
      requires i < |runs|
    {
      this.(runs := runs[i := r])
    }
  }

  datatype Event =
    | UserLock(head: Head, hash: string, buyer: string, timeout: int)
    | StartBridge(head: Head, sourceTx: TxId, hash: string, buyer: string)
    | StartRelay(head: Head, hash: string, buyer: string)
    | Read(i: nat, pick: Option<Ref>, sourceSeen: bool, now: int)
    | Send(i: nat, fate: Fate, timeout: int, payoutTimeout: int)
    | Crash(i: nat)
    | PayWinnerTx(lottery: Ref, ticket: Ref)

  // ------------------------------------------------------------------------- reading

  predicate IsHtlcFor(w: World, o: Output, hash: string) {
    && o.address == Script(w.setup.htlcScript) && o.datum.HtlcDatum?
    && Hex.LowerAll(o.datum.htlc.hash) == Hex.LowerAll(hash) && o.datum.htlc.receiver == w.setup.ida
  }

  /** What the lookup of each read accepts. */
  predicate Accepts(w: World, r: Run, o: Output, now: int) {
    match r.pc
    case Scan =>
      && o.address == Script(w.setup.htlcScript) && o.datum.HtlcDatum?
      && MatchesExpected(o.datum.htlc, w.setup, w.Purchase(r.hash, r.buyer),
                         TicketFor(w.setup, w.Purchase(r.hash, r.buyer), now))
    case Detect(lockTx) => IsHtlcFor(w, o, r.hash) && o.ref.tx == lockTx
    case Redetect => IsHtlcFor(w, o, r.hash) && o.ref.tx == r.sourceTx
    case FindSource => IsHtlcFor(w, o, r.hash)
    case FindTarget(_) => IsHtlcFor(w, o, r.hash) && Wanted(o) == w.prize
    case FindAgain(_) => IsHtlcFor(w, o, r.hash) && Wanted(o) == w.prize
    case _ => false
  }

  predicate SomeAccepted(w: World, r: Run, os: seq<Output>, now: int) {
    exists o :: o in os && Accepts(w, r, o, now)
  }

  function ReadHead(r: Run): Head {
    match r.pc
    case Redetect => r.head
    case FindTarget(_) => r.head
    case FindAgain(_) => r.head
    case _ => B
  }

  function Found(r: Run, o: Output, sourceSeen: bool): Pc {
    match r.pc
    case Scan => Detect(o.ref.tx)
    case Detect(_) => if sourceSeen then ClaimTarget(o.ref, None) else Over
    case Redetect => ClaimSource(o.ref)
    case FindSource => FindTarget(o.ref)
    case FindTarget(source) => ClaimTarget(o.ref, Some(source))
    case FindAgain(source) => ClaimTarget(o.ref, Some(source))
    case other => other
  }

  function NotFound(r: Run): Pc {
    match r.pc
    case Scan => Lock
    case FindTarget(source) => LockTarget(source)
    case Lock => Lock
    case LockTarget(_) => r.pc
    case ClaimTarget(_, _) => r.pc
    case ClaimSource(_) => r.pc
    case _ => Over
  }

  // ----------------------------------------------------------------------- submitting

  predicate Lands(f: Fate) {
    f.Applied? || f.AppliedButThrows?
  }

  predicate GoesOn(f: Fate) {
    f.Applied? || f.StrayAnswer?
  }

  function LockOutput(w: World, r: Run, tx: TxId, timeout: int, payoutTimeout: int): Output {
    if r.pc.Lock? then
      Output(Ref(tx, 0), Script(w.setup.htlcScript), w.cost, false,
             HtlcDatum(LockFor(w.setup, w.Purchase(r.hash, r.buyer), payoutTimeout, timeout)), IdaLock)
    else
      Output(Ref(tx, 0), Script(w.setup.htlcScript), w.prize, false,
             HtlcDatum(Htlc(Hex.LowerAll(r.hash), timeout, w.setup.ida, w.setup.ida,
                            Desired(Key(r.buyer), Lovelace(w.prize), None))), RelayLock)
  }

  /** Ida locks on head B for the ticket, or on the buyer's head for the prize. */
  function SendLock(w: World, s: State, i: nat, fate: Fate, timeout: int, payoutTimeout: int): State
    requires i < |s.runs| && (s.runs[i].pc.Lock? || s.runs[i].pc.LockTarget?)
  {
    var r := s.runs[i];
    var h, n := if r.pc.Lock? then B else r.head, if r.pc.Lock? then w.cost else w.prize;
    if s.On(h).ida < n then s.SetRun(i, r.(pc := Over))
    else
      var lock := LockOutput(w, r, s.nextTx, timeout, payoutTimeout);
      var next := if r.pc.Lock? then Detect(s.nextTx) else FindAgain(r.pc.source);
      (if Lands(fate) then s.Put(h, Pay(s.On(h), lock, true)) else s)
        .SetRun(i, r.(pc := if GoesOn(fate) then next else Over))
        .(nextTx := s.nextTx + 1, lockTxs := if r.pc.Lock? then s.lockTxs + {s.nextTx} else s.lockTxs)
  }

  function ClaimHead(r: Run): Head {
    if r.work.Bridge? == r.pc.ClaimTarget? then B else r.head
  }

  function ClaimRef(r: Run): Ref
    requires r.pc.ClaimTarget? || r.pc.ClaimSource?
  {
    if r.pc.ClaimTarget? then r.pc.target else r.pc.source
  }

  function AfterTarget(r: Run): Pc
    requires r.pc.ClaimTarget?
  {
    if r.pc.next.Some? then ClaimSource(r.pc.next.value) else Redetect
  }

  /** The run after a claim that has spent this output, or none if it was not applied. */
  function Claimed(r: Run, spent: Option<Spent>, goesOn: bool): Run
    requires r.pc.ClaimTarget? || r.pc.ClaimSource?
  {
    if r.pc.ClaimTarget?
    then r.(gave := spent, stray := goesOn && spent.None?, pc := if goesOn then AfterTarget(r) else Over)
    else r.(took := spent, pc := Over)
  }

  function SendClaim(w: World, s: State, i: nat, fate: Fate): State
    requires i < |s.runs| && (s.runs[i].pc.ClaimTarget? || s.runs[i].pc.ClaimSource?)
  {
    var r := s.runs[i];
    var h := ClaimHead(r);
    var k := Find(s.On(h).outputs, ClaimRef(r));
    if Lands(fate) && Claimable(w.setup, s.On(h), k)
    then s.Put(h, Claim(w.setup, s.On(h), k, s.nextTx))
          .SetRun(i, Claimed(r, Some(SpentOf(s.On(h).outputs[k])), fate.Applied?)).(nextTx := s.nextTx + 1)
    else s.SetRun(i, Claimed(r, None, fate.StrayAnswer?))
  }

  function Apply(w: World, s: State, e: Event): State {
    match e
    case UserLock(h, hash, buyer, timeout) =>
      if h.B? || s.On(h).others < w.cost then s
      else
        var lock := Output(Ref(s.nextTx, 0), Script(w.setup.htlcScript), w.cost, false,
          HtlcDatum(Htlc(Hex.LowerAll(hash), timeout, buyer, w.setup.ida,
                         Desired(Key(w.setup.ida), Lovelace(w.cost), None))),
          Origin.UserLock);
        s.Put(h, Pay(s.On(h), lock, false)).(nextTx := s.nextTx + 1, userTxs := s.userTxs + {s.nextTx})
    case StartBridge(h, sourceTx, hash, buyer) =>
      if h.B? || sourceTx !in s.userTxs then s
      else s.(runs := s.runs + [Run(Bridge, h, sourceTx, hash, buyer, Scan, None, None, false)])
    case StartRelay(h, hash, buyer) =>
      if h.B? || buyer == w.setup.ida then s
      else s.(runs := s.runs + [Run(Relay, h, 0, hash, buyer, FindSource, None, None, false)])
    case Read(i, pick, sourceSeen, now) =>
      if i >= |s.runs| then s
      else if pick.None? then s.SetRun(i, s.runs[i].(pc := NotFound(s.runs[i])))
      else
        var os := s.On(ReadHead(s.runs[i])).outputs;
        var k := Find(os, pick.value);
        if k < |os| && Accepts(w, s.runs[i], os[k], now)
        then s.SetRun(i, s.runs[i].(pc := Found(s.runs[i], os[k], sourceSeen))) else s
    case Send(i, fate, timeout, payoutTimeout) =>
      if i >= |s.runs| then s
      else if s.runs[i].pc.Lock? || s.runs[i].pc.LockTarget? then SendLock(w, s, i, fate, timeout, payoutTimeout)
      else if s.runs[i].pc.ClaimTarget? || s.runs[i].pc.ClaimSource? then SendClaim(w, s, i, fate)
      else s
    case Crash(i) => if i < |s.runs| then s.SetRun(i, s.runs[i].(pc := Over)) else s
    case PayWinnerTx(lottery, ticket) =>
      var i, j := Find(s.b.outputs, lottery), Find(s.b.outputs, ticket);
      if Payable(s.b, i, j) && s.b.outputs[j].datum.ticket.lotteryId == w.lotteryId
      then s.(b := PayWinner(w.setup, s.b, i, j, s.nextTx), nextTx := s.nextTx + 1, payouts := s.payouts + 1)
      else s
  }

  function Steps(w: World, s: State, es: seq<Event>): State {
    if es == [] then s else Apply(w, Steps(w, s, es[..|es| - 1]), es[|es| - 1])
  }

  // ------------------------------------------------------------- value is conserved

  /** Every step leaves the lovelace of every head as it is. */
  lemma StepConserves(w: World, s: State, e: Event, h: Head)
    ensures Apply(w, s, e).On(h).Total() == s.On(h).Total()
  {
    match e
    case UserLock(g, _, _, _) =>
      if !g.B? && s.On(g).others >= w.cost {
        var l := Apply(w, s, e).On(g);
        PayConserves(s.On(g), l.outputs[|l.outputs| - 1], false);
      }
    case Send(i, fate, timeout, payoutTimeout) =>
      if i < |s.runs| { SendConserves(w, s, i, fate, timeout, payoutTimeout, h); }
    case PayWinnerTx(lottery, ticket) =>
      var i, j := Find(s.b.outputs, lottery), Find(s.b.outputs, ticket);
      if Payable(s.b, i, j) { PayWinnerConserves(w.setup, s.b, i, j, s.nextTx); }
    case _ =>
  }

  lemma SendConserves(w: World, s: State, i: nat, fate: Fate, timeout: int, payoutTimeout: int, h: Head)
    requires i < |s.runs|
    ensures Apply(w, s, Send(i, fate, timeout, payoutTimeout)).On(h).Total() == s.On(h).Total()
  {
    var r, s' := s.runs[i], Apply(w, s, Send(i, fate, timeout, payoutTimeout));
    if r.pc.Lock? || r.pc.LockTarget? {
      var g, n := if r.pc.Lock? then B else r.head, if r.pc.Lock? then w.cost else w.prize;
      if s.On(g).ida >= n && Lands(fate) {
        PayConserves(s.On(g), s'.On(g).outputs[|s'.On(g).outputs| - 1], true);
      }
    } else if r.pc.ClaimTarget? || r.pc.ClaimSource? {
      var g := ClaimHead(r);
      var k := Find(s.On(g).outputs, ClaimRef(r));
      if Claimable(w.setup, s.On(g), k) { ClaimConserves(w.setup, s.On(g), k, s.nextTx); }
    }
  }

  lemma {:induction false} HeadsConserve(w: World, s: State, es: seq<Event>, h: Head)
    ensures Steps(w, s, es).On(h).Total() == s.On(h).Total()
    decreases |es|
  {
    if es != [] {
      HeadsConserve(w, s, es[..|es| - 1], h);
      StepConserves(w, Steps(w, s, es[..|es| - 1]), es[|es| - 1], h);
    }
  }
}
