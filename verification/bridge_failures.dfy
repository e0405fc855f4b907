/** Runs in which the bridge fails Ida or a winner, from every start with the money for them.
    Whenever a lookup finds nothing in these runs, nothing was there. */
module BridgeFailures {
  import opened Options
  import opened HtlcData
  import opened HeadLedger
  import opened BridgeRuns
  import opened BridgeBooks
  import opened BridgeResults
  import Hex

  /** A lookup comes back empty only from a head that has nothing to find, and sees the source
      only if it is there. */
  predicate Honest(w: World, s: State, e: Event) {
    e.Read? && e.i < |s.runs| ==>
      var r := s.runs[e.i];
      && (e.pick.None? ==> !SomeAccepted(w, r, s.On(ReadHead(r)).outputs, e.now))
      && (r.pc.Detect? && e.sourceSeen ==> SomeAccepted(w, r.(pc := Redetect), s.On(r.head).outputs, e.now))
  }

  predicate HonestRun(w: World, s: State, es: seq<Event>) {
    es != [] ==>
      var n := |es| - 1;
      HonestRun(w, s, es[..n]) && Honest(w, Steps(w, s, es[..n]), es[n])
  }

  /** A run that stands in state `t`. */
  predicate Reaches(w: World, s: State, es: seq<Event>, t: State) {
    Steps(w, s, es) == t && HonestRun(w, s, es)
  }

  lemma Then(w: World, s: State, es: seq<Event>, t: State, e: Event) returns (more: seq<Event>, t': State)
    requires Reaches(w, s, es, t) && Honest(w, t, e)
    ensures more == es + [e] && t' == Apply(w, t, e) && Reaches(w, s, more, t')
  {
    more, t' := es + [e], Apply(w, t, e);
    assert more[..|more| - 1] == es;
  }

  lemma AtStart(w: World, s: State)
    ensures Reaches(w, s, [], s)
  {
  }

  /** An output of this kind, locked by this hash, has been spent. */
  function Of(origin: Origin, hash: string): Option<Spent> {
    Some(Spent(origin, Hex.LowerAll(hash)))
  }

  lemma FoundAt(os: seq<Output>, k: nat)
    requires k < |os| && forall j | 0 <= j < k :: os[j].ref != os[k].ref
    ensures Find(os, os[k].ref) == k
  {
  }

  function Buyers(w: World, s: State, hash: string, buyer: string): Output {
    Output(Ref(s.nextTx, 0), Script(w.setup.htlcScript), w.cost, false,
           HtlcDatum(Htlc(Hex.LowerAll(hash), 0, buyer, w.setup.ida,
                          Desired(Key(w.setup.ida), Lovelace(w.cost), None))),
           Origin.UserLock)
  }

  function First(s: State, hash: string, buyer: string): Run {
    Run(Bridge, C, s.nextTx, hash, buyer, Scan, None, None, false)
  }

  predicate Money(w: World, s: State) {
    s.c.others >= w.cost && s.b.ida >= w.cost
  }

  /** The buyer has locked on head C, and Ida on head B. */
  function Locked(w: World, s: State, hash: string, buyer: string): State
    requires Start(w, s) && Money(w, s)
  {
    var r := First(s, hash, buyer);
    var lock := LockOutput(w, r.(pc := Lock), s.nextTx + 1, 0, 0);
    s.(c := Ledger(s.c.ida, s.c.others - w.cost, [Buyers(w, s, hash, buyer)]),
       b := Ledger(s.b.ida - w.cost, s.b.others, [s.b.outputs[0], lock]),
       nextTx := s.nextTx + 2, userTxs := {s.nextTx}, lockTxs := {s.nextTx + 1},
       runs := [r.(pc := Detect(s.nextTx + 1))])
  }

  lemma BothLock(w: World, s: State, hash: string, buyer: string) returns (es: seq<Event>)
    requires Start(w, s) && Money(w, s)
    ensures Reaches(w, s, es, Locked(w, s, hash, buyer))
  {
    hide Steps, HonestRun;
    var t;
    es, t := BuyerLocks(w, s, hash, buyer);
    NothingLocked(w, t, 0);
    es, t := Then(w, s, es, t, Read(0, None, false, 0));
    IdaLocks(w, t, 0, First(s, hash, buyer));
    es, t := Then(w, s, es, t, Send(0, Applied, 0, 0));
    var l := Locked(w, s, hash, buyer);
    assert t.b.outputs == l.b.outputs && t.runs == l.runs && t.lockTxs == l.lockTxs;
  }

  lemma NothingLocked(w: World, t: State, i: nat)
    requires i < |t.runs| && t.runs[i].pc.Scan?
             && forall o | o in t.b.outputs :: !o.datum.HtlcDatum?
    ensures Honest(w, t, Read(i, None, false, 0))
  {
  }

  lemma IdaLocks(w: World, t: State, i: nat, r: Run)
    requires i < |t.runs| && t.runs[i] == r.(pc := Lock) && t.b.ida >= w.cost
    ensures Apply(w, t, Send(i, Applied, 0, 0)) ==
      t.(b := Ledger(t.b.ida - w.cost, t.b.others, t.b.outputs + [LockOutput(w, r.(pc := Lock), t.nextTx, 0, 0)]),
         nextTx := t.nextTx + 1, lockTxs := t.lockTxs + {t.nextTx}, runs := t.runs[i := r.(pc := Detect(t.nextTx))])
  {
  }

  lemma BuyerLocks(w: World, s: State, hash: string, buyer: string) returns (es: seq<Event>, t: State)
    requires Start(w, s) && Money(w, s)
    ensures Reaches(w, s, es, t)
    ensures t == s.(c := Locked(w, s, hash, buyer).c, nextTx := s.nextTx + 1, userTxs := {s.nextTx},
                    runs := [First(s, hash, buyer)]) && t.b.outputs == [s.b.outputs[0]]
  {
    hide Steps, HonestRun;
    AtStart(w, s);
    es, t := Then(w, s, [], s, Event.UserLock(C, hash, buyer, 0));
    assert t.c.outputs == [Buyers(w, s, hash, buyer)] && t.userTxs == {s.nextTx};
    es, t := Then(w, s, es, t, StartBridge(C, s.nextTx, hash, buyer));
    assert t.runs == [First(s, hash, buyer)];
  }

  /** Both locks are seen, and the target claim is next. */
  lemma PairSeen(w: World, s: State, hash: string, buyer: string) returns (es: seq<Event>, t: State)
    requires Start(w, s) && Money(w, s)
    ensures Reaches(w, s, es, t)
    ensures t == Locked(w, s, hash, buyer)
                 .(runs := [First(s, hash, buyer).(pc := ClaimTarget(Ref(s.nextTx + 1, 0), None))])
  {
    hide Steps, HonestRun;
    es := BothLock(w, s, hash, buyer);
    t := Locked(w, s, hash, buyer);
    Hex.LowerTwice(hash);
    FoundAt(t.b.outputs, 1);
    assert Accepts(w, t.runs[0].(pc := Redetect), t.c.outputs[0], 0) && t.c.outputs[0] in t.c.outputs;
    es, t := Then(w, s, es, t, Read(0, Some(Ref(s.nextTx + 1, 0)), true, 0));
    assert t.runs == [First(s, hash, buyer).(pc := ClaimTarget(Ref(s.nextTx + 1, 0), None))];
  }

  // ------------------------------------------------- giving nothing, on a stray answer

  /** Ida takes and does not give: the head's answer to her target claim, which it rejects, is
      taken from another transaction. */
  lemma StrayAnswerTakes(w: World, s: State, hash: string, buyer: string) returns (es: seq<Event>)
    requires Start(w, s) && Money(w, s)
    ensures HonestRun(w, s, es)
    ensures CountRuns(Steps(w, s, es).runs, Bridge, hash, Took) == 1
    ensures CountRuns(Steps(w, s, es).runs, Bridge, hash, Gave) == 0
  {
    hide Steps, HonestRun;
    var t;
    es, t := PairSeen(w, s, hash, buyer);
    var r, ref := First(s, hash, buyer), Ref(s.nextTx, 0);
    es, t := Then(w, s, es, t, Send(0, StrayAnswer, 0, 0));
    assert t.runs == [r.(pc := Redetect, stray := true)];
    Hex.LowerTwice(hash);
    FoundAt(t.c.outputs, 0);
    es, t := Then(w, s, es, t, Read(0, Some(ref), true, 0));
    assert t.runs == [r.(pc := ClaimSource(ref), stray := true)];
    es, t := Then(w, s, es, t, Send(0, Applied, 0, 0));
    assert t.runs == [r.(pc := Over, stray := true, took := Of(Origin.UserLock, hash))];
    assert t.runs[..0] == [];
  }

  // ------------------------------------------------------------ a ticket, and a crash

  function TheTicket(w: World, s: State, hash: string, buyer: string): Output {
    Output(Ref(s.nextTx + 2, 0), Script(w.ticketScript), w.cost, false,
           TicketDatum(TicketFor(w.setup, w.Purchase(hash, buyer), 0)), TicketOut)
  }

  /** The target is claimed, so there is a ticket; then the process crashes, and the buyer's lock
      stays where it is. */
  lemma TicketAndCrash(w: World, s: State, hash: string, buyer: string) returns (es: seq<Event>, t: State)
    requires Start(w, s) && Money(w, s)
    ensures Reaches(w, s, es, t) && t.a == s.a && t.c == Locked(w, s, hash, buyer).c && t.payouts == 0
    ensures t.b.outputs == [s.b.outputs[0], TheTicket(w, s, hash, buyer)] && t.b.ida == s.b.ida - w.cost
    ensures t.runs == [First(s, hash, buyer).(pc := Over, gave := Of(IdaLock, hash))]
    ensures t.userTxs == {s.nextTx} && t.nextTx == s.nextTx + 3
  {
    hide Steps, HonestRun;
    es, t := PairSeen(w, s, hash, buyer);
    var l := t.b;
    FoundAt(l.outputs, 1);
    es, t := Then(w, s, es, t, Send(0, Applied, 0, 0));
    assert Without(l.outputs, 1) == [s.b.outputs[0]];
    assert t.runs == [First(s, hash, buyer).(pc := Redetect, gave := Of(IdaLock, hash))];
    es, t := Then(w, s, es, t, Crash(0));
    assert t.runs == [First(s, hash, buyer).(pc := Over, gave := Of(IdaLock, hash))];
  }

  function PayoutOf(w: World, hash: string, buyer: string, tx: TxId): Output {
    Output(Ref(tx, 1), Script(w.setup.htlcScript), w.prize, false,
           HtlcDatum(Payout(w.setup, w.Purchase(hash, buyer), 0)), PayoutLock)
  }

  lemma LotteryAtStart(w: World, s: State)
    requires Start(w, s)
    ensures var o := s.b.outputs[0];
            && o.nft && o.address == Script(w.lotteryScript) && o.datum.LotteryDatum? && !o.datum.lottery.paidWinner
            && o.datum.lottery.prize == w.prize <= o.lovelace && o.ref.tx < s.nextTx
  {
  }

  /** The lottery pays the one ticket, whatever else is on head B. */
  lemma TicketWins(w: World, s: State, es: seq<Event>, t: State, hash: string, buyer: string, rest: seq<Output>)
    returns (more: seq<Event>, t': State, again: Output)
    requires Start(w, s) && Reaches(w, s, es, t) && t.nextTx > s.nextTx + 2
    requires t.b.outputs == [s.b.outputs[0], TheTicket(w, s, hash, buyer)] + rest
    ensures Reaches(w, s, more, t') && t'.b.outputs == rest + [again] + [PayoutOf(w, hash, buyer, t.nextTx)]
    ensures again.ref == Ref(t.nextTx, 0) && again.address == Script(w.lotteryScript)
    ensures t' == t.(b := t'.b, nextTx := t.nextTx + 1, payouts := t.payouts + 1) && t'.b.ida == t.b.ida
  {
    hide Steps, HonestRun, Reaches, OutputGood;
    var lottery, ticket := s.b.outputs[0], TheTicket(w, s, hash, buyer);
    LotteryAtStart(w, s);
    FoundAt(t.b.outputs, 0);
    FoundAt(t.b.outputs, 1);
    assert Without(Without(t.b.outputs, 1), 0) == rest;
    more, t' := Then(w, s, es, t, PayWinnerTx(lottery.ref, ticket.ref));
    again := t'.b.outputs[|rest|];
  }

  // -------------------------------------------------- the winner's own lock as the target

  /** Where ticket cost and prize are the same: the relay takes the winner's lock for the ticket,
      which the crashed run has left, for its own, claims it, and then claims the payout. Ida is
      paid twice, and the winner, whose money has left head C's wallets, not at all. */
  lemma EqualPrizeTakesTwice(w: World, s: State, hash: string, buyer: string) returns (es: seq<Event>)
    requires Start(w, s) && Money(w, s) && w.cost == w.prize && buyer != w.setup.ida
    ensures HonestRun(w, s, es)
    ensures var t := Steps(w, s, es);
            && |t.runs| == 2 && t.runs[1].work.Relay? && t.runs[1].gave == Of(Origin.UserLock, hash)
            && t.runs[1].took == Of(PayoutLock, hash)
            && Wealth(t) == Wealth(s) + w.prize && t.c.others == s.c.others - w.cost && t.c.outputs == []
  {
    hide Steps, HonestRun;
    var t, again;
    es, t := TicketAndCrash(w, s, hash, buyer);
    var r0, n := t.runs[0], t.nextTx;
    es, t, again := TicketWins(w, s, es, t, hash, buyer, []);
    es, t := Then(w, s, es, t, StartRelay(C, hash, buyer));
    var r := Run(Relay, C, 0, hash, buyer, FindSource, None, None, false);
    assert t.runs == [r0, r] && t.b.outputs == [again, PayoutOf(w, hash, buyer, n)];
    es, t := TakesTwice(w, s, es, t, hash, buyer, r0, again, n);
    BooksBalance(w, s, es);
    WorthOfTwo(w, t.runs[0], t.runs[1]);
  }

  lemma WorthOfTwo(w: World, q: Run, r: Run)
    ensures RunWorth(w, [q, r]) == Worth(w, q.gave) + Worth(w, q.took) + Worth(w, r.gave) + Worth(w, r.took)
  {
    assert [q, r][..1] == [q] && [q][..0] == [];
    assert RunWorth(w, [q]) == RunWorth(w, []) + Worth(w, q.gave) + Worth(w, q.took);
  }

  lemma TakesTwice(w: World, s: State, es: seq<Event>, t: State, hash: string, buyer: string, r0: Run, again: Output,
                   n: TxId)
    returns (more: seq<Event>, t': State)
    requires Start(w, s) && Money(w, s) && Reaches(w, s, es, t) && w.cost == w.prize
    requires t.b.outputs == [again, PayoutOf(w, hash, buyer, n)] && again.ref == Ref(n, 0) && t.nextTx > n
    requires t.c == Locked(w, s, hash, buyer).c
             && t.runs == [r0, Run(Relay, C, 0, hash, buyer, FindSource, None, None, false)]
    ensures Reaches(w, s, more, t') && t'.c.others == s.c.others - w.cost && t'.c.outputs == []
    ensures t'.runs == [r0, Run(Relay, C, 0, hash, buyer, Over, Of(Origin.UserLock, hash),
                                Of(PayoutLock, hash), false)]
  {
    hide Steps, HonestRun;
    var r, payout, lock := t.runs[1], Ref(n, 1), Ref(s.nextTx, 0);
    Hex.LowerTwice(hash);
    FoundAt(t.b.outputs, 1);
    FoundAt(t.c.outputs, 0);
    more, t' := Then(w, s, es, t, Read(1, Some(payout), true, 0));
    assert t'.runs == [r0, r.(pc := FindTarget(payout))];
    more, t' := Then(w, s, more, t', Read(1, Some(lock), true, 0));
    assert t'.runs == [r0, r.(pc := ClaimTarget(lock, Some(payout)))];
    more, t' := BothForIda(w, s, more, t', hash, buyer, r0, r, payout);
  }

  lemma BothForIda(w: World, s: State, es: seq<Event>, t: State, hash: string, buyer: string, r0: Run, r: Run,
                   payout: Ref)
    returns (more: seq<Event>, t': State)
    requires Start(w, s) && Money(w, s) && Reaches(w, s, es, t) && r.work.Relay? && r.head.C?
    requires |t.b.outputs| == 2 && t.b.outputs[1] == PayoutOf(w, hash, buyer, payout.tx) && payout.index == 1
    requires t.b.outputs[0].ref != payout && t.c == Locked(w, s, hash, buyer).c
    requires t.runs == [r0, r.(pc := ClaimTarget(Ref(s.nextTx, 0), Some(payout)))] && !r.stray
    ensures Reaches(w, s, more, t') && t'.c.others == s.c.others - w.cost && t'.c.outputs == []
    ensures t'.runs == [r0, r.(pc := Over, gave := Of(Origin.UserLock, hash), took := Of(PayoutLock, hash))]
  {
    hide Steps, HonestRun;
    FoundAt(t.b.outputs, 1);
    FoundAt(t.c.outputs, 0);
    more, t' := Then(w, s, es, t, Send(1, Applied, 0, 0));
    assert t'.runs == [r0, r.(pc := ClaimSource(payout), gave := Of(Origin.UserLock, hash))];
    more, t' := Then(w, s, more, t', Send(1, Applied, 0, 0));
    assert t'.runs == [r0, r.(pc := Over, gave := Of(Origin.UserLock, hash), took := Of(PayoutLock, hash))];
  }

  // ------------------------------------------------------ Ida's own lock as the source

  function SecondLock(w: World, s: State, hash: string, buyer: string): Output {
    LockOutput(w, First(s, hash, buyer).(pc := Lock), s.nextTx + 3, 0, 0)
  }

  /** After the crash a second bridge run finds no lock and makes one, and crashes too. */
  lemma LocksAgain(w: World, s: State, hash: string, buyer: string) returns (es: seq<Event>, t: State, r0: Run, r1: Run)
    requires Start(w, s) && Money(w, s) && s.b.ida >= 2 * w.cost
    ensures Reaches(w, s, es, t) && t.runs == [r0, r1] && t.nextTx == s.nextTx + 4
    ensures t.b.outputs == [s.b.outputs[0], TheTicket(w, s, hash, buyer)] + [SecondLock(w, s, hash, buyer)]
    ensures t.c == Locked(w, s, hash, buyer).c
    ensures r0.gave == Of(IdaLock, hash) && r0.took.None? && r1.gave.None? && r1.took.None?
  {
    hide Steps, HonestRun;
    es, t := TicketAndCrash(w, s, hash, buyer);
    r0 := t.runs[0];
    var r := First(s, hash, buyer);
    es, t := SecondScan(w, s, es, t, r0, r);
    IdaLocks(w, t, 1, r);
    es, t := Then(w, s, es, t, Send(1, Applied, 0, 0));
    r1 := r.(pc := Over);
    es, t := CrashSecond(w, s, es, t, r0, r1);
  }

  /** The second run starts, and finds nothing. */
  lemma SecondScan(w: World, s: State, es: seq<Event>, t: State, r0: Run, r: Run) returns (more: seq<Event>, t': State)
    requires Reaches(w, s, es, t) && t.runs == [r0]
             && r == Run(Bridge, C, s.nextTx, r.hash, r.buyer, Scan, None, None, false)
    requires s.nextTx in t.userTxs && forall o | o in t.b.outputs :: !o.datum.HtlcDatum?
    ensures Reaches(w, s, more, t') && t' == t.(runs := [r0, r.(pc := Lock)])
  {
    hide Steps, HonestRun;
    more, t' := Then(w, s, es, t, StartBridge(C, s.nextTx, r.hash, r.buyer));
    assert t'.runs == [r0, r];
    NothingLocked(w, t', 1);
    more, t' := Then(w, s, more, t', Read(1, None, false, 0));
    assert t'.runs == [r0, r.(pc := Lock)];
  }

  lemma CrashSecond(w: World, s: State, es: seq<Event>, t: State, r0: Run, r1: Run)
      returns (more: seq<Event>, t': State)
    requires Reaches(w, s, es, t) && |t.runs| == 2 && t.runs[0] == r0 && t.runs[1].(pc := Over) == r1
    ensures Reaches(w, s, more, t') && t' == t.(runs := [r0, r1])
  {
    hide Steps, HonestRun;
    more, t' := Then(w, s, es, t, Crash(1));
    assert t'.runs == [r0, r1];
  }

  function Relaying(hash: string, buyer: string, pc: Pc): Run {
    Run(Relay, C, 0, hash, buyer, pc, None, None, false)
  }

  function RelaysLock(w: World, hash: string, buyer: string, tx: TxId): Output {
    LockOutput(w, Relaying(hash, buyer, LockTarget(Ref(0, 0))), tx, 0, 0)
  }

  /** Then the lottery pays that ticket, and the relay takes the second lock for the payout. It
      gives the winner the prize and claims its own lock: that makes a second ticket, and costs Ida
      the prize and the price of a ticket, while the payout stays unclaimed. */
  lemma RelayTakesOwnLock(w: World, s: State, hash: string, buyer: string) returns (es: seq<Event>, n: nat)
    requires Start(w, s) && Money(w, s) && s.b.ida >= 2 * w.cost && s.c.ida >= w.prize
    requires w.cost != w.prize && buyer != w.setup.ida
    ensures HonestRun(w, s, es) && n < |es| && es[n] == StartRelay(C, hash, buyer)
    ensures var t := Steps(w, s, es);
            && |t.runs| == 3 && t.runs[2].work.Relay? && t.runs[2].gave == Of(RelayLock, hash)
            && t.runs[2].took == Of(IdaLock, hash)
            && Wealth(t) == Wealth(Steps(w, s, es[..n])) - w.cost - w.prize
            && exists o :: o in t.b.outputs && o.origin == PayoutLock
  {
    hide Steps, HonestRun;
    var before, t, r0, r1, again := TwoLocksAndPayout(w, s, hash, buyer);
    var t';
    n := |before|;
    es, t' := RelayFromStart(w, s, before, t, hash, buyer, r0, r1, again);
    assert es[..n] == before;
    RelayLoses(w, s, before, es, r0, r1, t'.runs[2]);
  }

  /** Up to the relay: a ticket that has won, a second lock, and both bridge runs crashed. */
  lemma TwoLocksAndPayout(w: World, s: State, hash: string, buyer: string)
    returns (es: seq<Event>, t: State, r0: Run, r1: Run, again: Output)
    requires Start(w, s) && Money(w, s) && s.b.ida >= 2 * w.cost && s.c.ida >= w.prize
    ensures Reaches(w, s, es, t) && t.runs == [r0, r1] && t.nextTx == s.nextTx + 5 && t.c == Locked(w, s, hash, buyer).c
    ensures t.b.outputs == [SecondLock(w, s, hash, buyer)] + [again] + [PayoutOf(w, hash, buyer, s.nextTx + 4)]
  {
    hide Steps, HonestRun;
    es, t, r0, r1 := LocksAgain(w, s, hash, buyer);
    es, t, again := TicketWins(w, s, es, t, hash, buyer, [SecondLock(w, s, hash, buyer)]);
  }

  lemma RelayFromStart(w: World, s: State, es: seq<Event>, t: State, hash: string, buyer: string, r0: Run, r1: Run,
                       again: Output)
    returns (more: seq<Event>, t': State)
    requires Start(w, s) && Money(w, s) && Reaches(w, s, es, t) && w.cost != w.prize && t.c.ida >= w.prize
    requires buyer != w.setup.ida && t.nextTx == s.nextTx + 5 && t.c == Locked(w, s, hash, buyer).c
             && t.runs == [r0, r1]
    requires t.b.outputs == [SecondLock(w, s, hash, buyer)] + [again] + [PayoutOf(w, hash, buyer, s.nextTx + 4)]
    ensures es + [StartRelay(C, hash, buyer)] <= more && Reaches(w, s, more, t')
    ensures t'.runs == [r0, r1, Relaying(hash, buyer, Over).(gave := Of(RelayLock, hash), took := Of(IdaLock, hash))]
    ensures exists o :: o in t'.b.outputs && o.origin == PayoutLock
  {
    hide Steps, HonestRun;
    more, t' := Then(w, s, es, t, StartRelay(C, hash, buyer));
    assert t'.runs == [r0, r1, Relaying(hash, buyer, FindSource)];
    more, t' := RelayLocks(w, s, more, t', hash, buyer, r0, r1, again, s.nextTx + 3);
    more, t' := RelayGives(w, s, more, t', hash, buyer, r0, r1, again, s.nextTx + 3);
  }

  lemma RelayLoses(w: World, s: State, before: seq<Event>, es: seq<Event>, r0: Run, r1: Run, x: Run)
    requires Start(w, s) && Steps(w, s, before).runs == [r0, r1] && Steps(w, s, es).runs == [r0, r1, x]
    requires x.gave.Some? && x.gave.value.origin == RelayLock && x.took.Some? && x.took.value.origin == IdaLock
    ensures Wealth(Steps(w, s, es)) == Wealth(Steps(w, s, before)) - w.cost - w.prize
  {
    BooksBalance(w, s, before);
    BooksBalance(w, s, es);
    WorthOfThird(w, r0, r1, x);
  }

  lemma WorthOfThird(w: World, q: Run, r: Run, x: Run)
    ensures RunWorth(w, [q, r, x]) == RunWorth(w, [q, r]) + Worth(w, x.gave) + Worth(w, x.took)
  {
    assert [q, r, x][..2] == [q, r];
  }

  /** The relay finds the second lock first, and no target; so it locks. */
  lemma RelayLocks(w: World, s: State, es: seq<Event>, t: State, hash: string, buyer: string, r0: Run, r1: Run,
                   again: Output, n: TxId)
    returns (more: seq<Event>, t': State)
    requires Start(w, s) && Money(w, s) && Reaches(w, s, es, t) && w.cost != w.prize && t.c.ida >= w.prize
    requires t.nextTx > n && n == s.nextTx + 3
    requires t.b.outputs == [SecondLock(w, s, hash, buyer)] + [again] + [PayoutOf(w, hash, buyer, n + 1)]
    requires t.c == Locked(w, s, hash, buyer).c && t.runs == [r0, r1, Relaying(hash, buyer, FindSource)]
    ensures es <= more && Reaches(w, s, more, t') && t'.b == t.b && t'.nextTx == t.nextTx + 1
    ensures t'.c.outputs == [Buyers(w, s, hash, buyer), RelaysLock(w, hash, buyer, t.nextTx)]
    ensures t'.runs == [r0, r1, Relaying(hash, buyer, ClaimTarget(Ref(t.nextTx, 0), Some(Ref(n, 0))))]
  {
    hide Steps, HonestRun;
    Hex.LowerTwice(hash);
    FoundAt(t.b.outputs, 0);
    more, t' := Then(w, s, es, t, Read(2, Some(Ref(n, 0)), true, 0));
    assert t'.runs == [r0, r1, Relaying(hash, buyer, FindTarget(Ref(n, 0)))];
    more, t' := Then(w, s, more, t', Read(2, None, true, 0));
    assert t'.runs == [r0, r1, Relaying(hash, buyer, LockTarget(Ref(n, 0)))];
    more, t' := LocksForWinner(w, s, more, t', hash, buyer, r0, r1, n);
  }

  lemma LocksForWinner(w: World, s: State, es: seq<Event>, t: State, hash: string, buyer: string, r0: Run, r1: Run,
                       n: TxId)
    returns (more: seq<Event>, t': State)
    requires Reaches(w, s, es, t) && t.c.ida >= w.prize && t.nextTx > s.nextTx
             && t.c.outputs == [Buyers(w, s, hash, buyer)]
    requires t.runs == [r0, r1, Relaying(hash, buyer, LockTarget(Ref(n, 0)))]
    ensures es <= more && Reaches(w, s, more, t') && t'.b == t.b && t'.nextTx == t.nextTx + 1
    ensures t'.c.outputs == [Buyers(w, s, hash, buyer), RelaysLock(w, hash, buyer, t.nextTx)]
    ensures t'.runs == [r0, r1, Relaying(hash, buyer, ClaimTarget(Ref(t.nextTx, 0), Some(Ref(n, 0))))]
  {
    hide Steps, HonestRun;
    more, t' := Then(w, s, es, t, Send(2, Applied, 0, 0));
    assert t'.runs == [r0, r1, Relaying(hash, buyer, FindAgain(Ref(n, 0)))];
    Hex.LowerTwice(hash);
    FoundAt(t'.c.outputs, 1);
    more, t' := Then(w, s, more, t', Read(2, Some(Ref(t.nextTx, 0)), true, 0));
  }

  /** It claims its lock for the winner, and the second lock for a payout. */
  lemma RelayGives(w: World, s: State, es: seq<Event>, t: State, hash: string, buyer: string, r0: Run, r1: Run,
                   again: Output, n: TxId)
    returns (more: seq<Event>, t': State)
    requires Reaches(w, s, es, t) && buyer != w.setup.ida && n == s.nextTx + 3
    requires t.b.outputs == [SecondLock(w, s, hash, buyer)] + [again] + [PayoutOf(w, hash, buyer, n + 1)]
    requires t.nextTx > n + 1
    requires Start(w, s) && Money(w, s)
    requires t.c.outputs == [Buyers(w, s, hash, buyer), RelaysLock(w, hash, buyer, t.nextTx - 1)]
    requires t.runs == [r0, r1, Relaying(hash, buyer, ClaimTarget(Ref(t.nextTx - 1, 0), Some(Ref(n, 0))))]
    ensures es <= more && Reaches(w, s, more, t')
    ensures t'.runs == [r0, r1, Relaying(hash, buyer, Over).(gave := Of(RelayLock, hash), took := Of(IdaLock, hash))]
    ensures exists o :: o in t'.b.outputs && o.origin == PayoutLock
  {
    hide Steps, HonestRun;
    FoundAt(t.c.outputs, 1);
    FoundAt(t.b.outputs, 0);
    var payout := t.b.outputs[2];
    more, t' := Then(w, s, es, t, Send(2, Applied, 0, 0));
    assert t'.runs == [r0, r1, Relaying(hash, buyer, ClaimSource(Ref(n, 0))).(gave := Of(RelayLock, hash))];
    more, t' := Then(w, s, more, t', Send(2, Applied, 0, 0));
    assert t'.runs == [r0, r1, Relaying(hash, buyer, Over).(gave := Of(RelayLock, hash), took := Of(IdaLock, hash))];
    assert t'.b.outputs[1] == payout;
  }
}
