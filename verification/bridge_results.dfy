/** What the bridge promises Ida and the lottery, over whole runs. */
module BridgeResults {
  import opened Options
  import opened HtlcData
  import opened HeadLedger
  import opened BridgeRuns
  import opened BridgeBooks
  import Hex

  // ------------------------------------------------------------ never take without giving

  datatype Flag = Gave | Took | Astray

  predicate Flagged(r: Run, k: Work, hash: string, f: Flag) {
    && r.work == k
    && match f
       case Gave => r.gave.Some? && SameHash(r.gave.value.hash, hash)
       case Took => r.took.Some? && SameHash(r.took.value.hash, hash)
       case Astray => r.stray && SameHash(r.hash, hash)
  }

  /** How many runs of this kind have claimed a target locked by this hash, or a source locked by
      it, or took somebody else's answer for that of their target claim for it. */
  function CountRuns(runs: seq<Run>, k: Work, hash: string, f: Flag): nat {
    if runs == [] then 0
    else CountRuns(runs[..|runs| - 1], k, hash, f) + if Flagged(runs[|runs| - 1], k, hash, f) then 1 else 0
  }

  lemma {:induction false} TakersGave(w: World, runs: seq<Run>, k: Work, hash: string)
    requires forall i | 0 <= i < |runs| :: OrderGood(w, runs[i])
    ensures CountRuns(runs, k, hash, Took) <= CountRuns(runs, k, hash, Gave) + CountRuns(runs, k, hash, Astray)
  {
    if runs != [] {
      assert OrderGood(w, runs[|runs| - 1]);
      TakersGave(w, runs[..|runs| - 1], k, hash);
    }
  }

  predicate NoStrayAnswers(es: seq<Event>) {
    forall e | e in es && e.Send? :: !e.fate.StrayAnswer?
  }

  lemma {:induction false} NobodyAstray(w: World, s: State, es: seq<Event>)
    requires Start(w, s) && NoStrayAnswers(es)
    ensures forall i | 0 <= i < |Steps(w, s, es).runs| :: !Steps(w, s, es).runs[i].stray
    decreases |es|
  {
    if es != [] {
      var n := |es| - 1;
      NobodyAstray(w, s, es[..n]);
      assert es[n] in es;
      StepNotAstray(w, Steps(w, s, es[..n]), es[n]);
    }
  }

  lemma StepNotAstray(w: World, s: State, e: Event)
    requires e.Send? ==> !e.fate.StrayAnswer?
    requires forall i | 0 <= i < |s.runs| :: !s.runs[i].stray
    ensures forall i | 0 <= i < |Apply(w, s, e).runs| :: !Apply(w, s, e).runs[i].stray
  {
  }

  lemma {:induction false} NoneAstray(runs: seq<Run>, k: Work, hash: string)
    requires forall i | 0 <= i < |runs| :: !runs[i].stray
    ensures CountRuns(runs, k, hash, Astray) == 0
  {
    if runs != [] { NoneAstray(runs[..|runs| - 1], k, hash); }
  }

  /** Run by run: a run takes without giving if and only if its target claim was taken for done on
      another transaction's answer, and its source claim landed. */
  lemma TakesWithoutGiving(w: World, s: State, es: seq<Event>, i: nat)
    requires Start(w, s) && i < |Steps(w, s, es).runs|
    ensures var r := Steps(w, s, es).runs[i];
            r.took.Some? && r.gave.None? <==> r.stray && r.took.Some?
  {
    StepsKeep(w, s, es);
    assert RunGood(w, Steps(w, s, es), Steps(w, s, es).runs[i]);
  }

  /** In every run: what a run claims, as its target and as its source, is locked by its own hash. */
  lemma ClaimsOwnHash(w: World, s: State, es: seq<Event>, i: nat)
    requires Start(w, s) && i < |Steps(w, s, es).runs|
    ensures var r := Steps(w, s, es).runs[i];
            && (r.gave.Some? ==> Hex.LowerAll(r.gave.value.hash) == Hex.LowerAll(r.hash))
            && (r.took.Some? ==> Hex.LowerAll(r.took.value.hash) == Hex.LowerAll(r.hash))
  {
    StepsKeep(w, s, es);
    assert RunGood(w, Steps(w, s, es), Steps(w, s, es).runs[i]);
  }

  /** In every run, with crashes, repetitions and lost answers: for each hash no more outputs
      locked by it are claimed as sources than as targets, and stray answers to target claims;
      without stray answers, no more than as targets. For bridges and for prize relays. */
  lemma NeverTakeWithoutGiving(w: World, s: State, es: seq<Event>, k: Work, hash: string)
    requires Start(w, s)
    ensures var runs := Steps(w, s, es).runs;
            && CountRuns(runs, k, hash, Took) <= CountRuns(runs, k, hash, Gave) + CountRuns(runs, k, hash, Astray)
            && (NoStrayAnswers(es) ==> CountRuns(runs, k, hash, Took) <= CountRuns(runs, k, hash, Gave))
  {
    var runs := Steps(w, s, es).runs;
    StepsKeep(w, s, es);
    forall i | 0 <= i < |runs| ensures OrderGood(w, runs[i]) { assert RunGood(w, Steps(w, s, es), runs[i]); }
    TakersGave(w, runs, k, hash);
    if NoStrayAnswers(es) {
      NobodyAstray(w, s, es);
      NoneAstray(runs, k, hash);
    }
  }

  // ------------------------------------------------------------------- the ticket bridge

  function Given(runs: seq<Run>): nat {
    if runs == [] then 0 else Given(runs[..|runs| - 1]) + if runs[|runs| - 1].gave.Some? then 1 else 0
  }

  function Taken(runs: seq<Run>): nat {
    if runs == [] then 0 else Taken(runs[..|runs| - 1]) + if runs[|runs| - 1].took.Some? then 1 else 0
  }

  predicate NoRelays(s: State) {
    && (forall i | 0 <= i < |s.runs| :: s.runs[i].work.Bridge?)
    && (forall o | o in s.a.outputs :: o.origin != RelayLock) && (forall o | o in s.c.outputs :: o.origin != RelayLock)
  }

  lemma StepNoRelay(w: World, s: State, e: Event)
    requires Inv(w, s) && NoRelays(s) && !e.StartRelay?
    ensures NoRelays(Apply(w, s, e))
  {
    if e.Send? && e.i < |s.runs| {
      assert RunGood(w, s, s.runs[e.i]);
      if s.runs[e.i].pc.ClaimTarget? || s.runs[e.i].pc.ClaimSource? { ClaimMakesTickets(w, s, e.i, e.fate); }
    }
  }

  lemma ClaimMakes(w: World, l: Ledger, k: nat, tx: TxId)
    requires Claimable(w.setup, l, k)
    ensures forall o | o in Claim(w.setup, l, k, tx).outputs :: o in l.outputs || (o.origin == TicketOut && !o.nft)
    ensures SumOf(Claim(w.setup, l, k, tx).outputs, Nfts) == SumOf(l.outputs, Nfts) - Weight(l.outputs[k], Nfts)
  {
    var o := l.outputs[k];
    assert forall p | p in Without(l.outputs, k) :: p in l.outputs;
    SumWithout(l.outputs, k, Nfts);
    SumWith(Without(l.outputs, k), Output(Ref(tx, 0), o.datum.htlc.desired.address, Wanted(o), false,
                                          DatumOf(o.datum.htlc.desired.datum), TicketOut), Nfts);
  }

  lemma ClaimMakesTickets(w: World, s: State, i: nat, fate: Fate)
    requires NoRelays(s) && i < |s.runs| && (s.runs[i].pc.ClaimTarget? || s.runs[i].pc.ClaimSource?)
    ensures NoRelays(SendClaim(w, s, i, fate))
  {
    hide Claim;
    var h := ClaimHead(s.runs[i]);
    var k := Find(s.On(h).outputs, ClaimRef(s.runs[i]));
    if Claimable(w.setup, s.On(h), k) { ClaimMakes(w, s.On(h), k, s.nextTx); }
  }

  lemma {:induction false} NoRelaysEver(w: World, s: State, es: seq<Event>)
    requires Start(w, s) && forall e | e in es :: !e.StartRelay?
    ensures NoRelays(Steps(w, s, es))
    decreases |es|
  {
    if es != [] {
      var n := |es| - 1;
      NoRelaysEver(w, s, es[..n]);
      StepsKeep(w, s, es[..n]);
      assert es[n] in es;
      StepNoRelay(w, Steps(w, s, es[..n]), es[n]);
    }
  }

  lemma {:induction false} NoLockNoSum(os: seq<Output>)
    requires forall o | o in os :: o.origin != RelayLock
    ensures SumOf(os, RelayLocks) == 0
  {
    if os != [] { NoLockNoSum(os[1..]); }
  }

  lemma {:induction false} BridgeWorth(w: World, runs: seq<Run>)
    requires forall i | 0 <= i < |runs| :: runs[i].work.Bridge? && OrderGood(w, runs[i])
    ensures RunWorth(w, runs) == w.cost * (Taken(runs) - Given(runs))
  {
    if runs != [] {
      var n := |runs| - 1;
      BridgeWorth(w, runs[..n]);
      BridgeRunWorth(w, runs[n]);
      Distribute(w.cost, Taken(runs[..n]) - Given(runs[..n]), Taken(runs) - Given(runs));
    }
  }

  lemma BridgeRunWorth(w: World, r: Run)
    requires r.work.Bridge? && OrderGood(w, r)
    ensures Worth(w, r.gave) == (if r.gave.Some? then 0 - w.cost else 0)
    ensures Worth(w, r.took) == (if r.took.Some? then w.cost else 0)
  {
  }

  lemma Distribute(c: int, a: int, b: int)
    ensures b == a ==> c * b == c * a
    ensures b == a + 1 ==> c * b == c * a + c
    ensures b == a - 1 ==> c * b == c * a - c
  {
  }

  /** The bridge alone: Ida's funds on all heads and her open head-B locks are what she had at
      the start, plus the ticket cost for every source claim and minus it for every target claim. */
  lemma TicketBooks(w: World, s: State, es: seq<Event>)
    requires Start(w, s) && forall e | e in es :: !e.StartRelay?
    ensures var t := Steps(w, s, es);
            t.a.ida + t.b.ida + t.c.ida + SumOf(t.b.outputs, IdaLocks)
            == s.a.ida + s.b.ida + s.c.ida + w.cost * (Taken(t.runs) - Given(t.runs))
  {
    hide Steps, NoRelays, Wealth, RunWorth;
    BooksBalance(w, s, es);
    NoRelaysEver(w, s, es);
    StepsKeep(w, s, es);
    RolesWorth(w, Steps(w, s, es));
    WealthWithoutRelays(w, Steps(w, s, es));
    StartHasNone(w, s);
  }

  lemma RolesWorth(w: World, t: State)
    requires Inv(w, t) && NoRelays(t)
    ensures RunWorth(w, t.runs) == w.cost * (Taken(t.runs) - Given(t.runs))
  {
    forall i | 0 <= i < |t.runs| ensures OrderGood(w, t.runs[i]) { assert RunGood(w, t, t.runs[i]); }
    BridgeWorth(w, t.runs);
  }

  lemma WealthWithoutRelays(w: World, t: State)
    requires LedgersGood(w, t) && NoRelays(t)
    ensures Wealth(t) == t.a.ida + t.b.ida + t.c.ida + SumOf(t.b.outputs, IdaLocks)
  {
    NoLockNoSum(t.a.outputs);
    NoLockNoSum(t.c.outputs);
    OtherHeadsHoldNone(w, t);
  }

  lemma OtherHeadsHoldNone(w: World, s: State)
    requires LedgersGood(w, s)
    ensures SumOf(s.a.outputs, IdaLocks) == 0 && SumOf(s.c.outputs, IdaLocks) == 0
            && SumOf(s.b.outputs, RelayLocks) == 0
  {
    assert HeadGood(w, s, A) && HeadGood(w, s, B) && HeadGood(w, s, C);
    NoneOf(s.a.outputs, IdaLocks);
    NoneOf(s.c.outputs, IdaLocks);
    NoneOf(s.b.outputs, RelayLocks);
  }

  lemma {:induction false} NoneOf(os: seq<Output>, m: Measure)
    requires forall o | o in os :: Weight(o, m) == 0
    ensures SumOf(os, m) == 0
  {
    if os != [] { NoneOf(os[1..], m); }
  }

  lemma StartHasNone(w: World, s: State)
    requires Start(w, s)
    ensures Wealth(s) == s.a.ida + s.b.ida + s.c.ida
  {
    NoneOf(s.b.outputs, IdaLocks);
    NoneOf(s.b.outputs, RelayLocks);
  }

  // ------------------------------------------------------------------------- the lottery

  /** The control token sits in one output; that output has lost the prize as often as it has
      been marked as paid, which is once at most. */
  predicate LotteryGood(w: World, s: State, pot: nat) {
    && s.payouts <= 1 && SumOf(s.b.outputs, Nfts) == 1
    && forall o | o in s.b.outputs && o.nft ::
         && o.address == Script(w.lotteryScript) && o.datum.LotteryDatum?
         && o.datum.lottery.paidWinner == (s.payouts == 1)
           && o.lovelace == (if s.payouts == 1 then pot - w.prize else pot)
  }

  lemma {:induction false} NoNft(os: seq<Output>)
    requires SumOf(os, Nfts) == 0
    ensures forall o | o in os :: !o.nft
  {
    if os != [] { NoNft(os[1..]); }
  }

  lemma LotteryKept(w: World, s: State, s': State, pot: nat)
    requires LotteryGood(w, s, pot) && s'.payouts == s.payouts
    requires SumOf(s'.b.outputs, Nfts) == SumOf(s.b.outputs, Nfts)
    requires forall o | o in s'.b.outputs && o.nft :: o in s.b.outputs
    ensures LotteryGood(w, s', pot)
  {
  }

  lemma StepKeepsLottery(w: World, s: State, e: Event, pot: nat)
    requires Inv(w, s) && LotteryGood(w, s, pot)
    ensures LotteryGood(w, Apply(w, s, e), pot)
  {
    match e
    case Send(i, fate, timeout, payoutTimeout) =>
      if i < |s.runs| && (s.runs[i].pc.Lock? || s.runs[i].pc.LockTarget?) {
        LockKeepsLottery(w, s, i, fate, timeout, payoutTimeout, pot);
      } else if i < |s.runs| && (s.runs[i].pc.ClaimTarget? || s.runs[i].pc.ClaimSource?) {
        ClaimKeepsLottery(w, s, i, fate, pot);
      }
    case PayWinnerTx(lottery, ticket) => PayKeepsLottery(w, s, lottery, ticket, pot);
    case _ =>
  }

  lemma LockKeepsLottery(w: World, s: State, i: nat, fate: Fate, timeout: int, payoutTimeout: int, pot: nat)
    requires Inv(w, s) && LotteryGood(w, s, pot) && i < |s.runs| && (s.runs[i].pc.Lock? || s.runs[i].pc.LockTarget?)
    ensures LotteryGood(w, SendLock(w, s, i, fate, timeout, payoutTimeout), pot)
  {
    assert RunGood(w, s, s.runs[i]);
    SumWith(s.b.outputs, LockOutput(w, s.runs[i], s.nextTx, timeout, payoutTimeout), Nfts);
    LotteryKept(w, s, SendLock(w, s, i, fate, timeout, payoutTimeout), pot);
  }

  lemma ClaimKeepsLottery(w: World, s: State, i: nat, fate: Fate, pot: nat)
    requires Inv(w, s) && LotteryGood(w, s, pot)
    requires i < |s.runs| && (s.runs[i].pc.ClaimTarget? || s.runs[i].pc.ClaimSource?)
    ensures LotteryGood(w, SendClaim(w, s, i, fate), pot)
  {
    var h := ClaimHead(s.runs[i]);
    var k := Find(s.On(h).outputs, ClaimRef(s.runs[i]));
    if h.B? && Lands(fate) && Claimable(w.setup, s.b, k) {
      OnHeadB(w, s, k);
      ClaimMakes(w, s.b, k, s.nextTx);
      LotteryKept(w, s, SendClaim(w, s, i, fate), pot);
    }
  }

  lemma PayKeepsLottery(w: World, s: State, lottery: Ref, ticket: Ref, pot: nat)
    requires Inv(w, s) && LotteryGood(w, s, pot)
    ensures LotteryGood(w, Apply(w, s, PayWinnerTx(lottery, ticket)), pot)
  {
    var i, j := Find(s.b.outputs, lottery), Find(s.b.outputs, ticket);
    if Payable(s.b, i, j) && s.b.outputs[j].datum.ticket.lotteryId == w.lotteryId {
      OnHeadB(w, s, i);
      OnHeadB(w, s, j);
      assert s.b.outputs[i] in s.b.outputs;
      PaidLottery(w, s, i, j, pot);
    }
  }

  lemma PaidLottery(w: World, s: State, i: nat, j: nat, pot: nat)
    requires LotteryGood(w, s, pot) && Payable(s.b, i, j) && OutputGood(w, B, s.b.outputs[i])
    requires s.b.outputs[i] in s.b.outputs && !s.b.outputs[j].nft
    ensures LotteryGood(w, s.(b := PayWinner(w.setup, s.b, i, j, s.nextTx), nextTx := s.nextTx + 1,
                              payouts := s.payouts + 1), pot)
  {
    OneTokenLeft(w, s.b, i, j, s.nextTx);
  }

  /** Of the outputs of the payout only the continuing lottery has the token. */
  lemma OneTokenLeft(w: World, l: Ledger, i: nat, j: nat, tx: TxId)
    requires Payable(l, i, j) && SumOf(l.outputs, Nfts) == 1 && !l.outputs[j].nft
    ensures var l' := PayWinner(w.setup, l, i, j, tx);
            && SumOf(l'.outputs, Nfts) == 1
            && forall o | o in l'.outputs && o.nft ::
                 o == l.outputs[i].(ref := o.ref, lovelace := l.outputs[i].lovelace - l.outputs[i].datum.lottery.prize,
                                    datum := LotteryDatum(l.outputs[i].datum.lottery.(paidWinner := true)))
  {
    var l' := PayWinner(w.setup, l, i, j, tx);
    var n := |l'.outputs| - 2;
    SumRest(l.outputs, i, j, Nfts);
    NoNft(Rest(l.outputs, i, j));
    SumWith(Rest(l.outputs, i, j), l'.outputs[n], Nfts);
    SumWith(Rest(l.outputs, i, j) + [l'.outputs[n]], l'.outputs[n + 1], Nfts);
  }

  /** Over any run: the lottery pays at most once, the prize leaves it exactly when it does, and
      its control token stays where it is. */
  lemma {:induction false} LotteryPaysOnce(w: World, s: State, es: seq<Event>)
    requires Start(w, s)
    ensures LotteryGood(w, Steps(w, s, es), s.b.outputs[0].lovelace)
    decreases |es|
  {
    if es == [] {
      assert SumOf(s.b.outputs[1..], Nfts) == 0;
    } else {
      LotteryPaysOnce(w, s, es[..|es| - 1]);
      StepsKeep(w, s, es[..|es| - 1]);
      StepKeepsLottery(w, Steps(w, s, es[..|es| - 1]), es[|es| - 1], s.b.outputs[0].lovelace);
    }
  }

  // ------------------------------------------------------------- what the lookups find

  /** Every lookup of a bridge or a relay, the first scan included, finds outputs at the script
      that Ida can claim, locked by the hash of the run. */
  lemma FindsOwnHash(w: World, s: State, i: nat, pick: Option<Ref>, sourceSeen: bool, now: int)
    requires i < |s.runs| && Apply(w, s, Read(i, pick, sourceSeen, now)).runs[i].pc != s.runs[i].pc && pick.Some?
    ensures var r := s.runs[i];
            exists o :: o in s.On(ReadHead(r)).outputs && o.ref == pick.value
              && o.address == Script(w.setup.htlcScript) && o.datum.HtlcDatum? && o.datum.htlc.receiver == w.setup.ida
              && Hex.LowerAll(o.datum.htlc.hash) == Hex.LowerAll(r.hash)
              && (r.pc.Detect? ==> o.ref.tx == r.pc.lockTx) && (r.pc.Redetect? ==> o.ref.tx == r.sourceTx)
              && (r.pc.FindTarget? || r.pc.FindAgain? ==> LovelaceOf(o.datum.htlc.desired.value) == w.prize)
  {
    var os := s.On(ReadHead(s.runs[i])).outputs;
    FindAt(os, pick.value);
  }

  // ------------------------------------------------------------- what the relay picks up

  /** The relay's lookup on head B asks for the hash and the receiver only. It finds the winner's
      payout if and only if the output it found asks for an output at Ida's own address; else it
      is a lock that Ida herself made for the same hash and has not claimed. */
  lemma RelaySource(w: World, s: State, r: Run, o: Output, now: int)
    requires Inv(w, s) && r.pc.FindSource? && o in s.b.outputs && Accepts(w, r, o, now)
    ensures o.origin in {PayoutLock, IdaLock}
    ensures o.origin == PayoutLock <==> o.datum.htlc.desired.address == Key(w.setup.ida)
  {
    assert s.On(B) == s.b && OutputGood(w, B, o);
  }

  /** Its lookup on the winner's head asks for hash, receiver and prize. It finds Ida's own lock if
      and only if the output it found asks for an output at another address than hers, which is so
      whenever ticket cost and prize differ; else it is the winner's lock for the ticket. */
  lemma RelayTarget(w: World, s: State, r: Run, o: Output, now: int)
    requires Inv(w, s) && RunGood(w, s, r) && (r.pc.FindTarget? || r.pc.FindAgain?)
    requires o in s.On(r.head).outputs && Accepts(w, r, o, now)
    ensures o.origin in {RelayLock, Origin.UserLock}
    ensures o.origin == RelayLock <==> o.datum.htlc.desired.address != Key(w.setup.ida)
    ensures w.cost != w.prize ==> o.origin == RelayLock
  {
    assert HeadGood(w, s, r.head) && OutputGood(w, r.head, o);
  }
}
