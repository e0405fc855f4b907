/** The automation as it runs from top to bottom, one access to a head after the other:
    `buyTicket` with its lock and its claims, the lottery's payout, and the prize relay. Each is
    proved against the steps of `BridgeRuns`, among which other runs may come in between. */
module Automation {
  import opened Options
  import opened HtlcData
  import opened HeadLedger
  import opened BridgeRuns
  import opened BridgeBooks
  import opened AutomationSteps
  import opened AutomationResults
  import Hex

  /** The payload of a buy-ticket workflow. */
  datatype Order = Order(head: Head, amount: int, timeoutMinutes: int, hash: string, buyer: string,
                         sourceTx: Option<TxId>, sourceRef: bool, preimage: bool)

  predicate IsHex(s: string) {
    s != [] && forall c | c in s :: Hex.IsDigit(Hex.Lower(c))
  }

  predicate ValidOrder(o: Order) {
    o.amount > 0 && !o.head.B? && IsHex(Hex.Trim(o.hash)) && o.timeoutMinutes > 0
  }

  /** An order is refused unless it asks for something, from head A or C, for some minutes, under a
      hash of hexadecimal digits, white space around them aside. */
  lemma ValidOrderIff(o: Order)
    ensures ValidOrder(o) <==>
      && o.amount > 0 && (o.head == A || o.head == C) && o.timeoutMinutes > 0
      && var hash := Hex.Trim(o.hash);
         |hash| > 0 && forall k | 0 <= k < |hash| :: hash[k] in "0123456789abcdefABCDEF"
  {
    var hash := Hex.Trim(o.hash);
    forall k | 0 <= k < |hash| ensures Hex.IsDigit(Hex.Lower(hash[k])) <==> hash[k] in "0123456789abcdefABCDEF" {
      HexDigit(hash[k]);
    }
    assert IsHex(hash) <==> |hash| > 0 && forall k | 0 <= k < |hash| :: Hex.IsDigit(Hex.Lower(hash[k])) by {
      forall k | 0 <= k < |hash| ensures hash[k] in hash {}
    }
  }

  lemma HexDigit(c: char)
    ensures Hex.IsDigit(Hex.Lower(c)) <==> c in "0123456789abcdefABCDEF"
  {
    if '0' <= c <= '9' { assert "0123456789abcdefABCDEF"[c as int - 48] == c; }
    if 'a' <= c <= 'f' { assert "0123456789abcdefABCDEF"[c as int - 87] == c; }
    if 'A' <= c <= 'F' { assert "0123456789abcdefABCDEF"[c as int - 49] == c; }
  }

  /** As many minutes after each reading of the clock as the order says. */
  function Timeouts(o: Order, clock: Times): Times {
    Times(clock.payout + o.timeoutMinutes * 60000, clock.lock + o.timeoutMinutes * 60000)
  }

  class Service {
    const w: World
    var state: State

    /** Ida's wallets and locks, less what the claims of the runs were worth, when it began. */
    ghost const opening: int

    /** Besides the invariant of all runs, Ida's books balance. */
    ghost predicate Valid()
      reads this
    {
      Inv(w, state) && Wealth(state) - RunWorth(w, state.runs) == opening
    }

    constructor (w: World, s: State)
      requires Inv(w, s)
      ensures Valid() && this.w == w && state == s && opening == Wealth(s) - RunWorth(w, s.runs)
    {
      this.w := w;
      state := s;
      opening := Wealth(s) - RunWorth(w, s.runs);
    }

    method Do(e: Event)
      requires Valid()
      modifies this
      ensures Valid() && state == Apply(w, old(state), e)
    {
      ApplyKeeps(w, state, e);
      StepBalances(w, state, e);
      state := Apply(w, state, e);
    }

    /** The first output that the lookup of run `r` accepts. */
    method LookUp(r: Run, now: int) returns (pick: Option<Ref>)
      ensures pick == PickAt(w, r, state.On(ReadHead(r)).outputs, now)
    {
      var os := state.On(ReadHead(r)).outputs;
      for k := 0 to |os|
        invariant forall j | 0 <= j < k :: !Accepts(w, r, os[j], now)
      {
        if Accepts(w, r, os[k], now) { return Some(os[k].ref); }
      }
      pick := None;
    }

    /** A lookup, and where it leads. */
    method ReadNext(i: nat, sourceSeen: bool, now: int)
      requires Valid() && i < |state.runs|
      modifies this
      ensures Valid() && state == Look(w, old(state), i, sourceSeen, now)
    {
      var pick := LookUp(state.runs[i], now);
      LookIsRead(w, state, i, sourceSeen, now);
      Do(Read(i, pick, sourceSeen, now));
    }

    /** The lock that is there already, or a new one. */
    method EnsureHeadBIdaLock(i: nat, now: int, times: Times, fate: Fate) returns (ok: bool)
      requires Valid() && i < |state.runs| && state.runs[i].pc.Scan?
      modifies this
      ensures Valid() && state == Ensured(w, old(state), i, now, times, fate)
      ensures LockEnsured(w, old(state), old(state.runs[i]), now, times, fate, state.b)
      ensures var t, r := old(state), old(state.runs[i]);
              && ok == !LockFails(w, t, r, now, fate) && state.b == HeadBThen(w, t, r, now, times, fate)
              && state.a == t.a && state.c == t.c && state.userTxs == t.userTxs
              && state.runs == t.runs[i := r.(pc := if ok then Detect(LockTx(w, t, r, now)) else Over)]
    {
      hide LockEnsured, Inv, Wealth, RunWorth, HeadBThen, LockTx;
      EnsuredMeans(w, state, i, now, times, fate);
      LockIsBuilt(w, state, i, now, times, fate);
      ReadNext(i, false, now);
      if state.runs[i].pc.Detect? { return true; }
      Do(Send(i, fate, times.lock, times.payout));
      ok := state.runs[i].pc.Detect?;
    }

    /** One claim, as it ends inside the time it is built for: whether `sendTx` returns, what the
        run has then spent, and the head's outputs and wallets. */
    method ClaimIdaHtlcOnHead(i: nat, fate: Fate, now: int) returns (ok: bool)
      requires Valid() && i < |state.runs| && Claims(state.runs[i])
      modifies this
      ensures var t := old(state);
              var f := FateAt(t, i, fate, now);
              && Valid() && state == SendClaim(w, t, i, f) && ok == ClaimReturns(w, t, i, f)
              && state.runs == t.runs[i := Claimed(t.runs[i], SpentBy(w, t, i, f), ok)]
              && forall h: Head :: state.On(h) == if h == ClaimHead(t.runs[i]) then ClaimedOn(w, t, i, f) else t.On(h)
    {
      var f := FateAt(state, i, fate, now);
      hide Inv, Wealth, RunWorth;
      ok := ClaimReturns(w, state, i, f);
      ClaimMeans(w, state, i, f);
      hide ClaimedOn, SpentBy, Claimed, ClaimReturns;
      Do(Send(i, f, 0, 0));
    }

    /** `detectIdaHtlcPair` before the claims: both locks have to be there. */
    method DetectPair(i: nat, now: int) returns (source: bool, both: bool)
      requires Valid() && i < |state.runs| && state.runs[i].pc.Detect?
      modifies this
      ensures Valid() && state == Look(w, old(state), i, source, now)
      ensures source == SomeAccepted(w, old(state.runs[i]).(pc := Redetect), state.On(state.runs[i].head).outputs, now)
      ensures both == (source && SomeAccepted(w, old(state.runs[i]), state.b.outputs, now))
      ensures if both then state.runs[i].pc.ClaimTarget? else state.runs[i].pc.Over?
      ensures source == HasSource(w, old(state), old(state.runs[i]), now)
    {
      var sourceHtlc := LookUp(state.runs[i].(pc := Redetect), now);
      source := sourceHtlc.Some?;
      ReadNext(i, source, now);
      both := state.runs[i].pc.ClaimTarget?;
    }

    /** The target claim, a second look at the source, and the source claim. */
    method ClaimPair(i: nat, fates: Fates, now: int, lockTx: TxId) returns (r: Answer)
      requires Valid() && i < |state.runs| && state.runs[i].pc.ClaimTarget? && state.runs[i].pc.next.None?
      modifies this
      ensures Valid() && Ran(r, state) == PairClaimed(w, old(state), i, fates, now, lockTx)
    {
      var given := ClaimIdaHtlcOnHead(i, fates.target, now);
      if !given { return Thrown(ClaimFailed); }
      ReadNext(i, true, now);
      if state.runs[i].pc.Over? { return Done(lockTx, false); }
      var taken := ClaimIdaHtlcOnHead(i, fates.source, now);
      r := if taken then Done(lockTx, true) else Thrown(ClaimFailed);
    }

    /** One execution of `buyTicket`, as run `|state.runs|`. */
    method BuyTicket(o: Order, fates: Fates, now: int, clock: Times) returns (r: Answer)
      requires Valid() && (o.sourceTx.Some? ==> o.sourceTx.value in state.userTxs)
      modifies this
      ensures Valid()
      ensures
        if !ValidOrder(o) then r == Thrown(InvalidInput) && state == old(state)
        else if o.sourceTx.None? || !o.sourceRef then r == Thrown(RealArtifactsRequired) && state == old(state)
        else if !o.preimage then r == Thrown(PreimageRequired) && state == old(state)
        else
          var i, start := |old(state.runs)|, StartBridge(o.head, o.sourceTx.value, Hex.Normal(o.hash), o.buyer);
          var s := Apply(w, old(state), start);
          && Ran(r, state) == BuyFrom(w, s, i, fates, now, Timeouts(o, clock)) && |state.runs| == i + 1
          && Bought(w, s, s.runs[i], fates, now, Timeouts(o, clock), r, state.runs[i]) && Ended(state.runs[i], fates, r)
          && Sells(w, s, s.runs[i], fates, now,
                   Times(clock.payout + 60000 * o.timeoutMinutes, clock.lock + 60000 * o.timeoutMinutes),
                   r, state.runs[i], state)
    {
      hide Inv, BuyFrom, Bought, Ended, Wealth, RunWorth, Sells;
      if !ValidOrder(o) { return Thrown(InvalidInput); }
      if o.sourceTx.None? || !o.sourceRef { return Thrown(RealArtifactsRequired); }
      if !o.preimage { return Thrown(PreimageRequired); }
      var i := |state.runs|;
      Do(StartBridge(o.head, o.sourceTx.value, Hex.Normal(o.hash), o.buyer));
      BuyEnds(w, state, i, fates, now, Timeouts(o, clock));
      BuySells(w, state, i, fates, now, Timeouts(o, clock));
      r := Buy(i, fates, now, Timeouts(o, clock));
    }

    /** Behind the checks of the payload. */
    method Buy(i: nat, fates: Fates, now: int, times: Times) returns (r: Answer)
      requires Valid() && i < |state.runs| && state.runs[i].pc.Scan?
      modifies this
      ensures Valid() && Ran(r, state) == BuyFrom(w, old(state), i, fates, now, times)
    {
      var locked := EnsureHeadBIdaLock(i, now, times, fates.lock);
      if !locked { return Thrown(AutomationFailed); }
      var lockTx := state.runs[i].pc.lockTx;
      var source, both := DetectPair(i, now);
      if !source { return Thrown(SourceHtlcNotFound); }
      if !both { return Thrown(TargetHtlcNotFound); }
      r := ClaimPair(i, fates, now, lockTx);
    }

    /** The prize relay: the winner's payout on head B is the source, Ida's lock on the winner's
        head the target, which is made if it is not there yet. */
    method RelayPayRandomLotteryWinner(hash: string, buyer: string, charlie: string, fates: Fates, now: int)
        returns (r: Answer)
      requires Valid() && buyer != w.setup.ida
      modifies this
      ensures Valid()
      ensures var i, head := |old(state.runs)|, if buyer == charlie then C else A;
              var s := Apply(w, old(state), StartRelay(head, hash, buyer));
              && Ran(r, state) == RelayFrom(w, s, i, fates, now) && |state.runs| == i + 1
              && Relayed(w, s, s.runs[i], fates, now, r, state.runs[i]) && RelayEnded(w, state.runs[i], fates, r)
              && Relaying(w, s, s.runs[i], fates, now, r, state.runs[i], state) && state.runs[i].head == head
    {
      hide Inv, TargetFrom, Relayed, RelayEnded, Relaying, Wealth, RunWorth;
      var i := |state.runs|;
      Do(StartRelay(if buyer == charlie then C else A, hash, buyer));
      r := Relay(i, fates, now);
    }

    method Relay(i: nat, fates: Fates, now: int) returns (r: Answer)
      requires Valid() && i < |state.runs| && state.runs[i].pc.FindSource?
      modifies this
      ensures Valid() && Ran(r, state) == RelayFrom(w, old(state), i, fates, now)
      ensures |state.runs| == old(|state.runs|) && state.runs[i].head == old(state.runs[i].head)
      ensures Relayed(w, old(state), old(state.runs[i]), fates, now, r, state.runs[i])
      ensures RelayEnded(w, state.runs[i], fates, r)
      ensures Relaying(w, old(state), old(state.runs[i]), fates, now, r, state.runs[i], state)
    {
      hide Inv, TargetFrom, Relayed, RelayEnded, Relaying, Wealth, RunWorth;
      ghost var s := state;
      ReadNext(i, true, now);
      if state.runs[i].pc.Over? { r := Thrown(SourceHtlcNotFound); } else { r := RelayFound(i, fates, now); }
      RelayEnds(w, s, i, fates, now);
      RelayRelays(w, s, i, fates, now);
    }

    /** Looks for the target, which is locked if it is not there, and claims. */
    method RelayFound(i: nat, fates: Fates, now: int) returns (r: Answer)
      requires Valid() && i < |state.runs| && state.runs[i].pc.FindTarget?
      modifies this
      ensures Valid() && Ran(r, state) == TargetFrom(w, old(state), i, fates, now)
    {
      hide Inv, RelayClaimed, Wealth, RunWorth;
      var timeout := TimeoutAt(state.b.outputs, state.runs[i].pc.source);
      ReadNext(i, true, now);
      if !state.runs[i].pc.ClaimTarget? {
        Do(Send(i, fates.lock, timeout, 0));
        if state.runs[i].pc.Over? { return Thrown(AutomationFailed); }
        ReadNext(i, true, now);
        if state.runs[i].pc.Over? { return Thrown(TargetHtlcNotFound); }
      }
      r := ClaimRelayed(i, fates, now);
    }

    method ClaimRelayed(i: nat, fates: Fates, now: int) returns (r: Answer)
      requires Valid() && i < |state.runs| && state.runs[i].pc.ClaimTarget? && state.runs[i].pc.next.Some?
      modifies this
      ensures Valid() && Ran(r, state) == RelayClaimed(w, old(state), i, fates, now)
    {
      var given := ClaimIdaHtlcOnHead(i, fates.target, now);
      if !given { return Thrown(ClaimFailed); }
      var taken := ClaimIdaHtlcOnHead(i, fates.source, now);
      r := if taken then Done(0, true) else Thrown(ClaimFailed);
    }

    /** The tickets of this lottery, in the order of the snapshot. */
    method PickTickets() returns (eligible: seq<Output>)
      ensures eligible == Eligible(w, state.b.outputs)
    {
      eligible := [];
      for k := 0 to |state.b.outputs|
        invariant eligible == Eligible(w, state.b.outputs[..k])
      {
        assert state.b.outputs[..k + 1][..k] == state.b.outputs[..k];
        if IsTicket(w, state.b.outputs[k]) { eligible := eligible + [state.b.outputs[k]]; }
      }
      assert state.b.outputs[..|state.b.outputs|] == state.b.outputs;
    }

    /** `submitPayRandomLotteryWinnerOnHeadB`; `draw` is the random number. */
    method SubmitPayRandomLotteryWinner(draw: nat, now: int, fate: Fate) returns (code: Option<Code>)
      requires Valid()
      modifies this
      ensures Valid() && Drawn(w, old(state), draw, now, fate, code, state)
      ensures state.runs == old(state.runs) && Wealth(state) == old(Wealth(state))
      ensures code.Some? && code != Some(PayoutFailed) ==> state == old(state)
      ensures state.payouts == old(state.payouts) ==> state == old(state)
    {
      var k := FindLottery();
      if k == |state.b.outputs| { return Some(LotteryNotFound); }
      OnHeadB(w, state, k);
      var lottery := state.b.outputs[k];
      if lottery.datum.lottery.paidWinner { return Some(AlreadyPaid); }
      if now < lottery.datum.lottery.closeTimestamp + GRACE { return Some(TooEarly); }
      var tickets := PickTickets();
      if tickets == [] { return Some(NoTickets); }
      var ticket := tickets[draw % |tickets|];
      EligibleWithin(w, state.b.outputs, ticket);
      PayoutHappens(w, state, k, ticket);
      code := SendPayout(lottery, ticket, fate);
    }

    /** Sends the transaction, and says what the caller sees of it. */
    method SendPayout(lottery: Output, ticket: Output, fate: Fate) returns (code: Option<Code>)
      requires Valid()
      modifies this
      ensures Valid()
      ensures state == if Lands(fate) then Apply(w, old(state), PayWinnerTx(lottery.ref, ticket.ref)) else old(state)
      ensures state.runs == old(state.runs) && Wealth(state) == old(Wealth(state))
      ensures code.None? <==> if state == old(state) then fate.StrayAnswer? else fate.Applied?
      ensures code.Some? ==> code == Some(PayoutFailed)
    {
      var before := state.payouts;
      if Lands(fate) { Do(PayWinnerTx(lottery.ref, ticket.ref)); }
      var returns' := if state.payouts == before then fate.StrayAnswer? else fate.Applied?;
      code := if returns' then None else Some(PayoutFailed);
    }

    /** The output with the control token. */
    method FindLottery() returns (k: nat)
      ensures k == ControlAt(state.b.outputs)
    {
      k := 0;
      while k < |state.b.outputs| && !state.b.outputs[k].nft
        invariant k <= |state.b.outputs| && forall m | 0 <= m < k :: !state.b.outputs[m].nft
      {
        k := k + 1;
      }
    }
  }
}
