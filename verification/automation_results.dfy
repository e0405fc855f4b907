/** What the automation comes to when nothing goes wrong, down to the fields of the outputs it
    makes and the lovelace that moves. */
module AutomationResults {
  import opened Options
  import opened HtlcData
  import opened HeadLedger
  import opened BridgeRuns
  import opened BridgeBooks
  import opened AutomationSteps
  import Hex

  /** 20 minutes before the timeout are a time, and still to come. */
  predicate StillOpen(timeout: int, now: int) {
    timeout > 1200000 && now + 1200000 <= timeout
  }

  // ------------------------------------------------------------------ what is built

  /** Where the winner's prize is to go: to Ida, for the hash and the buyer of this purchase. */
  predicate WinnersPayout(w: World, r: Run, timeout: int, h: Htlc) {
    && h.hash == Hex.LowerAll(r.hash) && h.timeout == timeout && h.sender == r.buyer && h.receiver == w.setup.ida
    && h.desired.address == Key(w.setup.ida) && LovelaceOf(h.desired.value) == w.prize && h.desired.datum.None?
  }

  predicate BuyersTicket(w: World, r: Run, timeout: int, t: Ticket) {
    && t.lotteryId == w.lotteryId && t.address == Script(w.setup.htlcScript)
    && t.datum.Some? && t.datum.value.HtlcInline? && WinnersPayout(w, r, timeout, t.datum.value.htlc)
  }

  /** Ida's lock on head B: her own ticket cost, for the ticket of this purchase. */
  predicate TicketLock(w: World, r: Run, times: Times, tx: TxId, o: Output) {
    && o.ref == Ref(tx, 0) && o.address == Script(w.setup.htlcScript) && o.lovelace == w.cost && !o.nft
    && o.datum.HtlcDatum? && o.datum.htlc.hash == Hex.LowerAll(r.hash) && o.datum.htlc.timeout == times.lock
    && o.datum.htlc.sender == w.setup.ida && o.datum.htlc.receiver == w.setup.ida
    && var d := o.datum.htlc.desired;
       && d.address == Script(w.ticketScript) && LovelaceOf(d.value) == w.cost
       && d.datum.Some? && d.datum.value.TicketInline? && BuyersTicket(w, r, times.payout, d.datum.value.ticket)
  }

  /** Ida's lock on the winner's head: the prize, for the winner's own address. */
  predicate PrizeLock(w: World, r: Run, timeout: int, tx: TxId, o: Output) {
    && o.ref == Ref(tx, 0) && o.address == Script(w.setup.htlcScript) && o.lovelace == w.prize && !o.nft
    && o.datum.HtlcDatum? && o.datum.htlc.hash == Hex.LowerAll(r.hash) && o.datum.htlc.timeout == timeout
    && o.datum.htlc.sender == w.setup.ida && o.datum.htlc.receiver == w.setup.ida
    && var d := o.datum.htlc.desired;
       d.address == Key(r.buyer) && LovelaceOf(d.value) == w.prize && d.datum.None?
  }

  /** One output more, at the end, paid by Ida. */
  predicate PaidByIda(l: Ledger, l': Ledger, n: nat) {
    && l'.ida == l.ida - n && l'.others == l.others && |l'.outputs| == |l.outputs| + 1
    && l'.outputs[..|l.outputs|] == l.outputs
  }

  /** What happens to head B when the lock is ensured. */
  predicate LockEnsured(w: World, s: State, r: Run, now: int, times: Times, fate: Fate, l': Ledger) {
    if Reuses(w, s, r, now) || s.b.ida < w.cost || !Lands(fate) then l' == s.b
    else PaidByIda(s.b, l', w.cost) && TicketLock(w, r, times, s.nextTx, l'.outputs[|s.b.outputs|])
  }

  lemma LockIsBuilt(w: World, s: State, i: nat, now: int, times: Times, fate: Fate)
    requires i < |s.runs| && s.runs[i].pc.Scan?
    ensures LockEnsured(w, s, s.runs[i], now, times, fate, Ensured(w, s, i, now, times, fate).b)
  {
    EnsuredMeans(w, s, i, now, times, fate);
  }

  lemma PrizeLockIsBuilt(w: World, s: State, i: nat, fate: Fate, timeout: int)
    requires i < |s.runs| && s.runs[i].pc.LockTarget? && Lands(fate) && s.On(s.runs[i].head).ida >= w.prize
    ensures var r, s' := s.runs[i], SendLock(w, s, i, fate, timeout, 0);
            var l := s.On(r.head);
            && PaidByIda(l, s'.On(r.head), w.prize)
            && PrizeLock(w, r, timeout, s.nextTx, s'.On(r.head).outputs[|l.outputs|])
  {
  }

  // ------------------------------------------------------------------ what is claimed

  /** The target of a bridge becomes a ticket, which costs Ida her lock and nothing else. */
  lemma TicketMade(w: World, l: Ledger, k: nat, tx: TxId)
    requires k < |l.outputs| && OutputGood(w, B, l.outputs[k]) && l.outputs[k].origin == IdaLock
    requires l.outputs[k].datum.htlc.receiver == w.setup.ida
    ensures Claimable(w.setup, l, k)
    ensures var l', d := Claim(w.setup, l, k, tx), l.outputs[k].datum.htlc.desired;
            && l'.ida == l.ida && l'.others == l.others && |l'.outputs| == |l.outputs|
            && l'.outputs[..|l.outputs| - 1] == l.outputs[..k] + l.outputs[k + 1..]
            && var o := l'.outputs[|l.outputs| - 1];
               && o.address == Script(w.ticketScript) && o.lovelace == w.cost
               && d.datum.Some? && d.datum.value.TicketInline? && o.datum == TicketDatum(d.datum.value.ticket)
  {
  }

  /** What asks for Ida's address is hers. */
  lemma LockTaken(w: World, l: Ledger, h: Head, k: nat, tx: TxId, n: nat)
    requires k < |l.outputs| && OutputGood(w, h, l.outputs[k]) && l.outputs[k].datum.HtlcDatum?
    requires l.outputs[k].datum.htlc.receiver == w.setup.ida && LockGood(w, l.outputs[k], n)
    requires l.outputs[k].datum.htlc.desired.address == Key(w.setup.ida)
    ensures Claimable(w.setup, l, k)
    ensures Claim(w.setup, l, k, tx) == Ledger(l.ida + n, l.others, l.outputs[..k] + l.outputs[k + 1..])
  {
  }

  /** What asks for somebody else's address is theirs. */
  lemma PrizeGiven(w: World, l: Ledger, k: nat, tx: TxId)
    requires k < |l.outputs| && LockGood(w, l.outputs[k], w.prize) && l.outputs[k].datum.htlc.receiver == w.setup.ida
    requires l.outputs[k].datum.htlc.desired.address.Key? && l.outputs[k].datum.htlc.desired.address != Key(w.setup.ida)
    ensures Claimable(w.setup, l, k)
    ensures Claim(w.setup, l, k, tx) == Ledger(l.ida, l.others + w.prize, l.outputs[..k] + l.outputs[k + 1..])
  {
  }

  // ---------------------------------------------------------------- a ticket is bought

  lemma OpenIsApplied(timeout: int, now: int)
    ensures InWindow(Applied, timeout, now) == if StillOpen(timeout, now) then Applied else Rejected
    ensures InWindow(AppliedButThrows, timeout, now) == if StillOpen(timeout, now) then AppliedButThrows else Rejected
    ensures InWindow(StrayAnswer, timeout, now) == if timeout > 1200000 then StrayAnswer else Rejected
    ensures InWindow(Rejected, timeout, now) == Rejected
  {
  }

  /** A claim that lands, of what a lookup has found. */
  lemma ClaimLands(w: World, s: State, i: nat, k: nat, now: int)
    requires Inv(w, s) && i < |s.runs| && Claims(s.runs[i])
    requires var os := s.On(ClaimHead(s.runs[i])).outputs;
             && k < |os| && os[k].ref == ClaimRef(s.runs[i]) && IsHtlcFor(w, os[k], s.runs[i].hash)
             && Find(os, os[k].ref) == k && StillOpen(os[k].datum.htlc.timeout, now)
    ensures var h := ClaimHead(s.runs[i]);
            && FateAt(s, i, Applied, now) == Applied && ClaimReturns(w, s, i, Applied)
            && Claimable(w.setup, s.On(h), k)
            && SendClaim(w, s, i, Applied) ==
                 s.Put(h, Claim(w.setup, s.On(h), k, s.nextTx))
                  .SetRun(i, Claimed(s.runs[i], Some(SpentOf(s.On(h).outputs[k])), true)).(nextTx := s.nextTx + 1)
  {
    FoundIsSpendable(w, s, i, k);
  }

  lemma FirstFound(w: World, r: Run, os: seq<Output>, now: int)
    ensures var k := FirstAt(w, r, os, now); k < |os| ==> Find(os, os[k].ref) <= k
  {
  }

  /** The first that a lookup accepts is the first of its reference. */
  lemma FirstOfItsRef(w: World, s: State, r: Run, h: Head, now: int)
    requires Inv(w, s)
    ensures var os := s.On(h).outputs;
            var k := FirstAt(w, r, os, now);
            k < |os| ==> Find(os, os[k].ref) == k
  {
    var os := s.On(h).outputs;
    var k := FirstAt(w, r, os, now);
    if k < |os| {
      FirstFound(w, r, os, now);
      OneOutputPerRef(w, s, h, k);
    }
  }

  /** Both claims of a bridge land. */
  lemma OpenPair(w: World, s: State, i: nat, fates: Fates, now: int, lockTx: TxId, j: nat, k: nat)
    requires Inv(w, s) && i < |s.runs| && s.runs[i].work.Bridge?
    requires j < |s.b.outputs| && s.runs[i].pc == ClaimTarget(s.b.outputs[j].ref, None)
    requires IsHtlcFor(w, s.b.outputs[j], s.runs[i].hash) && Find(s.b.outputs, s.b.outputs[j].ref) == j
    requires var os := s.On(s.runs[i].head).outputs;
             && k < |os| && k == FirstAt(w, s.runs[i].(pc := Redetect), os, now)
             && StillOpen(s.b.outputs[j].datum.htlc.timeout, now) && StillOpen(os[k].datum.htlc.timeout, now)
    requires fates.target == Applied && fates.source == Applied
    ensures var h, s' := s.runs[i].head, PairClaimed(w, s, i, fates, now, lockTx).state;
            && Claimable(w.setup, s.b, j) && Claimable(w.setup, s.On(h), k) && !h.B?
            && s'.b == Claim(w.setup, s.b, j, s.nextTx) && s'.On(h) == Claim(w.setup, s.On(h), k, s.nextTx + 1)
  {
    hide Inv, SendClaim, FateAt, ClaimReturns, IsHtlcFor, Accepts, Claim;
    var r := s.runs[i];
    FirstOfItsRef(w, s, r.(pc := Redetect), r.head, now);
    OpenTarget(w, s, i, now, j);
    var s1 := SendClaim(w, s, i, Applied);
    AcceptsAlike(w, r, s1.runs[i], now);
    FirstAtAlike(w, r.(pc := Redetect), s1.runs[i], s.On(r.head).outputs, now);
    OpenSource(w, s1, i, now, k);
  }

  lemma AcceptsAlike(w: World, r: Run, r': Run, now: int)
    requires r' == r.(pc := Redetect, gave := r'.gave)
    ensures forall o :: Accepts(w, r', o, now) <==> Accepts(w, r.(pc := Redetect), o, now)
  {
  }

  lemma OpenTarget(w: World, s: State, i: nat, now: int, j: nat)
    requires Inv(w, s) && i < |s.runs| && s.runs[i].work.Bridge?
    requires j < |s.b.outputs| && s.runs[i].pc == ClaimTarget(s.b.outputs[j].ref, None)
    requires IsHtlcFor(w, s.b.outputs[j], s.runs[i].hash) && Find(s.b.outputs, s.b.outputs[j].ref) == j
    requires StillOpen(s.b.outputs[j].datum.htlc.timeout, now)
    ensures var r, s1 := s.runs[i], SendClaim(w, s, i, Applied);
            && FateAt(s, i, Applied, now) == Applied && ClaimReturns(w, s, i, Applied) && !r.head.B?
            && Inv(w, s1) && |s1.runs| == |s.runs| && s1.runs[i] == r.(pc := Redetect, gave := s1.runs[i].gave)
            && Claimable(w.setup, s.b, j) && s1.b == Claim(w.setup, s.b, j, s.nextTx)
            && s1.On(r.head) == s.On(r.head) && s1.nextTx == s.nextTx + 1
  {
    assert RunGood(w, s, s.runs[i]);
    ClaimLands(w, s, i, j, now);
    ClaimKeeps(w, s, i, Applied);
  }

  lemma OpenSource(w: World, s: State, i: nat, now: int, k: nat)
    requires Inv(w, s) && i < |s.runs| && s.runs[i].work.Bridge? && s.runs[i].pc == Redetect
    requires var os := s.On(s.runs[i].head).outputs;
             && k < |os| && k == FirstAt(w, s.runs[i], os, now) && Find(os, os[k].ref) == k
             && StillOpen(os[k].datum.htlc.timeout, now)
    ensures var h, s1 := s.runs[i].head, Look(w, s, i, true, now);
            && s1.runs[i].pc.ClaimSource? && FateAt(s1, i, Applied, now) == Applied && Claimable(w.setup, s.On(h), k)
            && SendClaim(w, s1, i, Applied).On(h) == Claim(w.setup, s.On(h), k, s.nextTx)
            && (!h.B? ==> SendClaim(w, s1, i, Applied).b == s.b)
  {
    LookKeeps(w, s, i, true, now);
    ClaimLands(w, Look(w, s, i, true, now), i, k, now);
  }

  /** A new lock that lands is the last output of head B, and the first that is found there. */
  lemma FreshLock(w: World, s: State, i: nat, now: int, times: Times)
    requires Inv(w, s) && i < |s.runs| && s.runs[i].pc.Scan?
    requires !Reuses(w, s, s.runs[i], now) && s.b.ida >= w.cost
    ensures var r, n, s1 := s.runs[i], |s.b.outputs|, Ensured(w, s, i, now, times, Applied);
            && Inv(w, s1) && s1.runs == s.runs[i := r.(pc := Detect(s.nextTx))] && !r.head.B? && r.work.Bridge?
            && s1.On(r.head) == s.On(r.head) && PaidByIda(s.b, s1.b, w.cost)
            && TicketLock(w, r, times, s.nextTx, s1.b.outputs[n]) && s1.b.outputs[n].origin == IdaLock
            && FirstAt(w, s1.runs[i], s1.b.outputs, now) == n && Find(s1.b.outputs, s1.b.outputs[n].ref) == n
  {
    var r, n, s1 := s.runs[i], |s.b.outputs|, Ensured(w, s, i, now, times, Applied);
    assert RunGood(w, s, r);
    EnsuredMeans(w, s, i, now, times, Applied);
    EnsuredKeeps(w, s, i, now, times, Applied);
    LockIsBuilt(w, s, i, now, times, Applied);
    hide Ensured, Inv, HeadBThen;
    Hex.LowerTwice(r.hash);
    OnlyNewest(w, s, s1.b.outputs, s1.runs[i], now);
    assert Accepts(w, s1.runs[i], s1.b.outputs[n], now);
  }

  /** No other output of head B is of the newest transaction. */
  lemma OnlyNewest(w: World, s: State, os: seq<Output>, r: Run, now: int)
    requires Inv(w, s) && |os| == |s.b.outputs| + 1 && os[..|s.b.outputs|] == s.b.outputs
    requires os[|s.b.outputs|].ref == Ref(s.nextTx, 0) && r.pc == Detect(s.nextTx)
    ensures Find(os, os[|s.b.outputs|].ref) == |s.b.outputs| && FirstAt(w, r, os, now) >= |s.b.outputs|
  {
    forall k | 0 <= k < |s.b.outputs| ensures os[k].ref.tx < s.nextTx {
      NoSuchTx(w, s, s.b.outputs, k);
      assert os[..|s.b.outputs|][k] == os[k];
    }
  }

  /** The ticket is there, paid with Ida's money on head B, and Ida has its cost on the buyer's
      head. Nothing else has moved. */
  predicate TicketSold(w: World, s: State, r: Run, times: Times, k: nat, s': State)
    requires k < |s.On(r.head).outputs|
  {
    var n, source := |s.b.outputs|, s.On(r.head);
    && s'.b.ida == s.b.ida - w.cost && s'.b.others == s.b.others
    && |s'.b.outputs| == n + 1 && s'.b.outputs[..n] == s.b.outputs
    && s'.b.outputs[n].address == Script(w.ticketScript) && s'.b.outputs[n].lovelace == w.cost
    && s'.b.outputs[n].datum.TicketDatum? && BuyersTicket(w, r, times.payout, s'.b.outputs[n].datum.ticket)
    && s'.On(r.head) == Ledger(source.ida + w.cost, source.others, source.outputs[..k] + source.outputs[k + 1..])
  }

  /** The normal end if and only if both locks are still open for claims; Ida has then spent her own
      lock and the buyer's, both locked by the hash. */
  predicate BuyAnswer(s: State, r: Run, now: int, times: Times, source: Output, a: Answer, r': Run) {
    if source.datum.HtlcDatum? && StillOpen(times.lock, now) && StillOpen(source.datum.htlc.timeout, now) then
      && a == Done(s.nextTx, true)
      && r'.gave == Some(Spent(IdaLock, Hex.LowerAll(r.hash)))
      && r'.took == Some(Spent(Origin.UserLock, source.datum.htlc.hash))
    else a == Thrown(ClaimFailed)
  }

  /** With a new lock, all three submissions applied, and the source at `k`: the answer is the
      normal end if and only if both locks are still open for claims, and then the ticket is
      sold. Otherwise the target claim or the source claim throws. */
  lemma BuySucceeds(w: World, s: State, i: nat, fates: Fates, now: int, times: Times, k: nat)
    requires Inv(w, s) && i < |s.runs| && s.runs[i].pc.Scan?
    requires !Reuses(w, s, s.runs[i], now) && s.b.ida >= w.cost
    requires fates == Fates(Applied, Applied, Applied)
    requires var os := s.On(s.runs[i].head).outputs; k < |os| && k == FirstAt(w, s.runs[i].(pc := Redetect), os, now)
    ensures var r, ran, source := s.runs[i], BuyFrom(w, s, i, fates, now, times), s.On(s.runs[i].head).outputs[k];
            && i < |ran.state.runs| && BuyAnswer(s, r, now, times, source, ran.answer, ran.state.runs[i])
            && (ran.answer.Done? ==> TicketSold(w, s, r, times, k, ran.state))
  {
    hide Inv, BuyFrom, FirstAt, TicketSold, Reuses;
    var r, source := s.runs[i], s.On(s.runs[i].head).outputs[k];
    BuyAnswers(w, s, i, fates, now, times, k);
    if BuyFrom(w, s, i, fates, now, times).answer.Done? {
      Sold(w, s, i, fates, now, times, k);
    }
  }

  /** Said of the state that the run started in, whatever the submissions come to: if there is no
      lock to reuse, money for one, a source, and every submission is applied. */
  predicate Sells(w: World, s: State, r: Run, fates: Fates, now: int, times: Times, a: Answer, r': Run, s': State) {
    var source := s.On(r.head).outputs;
    var k := FirstAt(w, r.(pc := Redetect), source, now);
    fates == Fates(Applied, Applied, Applied) && !Reuses(w, s, r, now) && s.b.ida >= w.cost && k < |source| ==>
      BuyAnswer(s, r, now, times, source[k], a, r') && (a.Done? ==> TicketSold(w, s, r, times, k, s'))
  }

  lemma BuySells(w: World, s: State, i: nat, fates: Fates, now: int, times: Times)
    requires Inv(w, s) && i < |s.runs| && s.runs[i].pc.Scan?
    ensures var ran := BuyFrom(w, s, i, fates, now, times);
            i < |ran.state.runs| && Sells(w, s, s.runs[i], fates, now, times, ran.answer, ran.state.runs[i], ran.state)
  {
    hide Inv, BuyFrom, FirstAt, TicketSold, Reuses, BuyAnswer;
    BuyEnds(w, s, i, fates, now, times);
    var r := s.runs[i];
    var k := FirstAt(w, r.(pc := Redetect), s.On(r.head).outputs, now);
    if fates == Fates(Applied, Applied, Applied) && !Reuses(w, s, r, now) && s.b.ida >= w.cost
       && k < |s.On(r.head).outputs| {
      BuySucceeds(w, s, i, fates, now, times, k);
    }
  }

  lemma BuyAnswers(w: World, s: State, i: nat, fates: Fates, now: int, times: Times, k: nat)
    requires Inv(w, s) && i < |s.runs| && s.runs[i].pc.Scan?
    requires !Reuses(w, s, s.runs[i], now) && s.b.ida >= w.cost
    requires fates == Fates(Applied, Applied, Applied)
    requires var os := s.On(s.runs[i].head).outputs; k < |os| && k == FirstAt(w, s.runs[i].(pc := Redetect), os, now)
    ensures var r, ran, source := s.runs[i], BuyFrom(w, s, i, fates, now, times), s.On(s.runs[i].head).outputs[k];
            i < |ran.state.runs| && BuyAnswer(s, r, now, times, source, ran.answer, ran.state.runs[i])
  {
    hide Inv, BuyFrom, HeadBThen, FirstAt, Bought, Reuses;
    NewLockStands(w, s, i, now, times);
    BuyVerdict(w, s, i, fates, now, times);
    var ran := BuyFrom(w, s, i, fates, now, times);
    BoughtOpen(w, s, s.runs[i], fates, now, times, k, HeadBThen(w, s, s.runs[i], now, times, Applied).outputs,
               ran.answer, ran.state.runs[i]);
  }

  lemma NewLockStands(w: World, s: State, i: nat, now: int, times: Times)
    requires Inv(w, s) && i < |s.runs| && s.runs[i].pc.Scan?
    requires !Reuses(w, s, s.runs[i], now) && s.b.ida >= w.cost
    ensures var r, n := s.runs[i], |s.b.outputs|;
            var target := HeadBThen(w, s, r, now, times, Applied).outputs;
            && |target| == n + 1 && FirstAt(w, r.(pc := Detect(s.nextTx)), target, now) == n
            && target[n].datum.HtlcDatum? && target[n].datum.htlc.timeout == times.lock
            && target[n].datum.htlc.hash == Hex.LowerAll(r.hash)
  {
    hide Inv, HeadBThen, Ensured, FirstAt, TicketLock;
    FreshLock(w, s, i, now, times);
    EnsuredMeans(w, s, i, now, times, Applied);
    LockTimeout(w, s.runs[i], times, s.nextTx, Ensured(w, s, i, now, times, Applied).b.outputs[|s.b.outputs|]);
  }

  lemma BoughtOpen(w: World, s: State, r: Run, fates: Fates, now: int, times: Times, k: nat, target: seq<Output>,
                   a: Answer, r': Run)
    requires Bought(w, s, r, fates, now, times, a, r') && fates == Fates(Applied, Applied, Applied)
    requires target == HeadBThen(w, s, r, now, times, Applied).outputs && |target| == |s.b.outputs| + 1
    requires !Reuses(w, s, r, now) && s.b.ida >= w.cost
    requires FirstAt(w, r.(pc := Detect(s.nextTx)), target, now) == |s.b.outputs|
    requires var o := target[|s.b.outputs|];
             o.datum.HtlcDatum? && o.datum.htlc.timeout == times.lock && o.datum.htlc.hash == Hex.LowerAll(r.hash)
    requires var os := s.On(r.head).outputs; k < |os| && k == FirstAt(w, r.(pc := Redetect), os, now)
    ensures BuyAnswer(s, r, now, times, s.On(r.head).outputs[k], a, r')
  {
    hide HeadBThen, FirstAt, Reuses;
    OpenIsApplied(times.lock, now);
    OpenIsApplied(s.On(r.head).outputs[k].datum.htlc.timeout, now);
  }

  lemma LockTimeout(w: World, r: Run, times: Times, tx: TxId, o: Output)
    requires TicketLock(w, r, times, tx, o)
    ensures o.datum.HtlcDatum? && o.datum.htlc.timeout == times.lock && o.datum.htlc.hash == Hex.LowerAll(r.hash)
  {
  }

  lemma Sold(w: World, s: State, i: nat, fates: Fates, now: int, times: Times, k: nat)
    requires Inv(w, s) && i < |s.runs| && s.runs[i].pc.Scan?
    requires !Reuses(w, s, s.runs[i], now) && s.b.ida >= w.cost
    requires fates == Fates(Applied, Applied, Applied) && StillOpen(times.lock, now)
    requires var os := s.On(s.runs[i].head).outputs;
             && k < |os| && k == FirstAt(w, s.runs[i].(pc := Redetect), os, now)
             && StillOpen(os[k].datum.htlc.timeout, now)
    ensures TicketSold(w, s, s.runs[i], times, k, BuyFrom(w, s, i, fates, now, times).state)
  {
    var r, n, s1 := s.runs[i], |s.b.outputs|, Ensured(w, s, i, now, times, Applied);
    FreshLock(w, s, i, now, times);
    BuyFromDetect(w, s, i, fates, now, times, k);
    PairSells(w, s1, i, fates, now, s.nextTx, n, k);
    GoodAt(w, s1, B, n);
    GoodAt(w, s, r.head, k);
    SourceIsUsers(w, s, i, k, now);
    hide Inv, Ensured, PairClaimed, Look, BuyFrom, FirstAt;
    SoldBy(w, s, s1.b, r, times, k, BuyFrom(w, s, i, fates, now, times).state, s1.nextTx);
  }

  lemma GoodAt(w: World, s: State, h: Head, k: nat)
    requires Inv(w, s) && k < |s.On(h).outputs|
    ensures OutputGood(w, h, s.On(h).outputs[k])
  {
    assert HeadGood(w, s, h) && s.On(h).outputs[k] in s.On(h).outputs;
  }

  lemma PairSells(w: World, s: State, i: nat, fates: Fates, now: int, lockTx: TxId, j: nat, k: nat)
    requires Inv(w, s) && i < |s.runs| && s.runs[i].pc.Detect?
    requires j < |s.b.outputs| && j == FirstAt(w, s.runs[i], s.b.outputs, now)
    requires Find(s.b.outputs, s.b.outputs[j].ref) == j && StillOpen(s.b.outputs[j].datum.htlc.timeout, now)
    requires var os := s.On(s.runs[i].head).outputs;
             && k < |os| && k == FirstAt(w, s.runs[i].(pc := Redetect), os, now)
             && StillOpen(os[k].datum.htlc.timeout, now)
    requires fates.target == Applied && fates.source == Applied
    ensures var h, s1 := s.runs[i].head, Look(w, s, i, true, now);
            && s1.runs[i].pc == ClaimTarget(s.b.outputs[j].ref, None)
            && Claimable(w.setup, s.b, j) && Claimable(w.setup, s.On(h), k)
            && var s' := PairClaimed(w, s1, i, fates, now, lockTx).state;
               && s'.b == Claim(w.setup, s.b, j, s.nextTx) && s'.On(h) == Claim(w.setup, s.On(h), k, s.nextTx + 1)
  {
    hide Inv, PairClaimed, Claim, Look, IsHtlcFor, Accepts, FirstAt;
    LookKeeps(w, s, i, true, now);
    PairLook(w, s, i, now, j);
    var s1 := Look(w, s, i, true, now);
    OpenPair(w, s1, i, fates, now, lockTx, j, k);
  }

  lemma PairLook(w: World, s: State, i: nat, now: int, j: nat)
    requires Inv(w, s) && i < |s.runs| && s.runs[i].pc.Detect?
    requires j < |s.b.outputs| && j == FirstAt(w, s.runs[i], s.b.outputs, now)
    ensures Look(w, s, i, true, now) == s.SetRun(i, s.runs[i].(pc := ClaimTarget(s.b.outputs[j].ref, None)))
    ensures s.runs[i].work.Bridge? && IsHtlcFor(w, s.b.outputs[j], s.runs[i].hash)
  {
    assert RunGood(w, s, s.runs[i]);
  }

  lemma SoldBy(w: World, s: State, l: Ledger, r: Run, times: Times, k: nat, s': State, tx: TxId)
    requires PaidByIda(s.b, l, w.cost) && k < |s.On(r.head).outputs|
    requires var n, o := |s.b.outputs|, l.outputs[|s.b.outputs|];
             && TicketLock(w, r, times, s.nextTx, o) && OutputGood(w, B, o) && o.origin == IdaLock
             && Claimable(w.setup, l, n) && s'.b == Claim(w.setup, l, n, tx)
    requires var l', o := s.On(r.head), s.On(r.head).outputs[k];
             && OutputGood(w, r.head, o) && o.origin == Origin.UserLock
             && Claimable(w.setup, l', k) && s'.On(r.head) == Claim(w.setup, l', k, tx + 1)
    ensures TicketSold(w, s, r, times, k, s')
  {
    hide Claim;
    TicketMade(w, l, |s.b.outputs|, tx);
    LockTaken(w, s.On(r.head), r.head, k, tx + 1, w.cost);
  }

  /** Nothing fails before the claims. */
  lemma BuyFromDetect(w: World, s: State, i: nat, fates: Fates, now: int, times: Times, k: nat)
    requires i < |s.runs| && s.runs[i].pc.Scan? && fates.lock == Applied
    requires var s1, n := Ensured(w, s, i, now, times, Applied), |s.b.outputs|;
             && |s1.b.outputs| > n && i < |s1.runs| && s1.runs[i] == s.runs[i].(pc := Detect(s.nextTx))
             && s1.On(s.runs[i].head) == s.On(s.runs[i].head) && FirstAt(w, s1.runs[i], s1.b.outputs, now) == n
    requires var os := s.On(s.runs[i].head).outputs; k < |os| && k == FirstAt(w, s.runs[i].(pc := Redetect), os, now)
    ensures var s1 := Ensured(w, s, i, now, times, Applied);
            var s2 := Look(w, s1, i, true, now);
            && i < |s2.runs| && s2.runs[i] == s1.runs[i].(pc := ClaimTarget(s1.b.outputs[|s.b.outputs|].ref, None))
            && BuyFrom(w, s, i, fates, now, times) == PairClaimed(w, s2, i, fates, now, s.nextTx)
  {
    hide Ensured, PairClaimed;
    FirstAtAlike(w, s.runs[i].(pc := Redetect), Ensured(w, s, i, now, times, Applied).runs[i].(pc := Redetect),
                 s.On(s.runs[i].head).outputs, now);
  }

  // ---------------------------------------------------------------- a prize is relayed

  /** The normal end if and only if the source is still open for claims: the lock that the relay
      makes ends with it. Ida has then spent her own lock and the source. */
  predicate RelayAnswer(r: Run, now: int, source: Output, a: Answer, r': Run) {
    if source.datum.HtlcDatum? && StillOpen(source.datum.htlc.timeout, now) then
      && a == Done(0, true)
      && r'.gave == Some(Spent(RelayLock, Hex.LowerAll(r.hash)))
      && r'.took == Some(Spent(source.origin, source.datum.htlc.hash))
    else a == Thrown(ClaimFailed)
  }

  /** The winner has the prize from Ida on the own head, and Ida has the payout on head B. */
  predicate PrizeRelayed(w: World, s: State, r: Run, k: nat, s': State)
    requires k < |s.b.outputs|
  {
    var l := s.On(r.head);
    && s'.On(r.head).ida == l.ida - w.prize && s'.On(r.head).others == l.others + w.prize
    && s'.On(r.head).outputs == l.outputs
    && (s.b.outputs[k].origin == PayoutLock ==>
          s'.b == Ledger(s.b.ida + w.prize, s.b.others, s.b.outputs[..k] + s.b.outputs[k + 1..]))
  }

  predicate NoTarget(w: World, s: State, r: Run, source: Ref, now: int) {
    var os := s.On(r.head).outputs;
    FirstAt(w, r.(pc := FindTarget(source)), os, now) == |os|
  }

  /** The source at `k`, no target, money for one, and all three submissions applied. */
  lemma RelaySucceeds(w: World, s: State, i: nat, fates: Fates, now: int, k: nat)
    requires Inv(w, s) && i < |s.runs| && s.runs[i].pc.FindSource?
    requires k < |s.b.outputs| && k == FirstAt(w, s.runs[i], s.b.outputs, now)
    requires NoTarget(w, s, s.runs[i], s.b.outputs[k].ref, now) && s.On(s.runs[i].head).ida >= w.prize
    requires fates == Fates(Applied, Applied, Applied)
    ensures var r, ran, source := s.runs[i], RelayFrom(w, s, i, fates, now), s.b.outputs[k];
            && i < |ran.state.runs| && RelayAnswer(r, now, source, ran.answer, ran.state.runs[i])
            && (ran.answer.Done? ==> PrizeRelayed(w, s, r, k, ran.state))
  {
    hide Inv, RelayFrom, FirstAt, PrizeRelayed, NoTarget;
    RelayAnswers(w, s, i, fates, now, k);
    if RelayFrom(w, s, i, fates, now).answer.Done? { Relays(w, s, i, fates, now, k); }
  }

  /** Said of the state that the run started in: if there is a source, no target, money for one, and
      every submission is applied. */
  predicate Relaying(w: World, s: State, r: Run, fates: Fates, now: int, a: Answer, r': Run, s': State) {
    var k := FirstAt(w, r, s.b.outputs, now);
    fates == Fates(Applied, Applied, Applied) && k < |s.b.outputs| && NoTarget(w, s, r, s.b.outputs[k].ref, now)
    && s.On(r.head).ida >= w.prize ==>
      RelayAnswer(r, now, s.b.outputs[k], a, r') && (a.Done? ==> PrizeRelayed(w, s, r, k, s'))
  }

  lemma RelayRelays(w: World, s: State, i: nat, fates: Fates, now: int)
    requires Inv(w, s) && i < |s.runs| && s.runs[i].pc.FindSource?
    ensures var ran := RelayFrom(w, s, i, fates, now);
            i < |ran.state.runs| && Relaying(w, s, s.runs[i], fates, now, ran.answer, ran.state.runs[i], ran.state)
  {
    hide Inv, RelayFrom, FirstAt, PrizeRelayed, NoTarget, RelayAnswer;
    RelayRuns(w, s, i, fates, now);
    var k := FirstAt(w, s.runs[i], s.b.outputs, now);
    if fates == Fates(Applied, Applied, Applied) && k < |s.b.outputs|
      && NoTarget(w, s, s.runs[i], s.b.outputs[k].ref, now)
       && s.On(s.runs[i].head).ida >= w.prize {
      RelaySucceeds(w, s, i, fates, now, k);
    }
  }

  lemma RelayAnswers(w: World, s: State, i: nat, fates: Fates, now: int, k: nat)
    requires Inv(w, s) && i < |s.runs| && s.runs[i].pc.FindSource?
    requires k < |s.b.outputs| && k == FirstAt(w, s.runs[i], s.b.outputs, now)
    requires NoTarget(w, s, s.runs[i], s.b.outputs[k].ref, now) && s.On(s.runs[i].head).ida >= w.prize
    requires fates == Fates(Applied, Applied, Applied)
    ensures var r, ran := s.runs[i], RelayFrom(w, s, i, fates, now);
            i < |ran.state.runs| && RelayAnswer(r, now, s.b.outputs[k], ran.answer, ran.state.runs[i])
  {
    hide Inv, RelayFrom, FirstAt, NoTarget, Relayed;
    RelayVerdict(w, s, i, fates, now);
    var ran := RelayFrom(w, s, i, fates, now);
    RelayedOpen(w, s, s.runs[i], fates, now, k, ran.answer, ran.state.runs[i]);
  }

  lemma RelayedOpen(w: World, s: State, r: Run, fates: Fates, now: int, k: nat, a: Answer, r': Run)
    requires Relayed(w, s, r, fates, now, a, r') && r.pc.FindSource? && fates == Fates(Applied, Applied, Applied)
    requires k < |s.b.outputs| && k == FirstAt(w, r, s.b.outputs, now)
    requires NoTarget(w, s, r, s.b.outputs[k].ref, now) && s.On(r.head).ida >= w.prize
    ensures RelayAnswer(r, now, s.b.outputs[k], a, r')
  {
    var source, os := s.b.outputs[k], s.On(r.head).outputs;
    var q := r.(pc := FindTarget(source.ref));
    var target := WinnersHeadThen(w, os, q, s.nextTx, source.datum.htlc.timeout, Applied);
    NewTargetFound(w, q, os, target, now, source.datum.htlc.timeout, s.nextTx);
    OpenIsApplied(source.datum.htlc.timeout, now);
  }

  lemma NewTargetFound(w: World, r: Run, os: seq<Output>, target: seq<Output>, now: int, timeout: int, tx: TxId)
    requires r.pc.FindTarget? && FirstAt(w, r, os, now) == |os|
    requires target == WinnersHeadThen(w, os, r, tx, timeout, Applied)
    ensures |target| == |os| + 1 && FirstAt(w, r, target, now) == |os|
    ensures target[|os|].datum.HtlcDatum? && target[|os|].datum.htlc.timeout == timeout
    ensures SpentOf(target[|os|]) == Spent(RelayLock, Hex.LowerAll(r.hash))
  {
    Hex.LowerTwice(r.hash);
    assert Accepts(w, r, target[|os|], now);
    forall j | 0 <= j < |os| ensures !Accepts(w, r, target[j], now) { assert target[j] == os[j]; }
  }

  lemma Relays(w: World, s: State, i: nat, fates: Fates, now: int, k: nat)
    requires Inv(w, s) && i < |s.runs| && s.runs[i].pc.FindSource?
    requires k < |s.b.outputs| && k == FirstAt(w, s.runs[i], s.b.outputs, now)
    requires NoTarget(w, s, s.runs[i], s.b.outputs[k].ref, now) && s.On(s.runs[i].head).ida >= w.prize
    requires fates == Fates(Applied, Applied, Applied) && StillOpen(s.b.outputs[k].datum.htlc.timeout, now)
    ensures PrizeRelayed(w, s, s.runs[i], k, RelayFrom(w, s, i, fates, now).state)
  {
    hide Inv, RelayFrom, RelayClaimed, Accepts, FirstAt, NoTarget, Claim;
    var r, n := s.runs[i], |s.On(s.runs[i].head).outputs|;
    SourceAsPayout(w, s, r, now, k);
    var t1 := SourceSeen(w, s, i, fates, now, k);
    var t2 := TargetLocked(w, s, t1, i, fates, now, k);
    OpenRelay(w, t2, i, fates, now, n, k);
    PrizeGiven(w, t2.On(r.head), n, t2.nextTx);
    assert t2.On(r.head).outputs[..n] + t2.On(r.head).outputs[n + 1..] == s.On(r.head).outputs;
    if s.b.outputs[k].origin == PayoutLock { LockTaken(w, s.b, B, k, t2.nextTx + 1, w.prize); }
  }

  lemma SourceAsPayout(w: World, s: State, r: Run, now: int, k: nat)
    requires Inv(w, s) && r.pc.FindSource?
    requires k < |s.b.outputs| && k == FirstAt(w, r, s.b.outputs, now)
    ensures OutputGood(w, B, s.b.outputs[k]) && IsHtlcFor(w, s.b.outputs[k], r.hash)
    ensures Find(s.b.outputs, s.b.outputs[k].ref) == k
  {
    GoodAt(w, s, B, k);
    FirstOfItsRef(w, s, r, B, now);
  }

  /** The source is found, and no target. */
  lemma SourceSeen(w: World, s: State, i: nat, fates: Fates, now: int, k: nat) returns (t: State)
    requires Inv(w, s) && i < |s.runs| && s.runs[i].pc.FindSource?
    requires k < |s.b.outputs| && k == FirstAt(w, s.runs[i], s.b.outputs, now)
    requires NoTarget(w, s, s.runs[i], s.b.outputs[k].ref, now)
    ensures Inv(w, t) && t == s.SetRun(i, s.runs[i].(pc := LockTarget(s.b.outputs[k].ref)))
    ensures s.runs[i].work.Relay? && !s.runs[i].head.B? && s.runs[i].buyer != w.setup.ida
    ensures RelayFrom(w, s, i, fates, now) == LockFrom(w, t, i, fates, now, s.b.outputs[k].datum.htlc.timeout)
  {
    hide LockFrom, Inv, Look, FirstAt, Find, IsHtlcFor;
    SourceLook(w, s, i, now, k);
    var s1 := Look(w, s, i, true, now);
    TargetLook(w, s1, i, now, s.b.outputs[k].ref);
    SourceAsPayout(w, s, s.runs[i], now, k);
    t := Look(w, s1, i, true, now);
    LookKeeps(w, s, i, true, now);
    LookKeeps(w, s1, i, true, now);
    HtlcHasDatum(w, s.b.outputs[k], s.runs[i].hash);
  }

  lemma HtlcHasDatum(w: World, o: Output, hash: string)
    requires IsHtlcFor(w, o, hash)
    ensures o.datum.HtlcDatum?
  {
  }

  lemma SourceLook(w: World, s: State, i: nat, now: int, k: nat)
    requires Inv(w, s) && i < |s.runs| && s.runs[i].pc.FindSource?
    requires k < |s.b.outputs| && k == FirstAt(w, s.runs[i], s.b.outputs, now)
    ensures Look(w, s, i, true, now) == s.SetRun(i, s.runs[i].(pc := FindTarget(s.b.outputs[k].ref)))
    ensures s.runs[i].work.Relay? && !s.runs[i].head.B? && s.runs[i].buyer != w.setup.ida
  {
    assert RunGood(w, s, s.runs[i]);
  }

  lemma TargetLook(w: World, s: State, i: nat, now: int, source: Ref)
    requires i < |s.runs| && s.runs[i].pc == FindTarget(source) && NoTarget(w, s, s.runs[i], source, now)
    ensures Look(w, s, i, true, now) == s.SetRun(i, s.runs[i].(pc := LockTarget(source)))
  {
  }

  /** The lock is made, and found. */
  lemma TargetLocked(w: World, s: State, t1: State, i: nat, fates: Fates, now: int, k: nat) returns (t: State)
    requires Inv(w, t1) && i < |s.runs| && k < |s.b.outputs| && fates.lock == Applied
    requires t1 == s.SetRun(i, s.runs[i].(pc := LockTarget(s.b.outputs[k].ref))) && !s.runs[i].head.B?
    requires s.runs[i].work.Relay? && s.b.outputs[k].datum.HtlcDatum? && s.On(s.runs[i].head).ida >= w.prize
    requires NoTarget(w, s, s.runs[i], s.b.outputs[k].ref, now)
    ensures Inv(w, t) && i < |t.runs| && t.b == s.b && t.nextTx == s.nextTx + 1
    ensures var r, l := s.runs[i], s.On(s.runs[i].head);
            && t.runs[i] == r.(pc := ClaimTarget(Ref(s.nextTx, 0), Some(s.b.outputs[k].ref)))
            && PaidByIda(l, t.On(r.head), w.prize)
            && PrizeLock(w, r, s.b.outputs[k].datum.htlc.timeout, s.nextTx, t.On(r.head).outputs[|l.outputs|])
            && Find(t.On(r.head).outputs, Ref(s.nextTx, 0)) == |l.outputs|
    ensures LockFrom(w, t1, i, fates, now, s.b.outputs[k].datum.htlc.timeout) == RelayClaimed(w, t, i, fates, now)
  {
    hide Inv, RelayClaimed, Accepts, FirstAt, SendLock;
    var r, l, timeout := s.runs[i], s.On(s.runs[i].head), s.b.outputs[k].datum.htlc.timeout;
    var s2 := SendLock(w, t1, i, Applied, timeout, 0);
    RelayLockMeans(w, t1, i, Applied, timeout);
    LockKeeps(w, t1, i, Applied, timeout, 0);
    PrizeLockIsBuilt(w, t1, i, Applied, timeout);
    LockCounts(w, t1, i, timeout);
    NewestFound(w, t1, r.head, s2.On(r.head).outputs);
    NewTargetSeen(w, r.(pc := FindTarget(s.b.outputs[k].ref)), s2.runs[i], s, t1, l.outputs, s2.On(r.head).outputs,
                  now, timeout, s.b.outputs[k].ref);
    t := Look(w, s2, i, true, now);
    LookKeeps(w, s2, i, true, now);
  }

  lemma LockCounts(w: World, s: State, i: nat, timeout: int)
    requires i < |s.runs| && s.runs[i].pc.LockTarget? && s.On(s.runs[i].head).ida >= w.prize
    ensures SendLock(w, s, i, Applied, timeout, 0).nextTx == s.nextTx + 1
  {
  }

  /** Whichever way it looks for it, the relay sees the new lock first. */
  lemma NewTargetSeen(w: World, r: Run, q: Run, s: State, t1: State, os: seq<Output>, target: seq<Output>, now: int,
                      timeout: int, source: Ref)
    requires r.pc == FindTarget(source) && q == r.(pc := FindAgain(source)) && os == s.On(r.head).outputs
    requires NoTarget(w, s, r, source, now) && t1.nextTx == s.nextTx
    requires target == WinnersHeadThen(w, os, r.(pc := LockTarget(source)), t1.nextTx, timeout, Applied)
    ensures |target| == |os| + 1 && FirstAt(w, q, target, now) == |os|
  {
    NewTargetFound(w, r, os, target, now, timeout, s.nextTx);
    FirstAtAlike(w, r, q, target, now);
  }

  lemma NewestFound(w: World, s: State, h: Head, os: seq<Output>)
    requires Inv(w, s) && |os| == |s.On(h).outputs| + 1 && os[..|s.On(h).outputs|] == s.On(h).outputs
    requires os[|s.On(h).outputs|].ref == Ref(s.nextTx, 0)
    ensures Find(os, Ref(s.nextTx, 0)) == |s.On(h).outputs|
  {
    OldRefs(w, s, h);
    forall k | 0 <= k < |s.On(h).outputs| ensures os[k].ref.tx < s.nextTx {
      assert os[..|s.On(h).outputs|][k] == os[k] && os[k] in s.On(h).outputs;
    }
  }

  /** Both claims of a relay land. */
  lemma OpenRelay(w: World, s: State, i: nat, fates: Fates, now: int, j: nat, k: nat)
    requires Inv(w, s) && i < |s.runs| && s.runs[i].work.Relay? && !s.runs[i].head.B?
    requires var os := s.On(s.runs[i].head).outputs;
             && j < |os| && IsHtlcFor(w, os[j], s.runs[i].hash) && Find(os, os[j].ref) == j
             && k < |s.b.outputs| && IsHtlcFor(w, s.b.outputs[k], s.runs[i].hash)
             && Find(s.b.outputs, s.b.outputs[k].ref) == k
             && s.runs[i].pc == ClaimTarget(os[j].ref, Some(s.b.outputs[k].ref))
             && StillOpen(os[j].datum.htlc.timeout, now) && StillOpen(s.b.outputs[k].datum.htlc.timeout, now)
    requires fates.target == Applied && fates.source == Applied
    ensures var h, s' := s.runs[i].head, RelayClaimed(w, s, i, fates, now).state;
            && Claimable(w.setup, s.On(h), j) && Claimable(w.setup, s.b, k)
            && s'.On(h) == Claim(w.setup, s.On(h), j, s.nextTx) && s'.b == Claim(w.setup, s.b, k, s.nextTx + 1)
  {
    hide Inv, Find, Claim;
    ClaimLands(w, s, i, j, now);
    ClaimKeeps(w, s, i, Applied);
    var s1 := SendClaim(w, s, i, Applied);
    ClaimLands(w, s1, i, k, now);
  }

  // ---------------------------------------------------------------- a winner is paid

  /** A ticket is eligible if and only if it is at the ticket script and names this lottery, up to
      white space, case and a leading `0x`. */
  lemma {:induction false} EligibleIff(w: World, os: seq<Output>, o: Output)
    ensures o in Eligible(w, os) <==>
            && o in os && o.address == Script(w.ticketScript) && o.datum.TicketDatum?
            && HexId(o.datum.ticket.lotteryId) == HexId(w.lotteryId)
  {
    if os != [] {
      var n := |os| - 1;
      EligibleIff(w, os[..n], o);
      assert os == os[..n] + [os[n]];
    }
  }

  /** What `HexId` forgets, and that it forgets nothing else. */
  lemma HexIdForgets(s: string)
    requires Hex.Trim(s) == s && Hex.LowerAll(s) == s && !("0x" <= s)
    ensures HexId(s) == s && HexId("0x" + s) == s && HexId("0X" + s) == s
  {
    TrimPrefixed("0x", s);
    TrimPrefixed("0X", s);
    if |s| >= 2 { assert Hex.LowerAll(s)[1] == Hex.Lower(s[1]); }
    assert ("0x" + s)[2..] == s && ("0X" + s)[2..] == s;
  }

  lemma TrimPrefixed(p: string, s: string)
    requires Hex.Trim(s) == s && |p| == 2 && !Hex.IsSpace(p[0]) && !Hex.IsSpace(p[1])
    ensures Hex.Trim(p + s) == p + s
  {
    Hex.TrimStartFront(s);
    Hex.TrimEndEnds(Hex.TrimStart(s));
    assert Hex.TrimStart(p + s) == p + s;
    if s != [] { assert (p + s)[|p + s| - 1] == s[|s| - 1]; }
  }

  /** The payout as it stands on head B: the prize at the lock script, under the lock that the
      ticket carried; the lottery again, less the prize and marked as paid; both of the spent
      outputs gone, all others there, and the ticket's money with the administrator. */
  predicate WinnerPaid(w: World, s: State, lottery: Output, ticket: Output, s': State) {
    var n, os, l := |s.b.outputs|, s'.b.outputs, lottery.datum;
    && |os| == n >= 2 && l.LotteryDatum? && ticket.datum.TicketDatum?
    && os[n - 2].address == lottery.address && os[n - 2].lovelace + l.lottery.prize == lottery.lovelace && os[n - 2].nft
    && os[n - 2].datum == LotteryDatum(Lottery(l.lottery.prize, l.lottery.ticketCost, true, l.lottery.closeTimestamp,
                                               l.lottery.admin))
    && os[n - 1].address == Script(w.setup.htlcScript) && os[n - 1].lovelace == l.lottery.prize && !os[n - 1].nft
    && os[n - 1].datum.HtlcDatum? && ticket.datum.ticket.datum == Some(HtlcInline(os[n - 1].datum.htlc))
    && multiset(os[..n - 2]) + multiset{lottery, ticket} == multiset(s.b.outputs)
    && s'.b.ida == s.b.ida && s'.b.others == s.b.others + ticket.lovelace
    && s'.a == s.a && s'.c == s.c && s'.runs == s.runs
  }

  lemma PaidIsWinnerPaid(w: World, s: State, lottery: Output, ticket: Output, s': State)
    requires PaidOut(w, s, lottery, ticket, s')
    ensures WinnerPaid(w, s, lottery, ticket, s')
  {
    var i, j := Find(s.b.outputs, lottery.ref), Find(s.b.outputs, ticket.ref);
    RestCounts(s.b.outputs, i, j);
    assert s'.b.outputs[..|s.b.outputs| - 2] == Rest(s.b.outputs, i, j);
  }

  lemma RestCounts(os: seq<Output>, i: nat, j: nat)
    requires i < |os| && j < |os| && i != j
    ensures multiset(Rest(os, i, j)) + multiset{os[i], os[j]} == multiset(os) && |Rest(os, i, j)| == |os| - 2
  {
    if i < j {
      WithoutCounts(os, j);
      WithoutCounts(Without(os, j), i);
    } else {
      WithoutCounts(os, i);
      WithoutCounts(Without(os, i), j);
    }
  }

  lemma WithoutCounts(os: seq<Output>, i: nat)
    requires i < |os|
    ensures multiset(Without(os, i)) + multiset{os[i]} == multiset(os)
  {
    assert os == os[..i] + ([os[i]] + os[i + 1..]);
  }

  /** Somebody is paid only two minutes after the close, at the earliest, and it is too early only
      before that. */
  lemma TwoMinutes(w: World, s: State, draw: nat, now: int, fate: Fate, code: Option<Code>, s': State)
    requires Inv(w, s) && Drawn(w, s, draw, now, fate, code, s')
    ensures s' != s || code == Some(TooEarly) ==>
              var k := ControlAt(s.b.outputs);
              && k < |s.b.outputs| && s.b.outputs[k].datum.LotteryDatum?
              && (code == Some(TooEarly) <==> now < s.b.outputs[k].datum.lottery.closeTimestamp + 120000)
  {
    if ControlAt(s.b.outputs) < |s.b.outputs| { OnHeadB(w, s, ControlAt(s.b.outputs)); }
  }
}
