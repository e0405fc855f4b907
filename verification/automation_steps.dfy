/** What the automation does from top to bottom, as functions of the state it starts in; and what
    that comes to, said of that state: which answer is given when, and what has been claimed. */
module AutomationSteps {
  import opened Options
  import opened HtlcData
  import opened HeadLedger
  import opened BridgeRuns
  import opened BridgeBooks
  import HopDeadlines
  import Hex

  /** What is thrown; `ClaimFailed` stands for whatever a claim throws. */
  datatype Code =
    | InvalidInput
    | RealArtifactsRequired
    | PreimageRequired
    | AutomationFailed
    | SourceHtlcNotFound
    | TargetHtlcNotFound
    | ClaimFailed
    | LotteryNotFound
    | AlreadyPaid
    | TooEarly
    | NoTickets
    | PayoutFailed

  datatype Answer = Done(lockTx: TxId, sourceClaimed: bool) | Thrown(code: Code)

  /** The two timeouts of Ida's lock, each counted from its own reading of the clock. */
  datatype Times = Times(payout: int, lock: int)

  /** How the three submissions of one run end. */
  datatype Fates = Fates(lock: Fate, target: Fate, source: Fate)

  // ------------------------------------------------------------------------- lookups

  /** Where the first output stands that the lookup accepts, or the length of the list. */
  function FirstAt(w: World, r: Run, os: seq<Output>, now: int): (k: nat)
    ensures k <= |os| && (k < |os| ==> Accepts(w, r, os[k], now))
    ensures forall j | 0 <= j < k :: !Accepts(w, r, os[j], now)
  {
    if os == [] || Accepts(w, r, os[0], now) then 0 else 1 + FirstAt(w, r, os[1..], now)
  }

  function PickAt(w: World, r: Run, os: seq<Output>, now: int): Option<Ref> {
    var k := FirstAt(w, r, os, now);
    if k < |os| then Some(os[k].ref) else None
  }

  /** A lookup, and where it leads. */
  function Look(w: World, s: State, i: nat, sourceSeen: bool, now: int): State
    requires i < |s.runs|
  {
    var r := s.runs[i];
    var os := s.On(ReadHead(r)).outputs;
    var k := FirstAt(w, r, os, now);
    s.SetRun(i, r.(pc := if k < |os| then Found(r, os[k], sourceSeen) else NotFound(r)))
  }

  lemma LookIsRead(w: World, s: State, i: nat, sourceSeen: bool, now: int)
    requires Inv(w, s) && i < |s.runs|
    ensures Apply(w, s, Read(i, PickAt(w, s.runs[i], s.On(ReadHead(s.runs[i])).outputs, now), sourceSeen, now))
         == Look(w, s, i, sourceSeen, now)
  {
    var os := s.On(ReadHead(s.runs[i])).outputs;
    var k := FirstAt(w, s.runs[i], os, now);
    if k < |os| { OneOutputPerRef(w, s, ReadHead(s.runs[i]), k); }
  }

  lemma OneOutputPerRef(w: World, s: State, h: Head, k: nat)
    requires Inv(w, s) && k < |s.On(h).outputs|
    ensures var os := s.On(h).outputs;
            Find(os, os[k].ref) < |os| && os[Find(os, os[k].ref)] == os[k]
  {
    assert HeadGood(w, s, h);
    FindAt(s.On(h).outputs, s.On(h).outputs[k].ref);
  }

  lemma {:induction false} FirstAtAlike(w: World, r: Run, r': Run, os: seq<Output>, now: int)
    requires forall o | o in os :: Accepts(w, r', o, now) <==> Accepts(w, r, o, now)
    ensures FirstAt(w, r', os, now) == FirstAt(w, r, os, now)
  {
    if os != [] {
      assert os[0] in os;
      FirstAtAlike(w, r, r', os[1..], now);
    }
  }

  // -------------------------------------------------------------------------- claims

  /** The claim is built to be valid until 20 minutes before the timeout. If that is not a time, it
      is not built; when it is over, the head rejects it. */
  function InWindow(fate: Fate, timeout: int, now: int): Fate {
    if timeout - HopDeadlines.CLAIM_OFFSET <= 0 then Rejected
    else if Lands(fate) && !HopDeadlines.CanClaim(now, timeout) then Rejected
    else fate
  }

  predicate Claims(r: Run) {
    r.pc.ClaimTarget? || r.pc.ClaimSource?
  }

  /** How the claim of run `i` ends, if nothing but the time is against it. */
  function FateAt(s: State, i: nat, fate: Fate, now: int): Fate
    requires i < |s.runs| && Claims(s.runs[i])
  {
    var os := s.On(ClaimHead(s.runs[i])).outputs;
    var k := Find(os, ClaimRef(s.runs[i]));
    if k < |os| && os[k].datum.HtlcDatum? then InWindow(fate, os[k].datum.htlc.timeout, now) else fate
  }

  predicate CanSpend(w: World, s: State, i: nat)
    requires i < |s.runs| && Claims(s.runs[i])
  {
    var l := s.On(ClaimHead(s.runs[i]));
    Claimable(w.setup, l, Find(l.outputs, ClaimRef(s.runs[i])))
  }

  /** `sendTx` returns. */
  predicate ClaimReturns(w: World, s: State, i: nat, fate: Fate)
    requires i < |s.runs| && Claims(s.runs[i])
  {
    if Lands(fate) && CanSpend(w, s, i) then fate.Applied? else fate.StrayAnswer?
  }

  function SpentBy(w: World, s: State, i: nat, fate: Fate): Option<Spent>
    requires i < |s.runs| && Claims(s.runs[i])
  {
    var l := s.On(ClaimHead(s.runs[i]));
    if Lands(fate) && CanSpend(w, s, i) then Some(SpentOf(l.outputs[Find(l.outputs, ClaimRef(s.runs[i]))])) else None
  }

  /** The head of the claim after it. */
  function ClaimedOn(w: World, s: State, i: nat, fate: Fate): Ledger
    requires i < |s.runs| && Claims(s.runs[i])
  {
    var l := s.On(ClaimHead(s.runs[i]));
    if !Lands(fate) || !CanSpend(w, s, i) then l
    else HeadLedger.Claim(w.setup, l, Find(l.outputs, ClaimRef(s.runs[i])), s.nextTx)
  }

  lemma ClaimMeans(w: World, s: State, i: nat, fate: Fate)
    requires i < |s.runs| && Claims(s.runs[i])
    ensures var r, s' := s.runs[i], SendClaim(w, s, i, fate);
            && s'.runs == s.runs[i := Claimed(r, SpentBy(w, s, i, fate), ClaimReturns(w, s, i, fate))]
            && forall h: Head :: s'.On(h) == if h == ClaimHead(r) then ClaimedOn(w, s, i, fate) else s.On(h)
  {
  }

  /** What a lookup has found can be claimed. */
  lemma FoundIsSpendable(w: World, s: State, i: nat, k: nat)
    requires Inv(w, s) && i < |s.runs| && Claims(s.runs[i])
    requires var os := s.On(ClaimHead(s.runs[i])).outputs;
             k < |os| && os[k].ref == ClaimRef(s.runs[i]) && IsHtlcFor(w, os[k], s.runs[i].hash)
    ensures CanSpend(w, s, i)
    ensures var os := s.On(ClaimHead(s.runs[i])).outputs;
            Find(os, ClaimRef(s.runs[i])) < |os| && os[Find(os, ClaimRef(s.runs[i]))] == os[k]
  {
    var h := ClaimHead(s.runs[i]);
    OneOutputPerRef(w, s, h, k);
    assert HeadGood(w, s, h) && s.On(h).outputs[k] in s.On(h).outputs && OutputGood(w, h, s.On(h).outputs[k]);
  }

  /** A claim of the output at `k`: returned, and spent, as its fate says. */
  lemma ClaimOfFound(w: World, s: State, i: nat, k: nat, fate: Fate, now: int)
    requires Inv(w, s) && i < |s.runs| && Claims(s.runs[i])
    requires var os := s.On(ClaimHead(s.runs[i])).outputs;
             k < |os| && os[k].ref == ClaimRef(s.runs[i]) && IsHtlcFor(w, os[k], s.runs[i].hash)
    ensures var os := s.On(ClaimHead(s.runs[i])).outputs;
            var f := InWindow(fate, os[k].datum.htlc.timeout, now);
            && FateAt(s, i, fate, now) == f && (ClaimReturns(w, s, i, f) <==> GoesOn(f))
            && SendClaim(w, s, i, f).runs ==
                 s.runs[i := Claimed(s.runs[i], if Lands(f) then Some(SpentOf(os[k])) else None, GoesOn(f))]
            && forall h: Head | h != ClaimHead(s.runs[i]) :: SendClaim(w, s, i, f).On(h) == s.On(h)
  {
    FoundIsSpendable(w, s, i, k);
  }

  // ------------------------------------------------------------------- Ida's own lock

  /** Head B after the lock transaction of this run, if it gets there. */
  function LockedOn(w: World, l: Ledger, r: Run, tx: TxId, times: Times, lands: bool): Ledger
    requires w.cost <= l.ida
  {
    if lands then Pay(l, LockOutput(w, r.(pc := Lock), tx, times.lock, times.payout), true) else l
  }

  /** `ensureHeadBIdaLock`. */
  function Ensured(w: World, s: State, i: nat, now: int, times: Times, fate: Fate): State
    requires i < |s.runs| && s.runs[i].pc.Scan?
  {
    var s1 := Look(w, s, i, false, now);
    if s1.runs[i].pc.Lock? then SendLock(w, s1, i, fate, times.lock, times.payout) else s1
  }

  predicate Reuses(w: World, s: State, r: Run, now: int) {
    FirstAt(w, r, s.b.outputs, now) < |s.b.outputs|
  }

  /** The transaction of the lock that is there, or of the new one. */
  function LockTx(w: World, s: State, r: Run, now: int): TxId {
    if Reuses(w, s, r, now) then s.b.outputs[FirstAt(w, r, s.b.outputs, now)].ref.tx else s.nextTx
  }

  function HeadBThen(w: World, s: State, r: Run, now: int, times: Times, fate: Fate): Ledger {
    if Reuses(w, s, r, now) || s.b.ida < w.cost then s.b else LockedOn(w, s.b, r, s.nextTx, times, Lands(fate))
  }

  predicate LockFails(w: World, s: State, r: Run, now: int, fate: Fate) {
    !Reuses(w, s, r, now) && (s.b.ida < w.cost || !GoesOn(fate))
  }

  lemma EnsuredMeans(w: World, s: State, i: nat, now: int, times: Times, fate: Fate)
    requires i < |s.runs| && s.runs[i].pc.Scan?
    ensures var r, s' := s.runs[i], Ensured(w, s, i, now, times, fate);
            && s'.a == s.a && s'.c == s.c && s'.userTxs == s.userTxs && s'.b == HeadBThen(w, s, r, now, times, fate)
            && s'.runs == s.runs[i := r.(pc := if LockFails(w, s, r, now, fate) then Over
                                         else Detect(LockTx(w, s, r, now)))]
  {
  }

  lemma EnsuredKeeps(w: World, s: State, i: nat, now: int, times: Times, fate: Fate)
    requires Inv(w, s) && i < |s.runs| && s.runs[i].pc.Scan?
    ensures Inv(w, Ensured(w, s, i, now, times, fate))
  {
    LookKeeps(w, s, i, false, now);
    var s1 := Look(w, s, i, false, now);
    if s1.runs[i].pc.Lock? { LockKeeps(w, s1, i, fate, times.lock, times.payout); }
  }

  lemma LookKeeps(w: World, s: State, i: nat, sourceSeen: bool, now: int)
    requires Inv(w, s) && i < |s.runs|
    ensures Inv(w, Look(w, s, i, sourceSeen, now))
  {
    LookIsRead(w, s, i, sourceSeen, now);
    ReadKeeps(w, s, i, PickAt(w, s.runs[i], s.On(ReadHead(s.runs[i])).outputs, now), sourceSeen, now);
  }

  // ------------------------------------------------------------------------ buyTicket

  datatype Ran = Ran(answer: Answer, state: State)

  /** The target claim, a second look at the source, and the source claim. */
  function PairClaimed(w: World, s: State, i: nat, fates: Fates, now: int, lockTx: TxId): Ran
    requires i < |s.runs| && s.runs[i].pc.ClaimTarget? && s.runs[i].pc.next.None?
  {
    var f := FateAt(s, i, fates.target, now);
    var s1 := SendClaim(w, s, i, f);
    if !ClaimReturns(w, s, i, f) then Ran(Thrown(ClaimFailed), s1)
    else
      var s2 := Look(w, s1, i, true, now);
      if s2.runs[i].pc.Over? then Ran(Done(lockTx, false), s2)
      else
        var g := FateAt(s2, i, fates.source, now);
        Ran(if ClaimReturns(w, s2, i, g) then Done(lockTx, true) else Thrown(ClaimFailed), SendClaim(w, s2, i, g))
  }

  predicate HasSource(w: World, s: State, r: Run, now: int) {
    FirstAt(w, r.(pc := Redetect), s.On(r.head).outputs, now) < |s.On(r.head).outputs|
  }

  /** `buyTicket` behind its checks of the payload, as run `i`. */
  function BuyFrom(w: World, s: State, i: nat, fates: Fates, now: int, times: Times): Ran
    requires i < |s.runs| && s.runs[i].pc.Scan?
  {
    var s1 := Ensured(w, s, i, now, times, fates.lock);
    if !s1.runs[i].pc.Detect? then Ran(Thrown(AutomationFailed), s1)
    else
      var source := HasSource(w, s1, s1.runs[i], now);
      var s2 := Look(w, s1, i, source, now);
      if !source then Ran(Thrown(SourceHtlcNotFound), s2)
      else if !s2.runs[i].pc.ClaimTarget? then Ran(Thrown(TargetHtlcNotFound), s2)
      else PairClaimed(w, s2, i, fates, now, s1.runs[i].pc.lockTx)
  }

  predicate NothingClaimed(r: Run) {
    r.gave.None? && r.took.None? && !r.stray
  }

  /** What both claims come to: `f` and `g` are how they end, `target` and `source` what they
      spend. */
  predicate ClaimsMade(f: Fate, g: Fate, target: Output, source: Output, a: Answer, done: Answer, r: Run)
    requires target.datum.HtlcDatum? && source.datum.HtlcDatum?
  {
    && r.gave == (if Lands(f) then Some(SpentOf(target)) else None) && (r.stray <==> f.StrayAnswer?)
    && r.took == (if GoesOn(f) && Lands(g) then Some(SpentOf(source)) else None)
    && a == if GoesOn(f) && GoesOn(g) then done else Thrown(ClaimFailed)
  }

  /** Which answer `buyTicket` gives, and what its run `r` has claimed then, all said of the state
      it started in: a lock to reuse or the money for one, the source lock, the lock showing on
      head B, and the ends of the three submissions. */
  predicate Bought(w: World, s: State, r: Run, fates: Fates, now: int, times: Times, a: Answer, r': Run) {
    var target := HeadBThen(w, s, r, now, times, fates.lock).outputs;
    var source := s.On(r.head).outputs;
    var j := FirstAt(w, r.(pc := Detect(LockTx(w, s, r, now))), target, now);
    var k := FirstAt(w, r.(pc := Redetect), source, now);
    if LockFails(w, s, r, now, fates.lock) then a == Thrown(AutomationFailed) && NothingClaimed(r')
    else if k == |source| then a == Thrown(SourceHtlcNotFound) && NothingClaimed(r')
    else if j == |target| then a == Thrown(TargetHtlcNotFound) && NothingClaimed(r')
    else ClaimsMade(InWindow(fates.target, target[j].datum.htlc.timeout, now),
                    InWindow(fates.source, source[k].datum.htlc.timeout, now),
                    target[j], source[k], a, Done(LockTx(w, s, r, now), true), r')
         && target[j].origin == IdaLock && source[k].origin == Origin.UserLock
  }

  lemma BuyVerdict(w: World, s: State, i: nat, fates: Fates, now: int, times: Times)
    requires Inv(w, s) && i < |s.runs| && s.runs[i].pc.Scan?
    ensures var ran := BuyFrom(w, s, i, fates, now, times);
            i < |ran.state.runs| && Bought(w, s, s.runs[i], fates, now, times, ran.answer, ran.state.runs[i])
  {
    var r, s1 := s.runs[i], Ensured(w, s, i, now, times, fates.lock);
    assert RunGood(w, s, r);
    EnsuredMeans(w, s, i, now, times, fates.lock);
    EnsuredKeeps(w, s, i, now, times, fates.lock);
    if s1.runs[i].pc.Detect? { DetectVerdict(w, s1, i, fates, now); }
  }

  /** From the detection of the pair on. */
  lemma DetectVerdict(w: World, s: State, i: nat, fates: Fates, now: int)
    requires Inv(w, s) && i < |s.runs| && s.runs[i].pc.Detect?
    ensures var r := s.runs[i];
            var target, source := s.b.outputs, s.On(r.head).outputs;
            var j, k := FirstAt(w, r, target, now), FirstAt(w, r.(pc := Redetect), source, now);
            var s2 := Look(w, s, i, k < |source|, now);
            && (k == |source| || j == |target| ==> |s2.runs| == |s.runs| && s2.runs[i] == r.(pc := Over))
            && (k < |source| && j < |target| ==>
                  && s2.runs[i].pc.ClaimTarget? && s2.runs[i].pc.next.None?
                  && var ran := PairClaimed(w, s2, i, fates, now, r.pc.lockTx);
                     && i < |ran.state.runs|
                     && ClaimsMade(InWindow(fates.target, target[j].datum.htlc.timeout, now),
                                   InWindow(fates.source, source[k].datum.htlc.timeout, now),
                                   target[j], source[k], ran.answer, Done(r.pc.lockTx, true), ran.state.runs[i])
                     && target[j].origin == IdaLock && source[k].origin == Origin.UserLock)
  {
    var r := s.runs[i];
    var j, k := FirstAt(w, r, s.b.outputs, now), FirstAt(w, r.(pc := Redetect), s.On(r.head).outputs, now);
    LookKeeps(w, s, i, k < |s.On(r.head).outputs|, now);
    if k < |s.On(r.head).outputs| && j < |s.b.outputs| {
      PairVerdict(w, Look(w, s, i, true, now), i, fates, now, r.pc.lockTx, j, k);
    }
  }

  lemma PairVerdict(w: World, s: State, i: nat, fates: Fates, now: int, lockTx: TxId, j: nat, k: nat)
    requires Inv(w, s) && i < |s.runs| && s.runs[i].work.Bridge?
    requires j < |s.b.outputs| && s.runs[i].pc == ClaimTarget(s.b.outputs[j].ref, None)
    requires IsHtlcFor(w, s.b.outputs[j], s.runs[i].hash)
    requires var os := s.On(s.runs[i].head).outputs;
             k < |os| && k == FirstAt(w, s.runs[i].(pc := Redetect), os, now)
    ensures var ran, source := PairClaimed(w, s, i, fates, now, lockTx), s.On(s.runs[i].head).outputs;
            && i < |ran.state.runs|
            && ClaimsMade(InWindow(fates.target, s.b.outputs[j].datum.htlc.timeout, now),
                          InWindow(fates.source, source[k].datum.htlc.timeout, now),
                          s.b.outputs[j], source[k], ran.answer, Done(lockTx, true), ran.state.runs[i])
            && s.b.outputs[j].origin == IdaLock && source[k].origin == Origin.UserLock
  {
    hide SendClaim, ClaimReturns, FateAt, Inv;
    var f := InWindow(fates.target, s.b.outputs[j].datum.htlc.timeout, now);
    TargetPhase(w, s, i, fates.target, now, j);
    var s1 := SendClaim(w, s, i, f);
    SourceIsUsers(w, s, i, k, now);
    FirstAtAlike(w, s.runs[i].(pc := Redetect), s1.runs[i].(pc := Redetect), s.On(s.runs[i].head).outputs, now);
    if GoesOn(f) { SourcePhase(w, s1, i, fates.source, now, k); }
  }

  lemma SourceIsUsers(w: World, s: State, i: nat, k: nat, now: int)
    requires Inv(w, s) && i < |s.runs| && s.runs[i].work.Bridge?
    requires var os := s.On(s.runs[i].head).outputs;
             k < |os| && Accepts(w, s.runs[i].(pc := Redetect), os[k], now)
    ensures s.On(s.runs[i].head).outputs[k].origin == Origin.UserLock
  {
    var o := s.On(s.runs[i].head).outputs[k];
    assert RunGood(w, s, s.runs[i]) && HeadGood(w, s, s.runs[i].head) && Dated(s, o);
  }

  lemma TargetPhase(w: World, s: State, i: nat, fate: Fate, now: int, j: nat)
    requires Inv(w, s) && i < |s.runs| && s.runs[i].work.Bridge?
    requires j < |s.b.outputs| && s.runs[i].pc == ClaimTarget(s.b.outputs[j].ref, None)
    requires IsHtlcFor(w, s.b.outputs[j], s.runs[i].hash)
    ensures var r, f := s.runs[i], InWindow(fate, s.b.outputs[j].datum.htlc.timeout, now);
            var s1 := SendClaim(w, s, i, f);
            && FateAt(s, i, fate, now) == f && (ClaimReturns(w, s, i, f) <==> GoesOn(f))
            && NothingClaimed(r) && !r.head.B? && s.b.outputs[j].origin == IdaLock
            && s1.runs == s.runs[i := Claimed(r, if Lands(f) then Some(SpentOf(s.b.outputs[j])) else None, GoesOn(f))]
            && s1.On(r.head) == s.On(r.head) && Inv(w, s1)
  {
    assert RunGood(w, s, s.runs[i]) && s.b.outputs[j] in s.On(B).outputs;
    ClaimOfFound(w, s, i, j, fate, now);
    ClaimKeeps(w, s, i, InWindow(fate, s.b.outputs[j].datum.htlc.timeout, now));
  }

  lemma SourcePhase(w: World, s: State, i: nat, fate: Fate, now: int, k: nat)
    requires Inv(w, s) && i < |s.runs| && s.runs[i].work.Bridge? && s.runs[i].pc.Redetect?
    requires var os := s.On(s.runs[i].head).outputs; k < |os| && k == FirstAt(w, s.runs[i], os, now)
    ensures var r, o, s2 := s.runs[i], s.On(s.runs[i].head).outputs[k], Look(w, s, i, true, now);
            var g := InWindow(fate, o.datum.htlc.timeout, now);
            && o.origin == Origin.UserLock
            && |s2.runs| == |s.runs| && s2.runs[i] == r.(pc := ClaimSource(o.ref)) && FateAt(s2, i, fate, now) == g
            && (ClaimReturns(w, s2, i, g) <==> GoesOn(g)) && |SendClaim(w, s2, i, g).runs| == |s.runs|
            && SendClaim(w, s2, i, g).runs[i] ==
                 r.(pc := Over, took := if Lands(g) then Some(SpentOf(o)) else None)
  {
    var r, o, s2 := s.runs[i], s.On(s.runs[i].head).outputs[k], Look(w, s, i, true, now);
    LookKeeps(w, s, i, true, now);
    assert RunGood(w, s2, s2.runs[i]) && o in s2.On(r.head).outputs;
    ClaimOfFound(w, s2, i, k, fate, now);
  }

  /** The lock shows on head B unless it has been sent, rejected, and the answer to another
      transaction taken for its own. */
  lemma TargetMissing(w: World, s: State, i: nat, now: int, times: Times, fate: Fate)
    requires Inv(w, s) && i < |s.runs| && s.runs[i].pc.Scan? && !LockFails(w, s, s.runs[i], now, fate)
    ensures var r := s.runs[i];
            var target := HeadBThen(w, s, r, now, times, fate).outputs;
            FirstAt(w, r.(pc := Detect(LockTx(w, s, r, now))), target, now) == |target|
            <==> !Reuses(w, s, r, now) && fate.StrayAnswer?
  {
    var r := s.runs[i];
    var target := HeadBThen(w, s, r, now, times, fate).outputs;
    Hex.LowerTwice(r.hash);
    if Reuses(w, s, r, now) {
      assert Accepts(w, r.(pc := Detect(LockTx(w, s, r, now))), target[FirstAt(w, r, s.b.outputs, now)], now);
    } else if fate.Applied? {
      assert Accepts(w, r.(pc := Detect(s.nextTx)), target[|target| - 1], now);
    } else {
      NoSuchTx(w, s, target, FirstAt(w, r.(pc := Detect(s.nextTx)), target, now));
    }
  }

  lemma NoSuchTx(w: World, s: State, os: seq<Output>, k: nat)
    requires LedgersGood(w, s) && os == s.b.outputs
    ensures k < |os| ==> os[k].ref.tx < s.nextTx
  {
    if k < |os| { assert HeadGood(w, s, B) && os[k] in s.On(B).outputs && Dated(s, os[k]); }
  }

  // ------------------------------------------------------------------ the prize relay

  /** The timeout of the payout, which the relay's own lock copies. */
  function TimeoutAt(os: seq<Output>, ref: Ref): int {
    var k := Find(os, ref);
    if k < |os| && os[k].datum.HtlcDatum? then os[k].datum.htlc.timeout else 0
  }

  function RelayClaimed(w: World, s: State, i: nat, fates: Fates, now: int): Ran
    requires i < |s.runs| && s.runs[i].pc.ClaimTarget? && s.runs[i].pc.next.Some?
  {
    var f := FateAt(s, i, fates.target, now);
    var s1 := SendClaim(w, s, i, f);
    if !ClaimReturns(w, s, i, f) then Ran(Thrown(ClaimFailed), s1)
    else
      var g := FateAt(s1, i, fates.source, now);
      Ran(if ClaimReturns(w, s1, i, g) then Done(0, true) else Thrown(ClaimFailed), SendClaim(w, s1, i, g))
  }

  /** `relayPayRandomLotteryWinnerOnHeadB`, as run `i`. */
  function RelayFrom(w: World, s: State, i: nat, fates: Fates, now: int): Ran
    requires i < |s.runs| && s.runs[i].pc.FindSource?
  {
    var s1 := Look(w, s, i, true, now);
    if s1.runs[i].pc.Over? then Ran(Thrown(SourceHtlcNotFound), s1) else TargetFrom(w, s1, i, fates, now)
  }

  /** From the search for the target on. */
  function TargetFrom(w: World, s: State, i: nat, fates: Fates, now: int): Ran
    requires i < |s.runs| && s.runs[i].pc.FindTarget?
  {
    var timeout := TimeoutAt(s.b.outputs, s.runs[i].pc.source);
    var s1 := Look(w, s, i, true, now);
    if s1.runs[i].pc.ClaimTarget? then RelayClaimed(w, s1, i, fates, now)
    else LockFrom(w, s1, i, fates, now, timeout)
  }

  /** There is no target: the relay locks, and looks again. */
  function LockFrom(w: World, s: State, i: nat, fates: Fates, now: int, timeout: int): Ran
    requires i < |s.runs| && s.runs[i].pc.LockTarget?
  {
    var s1 := SendLock(w, s, i, fates.lock, timeout, 0);
    if s1.runs[i].pc.Over? then Ran(Thrown(AutomationFailed), s1)
    else
      var s2 := Look(w, s1, i, true, now);
      if s2.runs[i].pc.Over? then Ran(Thrown(TargetHtlcNotFound), s2) else RelayClaimed(w, s2, i, fates, now)
  }

  /** The outputs of the winner's head when the relay claims: with its own lock, if it made one. */
  function WinnersHeadThen(w: World, os: seq<Output>, r: Run, tx: TxId, timeout: int, fate: Fate): seq<Output> {
    if !Lands(fate) then os else os + [LockOutput(w, r, tx, timeout, 0)]
  }

  /** Which answer the relay gives, and what its run `r` has claimed then, said of the state it
      started in: the source, a target or the money for one, and the ends of the submissions. */
  predicate Relayed(w: World, s: State, r: Run, fates: Fates, now: int, a: Answer, r': Run) {
    var k := FirstAt(w, r, s.b.outputs, now);
    if k == |s.b.outputs| then a == Thrown(SourceHtlcNotFound) && NothingClaimed(r')
    else RelayedFrom(w, s, r.(pc := FindTarget(s.b.outputs[k].ref)), s.b.outputs[k], fates, now, a, r')
  }

  predicate RelayedFrom(w: World, s: State, r: Run, source: Output, fates: Fates, now: int, a: Answer, r': Run)
    requires source.datum.HtlcDatum?
  {
    var l := s.On(r.head);
    var j := FirstAt(w, r, l.outputs, now);
    if j < |l.outputs| then RelayClaims(w, l.outputs[j], source, fates, now, a, r')
    else RelayedLock(w, l, s.nextTx, r, source, fates, now, a, r')
  }

  /** Without a target on the winner's head `l`. */
  predicate RelayedLock(w: World, l: Ledger, tx: TxId, r: Run, source: Output, fates: Fates, now: int, a: Answer,
                        r': Run)
    requires source.datum.HtlcDatum?
  {
    if l.ida < w.prize || !GoesOn(fates.lock) then a == Thrown(AutomationFailed) && NothingClaimed(r')
    else
      var target := WinnersHeadThen(w, l.outputs, r, tx, source.datum.htlc.timeout, fates.lock);
      var k := FirstAt(w, r, target, now);
      if k == |target| then a == Thrown(TargetHtlcNotFound) && NothingClaimed(r')
      else RelayClaims(w, target[k], source, fates, now, a, r')
  }

  predicate RelayClaims(w: World, target: Output, source: Output, fates: Fates, now: int, a: Answer, r: Run)
    requires target.datum.HtlcDatum? && source.datum.HtlcDatum?
  {
    ClaimsMade(InWindow(fates.target, target.datum.htlc.timeout, now),
               InWindow(fates.source, source.datum.htlc.timeout, now),
               target, source, a, Done(0, true), r)
  }

  lemma RelayVerdict(w: World, s: State, i: nat, fates: Fates, now: int)
    requires Inv(w, s) && i < |s.runs| && s.runs[i].pc.FindSource?
    ensures var ran := RelayFrom(w, s, i, fates, now);
            i < |ran.state.runs| && Relayed(w, s, s.runs[i], fates, now, ran.answer, ran.state.runs[i])
  {
    var k := FirstAt(w, s.runs[i], s.b.outputs, now);
    assert RunGood(w, s, s.runs[i]);
    LookKeeps(w, s, i, true, now);
    if k < |s.b.outputs| { TargetVerdict(w, Look(w, s, i, true, now), i, fates, now, k); }
  }

  /** The source is at `k` on head B. */
  lemma TargetVerdict(w: World, s: State, i: nat, fates: Fates, now: int, k: nat)
    requires Inv(w, s) && i < |s.runs| && k < |s.b.outputs| && IsHtlcFor(w, s.b.outputs[k], s.runs[i].hash)
    requires s.runs[i].pc == FindTarget(s.b.outputs[k].ref)
    ensures var ran := TargetFrom(w, s, i, fates, now);
            && i < |ran.state.runs|
            && RelayedFrom(w, s, s.runs[i], s.b.outputs[k], fates, now, ran.answer, ran.state.runs[i])
  {
    hide RelayClaimed, RelayClaims, LockFrom, RelayedLock;
    var r, s1 := s.runs[i], Look(w, s, i, true, now);
    var os := s.On(r.head).outputs;
    var j := FirstAt(w, r, os, now);
    assert RunGood(w, s, r);
    OneOutputPerRef(w, s, B, k);
    LookKeeps(w, s, i, true, now);
    if j < |os| {
      RelayPairVerdict(w, s1, i, fates, now, j, k);
    } else {
      LockVerdict(w, s1, i, fates, now, k);
    }
  }

  lemma RelayLockMeans(w: World, s: State, i: nat, fate: Fate, timeout: int)
    requires i < |s.runs| && s.runs[i].pc.LockTarget? && !s.runs[i].head.B?
    ensures var r, s' := s.runs[i], SendLock(w, s, i, fate, timeout, 0);
            if s.On(r.head).ida < w.prize then s'.runs == s.runs[i := r.(pc := Over)]
            else s'.b == s.b
                 && s'.On(r.head).outputs == WinnersHeadThen(w, s.On(r.head).outputs, r, s.nextTx, timeout, fate)
                 && s'.runs == s.runs[i := r.(pc := if GoesOn(fate) then FindAgain(r.pc.source) else Over)]
  {
  }

  lemma LockVerdict(w: World, s: State, i: nat, fates: Fates, now: int, k: nat)
    requires Inv(w, s) && i < |s.runs| && k < |s.b.outputs|
    requires IsHtlcFor(w, s.b.outputs[k], s.runs[i].hash) && s.runs[i].pc == LockTarget(s.b.outputs[k].ref)
    ensures var r, source := s.runs[i], s.b.outputs[k];
            var ran := LockFrom(w, s, i, fates, now, source.datum.htlc.timeout);
            && i < |ran.state.runs|
            && RelayedLock(w, s.On(r.head), s.nextTx, r.(pc := FindTarget(r.pc.source)), source, fates, now,
                           ran.answer, ran.state.runs[i])
  {
    var r, timeout := s.runs[i], s.b.outputs[k].datum.htlc.timeout;
    var s1 := SendLock(w, s, i, fates.lock, timeout, 0);
    assert RunGood(w, s, r);
    RelayLockMeans(w, s, i, fates.lock, timeout);
    LockKeeps(w, s, i, fates.lock, timeout, 0);
    if s1.runs[i].pc.FindAgain? {
      FirstAtAlike(w, r.(pc := FindTarget(r.pc.source)), s1.runs[i], s1.On(r.head).outputs, now);
      FindAgainVerdict(w, s1, i, fates, now, k);
    }
  }

  /** The relay has locked, and looks again. */
  lemma FindAgainVerdict(w: World, s: State, i: nat, fates: Fates, now: int, k: nat)
    requires Inv(w, s) && i < |s.runs| && k < |s.b.outputs|
    requires IsHtlcFor(w, s.b.outputs[k], s.runs[i].hash) && s.runs[i].pc == FindAgain(s.b.outputs[k].ref)
    ensures var target := s.On(s.runs[i].head).outputs;
            var j, s2 := FirstAt(w, s.runs[i], target, now), Look(w, s, i, true, now);
            if j == |target| then s2.runs[i] == s.runs[i].(pc := Over)
            else
              && s2.runs[i].pc.ClaimTarget? && s2.runs[i].pc.next.Some?
              && var ran := RelayClaimed(w, s2, i, fates, now);
                 i < |ran.state.runs|
                 && RelayClaims(w, target[j], s.b.outputs[k], fates, now, ran.answer, ran.state.runs[i])
  {
    var target := s.On(s.runs[i].head).outputs;
    var j := FirstAt(w, s.runs[i], target, now);
    assert RunGood(w, s, s.runs[i]);
    LookKeeps(w, s, i, true, now);
    if j < |target| { RelayPairVerdict(w, Look(w, s, i, true, now), i, fates, now, j, k); }
  }

  lemma RelayPairVerdict(w: World, s: State, i: nat, fates: Fates, now: int, j: nat, k: nat)
    requires Inv(w, s) && i < |s.runs| && s.runs[i].work.Relay?
    requires var os := s.On(s.runs[i].head).outputs;
             && j < |os| && IsHtlcFor(w, os[j], s.runs[i].hash)
             && k < |s.b.outputs| && IsHtlcFor(w, s.b.outputs[k], s.runs[i].hash)
             && s.runs[i].pc == ClaimTarget(os[j].ref, Some(s.b.outputs[k].ref))
    ensures var ran := RelayClaimed(w, s, i, fates, now);
            i < |ran.state.runs|
            && RelayClaims(w, s.On(s.runs[i].head).outputs[j], s.b.outputs[k], fates, now, ran.answer,
                           ran.state.runs[i])
  {
    var r, o := s.runs[i], s.On(s.runs[i].head).outputs[j];
    var f := InWindow(fates.target, o.datum.htlc.timeout, now);
    assert RunGood(w, s, r);
    ClaimOfFound(w, s, i, j, fates.target, now);
    ClaimKeeps(w, s, i, f);
    var s1 := SendClaim(w, s, i, f);
    assert s1.On(B) == s.On(B);
    if GoesOn(f) { ClaimOfFound(w, s1, i, k, fates.source, now); }
  }

  // -------------------------------------------------- what an answer says of the claims

  predicate Spends(spent: Option<Spent>, kinds: set<Origin>) {
    spent.Some? && spent.value.origin in kinds
  }

  /** Where one ends, the target claim has come first; where it fails before the claims, nothing is
      claimed; a failed claim has taken only what landed although it threw. */
  predicate Ended(r: Run, fates: Fates, a: Answer) {
    match a
    case Done(_, sourceClaimed) =>
      && (Spends(r.gave, {IdaLock}) || (r.stray && fates.target.StrayAnswer?))
      && (sourceClaimed ==> Spends(r.took, {Origin.UserLock}) || fates.source.StrayAnswer?)
      && (!sourceClaimed ==> r.took.None?)
    case Thrown(ClaimFailed) => r.took.Some? ==> (r.gave.Some? || r.stray) && fates.source.AppliedButThrows?
    case Thrown(_) => r.gave.None? && r.took.None?
  }

  lemma BoughtEnded(w: World, s: State, r: Run, fates: Fates, now: int, times: Times, a: Answer, r': Run)
    requires Bought(w, s, r, fates, now, times, a, r')
    ensures Ended(r', fates, a)
  {
  }

  /** All that is said of `buyTicket` behind its checks. */
  lemma BuyEnds(w: World, s: State, i: nat, fates: Fates, now: int, times: Times)
    requires Inv(w, s) && i < |s.runs| && s.runs[i].pc.Scan?
    ensures var ran := BuyFrom(w, s, i, fates, now, times);
            && SameRuns(s, ran.state, i) && Ended(ran.state.runs[i], fates, ran.answer)
            && Bought(w, s, s.runs[i], fates, now, times, ran.answer, ran.state.runs[i])
  {
    hide Inv, BuyFrom, Bought;
    BuyVerdict(w, s, i, fates, now, times);
    BuyRuns(w, s, i, fates, now, times);
    var ran := BuyFrom(w, s, i, fates, now, times);
    BoughtEnded(w, s, s.runs[i], fates, now, times, ran.answer, ran.state.runs[i]);
  }

  /** The same runs, and run `i` at the same work. */
  predicate SameRuns(s: State, s': State, i: nat) {
    && i < |s.runs| == |s'.runs|
    && s'.runs[i].head == s.runs[i].head && s'.runs[i].work == s.runs[i].work
  }

  lemma LookRuns(w: World, s: State, i: nat, sourceSeen: bool, now: int)
    requires i < |s.runs|
    ensures SameRuns(s, Look(w, s, i, sourceSeen, now), i)
  {
  }

  lemma ClaimRuns(w: World, s: State, i: nat, fate: Fate)
    requires i < |s.runs| && Claims(s.runs[i])
    ensures SameRuns(s, SendClaim(w, s, i, fate), i)
  {
  }

  lemma LockRuns(w: World, s: State, i: nat, fate: Fate, timeout: int, payoutTimeout: int)
    requires i < |s.runs| && (s.runs[i].pc.Lock? || s.runs[i].pc.LockTarget?)
    ensures SameRuns(s, SendLock(w, s, i, fate, timeout, payoutTimeout), i)
  {
  }

  lemma PairRuns(w: World, s: State, i: nat, fates: Fates, now: int, lockTx: TxId)
    requires i < |s.runs| && s.runs[i].pc.ClaimTarget? && s.runs[i].pc.next.None?
    ensures SameRuns(s, PairClaimed(w, s, i, fates, now, lockTx).state, i)
  {
    var f := FateAt(s, i, fates.target, now);
    var s1 := SendClaim(w, s, i, f);
    ClaimRuns(w, s, i, f);
    if ClaimReturns(w, s, i, f) {
      LookRuns(w, s1, i, true, now);
      var s2 := Look(w, s1, i, true, now);
      if !s2.runs[i].pc.Over? { ClaimRuns(w, s2, i, FateAt(s2, i, fates.source, now)); }
    }
  }

  lemma BuyRuns(w: World, s: State, i: nat, fates: Fates, now: int, times: Times)
    requires i < |s.runs| && s.runs[i].pc.Scan?
    ensures SameRuns(s, BuyFrom(w, s, i, fates, now, times).state, i)
  {
    EnsuredMeans(w, s, i, now, times, fates.lock);
    hide PairClaimed, Ensured;
    var s1 := Ensured(w, s, i, now, times, fates.lock);
    if s1.runs[i].pc.Detect? {
      var source := HasSource(w, s1, s1.runs[i], now);
      var s2 := Look(w, s1, i, source, now);
      if s2.runs[i].pc.ClaimTarget? { PairRuns(w, s2, i, fates, now, s1.runs[i].pc.lockTx); }
    }
  }

  predicate RelayEnded(w: World, r: Run, fates: Fates, a: Answer) {
    match a
    case Done(_, _) =>
      && (Spends(r.gave, Targets(w, Relay)) || (r.stray && fates.target.StrayAnswer?))
      && (Spends(r.took, {PayoutLock, IdaLock}) || fates.source.StrayAnswer?)
    case Thrown(ClaimFailed) => r.took.Some? ==> (r.gave.Some? || r.stray) && fates.source.AppliedButThrows?
    case Thrown(_) => r.gave.None? && r.took.None?
  }

  lemma RelayedEnded(w: World, s: State, r: Run, fates: Fates, now: int, a: Answer, r': Run)
    requires Relayed(w, s, r, fates, now, a, r') && OrderGood(w, r') && r'.work.Relay?
    ensures RelayEnded(w, r', fates, a)
  {
  }

  /** All that is said of the relay. */
  lemma RelayEnds(w: World, s: State, i: nat, fates: Fates, now: int)
    requires Inv(w, s) && i < |s.runs| && s.runs[i].pc.FindSource?
    requires Inv(w, RelayFrom(w, s, i, fates, now).state)
    ensures var ran := RelayFrom(w, s, i, fates, now);
            && SameRuns(s, ran.state, i) && RelayEnded(w, ran.state.runs[i], fates, ran.answer)
            && Relayed(w, s, s.runs[i], fates, now, ran.answer, ran.state.runs[i])
  {
    hide RelayFrom, Relayed;
    RelayVerdict(w, s, i, fates, now);
    RelayRuns(w, s, i, fates, now);
    var ran := RelayFrom(w, s, i, fates, now);
    assert RunGood(w, s, s.runs[i]) && RunGood(w, ran.state, ran.state.runs[i]);
    RelayedEnded(w, s, s.runs[i], fates, now, ran.answer, ran.state.runs[i]);
  }

  lemma RelayedRuns(w: World, s: State, i: nat, fates: Fates, now: int)
    requires i < |s.runs| && s.runs[i].pc.ClaimTarget? && s.runs[i].pc.next.Some?
    ensures SameRuns(s, RelayClaimed(w, s, i, fates, now).state, i)
  {
    var f := FateAt(s, i, fates.target, now);
    ClaimRuns(w, s, i, f);
    var s1 := SendClaim(w, s, i, f);
    if ClaimReturns(w, s, i, f) { ClaimRuns(w, s1, i, FateAt(s1, i, fates.source, now)); }
  }

  lemma TargetRuns(w: World, s: State, i: nat, fates: Fates, now: int)
    requires i < |s.runs| && s.runs[i].pc.FindTarget?
    ensures SameRuns(s, TargetFrom(w, s, i, fates, now).state, i)
  {
    hide RelayClaimed;
    var s1 := Look(w, s, i, true, now);
    if s1.runs[i].pc.ClaimTarget? { RelayedRuns(w, s1, i, fates, now); } else {
      var timeout := TimeoutAt(s.b.outputs, s.runs[i].pc.source);
      LockRuns(w, s1, i, fates.lock, timeout, 0);
      var s2 := SendLock(w, s1, i, fates.lock, timeout, 0);
      if !s2.runs[i].pc.Over? {
        var s3 := Look(w, s2, i, true, now);
        if !s3.runs[i].pc.Over? { RelayedRuns(w, s3, i, fates, now); }
      }
    }
  }

  lemma RelayRuns(w: World, s: State, i: nat, fates: Fates, now: int)
    requires i < |s.runs| && s.runs[i].pc.FindSource?
    ensures SameRuns(s, RelayFrom(w, s, i, fates, now).state, i)
  {
    hide TargetFrom;
    var s1 := Look(w, s, i, true, now);
    if s1.runs[i].pc.FindTarget? { TargetRuns(w, s1, i, fates, now); }
  }

  // ------------------------------------------------------------------------- the payout

  function Stripped(s: string): string {
    if |s| >= 2 && s[0] == '0' && s[1] in {'x', 'X'} then s[2..] else s
  }

  /** `normalizeHexId`. */
  function HexId(s: string): string {
    Hex.LowerAll(Stripped(Hex.Trim(s)))
  }

  predicate IsTicket(w: World, o: Output) {
    o.address == Script(w.ticketScript) && o.datum.TicketDatum? && HexId(o.datum.ticket.lotteryId) == HexId(w.lotteryId)
  }

  /** The tickets of this lottery, in the order of the snapshot. */
  function Eligible(w: World, os: seq<Output>): seq<Output> {
    if os == [] then []
    else Eligible(w, os[..|os| - 1]) + if IsTicket(w, os[|os| - 1]) then [os[|os| - 1]] else []
  }

  lemma {:induction false} EligibleWithin(w: World, os: seq<Output>, o: Output)
    requires o in Eligible(w, os)
    ensures o in os && IsTicket(w, o)
  {
    if o in Eligible(w, os[..|os| - 1]) { EligibleWithin(w, os[..|os| - 1], o); }
  }

  /** Where the output with the control token stands, or the length of the list. */
  function ControlAt(os: seq<Output>): (k: nat)
    ensures k <= |os| && (k < |os| ==> os[k].nft)
    ensures forall j | 0 <= j < k :: !os[j].nft
  {
    if os == [] || os[0].nft then 0 else 1 + ControlAt(os[1..])
  }

  const GRACE := 120000

  /** The lottery has the prize, and the ticket names it exactly, not only up to case and prefix. */
  predicate Covered(w: World, lottery: Output, ticket: Output)
    requires lottery.datum.LotteryDatum? && ticket.datum.TicketDatum?
  {
    lottery.datum.lottery.prize <= lottery.lovelace && ticket.datum.ticket.lotteryId == w.lotteryId
  }

  /** These two outputs have been spent for the payout, and nothing else has moved. */
  predicate PaidOut(w: World, s: State, lottery: Output, ticket: Output, s': State) {
    var i, j := Find(s.b.outputs, lottery.ref), Find(s.b.outputs, ticket.ref);
    && Payable(s.b, i, j) && s.b.outputs[i] == lottery && s.b.outputs[j] == ticket
    && s' == s.(b := PayWinner(w.setup, s.b, i, j, s.nextTx), nextTx := s.nextTx + 1, payouts := s.payouts + 1)
  }

  /** The answer and what has happened, in the order of the refusals. */
  predicate Drawn(w: World, s: State, draw: nat, now: int, fate: Fate, code: Option<Code>, s': State)
    requires Inv(w, s)
  {
    var os, k, tickets := s.b.outputs, ControlAt(s.b.outputs), Eligible(w, s.b.outputs);
    if k == |os| then code == Some(LotteryNotFound) && s' == s
    else
      OnHeadB(w, s, k);
      var lottery := os[k].datum.lottery;
      if lottery.paidWinner then code == Some(AlreadyPaid) && s' == s
      else if now < lottery.closeTimestamp + GRACE then code == Some(TooEarly) && s' == s
      else if tickets == [] then code == Some(NoTickets) && s' == s
      else
        var ticket := tickets[draw % |tickets|];
        EligibleWithin(w, os, ticket);
        if Lands(fate) && Covered(w, os[k], ticket)
        then code == (if fate.Applied? then None else Some(PayoutFailed)) && PaidOut(w, s, os[k], ticket, s')
        else code == (if fate.StrayAnswer? then None else Some(PayoutFailed)) && s' == s
  }

  lemma Covers(w: World, l: Ledger, i: nat, j: nat)
    requires i < |l.outputs| && j < |l.outputs| && l.outputs[i].nft && IsTicket(w, l.outputs[j])
    requires l.outputs[i].datum.LotteryDatum? && !l.outputs[i].datum.lottery.paidWinner
    requires OutputGood(w, B, l.outputs[i]) && OutputGood(w, B, l.outputs[j])
    ensures Payable(l, i, j) && l.outputs[j].datum.ticket.lotteryId == w.lotteryId
            <==> Covered(w, l.outputs[i], l.outputs[j])
  {
  }

  /** The payout of the drawn ticket, if it can be made at all. */
  lemma PayoutHappens(w: World, s: State, i: nat, ticket: Output)
    requires Inv(w, s) && i < |s.b.outputs| && s.b.outputs[i].nft
    requires ticket in s.b.outputs && IsTicket(w, ticket)
    requires s.b.outputs[i].datum.LotteryDatum? && !s.b.outputs[i].datum.lottery.paidWinner
    ensures var s' := Apply(w, s, PayWinnerTx(s.b.outputs[i].ref, ticket.ref));
            if Covered(w, s.b.outputs[i], ticket) then PaidOut(w, s, s.b.outputs[i], ticket, s') else s' == s
  {
    var j :| 0 <= j < |s.b.outputs| && s.b.outputs[j] == ticket;
    OneOutputPerRef(w, s, B, i);
    OneOutputPerRef(w, s, B, j);
    var m, n := Find(s.b.outputs, s.b.outputs[i].ref), Find(s.b.outputs, ticket.ref);
    OnHeadB(w, s, m);
    OnHeadB(w, s, n);
    Covers(w, s.b, m, n);
    PayoutApplied(w, s, s.b.outputs[i].ref, ticket.ref);
  }

  lemma PayoutApplied(w: World, s: State, lottery: Ref, ticket: Ref)
    ensures var i, j := Find(s.b.outputs, lottery), Find(s.b.outputs, ticket);
            Apply(w, s, PayWinnerTx(lottery, ticket)) ==
              if Payable(s.b, i, j) && s.b.outputs[j].datum.ticket.lotteryId == w.lotteryId
              then s.(b := PayWinner(w.setup, s.b, i, j, s.nextTx), nextTx := s.nextTx + 1, payouts := s.payouts + 1)
              else s
  {
  }
}
