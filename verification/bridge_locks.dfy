/** Making Ida's head-B lock again and again: calls that follow each other leave at most one
    unspent lock for a purchase, at whatever times they are made, besides those that others make. */
module BridgeLocks {
  import opened HtlcData
  import opened HeadLedger
  import Hex

  /** What happens on head B: a whole call of `ensureHeadBIdaLock`, an output being spent, and
      an output of somebody else. */
  datatype Deed =
    | Ensure(p: Purchase, now: int, timeout: int, payoutTimeout: int, tx: TxId)
    | Spend(k: nat)
    | Add(o: Output)

  predicate Matches(c: Setup, o: Output, p: Purchase, now: int) {
    o.address == Script(c.htlcScript) && o.datum.HtlcDatum? && MatchesExpected(o.datum.htlc, c, p, TicketFor(c, p, now))
  }

  function IdasLock(c: Setup, d: Deed): Output
    requires d.Ensure?
  {
    Output(Ref(d.tx, 0), Script(c.htlcScript), d.p.ticketCost, false,
           HtlcDatum(LockFor(c, d.p, d.payoutTimeout, d.timeout)), IdaLock)
  }

  predicate AsksForTicket(o: Output) {
    o.datum.HtlcDatum? && o.datum.htlc.desired.address.Script?
  }

  function Act(c: Setup, l: Ledger, d: Deed): Ledger {
    match d
    case Ensure(p, now, _, _, _) =>
      if (exists o :: o in l.outputs && Matches(c, o, p, now)) || l.ida < p.ticketCost then l
      else Pay(l, IdasLock(c, d), true)
    case Spend(k) => if k < |l.outputs| then l.(outputs := Without(l.outputs, k)) else l
    case Add(o) => l.(outputs := l.outputs + [o])
  }

  function Acts(c: Setup, l: Ledger, ds: seq<Deed>): Ledger {
    if ds == [] then l else Act(c, Acts(c, l, ds[..|ds| - 1]), ds[|ds| - 1])
  }

  function Count(c: Setup, os: seq<Output>, p: Purchase): nat {
    if os == [] then 0 else (if Matches(c, os[0], p, 0) then 1 else 0) + Count(c, os[1..], p)
  }

  lemma {:induction false} CountCat(c: Setup, os: seq<Output>, more: seq<Output>, p: Purchase)
    ensures Count(c, os + more, p) == Count(c, os, p) + Count(c, more, p)
  {
    if os == [] {
      assert os + more == more;
    } else {
      assert (os + more)[1..] == os[1..] + more;
      CountCat(c, os[1..], more, p);
    }
  }

  lemma CountWith(c: Setup, os: seq<Output>, o: Output, p: Purchase)
    ensures Count(c, os + [o], p) == Count(c, os, p) + if Matches(c, o, p, 0) then 1 else 0
  {
    CountCat(c, os, [o], p);
    assert Count(c, [o], p) == (if Matches(c, o, p, 0) then 1 else 0) + Count(c, [], p);
  }

  lemma CountWithout(c: Setup, os: seq<Output>, k: nat, p: Purchase)
    requires k < |os|
    ensures Count(c, Without(os, k), p) <= Count(c, os, p)
  {
    assert os == os[..k] + ([os[k]] + os[k + 1..]);
    assert ([os[k]] + os[k + 1..])[1..] == os[k + 1..];
    CountCat(c, os[..k], [os[k]] + os[k + 1..], p);
    CountCat(c, os[..k], os[k + 1..], p);
  }

  lemma {:induction false} NoneMatch(c: Setup, os: seq<Output>, p: Purchase)
    requires forall o | o in os :: !Matches(c, o, p, 0)
    ensures Count(c, os, p) == 0
  {
    if os != [] { NoneMatch(c, os[1..], p); }
  }

  lemma {:induction false} OneMatches(c: Setup, os: seq<Output>, p: Purchase, o: Output)
    requires o in os && Matches(c, o, p, 0)
    ensures Count(c, os, p) >= 1
  {
    if os[0] != o { OneMatches(c, os[1..], p, o); }
  }

  /** The time of the comparison does not matter, and the same purchase finds the same locks. */
  lemma MatchesAlike(c: Setup, o: Output, p: Purchase, q: Purchase, now: int, then': int)
    requires SamePurchase(p, q)
    ensures Matches(c, o, p, now) <==> Matches(c, o, q, then')
  {
    Hex.LowerTwice(p.hash);
    Hex.LowerTwice(q.hash);
    assert p.buyer == q.buyer && p.lotteryId == q.lotteryId && p.prize == q.prize && p.ticketScript == q.ticketScript;
    assert Hex.LowerAll(p.hash) == Hex.LowerAll(q.hash) && p.ticketCost == q.ticketCost;
  }

  /** How many outputs others have made that pass for a lock of this purchase. */
  function Foreign(c: Setup, ds: seq<Deed>, q: Purchase): nat {
    if ds == [] then 0
    else
      var d := ds[|ds| - 1];
      Foreign(c, ds[..|ds| - 1], q) + if d.Add? && Matches(c, d.o, q, 0) then 1 else 0
  }

  lemma ActKeeps(c: Setup, l: Ledger, d: Deed, q: Purchase, n: nat)
    requires Count(c, l.outputs, q) <= 1 + n
    ensures Count(c, Act(c, l, d).outputs, q) <= 1 + n + if d.Add? && Matches(c, d.o, q, 0) then 1 else 0
  {
    match d
    case Ensure(p, now, _, _, _) =>
      if !(exists o :: o in l.outputs && Matches(c, o, p, now)) && l.ida >= p.ticketCost {
        CountWith(c, l.outputs, IdasLock(c, d), q);
        MatchIffSamePurchase(c, p, q, d.payoutTimeout, d.timeout, 0);
        if SamePurchase(p, q) {
          forall o | o in l.outputs ensures !Matches(c, o, q, 0) { MatchesAlike(c, o, p, q, now, 0); }
          NoneMatch(c, l.outputs, q);
        }
      }
    case Spend(k) => if k < |l.outputs| { CountWithout(c, l.outputs, k, q); }
    case Add(o) => CountWith(c, l.outputs, o, q);
  }

  /** At most one unspent lock for any purchase, after any sequence of deeds, and those that others
      have made to look like one. */
  lemma {:induction false} AtMostOneLock(c: Setup, l: Ledger, ds: seq<Deed>, q: Purchase)
    requires Count(c, l.outputs, q) <= 1
    ensures Count(c, Acts(c, l, ds).outputs, q) <= 1 + Foreign(c, ds, q)
    decreases |ds|
  {
    if ds != [] {
      AtMostOneLock(c, l, ds[..|ds| - 1], q);
      ActKeeps(c, Acts(c, l, ds[..|ds| - 1]), ds[|ds| - 1], q, Foreign(c, ds[..|ds| - 1], q));
    }
  }

  /** Outputs that do not ask for a ticket do not look like one. */
  lemma {:induction false} NoneForeign(c: Setup, ds: seq<Deed>, q: Purchase)
    requires forall d | d in ds && d.Add? :: !AsksForTicket(d.o)
    ensures Foreign(c, ds, q) == 0
  {
    if ds != [] {
      NoneForeign(c, ds[..|ds| - 1], q);
      assert ds[|ds| - 1] in ds;
    }
  }

  /** After a call that could afford it there is exactly one, and calling again for the same
      purchase, at any time, changes nothing. */
  lemma EnsureTwiceIsOnce(c: Setup, l: Ledger, d: Deed, e: Deed)
    requires d.Ensure? && e.Ensure? && SamePurchase(d.p, e.p) && Count(c, l.outputs, d.p) <= 1
    requires d.p.ticketCost <= l.ida || Count(c, l.outputs, d.p) == 1
    ensures Count(c, Act(c, l, d).outputs, d.p) == 1 && Act(c, Act(c, l, d), e) == Act(c, l, d)
  {
    var l' := Act(c, l, d);
    if Count(c, l.outputs, d.p) == 0 {
      forall o | o in l.outputs ensures !Matches(c, o, d.p, d.now) {
        if Matches(c, o, d.p, d.now) {
          MatchesAlike(c, o, d.p, d.p, d.now, 0);
          OneMatches(c, l.outputs, d.p, o);
        }
      }
    }
    if l' != l {
      CountWith(c, l.outputs, IdasLock(c, d), d.p);
      MatchIffSamePurchase(c, d.p, d.p, d.payoutTimeout, d.timeout, 0);
      OneMatches(c, l'.outputs, d.p, IdasLock(c, d));
      ActKeeps(c, l, d, d.p, 0);
    }
    SomeLockThere(c, l'.outputs, d.p);
    var o :| o in l'.outputs && Matches(c, o, d.p, 0);
    MatchesAlike(c, o, d.p, e.p, 0, e.now);
  }

  lemma {:induction false} SomeLockThere(c: Setup, os: seq<Output>, p: Purchase)
    requires Count(c, os, p) > 0
    ensures exists o :: o in os && Matches(c, o, p, 0)
  {
    if Matches(c, os[0], p, 0) {
      assert os[0] in os;
    } else {
      SomeLockThere(c, os[1..], p);
      var o :| o in os[1..] && Matches(c, o, p, 0);
      assert o in os;
    }
  }
}
