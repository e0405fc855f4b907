/** Timeouts of a payment over several heads: every hop gets 95% of the one before, the lock
    route keeps whole minutes, and a claim has to come 20 minutes before the deadline. */
module HopDeadlines {
  import opened Options

  type Time = int

  const MINUTE := 60000
  const CLAIM_OFFSET := 20 * MINUTE
  const MAX_RETRIES := 3

  /** `Math.pow(0.95, k)`, in exact arithmetic. */
  function Factor(k: nat): real {
    if k == 0 then 1.0 else 0.95 * Factor(k - 1)
  }

  /** `Math.round(m * 100)`: the hundredths of a minute that go into the request. */
  function Hundredths(m: real): int {
    (m * 100.0 + 0.5).Floor
  }

  /** What `parseInt` reads back: the whole minutes. */
  function WholeMinutes(m: real): int {
    Hundredths(m) / 100
  }

  /** The minutes of hop `k` before any rounding. */
  function Share(base: real, k: nat): real {
    base * Factor(k)
  }

  function HopMinutes(base: real, k: nat): int {
    WholeMinutes(Share(base, k))
  }

  function Deadline(base: real, k: nat, at: Time): Time {
    at + HopMinutes(base, k) * MINUTE
  }

  /** The claim route builds a transaction that the head takes until 20 minutes before. */
  predicate CanClaim(now: Time, deadline: Time) {
    deadline - CLAIM_OFFSET > 0 && now <= deadline - CLAIM_OFFSET
  }

  // ------------------------------------------------------------------ the minutes

  /** What `MinuteLess` comes to before the rounding of the next hop. */
  predicate Shrinks(m: real) {
    95.0 * m + 0.5 < 100.0 * (WholeMinutes(m) as real)
  }

  /** After both roundings, 95% is at least one whole minute less if and only if it shrinks. */
  lemma MinuteLess(m: real)
    ensures WholeMinutes(0.95 * m) <= WholeMinutes(m) - 1 <==> Shrinks(m)
  {
    FloorBelow(0.95 * m * 100.0 + 0.5, 100 * WholeMinutes(m));
  }

  lemma FloorBelow(x: real, n: int)
    ensures x.Floor < n <==> x < n as real
  {
    assert x.Floor as real <= x < (x.Floor + 1) as real;
  }

  /** So it does at 19.995 minutes and above, */
  lemma ShrinksFrom(m: real)
    requires m >= 19.995
    ensures Shrinks(m)
  {
    var h := Hundredths(m);
    assert h as real <= m * 100.0 + 0.5 < (h + 1) as real;
    assert 100 * WholeMinutes(m) >= h - 99;
    if m < 20.0 {
      FloorBelow(m * 100.0 + 0.5, 2000);
      assert WholeMinutes(m) >= 20;
    }
  }

  /** and no bound below that is enough. */
  lemma ShrinksAbove(bound: real)
    ensures (forall m | m >= bound :: WholeMinutes(0.95 * m) <= WholeMinutes(m) - 1) <==> bound >= 19.995
  {
    if bound >= 19.995 {
      forall m | m >= bound ensures WholeMinutes(0.95 * m) <= WholeMinutes(m) - 1 {
        ShrinksFrom(m);
        MinuteLess(m);
      }
    } else {
      var m := if bound < 19.9948 then 19.9948 else bound;
      FloorBelow(m * 100.0 + 0.5, 2000);
      MinuteLess(m);
      assert m >= bound && !(WholeMinutes(0.95 * m) <= WholeMinutes(m) - 1);
    }
  }

  /** Just below it both hops get 19. */
  lemma JustBelowTwenty()
    ensures 19.99 < 19.9948 < 19.995 && WholeMinutes(19.9948) == WholeMinutes(0.95 * 19.9948) == 19
  {
    assert 19.9948 * 100.0 + 0.5 == 1999.98 && (1999.98 as real).Floor == 1999;
    assert 0.95 * 19.9948 * 100.0 + 0.5 == 1900.006 && (1900.006 as real).Floor == 1900;
  }

  /** The same for neighbouring hops of any base. */
  lemma HopLess(base: real, k: nat)
    ensures HopMinutes(base, k + 1) <= HopMinutes(base, k) - 1 <==> Shrinks(Share(base, k))
    ensures Share(base, k) >= 19.995 ==> Shrinks(Share(base, k))
  {
    hide WholeMinutes, Shrinks, Share;
    NextShare(base, k);
    MinuteLess(Share(base, k));
    if Share(base, k) >= 19.995 { ShrinksFrom(Share(base, k)); }
  }

  /** The first hop gets all of the base, each next one 95 hundredths of the one before. */
  lemma NextShare(base: real, k: nat)
    ensures Share(base, 0) == base
    ensures Share(base, k + 1) == 0.95 * Share(base, k)
  {
    Regroup(base, Factor(k), Factor(k + 1));
  }

  lemma Regroup(base: real, f: real, g: real)
    requires g == 0.95 * f
    ensures base * g == 0.95 * (base * f)
  {
  }

  /** A deadline is as many whole minutes after the lock as the hop gets, and its claims are valid
      until 20 minutes before it, if that is a time at all. */
  lemma DeadlineMinutes(base: real, k: nat, at: Time, now: Time)
    ensures Deadline(base, k, at) == at + 60000 * HopMinutes(base, k)
    ensures CanClaim(now, Deadline(base, k, at)) <==>
            at + 60000 * (HopMinutes(base, k) - 20) > 0 && now <= at + 60000 * (HopMinutes(base, k) - 20)
  {
  }

  // ------------------------------------------------------------------ the payment

  datatype Lock = Lock(at: Time, deadline: Time)

  datatype Ending = Completed | Aborted | Thrown

  /** What the payment meets: cancellation before a hop or an attempt, the time at which an attempt
      locks if it works, and whether the wait for the confirmation of a hop is successful. */
  datatype World = World(stops: nat -> bool, stopsAttempt: (nat, nat) -> bool, locks: (nat, nat) -> Option<Time>,
                         automated: nat -> bool, seenBefore: nat -> bool, confirmed: nat -> bool)

  /** Hop `k` is locked by its first attempt that works, with no cancellation up to it. */
  predicate LockedBy(w: World, k: nat, at: Time) {
    exists r :: 0 <= r <= MAX_RETRIES && w.locks(k, r) == Some(at) && !w.stopsAttempt(k, r)
                && forall q | 0 <= q < r :: w.locks(k, q).None? && !w.stopsAttempt(k, q)
  }

  /** Hop `k` gets its lock once it is its turn. */
  ghost predicate GetsLock(w: World, k: nat) {
    !w.stops(k) && (w.automated(k) && k > 0 ==> w.seenBefore(k - 1)) && exists at :: LockedBy(w, k, at)
  }

  /** And the next one gets its turn. */
  ghost predicate Passes(w: World, hops: nat, k: nat) {
    GetsLock(w, k) && (k < hops - 1 ==> w.confirmed(k))
  }

  /** Hops in order, each with the deadline of its place, and each confirmed before the next. */
  ghost predicate InOrder(w: World, base: real, locks: seq<Lock>) {
    forall k | 0 <= k < |locks| ::
      && GetsLock(w, k) && LockedBy(w, k, locks[k].at) && locks[k].deadline == Deadline(base, k, locks[k].at)
      && (k + 1 < |locks| ==> w.confirmed(k))
  }

  /** The attempts at one hop. */
  method ExecuteStep(w: World, k: nat) returns (at: Option<Time>)
    ensures match at case Some(t) => LockedBy(w, k, t) case None => forall t :: !LockedBy(w, k, t)
    ensures (forall r | 0 <= r < 4 :: !w.stopsAttempt(k, r)) ==>
      (at.None? <==> forall r | 0 <= r < 4 :: w.locks(k, r).None?)
  {
    at := None;
    for retry := 0 to MAX_RETRIES + 1
      invariant at.None? && forall q | 0 <= q < retry :: w.locks(k, q).None? && !w.stopsAttempt(k, q)
    {
      if w.stopsAttempt(k, retry) { break; }
      if w.locks(k, retry).Some? { return w.locks(k, retry); }
    }
  }

  /** `executePayment` up to the wait for the final claim: which hops have a lock, and why it ended
      there. */
  method ExecutePayment(w: World, base: real, hops: nat) returns (locks: seq<Lock>, end: Ending)
    ensures |locks| <= hops && InOrder(w, base, locks)
    ensures end.Completed? <==> |locks| == hops
    ensures end.Completed? <==> forall k | 0 <= k < hops :: Passes(w, hops, k)
    ensures var n := |locks|;
            && (end.Aborted? <==> n < hops && (n > 0 ==> w.confirmed(n - 1)) && w.stops(n))
            && (end.Thrown? ==> n < hops && ((n > 0 && !w.confirmed(n - 1)) || (!w.stops(n) && !GetsLock(w, n))))
  {
    hide Deadline, LockedBy;
    locks := [];
    for k := 0 to hops
      invariant |locks| == k && InOrder(w, base, locks) && (0 < k < hops ==> w.confirmed(k - 1))
    {
      ghost var passes := Passes(w, hops, k);
      if w.stops(k) { return locks, Aborted; }
      if w.automated(k) && k > 0 && !w.seenBefore(k - 1) { return locks, Thrown; }
      var at := ExecuteStep(w, k);
      if at.None? { return locks, Thrown; }
      locks := locks + [Lock(at.value, Deadline(base, k, at.value))];
      if k < hops - 1 && !w.confirmed(k) { return locks, Thrown; }
    }
    end := Completed;
  }

  // ------------------------------------------------------------------ the deadlines

  /** Each lock follows the one before within the minutes that its timeout is shorter. */
  predicate InTime(base: real, locks: seq<Lock>) {
    forall k | 0 <= k < |locks| - 1 ::
      locks[k + 1].at - locks[k].at <= (HopMinutes(base, k) - HopMinutes(base, k + 1)) * MINUTE
  }

  /** One minute is enough, while the hop before shrinks, as it does from 19.995 minutes up. */
  lemma MinuteIsInTime(base: real, locks: seq<Lock>)
    requires forall k | 0 <= k < |locks| - 1 ::
               (Share(base, k) >= 19.995 || Shrinks(Share(base, k))) && locks[k + 1].at - locks[k].at <= MINUTE
    ensures InTime(base, locks)
  {
    hide Share, Shrinks, WholeMinutes;
    forall k | 0 <= k < |locks| - 1
      ensures locks[k + 1].at - locks[k].at <= (HopMinutes(base, k) - HopMinutes(base, k + 1)) * MINUTE
    {
      HopLess(base, k);
    }
  }

  lemma {:induction false} LaterHopEarlierDeadline(w: World, base: real, locks: seq<Lock>, i: nat, j: nat)
    requires InOrder(w, base, locks) && InTime(base, locks) && i <= j < |locks|
    ensures locks[j].deadline <= locks[i].deadline
    decreases j - i
  {
    if i < j {
      LaterHopEarlierDeadline(w, base, locks, i, j - 1);
      assert locks[(j - 1) + 1].at - locks[j - 1].at
             <= (HopMinutes(base, j - 1) - HopMinutes(base, j - 1 + 1)) * MINUTE;
    }
  }

  /** The deadlines are safe: while each lock follows in time, whoever can still claim a later hop
      can still claim every earlier one. */
  lemma ClaimsNest(w: World, base: real, locks: seq<Lock>, i: nat, j: nat, now: Time)
    requires InOrder(w, base, locks) && InTime(base, locks) && i <= j < |locks| && CanClaim(now, locks[j].deadline)
    ensures CanClaim(now, locks[i].deadline)
  {
    LaterHopEarlierDeadline(w, base, locks, i, j);
  }

  /** And it is needed: a hop that follows too late can be claimed when the one before cannot. */
  lemma TooLate(w: World, base: real, locks: seq<Lock>, k: nat)
    requires InOrder(w, base, locks) && k + 1 < |locks| && locks[k + 1].deadline > CLAIM_OFFSET
    ensures (forall now :: CanClaim(now, locks[k + 1].deadline) ==> CanClaim(now, locks[k].deadline)) <==>
            locks[k + 1].at - locks[k].at <= (HopMinutes(base, k) - HopMinutes(base, k + 1)) * MINUTE
  {
    WindowsNest(locks[k].deadline, locks[k + 1].deadline);
    DeadlinesCompare(w, base, locks, k);
  }

  lemma WindowsNest(earlier: Time, later: Time)
    requires later > CLAIM_OFFSET
    ensures (forall now :: CanClaim(now, later) ==> CanClaim(now, earlier)) <==> later <= earlier
  {
    assert CanClaim(later - CLAIM_OFFSET, later);
  }

  lemma DeadlinesCompare(w: World, base: real, locks: seq<Lock>, k: nat)
    requires InOrder(w, base, locks) && k + 1 < |locks|
    ensures locks[k + 1].deadline <= locks[k].deadline <==>
            locks[k + 1].at - locks[k].at <= (HopMinutes(base, k) - HopMinutes(base, k + 1)) * MINUTE
  {
  }
}
