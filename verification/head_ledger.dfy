/** A Hydra head as a ledger: Ida's wallet, everybody else's, and the outputs at scripts. Fees
    are zero, and wallets are balances. */
module HeadLedger {
  import opened Options
  import opened HtlcData

  type TxId = nat

  datatype Ref = Ref(tx: TxId, index: nat)

  datatype Lottery = Lottery(prize: nat, ticketCost: nat, paidWinner: bool, closeTimestamp: int, admin: string)

  datatype Datum = HtlcDatum(htlc: Htlc) | TicketDatum(ticket: Ticket) | LotteryDatum(lottery: Lottery) | NoDatum

  /** Which kind of transaction made an output. No step looks at it. */
  datatype Origin = UserLock | IdaLock | RelayLock | PayoutLock | TicketOut | LotteryOut

  datatype Output = Output(ref: Ref, address: Address, lovelace: nat, nft: bool, datum: Datum, origin: Origin)

  datatype Ledger = Ledger(ida: nat, others: nat, outputs: seq<Output>) {
    function Total(): int {
      ida + others + SumOf(outputs, Everything)
    }
  }

  datatype Measure = Everything | IdaLocks | RelayLocks | Nfts

  function Weight(o: Output, m: Measure): nat {
    match m
    case Everything => o.lovelace
    case IdaLocks => if o.origin == IdaLock then o.lovelace else 0
    case RelayLocks => if o.origin == RelayLock then o.lovelace else 0
    case Nfts => if o.nft then 1 else 0
  }

  function SumOf(os: seq<Output>, m: Measure): nat {
    if os == [] then 0 else Weight(os[0], m) + SumOf(os[1..], m)
  }

  lemma {:induction false} SumCat(os: seq<Output>, more: seq<Output>, m: Measure)
    ensures SumOf(os + more, m) == SumOf(os, m) + SumOf(more, m)
  {
    if os == [] {
      assert os + more == more;
    } else {
      assert (os + more)[1..] == os[1..] + more;
      SumCat(os[1..], more, m);
    }
  }

  function Without(os: seq<Output>, i: nat): seq<Output>
    requires i < |os|
  {
    os[..i] + os[i + 1..]
  }

  lemma SumWithout(os: seq<Output>, i: nat, m: Measure)
    requires i < |os|
    ensures SumOf(Without(os, i), m) == SumOf(os, m) - Weight(os[i], m)
  {
    assert os == os[..i] + ([os[i]] + os[i + 1..]);
    assert ([os[i]] + os[i + 1..])[1..] == os[i + 1..];
    SumCat(os[..i], [os[i]] + os[i + 1..], m);
    SumCat(os[..i], os[i + 1..], m);
  }

  lemma SumWith(os: seq<Output>, o: Output, m: Measure)
    ensures SumOf(os + [o], m) == SumOf(os, m) + Weight(o, m)
  {
    SumCat(os, [o], m);
    assert SumOf([o], m) == Weight(o, m) + SumOf([], m);
  }

  /** Where an output stands, or the length of the list. */
  function Find(os: seq<Output>, ref: Ref): (i: nat)
    ensures i <= |os| && (i < |os| ==> os[i].ref == ref)
    ensures forall k | 0 <= k < i :: os[k].ref != ref
  {
    if os == [] || os[0].ref == ref then 0 else 1 + Find(os[1..], ref)
  }

  // ------------------------------------------------------------------- transactions

  function Pay(l: Ledger, o: Output, byIda: bool): Ledger
    requires if byIda then o.lovelace <= l.ida else o.lovelace <= l.others
  {
    if byIda then Ledger(l.ida - o.lovelace, l.others, l.outputs + [o])
    else Ledger(l.ida, l.others - o.lovelace, l.outputs + [o])
  }

  lemma PayConserves(l: Ledger, o: Output, byIda: bool)
    requires if byIda then o.lovelace <= l.ida else o.lovelace <= l.others
    ensures Pay(l, o, byIda).Total() == l.Total()
  {
    SumWith(l.outputs, o, Everything);
  }

  function DatumOf(d: Option<Inline>): Datum {
    match d
    case Some(TicketInline(t)) => TicketDatum(t)
    case Some(HtlcInline(h)) => HtlcDatum(h)
    case _ => NoDatum
  }

  function Wanted(o: Output): int
    requires o.datum.HtlcDatum?
  {
    LovelaceOf(o.datum.htlc.desired.value)
  }

  /** Ida can claim the `i`-th output: she is the receiver, and what it holds together with her
      wallet covers the desired output. */
  predicate Claimable(c: Setup, l: Ledger, i: nat) {
    && i < |l.outputs| && l.outputs[i].address == Script(c.htlcScript) && l.outputs[i].datum.HtlcDatum?
    && l.outputs[i].datum.htlc.receiver == c.ida
    && 0 <= Wanted(l.outputs[i]) <= l.outputs[i].lovelace + l.ida
  }

  /** Spends the output, makes the desired one, and leaves the difference with Ida. */
  function Claim(c: Setup, l: Ledger, i: nat, tx: TxId): Ledger
    requires Claimable(c, l, i)
  {
    var o := l.outputs[i];
    var to, n := o.datum.htlc.desired.address, Wanted(o);
    var change := l.ida + o.lovelace - n;
    var rest := Without(l.outputs, i);
    if to == Key(c.ida) then Ledger(change + n, l.others, rest)
    else if to.Key? then Ledger(change, l.others + n, rest)
    else
      var made := Output(Ref(tx, 0), to, n, false, DatumOf(o.datum.htlc.desired.datum), TicketOut);
      Ledger(change, l.others, rest + [made])
  }

  lemma ClaimConserves(c: Setup, l: Ledger, i: nat, tx: TxId)
    requires Claimable(c, l, i)
    ensures Claim(c, l, i, tx).Total() == l.Total()
  {
    SumWithout(l.outputs, i, Everything);
    var made := Output(Ref(tx, 0), l.outputs[i].datum.htlc.desired.address, Wanted(l.outputs[i]), false,
                       DatumOf(l.outputs[i].datum.htlc.desired.datum), TicketOut);
    SumWith(Without(l.outputs, i), made, Everything);
  }

  /** The lottery can pay for this ticket: both are there, no winner has been paid, the prize is
      covered, and the ticket carries the datum of its payout. */
  predicate Payable(l: Ledger, i: nat, j: nat) {
    && i < |l.outputs| && j < |l.outputs| && i != j
    && l.outputs[i].nft && l.outputs[i].datum.LotteryDatum? && !l.outputs[i].datum.lottery.paidWinner
    && l.outputs[i].datum.lottery.prize <= l.outputs[i].lovelace
    && l.outputs[j].datum.TicketDatum? && l.outputs[j].datum.ticket.datum.Some?
    && l.outputs[j].datum.ticket.datum.value.HtlcInline?
  }

  /** Spends lottery and ticket; makes the lottery again, less the prize and marked as paid, and
      the winner's payout. The ticket's money is change for the administrator. */
  function PayWinner(c: Setup, l: Ledger, i: nat, j: nat, tx: TxId): Ledger
    requires Payable(l, i, j)
  {
    var lottery, ticket := l.outputs[i], l.outputs[j];
    var prize := lottery.datum.lottery.prize;
    var again := lottery.(ref := Ref(tx, 0), lovelace := lottery.lovelace - prize,
                          datum := LotteryDatum(lottery.datum.lottery.(paidWinner := true)));
    var payout := Output(Ref(tx, 1), Script(c.htlcScript), prize, false,
                         HtlcDatum(ticket.datum.ticket.datum.value.htlc),
                         PayoutLock);
    Ledger(l.ida, l.others + ticket.lovelace, Rest(l.outputs, i, j) + [again] + [payout])
  }

  function Rest(os: seq<Output>, i: nat, j: nat): seq<Output>
    requires i < |os| && j < |os| && i != j
  {
    if i < j then Without(Without(os, j), i) else Without(Without(os, i), j)
  }

  lemma SumRest(os: seq<Output>, i: nat, j: nat, m: Measure)
    requires i < |os| && j < |os| && i != j
    ensures SumOf(Rest(os, i, j), m) == SumOf(os, m) - Weight(os[i], m) - Weight(os[j], m)
  {
    if i < j {
      SumWithout(os, j, m);
      SumWithout(Without(os, j), i, m);
    } else {
      SumWithout(os, i, m);
      SumWithout(Without(os, i), j, m);
    }
  }

  lemma PayWinnerConserves(c: Setup, l: Ledger, i: nat, j: nat, tx: TxId)
    requires Payable(l, i, j)
    ensures PayWinner(c, l, i, j, tx).Total() == l.Total()
  {
    var l' := PayWinner(c, l, i, j, tx);
    var n := |l'.outputs| - 2;
    SumRest(l.outputs, i, j, Everything);
    SumWith(Rest(l.outputs, i, j), l'.outputs[n], Everything);
    SumWith(Rest(l.outputs, i, j) + [l'.outputs[n]], l'.outputs[n + 1], Everything);
  }
}
