/** Datums of hash-time-locked outputs and tickets, and the test by which Ida's head-B lock is
    recognized again although its timeouts depend on the clock. */
module HtlcData {
  import opened Options
  import Hex

  datatype Address = Key(key: string) | Script(hash: string)

  /** Policy to asset name to quantity; lovelace is under the two empty names. */
  type Value = map<string, map<string, int>>

  function LovelaceOf(v: Value): int {
    if "" in v && "" in v[""] then v[""][""] else 0
  }

  function Lovelace(n: int): Value {
    map["" := map["" := n]]
  }

  datatype Desired = Desired(address: Address, value: Value, datum: Option<Inline>)

  datatype Htlc = Htlc(hash: string, timeout: int, sender: string, receiver: string, desired: Desired)

  datatype Ticket = Ticket(lotteryId: string, address: Address, datum: Option<Inline>)

  /** Plutus data, as far as a schema decodes it. */
  datatype Inline = HtlcInline(htlc: Htlc) | TicketInline(ticket: Ticket) | OtherInline(raw: string)

  /** What one head-B lock is for. */
  datatype Purchase = Purchase(hash: string, buyer: string, lotteryId: string, ticketScript: string, ticketCost: nat,
                               prize: nat)

  /** Ida's key, and the script that locks. */
  datatype Setup = Setup(ida: string, htlcScript: string)

  function Payout(c: Setup, p: Purchase, timeout: int): Htlc {
    Htlc(Hex.LowerAll(p.hash), timeout, p.buyer, c.ida, Desired(Key(c.ida), Lovelace(p.prize), None))
  }

  function TicketFor(c: Setup, p: Purchase, timeout: int): Ticket {
    Ticket(p.lotteryId, Script(c.htlcScript), Some(HtlcInline(Payout(c, p, timeout))))
  }

  /** The lock Ida makes on head B; `payoutTimeout` and `timeout` are read from the clock. */
  function LockFor(c: Setup, p: Purchase, payoutTimeout: int, timeout: int): Htlc {
    Htlc(Hex.LowerAll(p.hash), timeout, c.ida, c.ida,
         Desired(Script(p.ticketScript), Lovelace(p.ticketCost), Some(TicketInline(TicketFor(c, p, payoutTimeout)))))
  }

  predicate NestedMatches(actual: Htlc, expected: Htlc) {
    && Hex.LowerAll(actual.hash) == Hex.LowerAll(expected.hash)
    && actual.sender == expected.sender && actual.receiver == expected.receiver
    && actual.desired.address == expected.desired.address
    && LovelaceOf(actual.desired.value) == LovelaceOf(expected.desired.value)
    && actual.desired.datum.None? && expected.desired.datum.None?
  }

  predicate TicketMatches(actual: Ticket, expected: Ticket) {
    && actual.lotteryId == expected.lotteryId && actual.address == expected.address
    && ((actual.datum.None? && expected.datum.None?)
        || (actual.datum.Some? && expected.datum.Some?
            && actual.datum.value.HtlcInline? && expected.datum.value.HtlcInline?
            && NestedMatches(actual.datum.value.htlc, expected.datum.value.htlc)))
  }

  /** `matchesExpectedHeadBDatum`; data that a schema does not decode never matches. */
  predicate MatchesExpected(d: Htlc, c: Setup, p: Purchase, expectedTicket: Ticket) {
    && Hex.LowerAll(d.hash) == Hex.LowerAll(p.hash)
    && d.sender == c.ida && d.receiver == c.ida
    && LovelaceOf(d.desired.value) == p.ticketCost
    && d.desired.address == Script(p.ticketScript)
    && d.desired.datum.Some? && d.desired.datum.value.TicketInline?
    && TicketMatches(d.desired.datum.value.ticket, expectedTicket)
  }

  /** What is recognized, of whatever datum: Ida's own lock for a ticket of this lottery at this cost,
      whose payout is hers, for the same hash, buyer and prize. No timeout matters. */
  lemma RecognizedIff(d: Htlc, c: Setup, p: Purchase, now: int)
    ensures MatchesExpected(d, c, p, TicketFor(c, p, now)) <==>
      && Hex.LowerAll(d.hash) == Hex.LowerAll(p.hash) && d.sender == c.ida && d.receiver == c.ida
      && d.desired.address == Script(p.ticketScript) && LovelaceOf(d.desired.value) == p.ticketCost
      && d.desired.datum.Some? && d.desired.datum.value.TicketInline?
      && var t := d.desired.datum.value.ticket;
         && t.lotteryId == p.lotteryId && t.address == Script(c.htlcScript)
         && t.datum.Some? && t.datum.value.HtlcInline?
         && var h := t.datum.value.htlc;
            && Hex.LowerAll(h.hash) == Hex.LowerAll(p.hash) && h.sender == p.buyer && h.receiver == c.ida
            && h.desired.address == Key(c.ida) && LovelaceOf(h.desired.value) == p.prize && h.desired.datum.None?
  {
    Hex.LowerTwice(p.hash);
    assert LovelaceOf(Lovelace(p.prize)) == p.prize;
  }

  /** Two purchases that are to share one lock: the case of the hash does not matter. */
  predicate SamePurchase(p: Purchase, q: Purchase) {
    p.(hash := Hex.LowerAll(p.hash)) == q.(hash := Hex.LowerAll(q.hash))
  }

  /** A lock made at any time is recognized at any other time, by exactly the same purchase. */
  lemma MatchIffSamePurchase(c: Setup, p: Purchase, q: Purchase, payoutTimeout: int, timeout: int, now: int)
    ensures MatchesExpected(LockFor(c, p, payoutTimeout, timeout), c, q, TicketFor(c, q, now)) <==> SamePurchase(p, q)
  {
    Hex.LowerTwice(p.hash);
    Hex.LowerTwice(q.hash);
    assert LovelaceOf(Lovelace(p.ticketCost)) == p.ticketCost;
    assert LovelaceOf(Lovelace(p.prize)) == p.prize && LovelaceOf(Lovelace(q.prize)) == q.prize;
  }
}
