/** CBOR data items (RFC 8949) as trees, their encoding, and the walker that finds
    where an item ends. The tree keeps every head as it was written, so that an item
    has exactly one encoding here even where the RFC allows several. */
module Cbor {

  type byte = x: int | 0 <= x < 256

  /** The head of an item: its additional information, and the argument bytes after it. */
  datatype Head = Head(ai: nat, arg: seq<byte>) {
    predicate Valid() {
      ai <= 27 && |arg| == Width(ai)
    }

    /** The argument, big-endian, as section 3 of RFC 8949 reads it. */
    function Val(): nat {
      if ai < 24 then ai else BigEndian(arg, 0, |arg|)
    }

    function Bytes(mt: nat): (s: seq<byte>)
      requires mt < 8 && ai < 32
      ensures |s| == 1 + |arg|
    {
      [mt * 32 + ai] + arg
    }

    /** The first byte holds the major type and the additional information. */
    lemma FirstByte(mt: nat)
      requires mt < 8 && ai < 32
      ensures Bytes(mt)[0] / 32 == mt && Bytes(mt)[0] % 32 == ai && Bytes(mt)[1..] == arg
    {
    }
  }

  function Width(ai: nat): nat {
    if ai < 24 then 0 else if ai == 24 then 1 else if ai == 25 then 2 else if ai == 26 then 4 else 8
  }

  /** The `n` bytes of `b` from offset `at` on, read as one number. */
  function BigEndian(b: seq<byte>, at: nat, n: nat): nat
    requires at + n <= |b|
  {
    if n == 0 then 0 else BigEndian(b, at, n - 1) * 256 + b[at + n - 1]
  }

  /** `Stray` is a byte with additional information 31 on a major type that has no
      indefinite form. It is no data item of the RFC, but the walker steps over it;
      `Stray(7)` is the "break" byte 0xff. */
  datatype Item =
    | Plain(mt: nat, head: Head)
    | Str(mt: nat, head: Head, payload: seq<byte>)
    | OpenStr(mt: nat, chunks: seq<Item>)
    | Arr(head: Head, elems: seq<Item>)
    | OpenArr(elems: seq<Item>)
    | Map(head: Head, entries: seq<Entry>)
    | OpenMap(entries: seq<Entry>)
    | Tag(head: Head, content: Item)
    | Stray(mt: nat)

  datatype Entry = Entry(key: Item, val: Item)

  /** What the walker accepts as one item. */
  ghost predicate Accepted(i: Item)
    decreases i, 0
  {
    match i
    case Plain(mt, h) => mt in {0, 1, 7} && h.Valid()
    case Str(mt, h, p) => mt in {2, 3} && h.Valid() && |p| == h.Val()
    case OpenStr(mt, cs) => mt in {2, 3} && AllAccepted(cs) && Stray(7) !in cs
    case Arr(h, es) => h.Valid() && |es| == h.Val() && AllAccepted(es)
    case OpenArr(es) => AllAccepted(es) && Stray(7) !in es
    case Map(h, es) => h.Valid() && |es| == h.Val() && AllEntries(es)
    case OpenMap(es) => AllEntries(es) && (forall e | e in es :: e.key != Stray(7))
    case Tag(h, c) => h.Valid() && Accepted(c)
    case Stray(mt) => mt in {0, 1, 6, 7}
  }

  ghost predicate AllAccepted(es: seq<Item>)
    decreases es, 0
  {
    es != [] ==> Accepted(es[0]) && AllAccepted(es[1..])
  }

  ghost predicate AllEntries(es: seq<Entry>)
    decreases es, 0
  {
    es != [] ==> AcceptedEntry(es[0]) && AllEntries(es[1..])
  }

  ghost predicate AcceptedEntry(e: Entry)
    decreases e, 0
  {
    Accepted(e.key) && Accepted(e.val)
  }

  lemma {:induction false} AllAcceptedCat(es: seq<Item>, fs: seq<Item>)
    ensures AllAccepted(es + fs) <==> AllAccepted(es) && AllAccepted(fs)
  {
    if es == [] {
      assert es + fs == fs;
    } else {
      assert (es + fs)[1..] == es[1..] + fs;
      AllAcceptedCat(es[1..], fs);
    }
  }

  lemma {:induction false} AllEntriesCat(es: seq<Entry>, fs: seq<Entry>)
    ensures AllEntries(es + fs) <==> AllEntries(es) && AllEntries(fs)
  {
    if es == [] {
      assert es + fs == fs;
    } else {
      assert (es + fs)[1..] == es[1..] + fs;
      AllEntriesCat(es[1..], fs);
    }
  }

  lemma AllEntriesAt(es: seq<Entry>, k: nat)
    requires k < |es| && AllEntries(es)
    ensures AcceptedEntry(es[k]) && AllEntries(es[..k]) && AllEntries(es[k + 1..])
  {
    assert es == es[..k] + es[k..];
    AllEntriesCat(es[..k], es[k..]);
    assert es[k..][1..] == es[k + 1..];
  }

  /** The well-formed data items of sections 3 to 3.3 of RFC 8949. */
  ghost predicate WellFormed(i: Item) {
    match i
    case Plain(mt, h) => mt in {0, 1, 7} && h.Valid() && (mt == 7 && h.ai == 24 ==> h.Val() >= 32)
    case Str(mt, h, p) => mt in {2, 3} && h.Valid() && |p| == h.Val()
    case OpenStr(mt, cs) => mt in {2, 3} && (forall c | c in cs :: WellFormed(c) && c.Str? && c.mt == mt)
    case Arr(h, es) => h.Valid() && |es| == h.Val() && (forall e | e in es :: WellFormed(e))
    case OpenArr(es) => forall e | e in es :: WellFormed(e)
    case Map(h, es) => h.Valid() && |es| == h.Val() && (forall e | e in es :: WellFormed(e.key) && WellFormed(e.val))
    case OpenMap(es) => forall e | e in es :: WellFormed(e.key) && WellFormed(e.val)
    case Tag(h, c) => h.Valid() && WellFormed(c)
    case Stray(_) => false
  }

  /** The byte string of an item. Only accepted items are ever encoded, or items whose
      counts alone are wrong, so the guards on `mt` and `ai` never matter. */
  function Enc(i: Item): (s: seq<byte>)
    ensures |s| > 0
    decreases i, 0
  {
    match i
    case Plain(mt, h) => Lead(mt, h)
    case Str(mt, h, p) => Lead(mt, h) + p
    case OpenStr(mt, cs) => Lead(mt, OPEN) + EncAll(cs) + [0xff]
    case Arr(h, es) => Lead(4, h) + EncAll(es)
    case OpenArr(es) => Lead(4, OPEN) + EncAll(es) + [0xff]
    case Map(h, es) => Lead(5, h) + EncEntries(es)
    case OpenMap(es) => Lead(5, OPEN) + EncEntries(es) + [0xff]
    case Tag(h, c) => Lead(6, h) + Enc(c)
    case Stray(mt) => Lead(mt, OPEN)
  }

  const OPEN := Head(31, [])

  function Lead(mt: nat, h: Head): (s: seq<byte>)
    ensures |s| > 0
    ensures mt < 8 && h.ai < 32 ==> s == h.Bytes(mt)
  {
    if mt < 8 && h.ai < 32 then h.Bytes(mt) else [0]
  }

  function EncAll(es: seq<Item>): (s: seq<byte>)
    ensures |s| >= |es|
    decreases es, 0
  {
    if es == [] then [] else Enc(es[0]) + EncAll(es[1..])
  }

  function EncEntries(es: seq<Entry>): (s: seq<byte>)
    ensures |s| >= |es|
    decreases es, 0
  {
    if es == [] then [] else EncEntry(es[0]) + EncEntries(es[1..])
  }

  function EncEntry(e: Entry): (s: seq<byte>)
    ensures |s| > 0
    decreases e, 0
  {
    Enc(e.key) + Enc(e.val)
  }

  // ---------------------------------------------------------------- the walker

  /** `RanOut`: the walk reads past the last byte. There JavaScript yields `undefined`
      and the source goes on with a meaningless value, or forever; the model stops. */
  datatype Outcome = Done(end: nat) | BadInfo(ai: nat) | RanOut

  function Skip(b: seq<byte>, at: nat): (r: Outcome)
    ensures r.Done? ==> at < |b| && at < r.end
    decreases |b| - at, 0, 0
  {
    if at >= |b| then RanOut
    else
      var mt, ai := b[at] / 32, b[at] % 32;
      if ai == 31 then SkipOpen(b, mt, at + 1)
      else if ai > 27 then BadInfo(ai)
      else
        var pos := at + 1 + Width(ai);
        if pos > |b| then RanOut
        else SkipBody(b, mt, pos, if ai < 24 then ai else BigEndian(b, at + 1, Width(ai)))
  }

  /** What follows a head of major type `mt` whose argument is `val`. */
  function SkipBody(b: seq<byte>, mt: nat, pos: nat, val: nat): (r: Outcome)
    ensures r.Done? ==> pos <= r.end
    decreases |b| - pos, 3, 0
  {
    if mt in {2, 3} then Done(pos + val)
    else if mt == 4 then SkipN(b, pos, val)
    else if mt == 5 then SkipN(b, pos, 2 * val)
    else if mt == 6 then Skip(b, pos)
    else Done(pos)
  }

  /** What follows a first byte with additional information 31. */
  function SkipOpen(b: seq<byte>, mt: nat, pos: nat): (r: Outcome)
    ensures r.Done? ==> pos <= r.end
    decreases |b| - pos, 3, 0
  {
    if mt in {2, 3, 4} then SkipToBreak(b, pos)
    else if mt == 5 then SkipPairsToBreak(b, pos)
    else Done(pos)
  }

  function SkipN(b: seq<byte>, at: nat, n: nat): (r: Outcome)
    ensures r.Done? ==> at <= r.end && (n > 0 ==> at < r.end)
    decreases |b| - at, 1, n
  {
    if n == 0 then Done(at)
    else
      match Skip(b, at)
      case Done(e) => SkipN(b, e, n - 1)
      case other => other
  }

  function SkipToBreak(b: seq<byte>, at: nat): (r: Outcome)
    ensures r.Done? ==> at < r.end
    decreases |b| - at, 1, 0
  {
    if at >= |b| then RanOut
    else if b[at] == 0xff then Done(at + 1)
    else
      match Skip(b, at)
      case Done(e) => SkipToBreak(b, e)
      case other => other
  }

  function SkipPairsToBreak(b: seq<byte>, at: nat): (r: Outcome)
    ensures r.Done? ==> at < r.end
    decreases |b| - at, 2, 0
  {
    if at >= |b| then RanOut
    else if b[at] == 0xff then Done(at + 1)
    else
      match SkipN(b, at, 2)
      case Done(e) => SkipPairsToBreak(b, e)
      case other => other
  }
}
