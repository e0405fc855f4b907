/** Bytes determine the item: no two accepted items have the same encoding. */
module CborUnique {
  import opened Cbor
  import opened CborWalk

  /** Two items in front of the same bytes have the same encoding. */
  lemma SameFront(i: Item, s: seq<byte>, j: Item, t: seq<byte>)
    requires Accepted(i) && Accepted(j) && Enc(i) + s == Enc(j) + t
    ensures Enc(i) == Enc(j) && s == t
  {
    var b := Enc(i) + s;
    AtWhole(b);
    AtSplit(b, 0, b, Enc(i), s);
    AtSplit(b, 0, b, Enc(j), t);
    SkipEnc(b, 0, i);
    SkipEnc(b, 0, j);
    CutSame(Enc(i), s, Enc(j), t);
  }

  lemma CutSame(a: seq<byte>, s: seq<byte>, b: seq<byte>, t: seq<byte>)
    requires a + s == b + t && |a| == |b|
    ensures a == b && s == t
  {
    assert a == (a + s)[..|a|] && b == (b + t)[..|b|];
    assert s == (a + s)[|a|..] && t == (b + t)[|b|..];
  }

  lemma SameHead(mt: nat, h: Head, s: seq<byte>, h': Head, t: seq<byte>)
    requires mt < 8 && h.Valid() && h'.Valid() && h.Bytes(mt) + s == h'.Bytes(mt) + t
    ensures h == h' && s == t
  {
    h.FirstByte(mt);
    h'.FirstByte(mt);
    assert (h.Bytes(mt) + s)[0] == h.Bytes(mt)[0] && (h'.Bytes(mt) + t)[0] == h'.Bytes(mt)[0];
    CutSame(h.Bytes(mt), s, h'.Bytes(mt), t);
  }

  function MajorType(i: Item): nat {
    match i
    case Plain(mt, _) => mt
    case Str(mt, _, _) => mt
    case OpenStr(mt, _) => mt
    case Arr(_, _) => 4
    case OpenArr(_) => 4
    case Map(_, _) => 5
    case OpenMap(_) => 5
    case Tag(_, _) => 6
    case Stray(mt) => mt
  }

  predicate Open(i: Item) {
    i.OpenStr? || i.OpenArr? || i.OpenMap? || i.Stray?
  }

  /** The first byte tells the constructor. */
  lemma SameKind(i: Item, j: Item)
    requires Accepted(i) && Accepted(j) && Enc(i)[0] == Enc(j)[0]
    ensures MajorType(i) == MajorType(j) && Open(i) == Open(j)
  {
    Kind(i);
    Kind(j);
  }

  lemma Kind(i: Item)
    requires Accepted(i)
    ensures Enc(i)[0] / 32 == MajorType(i) && (Enc(i)[0] % 32 == 31 <==> Open(i))
  {
  }

  /** Parsing is unambiguous. */
  lemma {:induction false} Unique(i: Item, j: Item)
    requires Accepted(i) && Accepted(j) && Enc(i) == Enc(j)
    ensures i == j
    decreases i, 1
  {
    SameKind(i, j);
    if Open(i) { UniqueOpen(i, j); } else { UniqueCounted(i, j); }
  }

  lemma {:induction false} UniqueCounted(i: Item, j: Item)
    requires Accepted(i) && Accepted(j) && Enc(i) == Enc(j)
    requires MajorType(i) == MajorType(j) && !Open(i) && !Open(j)
    ensures i == j
    decreases i, 0
  {
    match i
    case Plain(mt, h) =>
      assert Enc(i) == h.Bytes(mt) + [] && Enc(j) == j.head.Bytes(mt) + [];
      SameHead(mt, h, [], j.head, []);
    case Str(mt, h, p) => SameHead(mt, h, p, j.head, j.payload);
    case Arr(h, es) =>
      SameHead(4, h, EncAll(es), j.head, EncAll(j.elems));
      UniqueAll(es, j.elems);
    case Map(h, es) =>
      SameHead(5, h, EncEntries(es), j.head, EncEntries(j.entries));
      UniqueEntries(es, j.entries);
    case Tag(h, c) =>
      SameHead(6, h, Enc(c), j.head, Enc(j.content));
      Unique(c, j.content);
  }

  lemma {:induction false} UniqueOpen(i: Item, j: Item)
    requires Accepted(i) && Accepted(j) && Enc(i) == Enc(j)
    requires MajorType(i) == MajorType(j) && Open(i) && Open(j)
    ensures i == j
    decreases i, 0
  {
    match i
    case OpenStr(mt, cs) =>
      OpenBody(mt, EncAll(cs), EncAll(j.chunks));
      UniqueAll(cs, j.chunks);
    case OpenArr(es) =>
      OpenBody(4, EncAll(es), EncAll(j.elems));
      UniqueAll(es, j.elems);
    case OpenMap(es) =>
      OpenBody(5, EncEntries(es), EncEntries(j.entries));
      UniqueEntries(es, j.entries);
    case Stray(_) =>
  }

  lemma OpenBody(mt: nat, s: seq<byte>, t: seq<byte>)
    requires mt < 8 && OPEN.Bytes(mt) + s + [0xff] == OPEN.Bytes(mt) + t + [0xff]
    ensures s == t
  {
    CutSame(OPEN.Bytes(mt) + s, [0xff], OPEN.Bytes(mt) + t, [0xff]);
    CutSame(OPEN.Bytes(mt), s, OPEN.Bytes(mt), t);
  }

  lemma {:induction false} UniqueAll(es: seq<Item>, fs: seq<Item>)
    requires AllAccepted(es) && AllAccepted(fs) && EncAll(es) == EncAll(fs)
    ensures es == fs
    decreases es, 0
  {
    if es != [] {
      SameFront(es[0], EncAll(es[1..]), fs[0], EncAll(fs[1..]));
      Unique(es[0], fs[0]);
      UniqueAll(es[1..], fs[1..]);
      assert es == [es[0]] + es[1..] && fs == [fs[0]] + fs[1..];
    }
  }

  lemma {:induction false} UniqueEntry(e: Entry, s: seq<byte>, f: Entry, t: seq<byte>)
    requires AcceptedEntry(e) && AcceptedEntry(f) && EncEntry(e) + s == EncEntry(f) + t
    ensures e == f && s == t
    decreases e, 0
  {
    assert Enc(e.key) + (Enc(e.val) + s) == EncEntry(e) + s;
    assert Enc(f.key) + (Enc(f.val) + t) == EncEntry(f) + t;
    SameFront(e.key, Enc(e.val) + s, f.key, Enc(f.val) + t);
    SameFront(e.val, s, f.val, t);
    Unique(e.key, f.key);
    Unique(e.val, f.val);
  }

  lemma {:induction false} UniqueEntries(es: seq<Entry>, fs: seq<Entry>)
    requires AllEntries(es) && AllEntries(fs) && EncEntries(es) == EncEntries(fs)
    ensures es == fs
    decreases es, 0
  {
    if es != [] {
      UniqueEntry(es[0], EncEntries(es[1..]), fs[0], EncEntries(fs[1..]));
      UniqueEntries(es[1..], fs[1..]);
      assert es == [es[0]] + es[1..] && fs == [fs[0]] + fs[1..];
    }
  }

  /** The item that some bytes encode. */
  ghost function ItemOf(s: seq<byte>): (i: Item)
    requires exists i :: Accepted(i) && Enc(i) == s
    ensures Accepted(i) && Enc(i) == s
  {
    var i :| Accepted(i) && Enc(i) == s;
    i
  }

  lemma ItemOfEnc(i: Item)
    requires Accepted(i)
    ensures ItemOf(Enc(i)) == i
  {
    Unique(ItemOf(Enc(i)), i);
  }
}
