/** The walker `cborSkip` against the encoding: it steps over exactly one accepted item. */
module CborWalk {
  import opened Cbor

  /** The bytes `s` stand in `b` from offset `at` on. */
  ghost predicate At(b: seq<byte>, at: nat, s: seq<byte>)
    decreases |s|
  {
    if s == [] then at <= |b| else at < |b| && b[at] == s[0] && At(b, at + 1, s[1..])
  }

  lemma {:induction false} AtSlice(b: seq<byte>, at: nat, s: seq<byte>)
    ensures At(b, at, s) <==> at + |s| <= |b| && b[at..at + |s|] == s
    decreases |s|
  {
    if s != [] && at < |b| {
      AtSlice(b, at + 1, s[1..]);
      if at + |s| <= |b| {
        assert b[at..at + |s|][0] == b[at] && b[at..at + |s|][1..] == b[at + 1..at + |s|];
        assert s == [s[0]] + s[1..] && b[at..at + |s|] == [b[at]] + b[at + 1..at + |s|];
      }
    }
  }

  lemma AtTail(b: seq<byte>, front: seq<byte>, s: seq<byte>)
    requires b == front + s
    ensures At(b, |front|, s) && |b| == |front| + |s|
  {
    AtSlice(b, |front|, s);
  }

  lemma AtWhole(b: seq<byte>)
    ensures At(b, 0, b)
  {
    AtSlice(b, 0, b);
  }

  lemma AtSplit(b: seq<byte>, at: nat, w: seq<byte>, s: seq<byte>, t: seq<byte>)
    requires At(b, at, w) && w == s + t
    ensures At(b, at, s) && At(b, at + |s|, t)
  {
    AtSlice(b, at, w);
    AtSlice(b, at, s);
    AtSlice(b, at + |s|, t);
    assert b[at..at + |w|][..|s|] == s && b[at..at + |w|][|s|..] == t;
  }

  lemma AtJoin(b: seq<byte>, at: nat, s: seq<byte>, t: seq<byte>)
    requires At(b, at, s) && At(b, at + |s|, t)
    ensures At(b, at, s + t)
  {
    AtSlice(b, at, s);
    AtSlice(b, at + |s|, t);
    AtSlice(b, at, s + t);
  }

  lemma AtFirst(b: seq<byte>, at: nat, s: seq<byte>)
    requires At(b, at, s) && s != []
    ensures at < |b| && b[at] == s[0] && at + |s| <= |b| && b[at + 1..at + |s|] == s[1..]
  {
    AtSlice(b, at, s);
    assert b[at] == b[at..at + |s|][0];
    assert b[at..at + |s|][1..] == b[at + 1..at + |s|];
  }

  lemma AtHead(b: seq<byte>, at: nat, mt: nat, h: Head)
    requires mt < 8 && h.ai < 32 && At(b, at, h.Bytes(mt))
    ensures at + 1 + |h.arg| <= |b| && b[at] / 32 == mt && b[at] % 32 == h.ai
    ensures BigEndian(b, at + 1, |h.arg|) == BigEndian(h.arg, 0, |h.arg|)
  {
    AtFirst(b, at, h.Bytes(mt));
    h.FirstByte(mt);
    BigEndianSame(b, at + 1, h.arg, |h.arg|);
  }

  lemma {:induction false} BigEndianSame(b: seq<byte>, at: nat, s: seq<byte>, n: nat)
    requires n <= |s| && at + |s| <= |b| && b[at..at + |s|] == s
    ensures BigEndian(b, at, n) == BigEndian(s, 0, n)
  {
    if n > 0 {
      BigEndianSame(b, at, s, n - 1);
      assert b[at..at + |s|][n - 1] == s[n - 1];
    }
  }

  lemma BreakByte(i: Item)
    requires Accepted(i)
    ensures Enc(i)[0] == 0xff <==> i == Stray(7)
  {
    assert Enc(Stray(7))[0] / 32 == 7 && Enc(Stray(7))[0] % 32 == 31;
  }

  // ------------------------------------------------ every accepted item is walked

  lemma SkipLead(b: seq<byte>, at: nat, mt: nat, h: Head, body: seq<byte>)
    requires mt < 8 && h.Valid() && At(b, at, h.Bytes(mt) + body)
    ensures At(b, at + |h.Bytes(mt)|, body)
    ensures Skip(b, at) == SkipBody(b, mt, at + |h.Bytes(mt)|, h.Val())
  {
    AtSplit(b, at, h.Bytes(mt) + body, h.Bytes(mt), body);
    AtHead(b, at, mt, h);
  }

  lemma SkipLeadOpen(b: seq<byte>, at: nat, mt: nat, body: seq<byte>)
    requires mt < 8 && At(b, at, OPEN.Bytes(mt) + body + [0xff])
    ensures At(b, at + 1, body + [0xff])
    ensures Skip(b, at) == SkipOpen(b, mt, at + 1)
  {
    assert OPEN.Bytes(mt) + body + [0xff] == OPEN.Bytes(mt) + (body + [0xff]);
    AtSplit(b, at, OPEN.Bytes(mt) + body + [0xff], OPEN.Bytes(mt), body + [0xff]);
    AtHead(b, at, mt, OPEN);
  }

  lemma {:induction false} SkipEnc(b: seq<byte>, at: nat, i: Item)
    requires Accepted(i) && At(b, at, Enc(i))
    ensures Skip(b, at) == Done(at + |Enc(i)|)
    decreases i, 1
  {
    match i
    case Plain(mt, h) =>
      assert h.Bytes(mt) + [] == Enc(i);
      SkipLead(b, at, mt, h, []);
    case Stray(mt) => AtHead(b, at, mt, OPEN);
    case Str(mt, h, p) => SkipLead(b, at, mt, h, p);
    case Tag(_, _) => SkipEncCounted(b, at, i);
    case Arr(_, _) => SkipEncCounted(b, at, i);
    case Map(_, _) => SkipEncCounted(b, at, i);
    case _ => SkipEncIndefinite(b, at, i);
  }

  lemma {:induction false} SkipEncCounted(b: seq<byte>, at: nat, i: Item)
    requires i.Tag? || i.Arr? || i.Map?
    requires Accepted(i) && At(b, at, Enc(i))
    ensures Skip(b, at) == Done(at + |Enc(i)|)
    decreases i, 0, 0
  {
    match i
    case Tag(h, c) =>
      SkipLead(b, at, 6, h, Enc(c));
      SkipEnc(b, at + |h.Bytes(6)|, c);
    case Arr(h, es) =>
      SkipLead(b, at, 4, h, EncAll(es));
      SkipEncAll(b, at + |h.Bytes(4)|, es);
    case Map(h, es) =>
      SkipLead(b, at, 5, h, EncEntries(es));
      SkipEncEntries(b, at + |h.Bytes(5)|, es);
  }

  lemma {:induction false} SkipEncIndefinite(b: seq<byte>, at: nat, i: Item)
    requires i.OpenStr? || i.OpenArr? || i.OpenMap?
    requires Accepted(i) && At(b, at, Enc(i))
    ensures Skip(b, at) == Done(at + |Enc(i)|)
    decreases i, 0, 0
  {
    match i
    case OpenStr(mt, cs) =>
      SkipLeadOpen(b, at, mt, EncAll(cs));
      SkipEncOpen(b, at + 1, cs);
    case OpenArr(es) =>
      SkipLeadOpen(b, at, 4, EncAll(es));
      SkipEncOpen(b, at + 1, es);
    case OpenMap(es) =>
      SkipLeadOpen(b, at, 5, EncEntries(es));
      SkipEncOpenPairs(b, at + 1, es);
  }

  lemma {:induction false} SkipEncAll(b: seq<byte>, at: nat, es: seq<Item>)
    requires AllAccepted(es) && At(b, at, EncAll(es))
    ensures SkipN(b, at, |es|) == Done(at + |EncAll(es)|)
    decreases es, 0
  {
    if es != [] {
      AtSplit(b, at, EncAll(es), Enc(es[0]), EncAll(es[1..]));
      SkipEnc(b, at, es[0]);
      SkipEncAll(b, at + |Enc(es[0])|, es[1..]);
    }
  }

  lemma {:induction false} SkipEncEntry(b: seq<byte>, at: nat, e: Entry, n: nat)
    requires AcceptedEntry(e) && At(b, at, EncEntry(e))
    ensures Skip(b, at) == Done(at + |Enc(e.key)|)
    ensures Skip(b, at + |Enc(e.key)|) == Done(at + |EncEntry(e)|)
    ensures SkipN(b, at, n + 2) == SkipN(b, at + |EncEntry(e)|, n)
    ensures b[at] == Enc(e.key)[0]
    decreases e, 0
  {
    AtSplit(b, at, EncEntry(e), Enc(e.key), Enc(e.val));
    SkipEnc(b, at, e.key);
    SkipEnc(b, at + |Enc(e.key)|, e.val);
    AtFirst(b, at, Enc(e.key));
    SkipTwo(b, at, n);
  }

  lemma {:induction false} SkipEncEntries(b: seq<byte>, at: nat, es: seq<Entry>)
    requires AllEntries(es) && At(b, at, EncEntries(es))
    ensures SkipN(b, at, 2 * |es|) == Done(at + |EncEntries(es)|)
    decreases es, 0
  {
    if es != [] {
      AtSplit(b, at, EncEntries(es), EncEntry(es[0]), EncEntries(es[1..]));
      SkipEncEntry(b, at, es[0], 2 * |es[1..]|);
      SkipEncEntries(b, at + |EncEntry(es[0])|, es[1..]);
    }
  }

  lemma SkipTwo(b: seq<byte>, at: nat, n: nat)
    ensures !Skip(b, at).Done? ==> SkipN(b, at, n + 2) == Skip(b, at)
    ensures Skip(b, at).Done? && !Skip(b, Skip(b, at).end).Done?
            ==> SkipN(b, at, n + 2) == Skip(b, Skip(b, at).end)
    ensures Skip(b, at).Done? && Skip(b, Skip(b, at).end).Done?
            ==> SkipN(b, at, n + 2) == SkipN(b, Skip(b, Skip(b, at).end).end, n)
  {
  }

  lemma {:induction false} SkipEncOpen(b: seq<byte>, at: nat, es: seq<Item>)
    requires AllAccepted(es) && Stray(7) !in es
    requires At(b, at, EncAll(es) + [0xff])
    ensures SkipToBreak(b, at) == Done(at + |EncAll(es)| + 1)
    decreases es, 0
  {
    if es == [] {
      AtFirst(b, at, EncAll(es) + [0xff]);
    } else {
      assert EncAll(es) + [0xff] == Enc(es[0]) + (EncAll(es[1..]) + [0xff]);
      AtSplit(b, at, EncAll(es) + [0xff], Enc(es[0]), EncAll(es[1..]) + [0xff]);
      AtFirst(b, at, Enc(es[0]));
      BreakByte(es[0]);
      SkipEnc(b, at, es[0]);
      SkipEncOpen(b, at + |Enc(es[0])|, es[1..]);
    }
  }

  lemma {:induction false} SkipEncOpenPairs(b: seq<byte>, at: nat, es: seq<Entry>)
    requires AllEntries(es) && (forall e | e in es :: e.key != Stray(7))
    requires At(b, at, EncEntries(es) + [0xff])
    ensures SkipPairsToBreak(b, at) == Done(at + |EncEntries(es)| + 1)
    decreases es, 0
  {
    hide At;
    if es == [] {
      AtFirst(b, at, EncEntries(es) + [0xff]);
    } else {
      assert EncEntries(es) + [0xff] == EncEntry(es[0]) + (EncEntries(es[1..]) + [0xff]);
      AtSplit(b, at, EncEntries(es) + [0xff], EncEntry(es[0]), EncEntries(es[1..]) + [0xff]);
      BreakByte(es[0].key);
      SkipEncEntry(b, at, es[0], 0);
      SkipEncOpenPairs(b, at + |EncEntry(es[0])|, es[1..]);
    }
  }

  // ---------------------------------------- whatever is walked is an accepted item

  lemma CutSlice(b: seq<byte>, at: nat, mid: nat, end: nat)
    requires at <= mid <= end <= |b|
    ensures b[at..end] == b[at..mid] + b[mid..end]
  {
  }

  lemma OneByte(b: seq<byte>, at: nat)
    requires at < |b|
    ensures b[at..at + 1] == [b[at]]
  {
  }

  lemma {:induction false} SkipSound(b: seq<byte>, at: nat) returns (i: Item)
    requires Skip(b, at).Done? && Skip(b, at).end <= |b|
    ensures Accepted(i) && b[at..Skip(b, at).end] == Enc(i)
    decreases |b| - at, 0, 0
  {
    var mt, ai := b[at] / 32, b[at] % 32;
    if ai == 31 {
      assert b[at..at + 1] == OPEN.Bytes(mt);
      CutSlice(b, at, at + 1, Skip(b, at).end);
      i := OpenBodySound(b, mt, at + 1);
    } else {
      var pos := at + 1 + Width(ai);
      var h := Head(ai, b[at + 1..pos]);
      assert b[at..pos] == h.Bytes(mt);
      BigEndianSame(b, at + 1, h.arg, Width(ai));
      CutSlice(b, at, pos, Skip(b, at).end);
      i := BodySound(b, mt, pos, h);
    }
  }

  lemma {:induction false} BodySound(b: seq<byte>, mt: nat, pos: nat, h: Head) returns (i: Item)
    requires mt < 8 && h.Valid()
    requires SkipBody(b, mt, pos, h.Val()).Done? && SkipBody(b, mt, pos, h.Val()).end <= |b|
    ensures Accepted(i) && h.Bytes(mt) + b[pos..SkipBody(b, mt, pos, h.Val()).end] == Enc(i)
    decreases |b| - pos, 4, 0
  {
    if mt in {2, 3} {
      i := Str(mt, h, b[pos..pos + h.Val()]);
    } else if mt == 4 {
      var es := ListSound(b, pos, h.Val());
      i := Arr(h, es);
    } else if mt == 5 {
      var es := PairsSound(b, pos, h.Val());
      i := Map(h, es);
    } else if mt == 6 {
      var c := SkipSound(b, pos);
      i := Tag(h, c);
    } else {
      i := Plain(mt, h);
    }
  }

  lemma {:induction false} OpenBodySound(b: seq<byte>, mt: nat, pos: nat) returns (i: Item)
    requires mt < 8 && SkipOpen(b, mt, pos).Done? && SkipOpen(b, mt, pos).end <= |b|
    ensures Accepted(i) && OPEN.Bytes(mt) + b[pos..SkipOpen(b, mt, pos).end] == Enc(i)
    decreases |b| - pos, 4, 0
  {
    if mt == 5 {
      var es := OpenPairsSound(b, pos);
      i := OpenMap(es);
      assert OPEN.Bytes(5) + (EncEntries(es) + [0xff]) == Enc(i);
    } else if mt in {2, 3, 4} {
      var es := OpenSound(b, pos);
      i := if mt == 4 then OpenArr(es) else OpenStr(mt, es);
      assert OPEN.Bytes(mt) + (EncAll(es) + [0xff]) == Enc(i);
    } else {
      i := Stray(mt);
    }
  }

  lemma {:induction false} ListSound(b: seq<byte>, at: nat, n: nat) returns (es: seq<Item>)
    requires SkipN(b, at, n).Done? && SkipN(b, at, n).end <= |b|
    ensures |es| == n && AllAccepted(es)
    ensures b[at..SkipN(b, at, n).end] == EncAll(es)
    decreases |b| - at, 1, n
  {
    if n == 0 {
      es := [];
    } else {
      var mid, end := Skip(b, at).end, SkipN(b, at, n).end;
      var e := SkipSound(b, at);
      var rest := ListSound(b, mid, n - 1);
      es := [e] + rest;
      CutSlice(b, at, mid, end);
    }
  }

  /** One key and its value, `end` being where the value stops. */
  lemma {:induction false} PairSound(b: seq<byte>, at: nat) returns (e: Entry)
    requires SkipN(b, at, 2).Done? && SkipN(b, at, 2).end <= |b|
    ensures AcceptedEntry(e)
    ensures b[at..SkipN(b, at, 2).end] == EncEntry(e) && b[at] == Enc(e.key)[0]
    decreases |b| - at, 1, 2
  {
    SkipTwo(b, at, 0);
    var mid := Skip(b, at).end;
    var k := SkipSound(b, at);
    var v := SkipSound(b, mid);
    e := Entry(k, v);
    CutSlice(b, at, mid, SkipN(b, at, 2).end);
    assert b[at] == b[at..mid][0];
  }

  lemma {:induction false} PairsSound(b: seq<byte>, at: nat, n: nat) returns (es: seq<Entry>)
    requires SkipN(b, at, 2 * n).Done? && SkipN(b, at, 2 * n).end <= |b|
    ensures |es| == n && AllEntries(es)
    ensures b[at..SkipN(b, at, 2 * n).end] == EncEntries(es)
    decreases |b| - at, 3, n
  {
    if n == 0 {
      es := [];
    } else {
      SkipTwo(b, at, 2 * n - 2);
      SkipTwo(b, at, 0);
      var mid, end := SkipN(b, at, 2).end, SkipN(b, at, 2 * n).end;
      var e := PairSound(b, at);
      var rest := PairsSound(b, mid, n - 1);
      es := [e] + rest;
      CutSlice(b, at, mid, end);
    }
  }

  lemma {:induction false} OpenSound(b: seq<byte>, at: nat) returns (es: seq<Item>)
    requires SkipToBreak(b, at).Done? && SkipToBreak(b, at).end <= |b|
    ensures AllAccepted(es) && Stray(7) !in es
    ensures b[at..SkipToBreak(b, at).end] == EncAll(es) + [0xff]
    decreases |b| - at, 3, 0
  {
    if b[at] == 0xff {
      es := [];
      OneByte(b, at);
    } else {
      var mid, end := Skip(b, at).end, SkipToBreak(b, at).end;
      var e := SkipSound(b, at);
      assert b[at] == b[at..mid][0];
      BreakByte(e);
      var rest := OpenSound(b, mid);
      es := [e] + rest;
      CutSlice(b, at, mid, end);
    }
  }

  lemma {:induction false} OpenPairsSound(b: seq<byte>, at: nat) returns (es: seq<Entry>)
    requires SkipPairsToBreak(b, at).Done? && SkipPairsToBreak(b, at).end <= |b|
    ensures AllEntries(es) && (forall e | e in es :: e.key != Stray(7))
    ensures b[at..SkipPairsToBreak(b, at).end] == EncEntries(es) + [0xff]
    decreases |b| - at, 3, 0
  {
    if b[at] == 0xff {
      es := [];
      OneByte(b, at);
    } else {
      var mid, end := SkipN(b, at, 2).end, SkipPairsToBreak(b, at).end;
      var e := PairSound(b, at);
      BreakByte(e.key);
      var rest := OpenPairsSound(b, mid);
      es := [e] + rest;
      CutSlice(b, at, mid, end);
    }
  }

  // ------------------------------------------------------------------ main results

  /** The walker finishes at `end`, inside the buffer, exactly when the bytes from `at`
      to `end` are the encoding of one accepted item. */
  lemma SkipExact(b: seq<byte>, at: nat, end: nat)
    requires at <= end <= |b|
    ensures Skip(b, at) == Done(end) <==> exists i :: Accepted(i) && Enc(i) == b[at..end]
  {
    if Skip(b, at) == Done(end) {
      var i := SkipSound(b, at);
    }
    if i :| Accepted(i) && Enc(i) == b[at..end] {
      AtSlice(b, at, Enc(i));
      SkipEnc(b, at, i);
    }
  }

  lemma {:induction false} WellFormedAccepted(i: Item)
    requires WellFormed(i)
    ensures Accepted(i) && !i.Stray?
    decreases i, 0
  {
    match i
    case OpenStr(_, cs) => WellFormedList(cs);
    case Arr(_, es) => WellFormedList(es);
    case OpenArr(es) => WellFormedList(es);
    case Map(_, es) => WellFormedEntries(es);
    case OpenMap(es) => WellFormedEntries(es);
    case Tag(_, c) => WellFormedAccepted(c);
    case _ =>
  }

  lemma {:induction false} WellFormedList(es: seq<Item>)
    requires forall e | e in es :: WellFormed(e)
    ensures AllAccepted(es) && Stray(7) !in es
    decreases es, 0
  {
    if es != [] {
      WellFormedAccepted(es[0]);
      WellFormedList(es[1..]);
    }
  }

  lemma {:induction false} WellFormedEntries(es: seq<Entry>)
    requires forall e | e in es :: WellFormed(e.key) && WellFormed(e.val)
    ensures AllEntries(es) && (forall e | e in es :: e.key != Stray(7))
    decreases es, 0
  {
    if es != [] {
      WellFormedEntry(es[0]);
      WellFormedEntries(es[1..]);
    }
  }

  lemma {:induction false} WellFormedEntry(e: Entry)
    requires WellFormed(e.key) && WellFormed(e.val)
    ensures AcceptedEntry(e) && e.key != Stray(7)
    decreases e, 0
  {
    WellFormedAccepted(e.key);
    WellFormedAccepted(e.val);
  }

  /** For every well-formed item between any prefix and suffix the walker returns the
      prefix length plus the item length. With an empty suffix this also says that no
      byte after the item is read: such a read is `RanOut`. */
  lemma SkipInvertsEncoding(pre: seq<byte>, i: Item, suf: seq<byte>)
    requires WellFormed(i)
    ensures Skip(pre + Enc(i) + suf, |pre|) == Done(|pre| + |Enc(i)|)
  {
    WellFormedAccepted(i);
    AtSlice(pre + Enc(i) + suf, |pre|, Enc(i));
    SkipEnc(pre + Enc(i) + suf, |pre|, i);
  }

  /** No encoding of an accepted item is a proper prefix of another. */
  lemma PrefixFree(i: Item, j: Item, suf: seq<byte>)
    requires Accepted(i) && Accepted(j) && Enc(i) + suf == Enc(j)
    ensures suf == [] && Enc(i) == Enc(j)
  {
    AtWhole(Enc(j));
    SkipEnc(Enc(j), 0, j);
    AtSlice(Enc(j), 0, Enc(i));
    SkipEnc(Enc(j), 0, i);
  }

  // ---------------------------------------------------------------- the source loop

  /** `cborSkip`, on the bytes of the buffer as they are. Its two `switch` parts are the
      methods `WalkOpen` and `WalkBody` below. */
  method CborSkip(data: array<byte>, offset: nat) returns (r: Outcome)
    ensures r == Skip(data[..], offset)
    decreases data.Length - offset, 0
  {
    if offset >= data.Length { return RanOut; }
    var ib := data[offset];
    var mt, ai := ib / 32, ib % 32;
    var pos: nat := offset + 1;
    var val: nat;
    if ai < 24 {
      val := ai;
    } else if ai <= 27 {
      val, r := ReadArgument(data, pos, Width(ai));
      if r.RanOut? { return; }
      pos := r.end;
    } else if ai == 31 {
      r := WalkOpen(data, pos, mt);
      return;
    } else {
      return BadInfo(ai);
    }
    r := WalkBody(data, pos, mt, val);
  }

  /** The argument bytes after a head: `data[pos++]` once, twice, four or eight times. */
  method ReadArgument(data: array<byte>, from: nat, width: nat) returns (val: nat, r: Outcome)
    ensures r == if from + width <= data.Length then Done(from + width) else RanOut
    ensures r.Done? ==> val == BigEndian(data[..], from, width)
  {
    if from + width > data.Length { return 0, RanOut; }
    val := 0;
    for i := 0 to width
      invariant val == BigEndian(data[..], from, i)
    {
      val := val * 256 + data[from + i];
    }
    r := Done(from + width);
  }

  /** Definite lengths: loops of `val` or of `val` pairs of recursive calls. */
  method WalkBody(data: array<byte>, from: nat, mt: nat, val: nat) returns (r: Outcome)
    requires from <= data.Length
    ensures r == SkipBody(data[..], mt, from, val)
    decreases data.Length - from, 1
  {
    ghost var b := data[..];
    var pos := from;
    if mt in {2, 3} {
      return Done(pos + val);
    } else if mt == 4 {
      for i := 0 to val
        invariant from <= pos && SkipN(b, from, val) == SkipN(b, pos, val - i)
      {
        r := CborSkip(data, pos);
        if !r.Done? { return; }
        pos := r.end;
      }
    } else if mt == 5 {
      for i := 0 to val
        invariant from <= pos && SkipN(b, from, 2 * val) == SkipN(b, pos, 2 * (val - i))
      {
        SkipTwo(b, pos, 2 * (val - i) - 2);
        r := CborSkip(data, pos);
        if !r.Done? { return; }
        r := CborSkip(data, r.end);
        if !r.Done? { return; }
        pos := r.end;
      }
    } else if mt == 6 {
      r := CborSkip(data, pos);
      return;
    }
    return Done(pos);
  }

  /** Indefinite lengths: loops up to the break byte. */
  method WalkOpen(data: array<byte>, from: nat, mt: nat) returns (r: Outcome)
    ensures r == SkipOpen(data[..], mt, from)
    decreases data.Length - from, 1
  {
    ghost var b := data[..];
    var pos := from;
    if mt in {2, 3, 4} {
      while pos < data.Length && data[pos] != 0xff
        invariant from <= pos && SkipToBreak(b, from) == SkipToBreak(b, pos)
        decreases data.Length - pos
      {
        r := CborSkip(data, pos);
        if !r.Done? { return; }
        pos := r.end;
      }
      return if pos < data.Length then Done(pos + 1) else RanOut;
    } else if mt == 5 {
      while pos < data.Length && data[pos] != 0xff
        invariant from <= pos && SkipPairsToBreak(b, from) == SkipPairsToBreak(b, pos)
        decreases data.Length - pos
      {
        SkipTwo(b, pos, 0);
        r := CborSkip(data, pos);
        if !r.Done? { return; }
        r := CborSkip(data, r.end);
        if !r.Done? { return; }
        pos := r.end;
      }
      return if pos < data.Length then Done(pos + 1) else RanOut;
    }
    return Done(pos);
  }
}
