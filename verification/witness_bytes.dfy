/** `addVKeyToWitnessSet` on byte buffers, proved against `Witness.AddVKey` on trees. */
module WitnessBytes {
  import opened Cbor
  import opened CborWalk
  import opened Witness

  // ------------------------------------------------------- typed-array operations

  method Slice(a: array<byte>, lo: nat, hi: nat) returns (r: array<byte>)
    requires lo <= hi <= a.Length
    ensures fresh(r) && r[..] == a[lo..hi]
  {
    r := new byte[hi - lo](i requires 0 <= i < hi - lo reads a => a[lo + i]);
  }

  /** `dst.set(src, at)`, for writes that go from left to right. */
  method Set(dst: array<byte>, src: array<byte>, at: nat)
    requires at + src.Length <= dst.Length && dst != src
    modifies dst
    ensures dst[..at + src.Length] == old(dst[..at]) + src[..]
  {
    for i := 0 to src.Length
      invariant dst[..at] == old(dst[..at])
      invariant forall k | 0 <= k < i :: dst[at + k] == src[k]
    {
      dst[at + i] := src[i];
    }
  }

  /** The six `set` calls that put a set with one more witness together. */
  method Join(a: array<byte>, b: array<byte>, c: array<byte>, d: array<byte>, e: array<byte>, f: array<byte>)
    returns (r: array<byte>)
    ensures fresh(r) && r[..] == a[..] + b[..] + c[..] + d[..] + e[..] + f[..]
  {
    r := new byte[a.Length + b.Length + c.Length + d.Length + e.Length + f.Length];
    var p := 0;
    Set(r, a, p);
    p := p + a.Length;
    Set(r, b, p);
    p := p + b.Length;
    Set(r, c, p);
    p := p + c.Length;
    ghost var front := a[..] + b[..] + c[..];
    assert r[..p] == front;
    Set(r, d, p);
    p := p + d.Length;
    Set(r, e, p);
    p := p + e.Length;
    Set(r, f, p);
    assert r[..] == r[..p + f.Length];
  }

  // ------------------------------------------------------------ reading the bytes

  /** What the first byte and, for short heads, the second say about an item. */
  lemma FirstByte(i: Item)
    requires Accepted(i)
    ensures var s := Enc(i);
            && (s[0] / 32 == 5 <==> i.Map? || i.OpenMap?) && (s[0] / 32 == 4 <==> i.Arr? || i.OpenArr?)
            && (i.OpenMap? || i.OpenArr? ==> s[0] % 32 == 31)
            && (i.Map? || i.Arr? ==> s[0] % 32 == i.head.ai)
  {
  }

  lemma ShortHead(mt: nat, h: Head, body: seq<byte>)
    requires mt < 8 && h.Valid() && h.ai <= 24
    ensures h.ai < 24 ==> |h.Bytes(mt)| == 1 && h.Val() == h.ai
    ensures h.ai == 24 ==> |h.Bytes(mt)| == 2 && h.Val() == (h.Bytes(mt) + body)[1]
  {
    if h.ai == 24 {
      assert BigEndian(h.arg, 0, 1) == BigEndian(h.arg, 0, 0) * 256 + h.arg[0];
    }
  }

  /** The scan stands at entry `i`, and has met no key 0 so far. */
  ghost predicate Scanning(b: seq<byte>, es: seq<Entry>, start: nat, i: nat, pos: nat) {
    && i <= FirstKeyZero(es) && AllEntries(es)
    && At(b, pos, EncEntries(es[i..])) && pos == start + |EncEntries(es[..i])|
  }

  lemma ScanStep(b: seq<byte>, es: seq<Entry>, start: nat, i: nat, pos: nat)
    requires Scanning(b, es, start, i, pos) && i < |es|
    ensures pos < |b| && (b[pos] == 0 <==> i == FirstKeyZero(es))
    ensures Skip(b, pos).Done? && Skip(b, Skip(b, pos).end).Done?
    ensures b[pos] != 0 ==> Scanning(b, es, start, i + 1, Skip(b, Skip(b, pos).end).end)
  {
    AllEntriesAt(es, i);
    EncEntriesAround(es, i);
    ScanEntry(b, pos, es[i], EncEntries(es[i + 1..]), EncEntries(es[i..]));
  }

  lemma ScanEntry(b: seq<byte>, pos: nat, e: Entry, rest: seq<byte>, whole: seq<byte>)
    requires AcceptedEntry(e) && whole == EncEntry(e) + rest && At(b, pos, whole)
    ensures pos < |b| && (b[pos] == 0 <==> e.key == KEY_ZERO)
    ensures Skip(b, pos).Done? && Skip(b, Skip(b, pos).end) == Done(pos + |EncEntry(e)|)
    ensures At(b, pos + |EncEntry(e)|, rest)
  {
    AtSplit(b, pos, whole, EncEntry(e), rest);
    SkipEncEntry(b, pos, e, 0);
    KeyByte(e.key);
  }

  /** Of all keys only the one-byte 0 begins with a zero byte. */
  lemma KeyByte(k: Item)
    requires Accepted(k)
    ensures Enc(k)[0] == 0 <==> k == KEY_ZERO
  {
  }

  // ------------------------------------------------------------- inserting a key 0

  lemma InsertedBytes(hdr: Head, n: Entry, es: seq<Entry>, entry: seq<byte>)
    requires hdr.Valid() && entry == EncEntry(n)
    ensures Enc(Map(hdr, [n] + es)) == hdr.Bytes(5) + entry + EncEntries(es)
  {
    EncEntriesCons(n, es);
    MapBytes(hdr, [n] + es);
    Associate(hdr.Bytes(5), EncEntry(n), EncEntries(es));
  }

  lemma DropFront(b: seq<byte>, front: seq<byte>, rest: seq<byte>)
    requires b == front + rest
    ensures b[|front|..] == rest && b[..|front|] == front
  {
  }

  lemma NewEntryBytes(v: Item)
    ensures EncEntry(NewEntry(v)) == [0x00, 0xd9, 0x01, 0x02, 0x81] + Enc(v)
  {
    OneElement(v);
    ValueBytes(true, Head(1, []), [v]);
    KeyZeroEntryBytes(Tag(SET_TAG, Arr(Head(1, []), [v])));
    Prefixes(Enc(v));
  }

  lemma OneElement(v: Item)
    ensures EncAll([v]) == Enc(v)
  {
    EncAllSnoc([], v);
    assert [] + [v] == [v];
  }

  lemma Prefixes(e: seq<byte>)
    ensures [0x00] + ([0xd9, 0x01, 0x02] + (Head(1, []).Bytes(4) + e)) == [0x00, 0xd9, 0x01, 0x02, 0x81] + e
  {
  }

  /** The header bytes written for a count `ns`. */
  method CountHeader(mt: nat, ns: nat) returns (r: array<byte>)
    requires mt < 8
    ensures fresh(r) && r[..] == CountHead(ns).Bytes(mt)
  {
    if ns < 24 {
      r := new byte[] [mt * 32 + ns];
    } else {
      r := new byte[] [mt * 32 + 24, ns % 256];
    }
  }

  method InsertKeyZero(wit: array<byte>, vk: array<byte>, mapSize: nat, headerEnd: nat, ghost w: Item, ghost v: Item)
    returns (r: array<byte>)
    requires w.Map? && w.head.Valid() && wit[..] == w.head.Bytes(5) + EncEntries(w.entries) && vk[..] == Enc(v)
    requires mapSize == |w.entries| && headerEnd == |w.head.Bytes(5)|
    ensures fresh(r) && r[..] == Enc(Map(CountHead(mapSize + 1), [NewEntry(v)] + w.entries))
  {
    var newHdr := CountHeader(5, mapSize + 1);
    var entry := VKeyEntry(vk, v);
    DropFront(wit[..], w.head.Bytes(5), EncEntries(w.entries));
    var existing := Slice(wit, headerEnd, wit.Length);
    r := Join3(newHdr, entry, existing);
    CountHeadVal(mapSize + 1);
    InsertedBytes(CountHead(mapSize + 1), NewEntry(v), w.entries, entry[..]);
  }

  /** Key 0 with a tagged array of the one witness. */
  method VKeyEntry(vk: array<byte>, ghost v: Item) returns (entry: array<byte>)
    requires vk[..] == Enc(v)
    ensures fresh(entry) && entry[..] == EncEntry(NewEntry(v))
  {
    var lead := new byte[] [0x00, 0xd9, 0x01, 0x02, 0x81];
    entry := Follow(lead, vk);
    NewEntryBytes(v);
  }

  /** A few bytes written one by one, and `set(vk, lead.length)` after them. */
  method Follow(lead: array<byte>, vk: array<byte>) returns (r: array<byte>)
    ensures fresh(r) && r[..] == lead[..] + vk[..]
  {
    r := new byte[lead.Length + vk.Length];
    Set(r, lead, 0);
    Set(r, vk, lead.Length);
    assert r[..] == r[..lead.Length + vk.Length];
  }

  method Join3(a: array<byte>, b: array<byte>, c: array<byte>) returns (r: array<byte>)
    ensures fresh(r) && r[..] == a[..] + b[..] + c[..]
  {
    r := new byte[a.Length + b.Length + c.Length];
    Set(r, a, 0);
    Set(r, b, a.Length);
    Set(r, c, a.Length + b.Length);
    assert r[..] == r[..a.Length + b.Length + c.Length];
  }

  // ---------------------------------------------------------- appending to a key 0

  /** Where the parts of a set stand, cut at its key 0: `front`, the key, a tag, the head of
      the array, its elements, and what follows. */
  lemma Pieces(b: seq<byte>, front: seq<byte>, tag: seq<byte>, hd: seq<byte>, elems: seq<byte>, rest: seq<byte>)
    requires b == front + ([0x00] + (tag + (hd + elems)) + rest)
    ensures var at := |front| + 1;
            && b[..at] == front + [0x00] && At(b, at + |tag| + |hd|, elems)
            && b[at + |tag| + |hd|..at + |tag| + |hd| + |elems|] == elems
            && b[at + |tag| + |hd| + |elems|..] == rest
  {
    AtSlice(b, |front| + 1 + |tag| + |hd|, elems);
  }

  lemma Reassemble(front: seq<byte>, tag: seq<byte>, hd: seq<byte>, elems: seq<byte>, e: seq<byte>, rest: seq<byte>)
    ensures front + [0x00] + tag + hd + elems + e + rest == front + ([0x00] + (tag + (hd + (elems + e))) + rest)
  {
  }

  lemma AppendedBytes(h: Head, pre: seq<Entry>, tagged: bool, hd: Head, xs: seq<Item>, e: Item, post: seq<Entry>)
    requires h.Valid() && hd.Valid()
    ensures Enc(Map(h, pre + ([Entry(KEY_ZERO, TagIf(tagged, Arr(hd, xs + [e])))] + post)))
         == (h.Bytes(5) + EncEntries(pre)) + [0x00] + TagBytes(tagged) + hd.Bytes(4) + EncAll(xs) + Enc(e)
           + EncEntries(post)
  {
    SetBytes(h, pre, TagIf(tagged, Arr(hd, xs + [e])), post);
    ValueBytes(tagged, hd, xs + [e]);
    EncAllSnoc(xs, e);
    var value := [0x00] + Enc(TagIf(tagged, Arr(hd, xs + [e]))) + EncEntries(post);
    Associate(h.Bytes(5), EncEntries(pre), value);
    Reassemble(h.Bytes(5) + EncEntries(pre), TagBytes(tagged), hd.Bytes(4), EncAll(xs), Enc(e), EncEntries(post));
  }

  /** What the three-byte test for tag 258 finds, and where the array then starts. */
  lemma TagTest(b: seq<byte>, at: nat, v: Item)
    requires Accepted(v) && At(b, at, Enc(v))
    ensures at < |b| && (b[at] == 0xd9 ==> at + 2 < |b|)
    ensures b[at] == 0xd9 && b[at + 1] == 0x01 && b[at + 2] == 0x02 <==> v.Tag? && v.head == SET_TAG
    ensures v.Tag? && v.head == SET_TAG ==> At(b, at + 3, Enc(v.content))
  {
    AtFirst(b, at, Enc(v));
    if v.Tag? {
      AtSplit(b, at, Enc(v), v.head.Bytes(6), Enc(v.content));
      TagHead(b, at, v.head);
    } else {
      NotTwoByteTag(v);
    }
  }

  lemma TagHead(b: seq<byte>, at: nat, h: Head)
    requires h.Valid() && At(b, at, h.Bytes(6))
    ensures at < |b| && (b[at] == 0xd9 <==> h.ai == 25) && (b[at] == 0xd9 ==> at + 2 < |b|)
    ensures b[at] == 0xd9 && b[at + 1] == 0x01 && b[at + 2] == 0x02 <==> h == SET_TAG
  {
    AtFirst(b, at, h.Bytes(6));
    h.FirstByte(6);
    if h.ai == 25 {
      assert b[at + 1..at + 3] == h.arg;
      assert b[at + 1] == h.arg[0] && b[at + 2] == h.arg[1];
      assert h.arg == [0x01, 0x02] <==> h.arg[0] == 0x01 && h.arg[1] == 0x02;
    }
  }

  lemma NotTwoByteTag(v: Item)
    requires Accepted(v) && !v.Tag?
    ensures Enc(v)[0] != 0xd9
  {
  }

  /** Size and end of the header of a counted array. */
  method ArrayHeader(wit: array<byte>, scanPos: nat, ghost v: Item) returns (r: Result<(nat, nat)>)
    requires Accepted(v) && At(wit[..], scanPos, Enc(v))
    ensures r.Ok? <==> v.Arr? && v.head.ai <= 24
    ensures r.Ok? ==> r.value == (|v.elems|, scanPos + |v.head.Bytes(4)|)
    ensures r.Ok? ==> At(wit[..], r.value.1, EncAll(v.elems))
    ensures r.Err? ==> r.error == if v.Arr? then UnexpectedArrayInfo(v.head.ai)
                                  else if v.OpenArr? then UnexpectedArrayInfo(31) else ExpectedArray(Enc(v)[0])
  {
    AtFirst(wit[..], scanPos, Enc(v));
    FirstByte(v);
    var arrByte := wit[scanPos];
    if arrByte / 32 != 4 { return Err(ExpectedArray(arrByte)); }
    var ai := arrByte % 32;
    if ai > 24 { return Err(UnexpectedArrayInfo(ai)); }
    ShortHead(4, v.head, EncAll(v.elems));
    AtSplit(wit[..], scanPos, Enc(v), v.head.Bytes(4), EncAll(v.elems));
    if ai < 24 {
      r := Ok((ai, scanPos + 1));
    } else {
      AtHead(wit[..], scanPos, 4, v.head);
      OneByteArgument(wit[..], scanPos + 1);
      r := Ok((wit[scanPos + 1], scanPos + 2));
    }
  }

  lemma OneByteArgument(b: seq<byte>, at: nat)
    requires at < |b|
    ensures BigEndian(b, at, 1) == b[at]
  {
    assert BigEndian(b, at, 1) == BigEndian(b, at, 0) * 256 + b[at];
  }

  /** `for (j < arrSize) arrEnd = cborSkip(..)`. */
  method SkipElements(wit: array<byte>, from: nat, n: nat, ghost xs: seq<Item>) returns (arrEnd: nat)
    requires AllAccepted(xs) && n == |xs| && At(wit[..], from, EncAll(xs))
    ensures arrEnd == from + |EncAll(xs)|
  {
    arrEnd := from;
    SkipEncAll(wit[..], from, xs);
    for j := 0 to n
      invariant SkipN(wit[..], arrEnd, n - j) == Done(from + |EncAll(xs)|)
    {
      var e := CborSkip(wit, arrEnd);
      arrEnd := e.end;
    }
  }

  /** The optional tag 258 between key 0 and its array. */
  method TagBefore(wit: array<byte>, tagStart: nat, ghost v: Item) returns (tagged: bool)
    requires Accepted(v) && At(wit[..], tagStart, Enc(v))
    ensures v == TagIf(tagged, Untagged(v)) && (tagged <==> v.Tag? && v.head == SET_TAG)
    ensures Accepted(Untagged(v)) && At(wit[..], tagStart + |TagBytes(tagged)|, Enc(Untagged(v)))
  {
    TagTest(wit[..], tagStart, v);
    tagged := wit[tagStart] == 0xd9 && wit[tagStart + 1] == 0x01 && wit[tagStart + 2] == 0x02;
  }

  lemma AppendOutcome(v: Item, e: Item, tagged: bool)
    requires v == TagIf(tagged, Untagged(v)) && (tagged <==> v.Tag? && v.head == SET_TAG)
    ensures var a := Untagged(v);
            if a.Arr? && a.head.ai <= 24 then
              AppendToValue(v, e) == Ok(TagIf(tagged, Arr(CountHead(|a.elems| + 1), a.elems + [e])))
            else AppendToValue(v, e) == Err(if a.Arr? then UnexpectedArrayInfo(a.head.ai)
                                            else if a.OpenArr? then UnexpectedArrayInfo(31)
                                            else ExpectedArray(Enc(a)[0]))
  {
  }

  /** The body of the second loop, once it stands at key 0. */
  method AppendAt(wit: array<byte>, vk: array<byte>, keyAt: nat, ghost h: Head, ghost pre: seq<Entry>,
                  ghost v: Item, ghost post: seq<Entry>, ghost e: Item)
    returns (r: Result<array<byte>>)
    requires h.Valid() && Accepted(v) && keyAt == |h.Bytes(5) + EncEntries(pre)| && vk[..] == Enc(e)
    requires wit[..] == h.Bytes(5) + EncEntries(pre) + ([0x00] + Enc(v) + EncEntries(post))
    ensures r.Ok? <==> AppendToValue(v, e).Ok?
    ensures r.Ok? ==> fresh(r.value)
    ensures r.Ok? ==>
      r.value[..] == Enc(Map(h, pre + ([Entry(KEY_ZERO, AppendToValue(v, e).value)] + post)))
    ensures r.Err? ==> r.error == AppendToValue(v, e).error
  {
    var tagStart := keyAt + 1;
    ValueAt(wit[..], h.Bytes(5) + EncEntries(pre), Enc(v), EncEntries(post));
    var tagged := TagBefore(wit, tagStart, v);
    var scanPos := if tagged then tagStart + 3 else tagStart;
    var sized := ArrayHeader(wit, scanPos, Untagged(v));
    AppendOutcome(v, e, tagged);
    if sized.Err? { return Err(sized.error); }
    var out := AppendElements(wit, vk, tagStart, tagged, sized.value.0, sized.value.1, h.Bytes(5) + EncEntries(pre),
                              Untagged(v), post, e);
    AppendedBytes(h, pre, tagged, CountHead(sized.value.0 + 1), Untagged(v).elems, e, post);
    r := Ok(out);
  }

  lemma ElementPieces(b: seq<byte>, front: seq<byte>, tagged: bool, a: Item, rest: seq<byte>, tagStart: nat, from: nat)
    requires Accepted(a) && a.Arr? && b == front + ([0x00] + Enc(TagIf(tagged, a)) + rest)
    requires tagStart == |front| + 1 && from == tagStart + |TagBytes(tagged)| + |a.head.Bytes(4)|
    ensures b[..tagStart] == front + [0x00] && At(b, from, EncAll(a.elems)) && from + |EncAll(a.elems)| <= |b|
    ensures b[from..from + |EncAll(a.elems)|] == EncAll(a.elems) && b[from + |EncAll(a.elems)|..] == rest
  {
    hide At;
    ValueBytes(tagged, a.head, a.elems);
    Pieces(b, front, TagBytes(tagged), a.head.Bytes(4), EncAll(a.elems), rest);
  }

  method AppendElements(wit: array<byte>, vk: array<byte>, tagStart: nat, tagged: bool, arrSize: nat, arrHeaderEnd: nat,
                        ghost front: seq<byte>, ghost a: Item, ghost post: seq<Entry>, ghost e: Item)
    returns (r: array<byte>)
    requires Accepted(a) && a.Arr? && arrSize == |a.elems| && tagStart == |front| + 1 && vk[..] == Enc(e)
    requires arrHeaderEnd == tagStart + |TagBytes(tagged)| + |a.head.Bytes(4)|
    requires wit[..] == front + ([0x00] + Enc(TagIf(tagged, a)) + EncEntries(post))
    ensures fresh(r)
    ensures r[..] == front + [0x00] + TagBytes(tagged) + CountHead(arrSize + 1).Bytes(4) + EncAll(a.elems) + Enc(e)
                     + EncEntries(post)
  {
    hide At;
    ElementPieces(wit[..], front, tagged, a, EncEntries(post), tagStart, arrHeaderEnd);
    var arrEnd := SkipElements(wit, arrHeaderEnd, arrSize, a.elems);
    r := Rebuild(wit, vk, tagStart, tagged, arrSize + 1, arrHeaderEnd, arrEnd,
                 front + [0x00], EncAll(a.elems), EncEntries(post));
  }

  lemma ValueAt(b: seq<byte>, front: seq<byte>, v: seq<byte>, rest: seq<byte>)
    requires b == front + ([0x00] + v + rest)
    ensures At(b, |front| + 1, v)
  {
    AtSlice(b, |front| + 1, v);
  }

  /** The new set from its six parts. */
  method Rebuild(wit: array<byte>, vk: array<byte>, tagStart: nat, tagged: bool, ns: nat, arrHeaderEnd: nat,
                 arrEnd: nat, ghost b: seq<byte>, ghost xs: seq<byte>, ghost rest: seq<byte>)
    returns (r: array<byte>)
    requires tagStart <= arrHeaderEnd <= arrEnd <= wit.Length
    requires wit[..tagStart] == b && wit[arrHeaderEnd..arrEnd] == xs && wit[arrEnd..] == rest
    ensures fresh(r) && r[..] == b + TagBytes(tagged) + CountHead(ns).Bytes(4) + xs + vk[..] + rest
  {
    var newArr := CountHeader(4, ns);
    var tagPrefix := TagPrefix(tagged);
    var before := Slice(wit, 0, tagStart);
    var elems := Slice(wit, arrHeaderEnd, arrEnd);
    var after := Slice(wit, arrEnd, wit.Length);
    r := Join(before, tagPrefix, newArr, elems, vk, after);
  }

  method TagPrefix(tagged: bool) returns (r: array<byte>)
    ensures fresh(r) && r[..] == TagBytes(tagged)
  {
    if tagged { r := new byte[] [0xd9, 0x01, 0x02]; } else { r := new byte[0]; }
  }
}
