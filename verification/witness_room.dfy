/** When the spliced witness set is still one data item: exactly when the count that grows
    is below 255. At 255 the source writes the new count 256 into one byte, as 0. */
module WitnessRoom {
  import opened Cbor
  import opened CborWalk
  import opened Witness

  /** Keys and values in one list, as the walker meets them. */
  function Flat(es: seq<Entry>): (r: seq<Item>)
    ensures |r| == 2 * |es|
  {
    if es == [] then [] else [es[0].key, es[0].val] + Flat(es[1..])
  }

  lemma {:induction false} FlatEnc(es: seq<Entry>)
    requires AllEntries(es)
    ensures EncAll(Flat(es)) == EncEntries(es)
    ensures AllAccepted(Flat(es))
  {
    if es != [] {
      FlatEnc(es[1..]);
      PairEnc(es[0]);
      EncAllCat([es[0].key, es[0].val], Flat(es[1..]));
      AllAcceptedCat([es[0].key, es[0].val], Flat(es[1..]));
    }
  }

  lemma PairEnc(e: Entry)
    requires AcceptedEntry(e)
    ensures EncAll([e.key, e.val]) == EncEntry(e) && AllAccepted([e.key, e.val])
  {
    assert [e.key, e.val][1..] == [e.val] && [e.val][1..] == [];
    EncAllSnoc([e.key], e.val);
    EncAllSnoc([], e.key);
    assert [] + [e.key] == [e.key] && [e.key] + [e.val] == [e.key, e.val];
  }

  lemma AllAcceptedSplit(items: seq<Item>, n: nat)
    requires AllAccepted(items) && n <= |items|
    ensures AllAccepted(items[..n])
  {
    assert items == items[..n] + items[n..];
    AllAcceptedCat(items[..n], items[n..]);
  }

  /** Walking fewer items than stand there stops short of the end. */
  lemma WalkStopsShort(b: seq<byte>, at: nat, items: seq<Item>, n: nat)
    requires AllAccepted(items) && n < |items|
    requires At(b, at, EncAll(items)) && at + |EncAll(items)| == |b|
    ensures SkipN(b, at, n).Done? && SkipN(b, at, n).end < |b|
  {
    EncAllSplit(items, n);
    AllAcceptedSplit(items, n);
    AtSplit(b, at, EncAll(items), EncAll(items[..n]), EncAll(items[n..]));
    SkipEncAll(b, at, items[..n]);
  }

  lemma {:induction false} SkipPrefix(b: seq<byte>, at: nat, es: seq<Entry>, n: nat)
    requires AllEntries(es) && At(b, at, EncEntries(es))
    ensures SkipN(b, at, 2 * |es| + n) == SkipN(b, at + |EncEntries(es)|, n)
    decreases es
  {
    if es != [] {
      AtSplit(b, at, EncEntries(es), EncEntry(es[0]), EncEntries(es[1..]));
      SkipEncEntry(b, at, es[0], 2 * |es[1..]| + n);
      SkipPrefix(b, at + |EncEntry(es[0])|, es[1..], n);
    }
  }

  /** A value whose array claims no elements ends right after the array's head. */
  lemma SkipEmptiedValue(b: seq<byte>, at: nat, tagged: bool, elems: seq<byte>, v: seq<byte>)
    requires v == EmptiedLead(tagged) + elems && At(b, at, v)
    ensures Skip(b, at) == Done(at + |EmptiedLead(tagged)|)
  {
    var h := CountHead(256);
    CountHead256();
    if tagged {
      Associate(SET_TAG.Bytes(6), h.Bytes(4), elems);
      SkipLead(b, at, 6, SET_TAG, h.Bytes(4) + elems);
      SkipLead(b, at + 3, 4, h, elems);
    } else {
      SkipLead(b, at, 4, h, elems);
    }
  }

  lemma CountHead256()
    ensures CountHead(256) == Head(24, [0]) && CountHead(256).Valid() && CountHead(256).Val() == 0
  {
    assert BigEndian([0], 0, 1) == BigEndian([0], 0, 0) * 256 + 0;
  }

  function EmptiedLead(tagged: bool): seq<byte> {
    if tagged then SET_TAG.Bytes(6) + CountHead(256).Bytes(4) else CountHead(256).Bytes(4)
  }

  lemma ShortAfterKeyZero(b: seq<byte>, at: nat, body: nat, xs: seq<Item>, post: seq<Entry>, n: nat)
    requires xs != [] && AllAccepted(xs) && AllEntries(post) && n == 2 * |post| + 2
    requires Skip(b, at) == Done(at + 1) && Skip(b, at + 1) == Done(body)
    requires body + |EncAll(xs) + EncEntries(post)| == |b| && At(b, body, EncAll(xs) + EncEntries(post))
    ensures SkipN(b, at, n).Done? && SkipN(b, at, n).end < |b|
  {
    SkipTwo(b, at, 2 * |post|);
    FlatCat(xs, post);
    WalkStopsShort(b, body, xs + Flat(post), 2 * |post|);
  }

  /** The bytes under key 0 after appending to a full array. */
  lemma FullValueBytes(xs: seq<Item>, tagged: bool, v: Item)
    requires |xs| == 256
    requires v == if tagged then Tag(SET_TAG, Arr(CountHead(256), xs)) else Arr(CountHead(256), xs)
    ensures Enc(v) == EmptiedLead(tagged) + EncAll(xs)
  {
    if tagged {
      Associate(SET_TAG.Bytes(6), CountHead(256).Bytes(4), EncAll(xs));
    }
  }

  /** No room under key 0: the walk over the new set ends before the set does. */
  lemma FullArrayBreaks(h: Head, es: seq<Entry>, vk: Item)
    requires Accepted(Map(h, es)) && Accepted(vk) && AddVKey(Map(h, es), vk).Ok?
    requires FirstKeyZero(es) < |es| && |VKeys(Map(h, es))| == 255
    ensures var out := Enc(AddVKey(Map(h, es), vk).value);
            Skip(out, 0).Done? && Skip(out, 0).end < |out|
  {
    var k := FirstKeyZero(es);
    var v := es[k].val;
    AllEntriesAt(es, k);
    AcceptedUntagged(v);
    var xs, v' := Untagged(v).elems + [vk], AppendToValue(v, vk).value;
    AllAcceptedCat(Untagged(v).elems, [vk]);
    FullValueBytes(xs, v.Tag? && v.head == SET_TAG, v');
    UpdateAsCat(es, k, Entry(KEY_ZERO, v'));
    WalkFullSet(h, es[..k], v', es[k + 1..], xs, v.Tag? && v.head == SET_TAG);
  }

  lemma WalkFullSet(h: Head, pre: seq<Entry>, v: Item, post: seq<Entry>, xs: seq<Item>, tagged: bool)
    requires h.Valid() && h.Val() == |pre| + 1 + |post| && xs != [] && AllAccepted(xs)
    requires AllEntries(pre) && AllEntries(post) && Enc(v) == EmptiedLead(tagged) + EncAll(xs)
    ensures var out := Enc(Map(h, pre + ([Entry(KEY_ZERO, v)] + post)));
            Skip(out, 0).Done? && Skip(out, 0).end < |out|
  {
    SetBytes(h, pre, v, post);
    WalkFullBytes(Enc(Map(h, pre + ([Entry(KEY_ZERO, v)] + post))), h, pre, post, xs, tagged, Enc(v),
                  [0x00] + Enc(v) + EncEntries(post), EncEntries(pre) + ([0x00] + Enc(v) + EncEntries(post)));
  }

  lemma WalkFullBytes(out: seq<byte>, h: Head, pre: seq<Entry>, post: seq<Entry>, xs: seq<Item>, tagged: bool,
                      v: seq<byte>, w: seq<byte>, body: seq<byte>)
    requires h.Valid() && h.Val() == |pre| + 1 + |post| && xs != [] && AllAccepted(xs)
    requires AllEntries(pre) && AllEntries(post) && v == EmptiedLead(tagged) + EncAll(xs)
    requires w == [0x00] + v + EncEntries(post) && body == EncEntries(pre) + w && out == h.Bytes(5) + body
    ensures Skip(out, 0).Done? && Skip(out, 0).end < |out|
  {
    var at := KeyZeroStands(out, h, pre, w, body);
    WalkParts(out, h, pre, post, xs, tagged, v, w, body, out, at, 2 * |post| + 2);
  }

  /** Where the entry under key 0 begins, behind the map's head and the entries before it. */
  lemma KeyZeroStands(out: seq<byte>, h: Head, pre: seq<Entry>, w: seq<byte>, body: seq<byte>) returns (at: nat)
    requires h.Valid() && body == EncEntries(pre) + w && out == h.Bytes(5) + body
    ensures at == |h.Bytes(5)| + |EncEntries(pre)| && at + |w| == |out| && At(out, 0, out) && At(out, at, w)
  {
    hide At;
    at := |h.Bytes(5)| + |EncEntries(pre)|;
    AtWhole(out);
    AtEntries(out, h, pre, w, body, out);
    TwoLengths(out, h.Bytes(5), body, EncEntries(pre), w);
  }

  lemma TwoLengths(out: seq<byte>, a: seq<byte>, body: seq<byte>, b: seq<byte>, w: seq<byte>)
    requires out == a + body && body == b + w
    ensures |a| + |b| + |w| == |out|
  {
  }

  lemma WalkParts(out: seq<byte>, h: Head, pre: seq<Entry>, post: seq<Entry>, xs: seq<Item>, tagged: bool,
                  v: seq<byte>, w: seq<byte>, body: seq<byte>, whole: seq<byte>, at: nat, n: nat)
    requires h.Valid() && h.Val() == |pre| + 1 + |post| && xs != [] && AllAccepted(xs)
    requires at == |h.Bytes(5)| + |EncEntries(pre)| && n == 2 * |post| + 2
    requires AllEntries(pre) && AllEntries(post) && v == EmptiedLead(tagged) + EncAll(xs)
    requires w == [0x00] + v + EncEntries(post) && body == EncEntries(pre) + w && whole == h.Bytes(5) + body
    requires At(out, 0, whole) && At(out, at, w) && at + |w| == |out|
    ensures Skip(out, 0).Done? && Skip(out, 0).end < |out|
  {
    WalkFromKeyZero(out, at, xs, tagged, post, v, w, n);
    WalkPast(out, h, pre, at, n, w, body, whole);
  }

  lemma AcceptedUntagged(v: Item)
    requires Accepted(v)
    ensures Accepted(Untagged(v))
  {
  }

  /** The walk over a map gets past the entries `pre`, and then depends on the rest. */
  lemma WalkPast(out: seq<byte>, h: Head, pre: seq<Entry>, at: nat, n: nat, post: seq<byte>, body: seq<byte>,
                 whole: seq<byte>)
    requires h.Valid() && 2 * h.Val() == 2 * |pre| + n && AllEntries(pre)
    requires body == EncEntries(pre) + post && whole == h.Bytes(5) + body && At(out, 0, whole)
    requires at == |h.Bytes(5)| + |EncEntries(pre)| && SkipN(out, at, n).Done? && SkipN(out, at, n).end < |out|
    ensures Skip(out, 0).Done? && Skip(out, 0).end < |out|
  {
    SkipLead(out, 0, 5, h, body);
    AtSplit(out, |h.Bytes(5)|, body, EncEntries(pre), post);
    SkipPrefix(out, |h.Bytes(5)|, pre, n);
  }

  lemma AtEntries(out: seq<byte>, h: Head, pre: seq<Entry>, post: seq<byte>, body: seq<byte>, whole: seq<byte>)
    requires h.Valid() && body == EncEntries(pre) + post && whole == h.Bytes(5) + body && At(out, 0, whole)
    ensures At(out, |h.Bytes(5)| + |EncEntries(pre)|, post)
  {
    AtSplit(out, 0, whole, h.Bytes(5), body);
    AtSplit(out, |h.Bytes(5)|, body, EncEntries(pre), post);
  }

  lemma WalkFromKeyZero(b: seq<byte>, at: nat, xs: seq<Item>, tagged: bool, post: seq<Entry>,
                        v: seq<byte>, w: seq<byte>, n: nat)
    requires xs != [] && AllAccepted(xs) && AllEntries(post)
    requires w == [0x00] + v + EncEntries(post) && v == EmptiedLead(tagged) + EncAll(xs)
    requires At(b, at, w) && at + |w| == |b| && n == 2 * |post| + 2
    ensures SkipN(b, at, n).Done? && SkipN(b, at, n).end < |b|
  {
    KeyZeroWalk(b, at, w, v, tagged, EncAll(xs), EncEntries(post));
    ShortAfterKeyZero(b, at, at + 1 + |EmptiedLead(tagged)|, xs, post, n);
  }

  lemma KeyZeroWalk(b: seq<byte>, at: nat, w: seq<byte>, v: seq<byte>, tagged: bool, elems: seq<byte>,
                    post: seq<byte>)
    requires w == [0x00] + v + post && v == EmptiedLead(tagged) + elems && At(b, at, w)
    ensures var body := at + 1 + |EmptiedLead(tagged)|;
            && Skip(b, at) == Done(at + 1) && Skip(b, at + 1) == Done(body)
            && At(b, body, elems + post) && at + |w| == body + |elems + post|
  {
    KeyZeroParts(b, at, w, v, EmptiedLead(tagged), elems, post);
    SkipKeyZero(b, at);
    SkipEmptiedValue(b, at + 1, tagged, elems, v);
  }

  lemma KeyZeroParts(b: seq<byte>, at: nat, w: seq<byte>, v: seq<byte>, lead: seq<byte>, elems: seq<byte>,
                     post: seq<byte>)
    requires w == [0x00] + v + post && v == lead + elems && At(b, at, w)
    ensures At(b, at, [0x00]) && At(b, at + 1, v) && At(b, at + 1 + |lead|, elems + post)
    ensures |w| == 1 + |lead| + |elems + post|
  {
    AtSplit(b, at, w, [0x00] + v, post);
    AtSplit(b, at, [0x00] + v, [0x00], v);
    AtSplit(b, at + 1, v, lead, elems);
    AtJoin(b, at + 1 + |lead|, elems, post);
  }

  lemma SkipKeyZero(b: seq<byte>, at: nat)
    requires At(b, at, [0x00])
    ensures Skip(b, at) == Done(at + 1)
  {
    AtFirst(b, at, [0x00]);
  }

  lemma FlatCat(xs: seq<Item>, post: seq<Entry>)
    requires AllAccepted(xs) && AllEntries(post)
    ensures EncAll(xs + Flat(post)) == EncAll(xs) + EncEntries(post)
    ensures AllAccepted(xs + Flat(post))
  {
    FlatEnc(post);
    EncAllCat(xs, Flat(post));
    AllAcceptedCat(xs, Flat(post));
  }

  lemma FullMapBreaks(w: Item, vk: Item)
    requires w.Map? && AddVKey(w, vk).Ok? && !HasKeyZero(w) && |w.entries| == 255
    ensures var out := Enc(AddVKey(w, vk).value);
            Skip(out, 0).Done? && Skip(out, 0).end < |out|
  {
    var w' := AddVKey(w, vk).value;
    CountHead256();
    AtWhole(Enc(w'));
    SkipLead(Enc(w'), 0, 5, CountHead(256), EncEntries(w'.entries));
  }

  lemma CountsAreSmall(w: Item, vk: Item)
    requires Accepted(w) && AddVKey(w, vk).Ok?
    ensures |w.entries| <= 255 && |VKeys(w)| <= 255
  {
    HeadCount(w.head);
    var k := FirstKeyZero(w.entries);
    if k < |w.entries| {
      AllEntriesAt(w.entries, k);
      AcceptedUntagged(w.entries[k].val);
      HeadCount(Untagged(w.entries[k].val).head);
    }
  }

  lemma HeadCount(h: Head)
    requires h.Valid() && h.ai <= 24
    ensures h.Val() <= 255
  {
    if h.ai == 24 { assert BigEndian(h.arg, 0, 1) == BigEndian(h.arg, 0, 0) * 256 + h.arg[0]; }
  }

  /** The spliced bytes are one data item if and only if there was room for one more. */
  lemma SplicedIsOneItem(w: Item, vk: Item)
    requires Accepted(w) && Accepted(vk) && AddVKey(w, vk).Ok?
    ensures HasRoom(w) <==> exists i :: Accepted(i) && Enc(i) == Enc(AddVKey(w, vk).value)
  {
    var out := Enc(AddVKey(w, vk).value);
    CountsAreSmall(w, vk);
    if HasRoom(w) {
      AddVKeyKeepsAccepted(w, vk);
      var i := AddVKey(w, vk).value;
      assert Accepted(i) && Enc(i) == out;
    } else {
      if HasKeyZero(w) {
        FullArrayBreaks(w.head, w.entries, vk);
      } else {
        FullMapBreaks(w, vk);
      }
      forall i | Accepted(i) && Enc(i) == out ensures false { WholeItem(i); }
    }
  }

  lemma WholeItem(i: Item)
    requires Accepted(i)
    ensures Skip(Enc(i), 0) == Done(|Enc(i)|)
  {
    AtWhole(Enc(i));
    SkipEnc(Enc(i), 0, i);
  }
}
