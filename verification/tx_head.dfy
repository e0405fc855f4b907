/** The signer takes the first byte of a transaction for the whole array head. Signing is
    right exactly for the arrays whose head is one byte. */
module TxHead {
  import opened Cbor
  import opened CborWalk
  import opened Witness
  import opened TxSign
  import opened TxSigned
  import Hex

  // ------------------------------------------- a set with one witness more differs early

  /** The two differ at a place that both have. */
  ghost predicate Clash(s: seq<byte>, t: seq<byte>) {
    exists j :: 0 <= j < |s| && j < |t| && s[j] != t[j]
  }

  lemma ClashInside(front: seq<byte>, s: seq<byte>, x: seq<byte>, t: seq<byte>, y: seq<byte>)
    requires Clash(s, t)
    ensures Clash(front + (s + x), front + (t + y))
  {
    var j :| 0 <= j < |s| && j < |t| && s[j] != t[j];
    assert (front + (s + x))[|front| + j] == s[j] && (front + (t + y))[|front| + j] == t[j];
  }

  lemma CountHeadClashes(mt: nat, h: Head)
    requires mt < 8 && h.Valid() && h.ai <= 24
    ensures Clash(h.Bytes(mt), CountHead(h.Val() + 1).Bytes(mt))
  {
    var s, t := h.Bytes(mt), CountHead(h.Val() + 1).Bytes(mt);
    if h.ai == 24 {
      assert BigEndian(h.arg, 0, 1) == BigEndian(h.arg, 0, 0) * 256 + h.arg[0];
      assert s[0] != t[0] || s[1] != t[1];
    } else {
      assert s[0] != t[0];
    }
  }

  lemma GrownSetClashes(w: Item, vk: Item)
    requires Accepted(w) && AddVKey(w, vk).Ok?
    ensures Clash(Enc(w), Enc(AddVKey(w, vk).value))
  {
    var w', k := AddVKey(w, vk).value, FirstKeyZero(w.entries);
    if k == |w.entries| {
      CountHeadClashes(5, w.head);
      MapBytes(w.head, w.entries);
      MapBytes(w'.head, w'.entries);
      ClashInside([], w.head.Bytes(5), EncEntries(w.entries), w'.head.Bytes(5), EncEntries(w'.entries));
      assert [] + Enc(w) == Enc(w) && [] + Enc(w') == Enc(w');
    } else {
      GrownEntryClashes(w.head, w.entries, k, w.entries[k].val, w'.entries[k].val, vk);
    }
  }

  lemma GrownEntryClashes(h: Head, es: seq<Entry>, k: nat, v: Item, v': Item, vk: Item)
    requires h.Valid() && k < |es| && es[k] == Entry(KEY_ZERO, v) && AllEntries(es) && AppendToValue(v, vk) == Ok(v')
    ensures Clash(Enc(Map(h, es)), Enc(Map(h, es[k := Entry(KEY_ZERO, v')])))
  {
    AllEntriesAt(es, k);
    GrownValueClashes(v, vk);
    UpdateAsCat(es, k, Entry(KEY_ZERO, v));
    UpdateAsCat(es, k, Entry(KEY_ZERO, v'));
    assert es[k := Entry(KEY_ZERO, v)] == es;
    SetBytes(h, es[..k], v, es[k + 1..]);
    SetBytes(h, es[..k], v', es[k + 1..]);
    var front := h.Bytes(5) + EncEntries(es[..k]) + [0x00];
    ClashInside(front, Enc(v), EncEntries(es[k + 1..]), Enc(v'), EncEntries(es[k + 1..]));
    Regroup(h.Bytes(5), EncEntries(es[..k]), Enc(v), EncEntries(es[k + 1..]));
    Regroup(h.Bytes(5), EncEntries(es[..k]), Enc(v'), EncEntries(es[k + 1..]));
  }

  lemma Regroup(a: seq<byte>, b: seq<byte>, c: seq<byte>, d: seq<byte>)
    ensures a + (b + ([0x00] + c + d)) == a + b + [0x00] + (c + d)
  {
  }

  lemma GrownValueClashes(v: Item, vk: Item)
    requires Accepted(v) && AppendToValue(v, vk).Ok?
    ensures Clash(Enc(v), Enc(AppendToValue(v, vk).value))
  {
    var a, tagged := Untagged(v), v.Tag? && v.head == SET_TAG;
    var h := CountHead(|a.elems| + 1);
    CountHeadClashes(4, a.head);
    ValueBytes(tagged, a.head, a.elems);
    ValueBytes(tagged, h, a.elems + [vk]);
    ClashInside(TagBytes(tagged), a.head.Bytes(4), EncAll(a.elems), h.Bytes(4), EncAll(a.elems + [vk]));
  }

  // ------------------------------------------------------------ a head of several bytes

  lemma {:induction false} EveryByteCounts(b: seq<byte>, n: nat, k: nat)
    requires k < n <= |b|
    ensures BigEndian(b, 0, n) >= b[k]
  {
    if k < n - 1 { EveryByteCounts(b, n - 1, k); }
  }

  lemma SmallPlain(n: nat)
    requires n < 24
    ensures Accepted(Plain(0, Head(n, []))) && Enc(Plain(0, Head(n, []))) == [n]
  {
  }

  /** With a count byte behind the head, the count is signed as the body, and the body is
      taken for the witness set. */
  lemma CountByteHead(c: Crypto, t: Item, sk: seq<byte>, right: Item)
    requires Transaction(t) && t.Arr? && t.head.ai == 24 && |t.elems| < 24
    ensures Sign(c, Enc(t), Hex.Bytes(sk)) != Signed(Enc(WithWitnesses(t, right)))
  {
    var n := t.head.arg[0];
    EveryByteCounts(t.head.arg, 1, 0);
    Elements(t);
    TransactionBytes(t);
    WithWitnessesBytes(t, right);
    TwoByteLead(t.head, Body(t), Enc(t.elems[1]), Rest(t), n);
    TwoByteLead(t.head, Body(t), Enc(right), Rest(t), n);
    CountSignedAsBody(c, n, t.elems[0], Enc(t.elems[1]) + Rest(t), Enc(right) + Rest(t), Enc(t),
                      Enc(WithWitnesses(t, right)), sk);
  }

  lemma CountSignedAsBody(c: Crypto, n: byte, body: Item, after: seq<byte>, wanted: seq<byte>, tx: seq<byte>,
                          right: seq<byte>, sk: seq<byte>)
    requires n < 24 && Accepted(body) && tx == [0x98] + [n] + Enc(body) + after
    requires right == [0x98] + [n] + (Enc(body) + wanted)
    ensures Sign(c, tx, Hex.Bytes(sk)) != Signed(right)
  {
    SmallPlain(n);
    SignParts(c, 0x98, Plain(0, Head(n, [])), body, after, tx, sk);
    var added := AddVKey(body, VKey(c, sk, [n]));
    if added.Ok? {
      GrownSetClashes(body, VKey(c, sk, [n]));
      ClashInside([0x98] + [n], Enc(body), wanted, Enc(added.value), after);
      Associate([0x98] + [n], Enc(added.value), after);
      NoClashWithItself(right);
    }
  }

  lemma NoClashWithItself(s: seq<byte>)
    ensures !Clash(s, s)
  {
  }

  lemma TwoByteLead(h: Head, b: seq<byte>, w: seq<byte>, rest: seq<byte>, n: byte)
    requires h.Valid() && h.ai == 24 && n == h.arg[0]
    ensures h.Bytes(4) + b + w + rest == [0x98] + [n] + b + (w + rest) == ([0x98] + [n]) + (b + (w + rest))
  {
    assert h.Bytes(4) == [0x98] + [n];
  }

  /** With more count bytes, the first two are taken for body and witness set. */
  lemma CountBytesHead(c: Crypto, t: Item, sk: seq<byte>)
    requires Transaction(t) && t.Arr? && t.head.ai > 24 && |t.elems| < 24
    ensures Sign(c, Enc(t), Hex.Bytes(sk)) == Failed(BadWitnesses(ExpectedMap))
  {
    var a := t.head.arg;
    EveryByteCounts(a, |a|, 0);
    EveryByteCounts(a, |a|, 1);
    SmallPlain(a[0]);
    SmallPlain(a[1]);
    assert a == [a[0]] + [a[1]] + a[2..];
    LongLead(t.head, EncAll(t.elems));
    SignParts(c, t.head.Bytes(4)[0], Plain(0, Head(a[0], [])), Plain(0, Head(a[1], [])), a[2..] + EncAll(t.elems),
              Enc(t), sk);
  }

  lemma LongLead(h: Head, s: seq<byte>)
    requires h.Valid() && h.ai > 24
    ensures h.Bytes(4) + s == [h.Bytes(4)[0]] + [h.arg[0]] + [h.arg[1]] + (h.arg[2..] + s) && h.Bytes(4)[0] / 32 == 4
  {
  }

  /** For arrays of fewer than 24 elements: signing is right if and only if the head is written
      in one byte. RFC 8949 allows the longer heads too. */
  lemma RightIffOneByteHead(c: Crypto, t: Item, sk: seq<byte>)
    requires Transaction(t) && (t.Arr? ==> |t.elems| < 24) && AddVKey(t.elems[1], VKey(c, sk, Body(t))).Ok?
    ensures Sign(c, Enc(t), Hex.Bytes(sk))
            == Signed(Enc(WithWitnesses(t, AddVKey(t.elems[1], VKey(c, sk, Body(t))).value)))
       <==> OneByteHead(t)
  {
    if OneByteHead(t) {
      SignTransaction(c, t, sk);
    } else if t.head.ai == 24 {
      CountByteHead(c, t, sk, AddVKey(t.elems[1], VKey(c, sk, Body(t))).value);
    } else {
      CountBytesHead(c, t, sk);
    }
  }
}
