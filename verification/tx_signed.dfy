/** What signing does to a transaction: one witness more, and nothing else. */
module TxSigned {
  import opened Cbor
  import opened CborWalk
  import opened CborUnique
  import opened Witness
  import opened TxSign
  import Hex

  /** An encoded array [body, witnesses, rest...]. */
  ghost predicate Transaction(t: Item) {
    Accepted(t) && (t.Arr? || t.OpenArr?) && |t.elems| >= 2
  }

  /** The source takes the first byte for the whole head of the array. */
  predicate OneByteHead(t: Item) {
    t.OpenArr? || (t.Arr? && t.head.ai < 24)
  }

  function Body(t: Item): seq<byte>
    requires (t.Arr? || t.OpenArr?) && |t.elems| >= 2
  {
    Enc(t.elems[0])
  }

  function WithWitnesses(t: Item, w: Item): Item
    requires (t.Arr? || t.OpenArr?) && |t.elems| >= 2
  {
    if t.Arr? then Arr(t.head, t.elems[1 := w]) else OpenArr(t.elems[1 := w])
  }

  function ArrayLead(t: Item): seq<byte>
    requires t.Arr? || t.OpenArr?
  {
    if t.Arr? then Lead(4, t.head) else Lead(4, OPEN)
  }

  function Rest(t: Item): seq<byte>
    requires (t.Arr? || t.OpenArr?) && |t.elems| >= 2
  {
    EncAll(t.elems[2..]) + (if t.Arr? then [] else [0xff])
  }

  lemma TransactionBytes(t: Item)
    requires (t.Arr? || t.OpenArr?) && |t.elems| >= 2
    ensures Enc(t) == ArrayLead(t) + Body(t) + Enc(t.elems[1]) + Rest(t)
  {
    var es := t.elems;
    assert es[1..][0] == es[1] && es[1..][1..] == es[2..];
    assert EncAll(es) == Enc(es[0]) + (Enc(es[1]) + EncAll(es[2..]));
    if t.Arr? {
      FourParts(ArrayLead(t), Enc(es[0]), Enc(es[1]), EncAll(es[2..]), []);
    } else {
      FourParts(ArrayLead(t), Enc(es[0]), Enc(es[1]), EncAll(es[2..]), [0xff]);
    }
  }

  lemma FourParts(a: seq<byte>, b: seq<byte>, c: seq<byte>, d: seq<byte>, e: seq<byte>)
    ensures a + (b + (c + d)) + e == a + b + c + (d + e) && a + b + c + (d + []) == a + (b + (c + d))
  {
  }

  lemma WithWitnessesBytes(t: Item, w: Item)
    requires (t.Arr? || t.OpenArr?) && |t.elems| >= 2
    ensures Enc(WithWitnesses(t, w)) == ArrayLead(t) + Body(t) + Enc(w) + Rest(t)
  {
    TransactionBytes(WithWitnesses(t, w));
    assert t.elems[1 := w][2..] == t.elems[2..];
  }

  lemma PartsOf(a: byte, b: seq<byte>, c: seq<byte>, d: seq<byte>, whole: seq<byte>)
    requires whole == [a] + b + c + d
    ensures whole[0] == a && At(whole, 1, b) && At(whole, 1 + |b|, c) && |whole| == 1 + |b| + |c| + |d|
    ensures whole[1..1 + |b|] == b && whole[1 + |b|..1 + |b| + |c|] == c
    ensures whole[..1 + |b|] == [a] + b && whole[1 + |b| + |c|..] == d
  {
    hide At;
    PartSlices(a, b, c, d, whole);
    AtSlice(whole, 1, b);
    AtSlice(whole, 1 + |b|, c);
  }

  lemma PartSlices(a: byte, b: seq<byte>, c: seq<byte>, d: seq<byte>, whole: seq<byte>)
    requires whole == [a] + b + c + d
    ensures whole[0] == a && |whole| == 1 + |b| + |c| + |d|
    ensures whole[1..1 + |b|] == b && whole[1 + |b|..1 + |b| + |c|] == c
    ensures whole[..1 + |b|] == [a] + b && whole[1 + |b| + |c|..] == d
  {
  }

  lemma OneByteLead(t: Item)
    requires Transaction(t) && OneByteHead(t)
    ensures ArrayLead(t) == [ArrayLead(t)[0]] && ArrayLead(t)[0] / 32 == 4
  {
  }

  lemma Elements(t: Item)
    requires Transaction(t)
    ensures Accepted(t.elems[0]) && Accepted(t.elems[1]) && AllAccepted(t.elems[2..])
  {
    FirstTwo(t.elems);
  }

  lemma FirstTwo(es: seq<Item>)
    requires AllAccepted(es) && |es| >= 2
    ensures Accepted(es[0]) && Accepted(es[1]) && AllAccepted(es[2..])
  {
    assert AllAccepted(es[1..]);
    assert es[1..][0] == es[1] && es[1..][1..] == es[2..];
  }

  /** Body, rest, order and head stay byte for byte; the witness set becomes that of `AddVKey`
      with the signature of the body's bytes. */
  lemma SignTransaction(c: Crypto, t: Item, sk: seq<byte>)
    requires Accepted(t) && (t.OpenArr? || (t.Arr? && t.head.ai < 24)) && |t.elems| >= 2
    ensures var added := AddVKey(t.elems[1], VKey(c, sk, Body(t)));
            && (added.Ok? ==> Sign(c, Enc(t), Hex.Bytes(sk)) == Signed(Enc(WithWitnesses(t, added.value))))
            && (added.Err? ==> Sign(c, Enc(t), Hex.Bytes(sk)) == Failed(BadWitnesses(added.error)))
  {
    Elements(t);
    OneByteLead(t);
    TransactionBytes(t);
    SignParts(c, ArrayLead(t)[0], t.elems[0], t.elems[1], Rest(t), Enc(t), sk);
    var added := AddVKey(t.elems[1], VKey(c, sk, Body(t)));
    if added.Ok? { WithWitnessesBytes(t, added.value); }
  }

  lemma SignParts(c: Crypto, first: byte, body: Item, w: Item, rest: seq<byte>, tx: seq<byte>, sk: seq<byte>)
    requires first / 32 == 4 && Accepted(body) && Accepted(w) && tx == [first] + Enc(body) + Enc(w) + rest
    ensures var added := AddVKey(w, VKey(c, sk, Enc(body)));
            && (added.Ok? ==> Sign(c, tx, Hex.Bytes(sk)) == Signed([first] + Enc(body) + Enc(added.value) + rest))
            && (added.Err? ==> Sign(c, tx, Hex.Bytes(sk)) == Failed(BadWitnesses(added.error)))
  {
    PartsOf(first, Enc(body), Enc(w), rest, tx);
    SkipEnc(tx, 1, body);
    SkipEnc(tx, 1 + |Enc(body)|, w);
    ItemOfEnc(w);
  }

  // ------------------------------------------------------------------- many keys

  /** The set can take one witness at all: counted heads of at most two bytes, and an array
      under key 0 if there is one. */
  predicate Signable(w: Item) {
    && w.Map? && w.head.ai <= 24
    && (HasKeyZero(w) ==> var v := Untagged(w.entries[FirstKeyZero(w.entries)].val); v.Arr? && v.head.ai <= 24)
  }

  lemma SignableExactly(w: Item, vk: Item)
    ensures AddVKey(w, vk).Ok? <==> Signable(w)
  {
  }

  predicate RoomFor(w: Item, n: nat) {
    && Signable(w)
    && (n > 0 ==> if HasKeyZero(w) then |VKeys(w)| + n <= 255 else |w.entries| < 255 && n <= 255)
  }

  lemma RoomShrinks(w: Item, vk: Item, n: nat)
    requires RoomFor(w, n) && n > 0
    ensures AddVKey(w, vk).Ok? && HasRoom(w) && RoomFor(AddVKey(w, vk).value, n - 1)
  {
    SignableExactly(w, vk);
    AddVKeyEffect(w, vk);
    StillSignable(w, vk);
  }

  lemma StillSignable(w: Item, vk: Item)
    requires Signable(w)
    ensures AddVKey(w, vk).Ok? && Signable(AddVKey(w, vk).value)
  {
    var w' := AddVKey(w, vk).value;
    if HasKeyZero(w) {
      FirstKeyZeroIs(w'.entries, FirstKeyZero(w.entries));
    } else {
      FirstKeyZeroIs(w'.entries, 0);
    }
  }

  /** Signing with one key after the other, each on the bytes the last one left. */
  ghost function SignAll(c: Crypto, tx: seq<byte>, keys: seq<seq<byte>>): Signing
    decreases keys
  {
    if keys == [] then Signed(tx)
    else
      match Sign(c, tx, Hex.Bytes(keys[0]))
      case Signed(next) => SignAll(c, next, keys[1..])
      case Failed(why) => Failed(why)
  }

  function VKeysFor(c: Crypto, keys: seq<seq<byte>>, body: seq<byte>): seq<Item> {
    if keys == [] then [] else [VKey(c, keys[0], body)] + VKeysFor(c, keys[1..], body)
  }

  lemma ReplacedStillTransaction(t: Item, w: Item)
    requires Transaction(t) && Accepted(w) && w.Map?
    ensures Transaction(WithWitnesses(t, w))
  {
    Elements(t);
    var es := t.elems;
    assert es[1 := w] == [es[0], w] + es[2..];
    assert [es[0], w][1..] == [w] && [w][1..] == [];
    AllAcceptedCat([es[0], w], es[2..]);
  }

  /** Any list of keys, as long as there is room: the witnesses are appended in order, every
      signature is of the same body bytes, and body, rest and other entries never change. */
  lemma {:induction false} SignAllTransaction(c: Crypto, t: Item, keys: seq<seq<byte>>) returns (w': Item)
    requires c.Valid() && Transaction(t) && OneByteHead(t) && RoomFor(t.elems[1], |keys|)
    ensures SignAll(c, Enc(t), keys) == Signed(Enc(WithWitnesses(t, w')))
    ensures w'.Map? && Transaction(WithWitnesses(t, w'))
    ensures VKeys(w') == VKeys(t.elems[1]) + VKeysFor(c, keys, Body(t)) && Others(w') == Others(t.elems[1])
    decreases keys
  {
    var w := t.elems[1];
    if keys == [] {
      w' := w;
      assert t.elems[1 := w] == t.elems;
    } else {
      var vk := VKey(c, keys[0], Body(t));
      var next := SignOnce(c, t, keys[0], |keys|);
      w' := SignAllTransaction(c, next, keys[1..]);
      ReplaceTwice(t, next.elems[1], w');
      InOrder(VKeys(w), vk, VKeysFor(c, keys[1..], Body(t)));
    }
  }

  lemma ReplaceTwice(t: Item, v: Item, w: Item)
    requires (t.Arr? || t.OpenArr?) && |t.elems| >= 2
    ensures WithWitnesses(WithWitnesses(t, v), w) == WithWitnesses(t, w)
  {
    assert t.elems[1 := v][1 := w] == t.elems[1 := w];
  }

  lemma InOrder(vs: seq<Item>, v: Item, more: seq<Item>)
    ensures vs + [v] + more == vs + ([v] + more)
  {
  }

  lemma SignOnce(c: Crypto, t: Item, sk: seq<byte>, n: nat) returns (next: Item)
    requires c.Valid() && Transaction(t) && OneByteHead(t) && n > 0 && RoomFor(t.elems[1], n)
    ensures AddVKey(t.elems[1], VKey(c, sk, Body(t))).Ok?
    ensures next == WithWitnesses(t, AddVKey(t.elems[1], VKey(c, sk, Body(t))).value)
    ensures Sign(c, Enc(t), Hex.Bytes(sk)) == Signed(Enc(next))
    ensures Transaction(next) && OneByteHead(next) && Body(next) == Body(t) && RoomFor(next.elems[1], n - 1)
    ensures VKeys(next.elems[1]) == VKeys(t.elems[1]) + [VKey(c, sk, Body(t))]
    ensures next.elems[1].Map? && Others(next.elems[1]) == Others(t.elems[1])
  {
    var w, vk := t.elems[1], VKey(c, sk, Body(t));
    Elements(t);
    VKeyAccepted(c, sk, Body(t));
    RoomShrinks(w, vk, n);
    AddVKeyEffect(w, vk);
    AddVKeyKeepsAccepted(w, vk);
    SignTransaction(c, t, sk);
    next := WithWitnesses(t, AddVKey(w, vk).value);
    ReplacedStillTransaction(t, AddVKey(w, vk).value);
  }
}
