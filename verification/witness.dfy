/** Adding one vkey witness to an encoded witness set: the operation on trees, what it
    does there, and the byte splicing of `addVKeyToWitnessSet` proved against it. */
module Witness {
  import opened Cbor
  import opened CborWalk

  datatype Error =
    | ExpectedMap
    | UnexpectedMapInfo(ai: nat)
    | ExpectedArray(first: byte)
    | UnexpectedArrayInfo(ai: nat)
    | KeyZeroLost

  datatype Result<+T> = Ok(value: T) | Err(error: Error)

  /** Key 0 in its one-byte form, the only form the source looks for. */
  const KEY_ZERO := Plain(0, Head(0, []))

  /** The three-byte head of tag 258. */
  const SET_TAG := Head(25, [0x01, 0x02])

  /** The head the source writes for a count. Above 255 its one argument byte wraps. */
  function CountHead(n: nat): Head {
    if n < 24 then Head(n, []) else Head(24, [n % 256])
  }

  lemma CountHeadVal(n: nat)
    ensures CountHead(n).Valid() && (CountHead(n).Val() == n <==> n < 256)
  {
    if n >= 24 {
      assert BigEndian(CountHead(n).arg, 0, 1) == BigEndian(CountHead(n).arg, 0, 0) * 256 + n % 256;
    }
  }

  function FirstKeyZero(es: seq<Entry>): (k: nat)
    ensures k <= |es| && (k < |es| ==> es[k].key == KEY_ZERO)
    ensures forall j | 0 <= j < k :: es[j].key != KEY_ZERO
  {
    if es == [] || es[0].key == KEY_ZERO then 0 else 1 + FirstKeyZero(es[1..])
  }

  // -------------------------------------------------------- the operation on trees

  function AppendToArray(v: Item, vk: Item): Result<Item> {
    match v
    case Arr(h, xs) =>
      if h.ai > 24 then Err(UnexpectedArrayInfo(h.ai)) else Ok(Arr(CountHead(|xs| + 1), xs + [vk]))
    case OpenArr(_) => Err(UnexpectedArrayInfo(31))
    case _ => Err(ExpectedArray(Enc(v)[0]))
  }

  function AppendToValue(v: Item, vk: Item): Result<Item> {
    if v.Tag? && v.head == SET_TAG then
      match AppendToArray(v.content, vk)
      case Ok(a) => Ok(Tag(SET_TAG, a))
      case Err(e) => Err(e)
    else AppendToArray(v, vk)
  }

  /** Append to key 0, or insert key 0 in front. */
  function AddVKey(w: Item, vk: Item): Result<Item> {
    match w
    case Map(h, es) =>
      if h.ai > 24 then Err(UnexpectedMapInfo(h.ai))
      else
        var k := FirstKeyZero(es);
        if k == |es| then Ok(Map(CountHead(|es| + 1), [NewEntry(vk)] + es))
        else
          (match AppendToValue(es[k].val, vk)
           case Ok(v) => Ok(Map(h, es[k := Entry(KEY_ZERO, v)]))
           case Err(e) => Err(e))
    case OpenMap(_) => Err(UnexpectedMapInfo(31))
    case _ => Err(ExpectedMap)
  }

  function NewEntry(vk: Item): Entry {
    Entry(KEY_ZERO, Tag(SET_TAG, Arr(Head(1, []), [vk])))
  }

  // ------------------------------------------------------------------ what it does

  function Untagged(v: Item): Item {
    if v.Tag? && v.head == SET_TAG then v.content else v
  }

  /** The vkey witnesses of a set: the elements of the array under the first key 0. */
  function VKeys(w: Item): seq<Item> {
    if w.Map? && FirstKeyZero(w.entries) < |w.entries| then
      var v := Untagged(w.entries[FirstKeyZero(w.entries)].val);
      if v.Arr? then v.elems else []
    else []
  }

  /** All entries but the first key 0. */
  function Others(w: Item): seq<Entry>
    requires w.Map?
  {
    var k := FirstKeyZero(w.entries);
    if k == |w.entries| then w.entries else w.entries[..k] + w.entries[k + 1..]
  }

  function HasKeyZero(w: Item): bool {
    w.Map? && FirstKeyZero(w.entries) < |w.entries|
  }

  function Tagged(w: Item): bool
    requires HasKeyZero(w)
  {
    var v := w.entries[FirstKeyZero(w.entries)].val;
    v.Tag? && v.head == SET_TAG
  }

  lemma FirstKeyZeroIs(es: seq<Entry>, k: nat)
    requires k < |es| && es[k].key == KEY_ZERO && (forall j | 0 <= j < k :: es[j].key != KEY_ZERO)
    ensures FirstKeyZero(es) == k
  {
    assert !(FirstKeyZero(es) < k);
  }

  /** One witness more, at the end; every other entry, and the order, as before; a tag 258
      is kept, and written only where there was no key 0 at all. */
  ghost predicate OneMore(w: Item, vk: Item, w': Item) {
    && w.Map? && HasKeyZero(w')
    && VKeys(w') == VKeys(w) + [vk]
    && Others(w') == Others(w)
    && (Tagged(w') <==> (HasKeyZero(w) ==> Tagged(w)))
    && FirstKeyZero(w'.entries) == (if HasKeyZero(w) then FirstKeyZero(w.entries) else 0)
  }

  lemma AddVKeyEffect(w: Item, vk: Item)
    requires AddVKey(w, vk).Ok?
    ensures OneMore(w, vk, AddVKey(w, vk).value)
  {
    if HasKeyZero(w) { AppendEffect(w, vk); } else { InsertEffect(w, vk); }
  }

  lemma InsertEffect(w: Item, vk: Item)
    requires AddVKey(w, vk).Ok? && !HasKeyZero(w)
    ensures OneMore(w, vk, AddVKey(w, vk).value)
  {
    var w' := AddVKey(w, vk).value;
    FirstKeyZeroIs(w'.entries, 0);
    assert w'.entries[1..] == w.entries && w'.entries[..0] == [];
  }

  lemma AppendEffect(w: Item, vk: Item)
    requires AddVKey(w, vk).Ok? && HasKeyZero(w)
    ensures OneMore(w, vk, AddVKey(w, vk).value)
  {
    FirstKeyZeroIs(AddVKey(w, vk).value.entries, FirstKeyZero(w.entries));
  }

  /** Room for one more: neither count in the set that has to grow is at 255 yet. */
  predicate HasRoom(w: Item) {
    w.Map? && if HasKeyZero(w) then |VKeys(w)| < 255 else |w.entries| < 255
  }

  lemma AddVKeyKeepsAccepted(w: Item, vk: Item)
    requires Accepted(w) && Accepted(vk) && AddVKey(w, vk).Ok? && HasRoom(w)
    ensures Accepted(AddVKey(w, vk).value)
  {
    var k := FirstKeyZero(w.entries);
    var w' := AddVKey(w, vk).value;
    if k == |w.entries| {
      CountHeadVal(|w.entries| + 1);
      NewEntryAccepted(vk);
      AllEntriesCat([NewEntry(vk)], w.entries);
    } else {
      AllEntriesAt(w.entries, k);
      var v := w.entries[k].val;
      assert Accepted(v) && Accepted(Untagged(v));
      AppendKeepsAccepted(Untagged(v), vk);
      ReplacedEntry(w.entries, k, w'.entries[k]);
    }
  }

  lemma NewEntryAccepted(vk: Item)
    requires Accepted(vk)
    ensures AcceptedEntry(NewEntry(vk))
  {
    assert AllAccepted([vk]);
    assert Accepted(KEY_ZERO);
    assert Accepted(Tag(SET_TAG, Arr(Head(1, []), [vk])));
  }

  lemma ReplacedEntry(es: seq<Entry>, k: nat, e: Entry)
    requires k < |es| && AllEntries(es) && AcceptedEntry(e)
    ensures AllEntries(es[k := e])
  {
    AllEntriesAt(es, k);
    assert es[k := e] == es[..k] + ([e] + es[k + 1..]);
    AllEntriesCat([e], es[k + 1..]);
    AllEntriesCat(es[..k], [e] + es[k + 1..]);
  }

  lemma AppendKeepsAccepted(v: Item, vk: Item)
    requires Accepted(v) && Accepted(vk) && AppendToArray(v, vk).Ok? && |v.elems| < 255
    ensures Accepted(AppendToArray(v, vk).value)
  {
    CountHeadVal(|v.elems| + 1);
    AllAcceptedCat(v.elems, [vk]);
  }

  lemma KeyZeroBytes()
    ensures Enc(KEY_ZERO) == [0x00]
  {
  }

  // ------------------------------------------------------------- encodings of lists

  lemma {:induction false} EncEntriesCat(es: seq<Entry>, fs: seq<Entry>)
    ensures EncEntries(es + fs) == EncEntries(es) + EncEntries(fs)
  {
    if es == [] {
      assert es + fs == fs;
    } else {
      assert (es + fs)[1..] == es[1..] + fs;
      EncEntriesCat(es[1..], fs);
    }
  }

  lemma {:induction false} EncAllCat(es: seq<Item>, fs: seq<Item>)
    ensures EncAll(es + fs) == EncAll(es) + EncAll(fs)
  {
    if es == [] {
      assert es + fs == fs;
    } else {
      assert (es + fs)[1..] == es[1..] + fs;
      EncAllCat(es[1..], fs);
    }
  }

  lemma EncAllSplit(es: seq<Item>, k: nat)
    requires k <= |es|
    ensures EncAll(es) == EncAll(es[..k]) + EncAll(es[k..])
  {
    assert es == es[..k] + es[k..];
    EncAllCat(es[..k], es[k..]);
  }

  lemma EncEntriesSnoc(es: seq<Entry>, e: Entry)
    ensures EncEntries(es + [e]) == EncEntries(es) + EncEntry(e)
  {
    assert EncEntries([e]) == EncEntry(e) + EncEntries([]);
    EncEntriesCat(es, [e]);
  }

  lemma EncEntriesAround(es: seq<Entry>, k: nat)
    requires k < |es|
    ensures EncEntries(es[..k + 1]) == EncEntries(es[..k]) + EncEntry(es[k])
    ensures EncEntries(es[k..]) == EncEntry(es[k]) + EncEntries(es[k + 1..])
  {
    assert es[..k + 1] == es[..k] + [es[k]];
    EncEntriesSnoc(es[..k], es[k]);
    assert es[k..][1..] == es[k + 1..];
  }

  lemma EncAllSnoc(es: seq<Item>, e: Item)
    ensures EncAll(es + [e]) == EncAll(es) + Enc(e)
  {
    assert EncAll([e]) == Enc(e) + EncAll([]);
    EncAllCat(es, [e]);
  }

  lemma Associate(a: seq<byte>, b: seq<byte>, c: seq<byte>)
    ensures a + (b + c) == a + b + c
  {
  }

  lemma UpdateAsCat(es: seq<Entry>, k: nat, e: Entry)
    requires k < |es|
    ensures es[k := e] == es[..k] + ([e] + es[k + 1..]) && |es| == |es[..k]| + 1 + |es[k + 1..]|
  {
  }

  lemma KeyZeroTail(v: Item, post: seq<Entry>)
    ensures EncEntries([Entry(KEY_ZERO, v)] + post) == [0x00] + Enc(v) + EncEntries(post)
  {
    KeyZeroEntryBytes(v);
    EncEntriesCons(Entry(KEY_ZERO, v), post);
  }

  lemma KeyZeroEntryBytes(v: Item)
    ensures EncEntry(Entry(KEY_ZERO, v)) == [0x00] + Enc(v)
  {
    KeyZeroBytes();
  }

  lemma EncEntriesCons(e: Entry, post: seq<Entry>)
    ensures EncEntries([e] + post) == EncEntry(e) + EncEntries(post)
  {
    assert ([e] + post)[1..] == post;
  }

  lemma MapBytes(h: Head, es: seq<Entry>)
    requires h.Valid()
    ensures Enc(Map(h, es)) == h.Bytes(5) + EncEntries(es)
  {
  }

  /** The bytes of a set, cut at an entry with key 0. */
  lemma SetBytes(h: Head, pre: seq<Entry>, v: Item, post: seq<Entry>)
    requires h.Valid()
    ensures Enc(Map(h, pre + ([Entry(KEY_ZERO, v)] + post)))
         == h.Bytes(5) + (EncEntries(pre) + ([0x00] + Enc(v) + EncEntries(post)))
  {
    MapBytes(h, pre + ([Entry(KEY_ZERO, v)] + post));
    EncEntriesCat(pre, [Entry(KEY_ZERO, v)] + post);
    KeyZeroTail(v, post);
  }

  function TagBytes(tagged: bool): seq<byte> {
    if tagged then [0xd9, 0x01, 0x02] else []
  }

  function TagIf(tagged: bool, v: Item): Item {
    if tagged then Tag(SET_TAG, v) else v
  }

  lemma ValueBytes(tagged: bool, h: Head, xs: seq<Item>)
    requires h.Valid()
    ensures Enc(TagIf(tagged, Arr(h, xs))) == TagBytes(tagged) + (h.Bytes(4) + EncAll(xs))
  {
  }
}
