/** `addVKeyToWitnessSet` as a whole: its header, its two scans of the map, and its special
    case for the empty map, against `Witness.AddVKey`. */
module WitnessSplice {
  import opened Cbor
  import opened CborWalk
  import opened Witness
  import opened WitnessBytes

  /** Size and end of the header of a counted map. */
  method MapHeader(wit: array<byte>, ghost w: Item) returns (r: Result<(nat, nat)>)
    requires Accepted(w) && wit[..] == Enc(w)
    ensures r.Ok? <==> w.Map? && w.head.ai <= 24
    ensures r.Ok? ==> r.value == (|w.entries|, |w.head.Bytes(5)|)
    ensures r.Err? ==> r.error == if w.Map? then UnexpectedMapInfo(w.head.ai)
                                  else if w.OpenMap? then UnexpectedMapInfo(31) else ExpectedMap
  {
    FirstByte(w);
    var mapByte := wit[0];
    if mapByte / 32 != 5 { return Err(ExpectedMap); }
    var ai := mapByte % 32;
    if ai > 24 { return Err(UnexpectedMapInfo(ai)); }
    ShortHead(5, w.head, EncEntries(w.entries));
    if ai < 24 {
      r := Ok((ai, 1));
    } else {
      AtWhole(wit[..]);
      AtSplit(wit[..], 0, wit[..], w.head.Bytes(5), EncEntries(w.entries));
      AtHead(wit[..], 0, 5, w.head);
      OneByteArgument(wit[..], 1);
      r := Ok((wit[1], 2));
    }
  }

  /** The first scan: is there a key 0? */
  method HasKey0(wit: array<byte>, mapSize: nat, headerEnd: nat, ghost es: seq<Entry>) returns (found: bool)
    requires AllEntries(es) && mapSize == |es| && At(wit[..], headerEnd, EncEntries(es))
    ensures found <==> FirstKeyZero(es) < |es|
  {
    var scanPos := headerEnd;
    ScanStart(wit[..], es, headerEnd);
    for i := 0 to mapSize
      invariant Scanning(wit[..], es, headerEnd, i, scanPos)
    {
      ScanStep(wit[..], es, headerEnd, i, scanPos);
      if wit[scanPos] == 0x00 { return true; }
      var key := CborSkip(wit, scanPos);
      var val := CborSkip(wit, key.end);
      scanPos := val.end;
    }
    found := false;
  }

  lemma ScanStart(b: seq<byte>, es: seq<Entry>, start: nat)
    requires AllEntries(es) && At(b, start, EncEntries(es))
    ensures Scanning(b, es, start, 0, start)
  {
    assert es[0..] == es && es[..0] == [];
  }

  lemma CutAtKeyZero(h: Head, es: seq<Entry>, k: nat)
    requires h.Valid() && k < |es| && es[k].key == KEY_ZERO
    ensures Enc(Map(h, es)) == h.Bytes(5) + EncEntries(es[..k]) + ([0x00] + Enc(es[k].val) + EncEntries(es[k + 1..]))
  {
    UpdateAsCat(es, k, Entry(KEY_ZERO, es[k].val));
    assert es[k := Entry(KEY_ZERO, es[k].val)] == es;
    SetBytes(h, es[..k], es[k].val, es[k + 1..]);
    Associate(h.Bytes(5), EncEntries(es[..k]), [0x00] + Enc(es[k].val) + EncEntries(es[k + 1..]));
  }

  /** The second scan, which rewrites the value of the key 0 it finds. It falls off its end
      exactly when there is no key 0. */
  method RewriteKeyZero(wit: array<byte>, vk: array<byte>, mapSize: nat, headerEnd: nat, ghost w: Item, ghost e: Item)
    returns (r: Result<array<byte>>)
    requires Accepted(w) && w.Map? && wit[..] == Enc(w) && vk[..] == Enc(e)
    requires mapSize == |w.entries| && headerEnd == |w.head.Bytes(5)|
    ensures FirstKeyZero(w.entries) == |w.entries| ==> r == Err(KeyZeroLost)
    ensures FirstKeyZero(w.entries) < |w.entries| ==> Rewritten(r, w, FirstKeyZero(w.entries), e)
    ensures r.Ok? ==> fresh(r.value)
  {
    ghost var es := w.entries;
    var scanPos := headerEnd;
    DropFront(wit[..], w.head.Bytes(5), EncEntries(es));
    AtTail(wit[..], w.head.Bytes(5), EncEntries(es));
    ScanStart(wit[..], es, headerEnd);
    for i := 0 to mapSize
      invariant Scanning(wit[..], es, headerEnd, i, scanPos)
    {
      ScanStep(wit[..], es, headerEnd, i, scanPos);
      if wit[scanPos] == 0x00 {
        CutAtKeyZero(w.head, es, i);
        AllEntriesAt(es, i);
        r := AppendAt(wit, vk, scanPos, w.head, es[..i], es[i].val, es[i + 1..], e);
        RewrittenAt(es, i, es[i].val, e);
        return;
      }
      var key := CborSkip(wit, scanPos);
      var val := CborSkip(wit, key.end);
      scanPos := val.end;
    }
    r := Err(KeyZeroLost);
  }

  /** The value under the key 0 at `k` has one witness more, or why it could not. */
  ghost predicate Rewritten(r: Result<array<byte>>, w: Item, k: nat, e: Item)
    requires w.Map? && k < |w.entries|
    reads if r.Ok? then {r.value} else {}
  {
    match AppendToValue(w.entries[k].val, e)
    case Ok(v) => r.Ok? && r.value[..] == Enc(Map(w.head, w.entries[k := Entry(KEY_ZERO, v)]))
    case Err(x) => r == Err(x)
  }

  lemma RewrittenAt(es: seq<Entry>, k: nat, v: Item, e: Item)
    requires k < |es|
    ensures AppendToValue(v, e).Ok? ==>
      var n := Entry(KEY_ZERO, AppendToValue(v, e).value);
      es[k := n] == es[..k] + ([n] + es[k + 1..])
  {
    if AppendToValue(v, e).Ok? { UpdateAsCat(es, k, Entry(KEY_ZERO, AppendToValue(v, e).value)); }
  }

  /** The empty map has one encoding of one byte, and no other item has it. */
  lemma EmptyMap(w: Item)
    requires Accepted(w)
    ensures Enc(w) == [0xa0] <==> w == Map(Head(0, []), [])
  {
    if Enc(w) == [0xa0] { FirstByte(w); }
  }

  /** The six bytes written for the empty map are those of the general insertion. */
  lemma EmptyMapCase(v: Item)
    ensures AddVKey(Map(Head(0, []), []), v) == Ok(Map(CountHead(1), [NewEntry(v)]))
    ensures Enc(Map(CountHead(1), [NewEntry(v)])) == [0xa1, 0x00, 0xd9, 0x01, 0x02, 0x81] + Enc(v)
  {
    NewEntryBytes(v);
    InsertedBytes(CountHead(1), NewEntry(v), [], EncEntry(NewEntry(v)));
    assert [NewEntry(v)] + [] == [NewEntry(v)];
    SixBytes(Enc(v));
  }

  lemma SixBytes(e: seq<byte>)
    ensures CountHead(1).Bytes(5) + ([0x00, 0xd9, 0x01, 0x02, 0x81] + e) + EncEntries([])
         == [0xa1, 0x00, 0xd9, 0x01, 0x02, 0x81] + e
  {
  }

  method FirstVKey(vk: array<byte>, ghost v: Item) returns (r: array<byte>)
    requires vk[..] == Enc(v)
    ensures fresh(r) && r[..] == Enc(Map(CountHead(1), [NewEntry(v)]))
  {
    var lead := new byte[] [0xa1, 0x00, 0xd9, 0x01, 0x02, 0x81];
    r := Follow(lead, vk);
    EmptyMapCase(v);
  }

  /** `addVKeyToWitnessSet`: on the bytes of any accepted item, the bytes of `AddVKey` on the
      tree, or its error. The final error of the source does not occur. */
  method AddVKeyToWitnessSet(wit: array<byte>, vk: array<byte>, ghost w: Item, ghost v: Item)
    returns (r: Result<array<byte>>)
    requires Accepted(w) && wit[..] == Enc(w) && vk[..] == Enc(v)
    ensures r.Ok? <==> AddVKey(w, v).Ok?
    ensures r.Ok? ==> fresh(r.value) && r.value[..] == Enc(AddVKey(w, v).value)
    ensures r.Err? ==> r.error == AddVKey(w, v).error && r.error != KeyZeroLost
  {
    EmptyMap(w);
    if wit.Length == 1 && wit[0] == 0xa0 {
      EmptyMapCase(v);
      var first := FirstVKey(vk, v);
      return Ok(first);
    }
    var sized := MapHeader(wit, w);
    if sized.Err? { return Err(sized.error); }
    var (mapSize, headerEnd) := sized.value;
    AtTail(wit[..], w.head.Bytes(5), EncEntries(w.entries));
    var found := HasKey0(wit, mapSize, headerEnd, w.entries);
    if !found {
      var inserted := InsertKeyZero(wit, vk, mapSize, headerEnd, w, v);
      return Ok(inserted);
    }
    r := RewriteKeyZero(wit, vk, mapSize, headerEnd, w, v);
    NeverLost(w, v);
  }

  lemma NeverLost(w: Item, v: Item)
    ensures AddVKey(w, v).Err? ==> AddVKey(w, v).error != KeyZeroLost
  {
  }
}
