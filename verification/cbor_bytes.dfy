/** The walker on the bytes of a buffer as section 3 of RFC 8949 lays them out: where it ends for
    each first byte, with the widths and weights of the argument written out. */
module CborBytes {
  import opened Cbor

  /** The argument of the head at `at` is `val`, and ends in front of `pos`. */
  predicate Argument(b: seq<byte>, at: nat, pos: nat, val: nat) {
    && at < pos <= |b|
    && var n := pos - at - 1;
       match b[at] % 32
       case 24 => n == 1 && val == b[at + 1]
       case 25 => n == 2 && val == 256 * (b[at + 1] as int) + b[at + 2]
       case 26 =>
         && n == 4
         && val == 16777216 * (b[at + 1] as int) + 65536 * (b[at + 2] as int) + 256 * (b[at + 3] as int) + b[at + 4]
       case 27 =>
         && n == 8
         && val == 72057594037927936 * (b[at + 1] as int) + 281474976710656 * (b[at + 2] as int)
                   + 1099511627776 * (b[at + 3] as int) + 4294967296 * (b[at + 4] as int)
                   + 16777216 * (b[at + 5] as int) + 65536 * (b[at + 6] as int) + 256 * (b[at + 7] as int) + b[at + 8]
       case ai => ai < 24 && n == 0 && val == ai
  }

  lemma HeadWalked(b: seq<byte>, at: nat, pos: nat, val: nat)
    requires Argument(b, at, pos, val)
    ensures Skip(b, at) == SkipBody(b, b[at] / 32, pos, val)
  {
    var a := at + 1;
    if b[at] % 32 >= 24 { assert BigEndian(b, a, 1) == b[a]; }
    if b[at] % 32 >= 25 { assert BigEndian(b, a, 2) == 256 * (b[a] as int) + b[a + 1]; }
    if b[at] % 32 >= 26 {
      assert BigEndian(b, a, 3) == 65536 * (b[a] as int) + 256 * (b[a + 1] as int) + b[a + 2];
      assert BigEndian(b, a, 4) == BigEndian(b, a, 3) * 256 + b[a + 3];
    }
    if b[at] % 32 == 27 {
      assert BigEndian(b, a, 5) == BigEndian(b, a, 4) * 256 + b[a + 4];
      assert BigEndian(b, a, 6) == BigEndian(b, a, 5) * 256 + b[a + 5];
      assert BigEndian(b, a, 7) == BigEndian(b, a, 6) * 256 + b[a + 6];
      assert BigEndian(b, a, 8) == BigEndian(b, a, 7) * 256 + b[a + 7];
    }
  }

  /** Items that follow each other: each ends where the next begins. */
  predicate Chain(b: seq<byte>, ends: seq<nat>) {
    ends != [] && forall k | 0 <= k < |ends| - 1 :: Skip(b, ends[k]) == Done(ends[k + 1])
  }

  lemma {:induction false} ChainWalked(b: seq<byte>, ends: seq<nat>, k: nat, n: nat)
    requires Chain(b, ends) && k + n < |ends|
    ensures SkipN(b, ends[k], n) == Done(ends[k + n])
    decreases n
  {
    if n > 0 { ChainWalked(b, ends, k + 1, n - 1); }
  }

  /** A chain that ends in front of a break byte, which none of its items is. */
  predicate Broken(b: seq<byte>, ends: seq<nat>) {
    && Chain(b, ends) && (forall k | 0 <= k < |ends| :: ends[k] < |b|)
    && forall k | 0 <= k < |ends| :: b[ends[k]] == 255 <==> k == |ends| - 1
  }

  lemma {:induction false} BrokenWalked(b: seq<byte>, ends: seq<nat>, k: nat)
    requires Broken(b, ends) && k < |ends|
    ensures SkipToBreak(b, ends[k]) == Done(ends[|ends| - 1] + 1)
    decreases |ends| - k
  {
    if k < |ends| - 1 { BrokenWalked(b, ends, k + 1); }
  }

  lemma {:induction false} BrokenPairsWalked(b: seq<byte>, ends: seq<nat>, k: nat)
    requires Broken(b, ends) && k < |ends| && (|ends| - 1 - k) % 2 == 0
    ensures SkipPairsToBreak(b, ends[k]) == Done(ends[|ends| - 1] + 1)
    decreases |ends| - k
  {
    if k < |ends| - 1 {
      ChainWalked(b, ends, k, 2);
      BrokenPairsWalked(b, ends, k + 2);
    }
  }

  /** Numbers and simple values end behind their argument, strings as many bytes later, a tag where
      its content ends. */
  lemma PlainBytes(b: seq<byte>, at: nat, pos: nat, val: nat)
    requires Argument(b, at, pos, val)
    ensures b[at] / 32 in {0, 1, 7} ==> Skip(b, at) == Done(pos)
    ensures b[at] / 32 in {2, 3} ==> Skip(b, at) == Done(pos + val)
    ensures b[at] / 32 == 6 ==> Skip(b, at) == Skip(b, pos)
  {
    HeadWalked(b, at, pos, val);
  }

  /** An array ends where its last element does, a map where its last value does. */
  lemma ListBytes(b: seq<byte>, at: nat, pos: nat, val: nat, ends: seq<nat>)
    requires Argument(b, at, pos, val) && Chain(b, ends) && ends[0] == pos
    ensures b[at] / 32 == 4 && |ends| == val + 1 ==> Skip(b, at) == Done(ends[val])
    ensures b[at] / 32 == 5 && |ends| == 2 * val + 1 ==> Skip(b, at) == Done(ends[2 * val])
  {
    HeadWalked(b, at, pos, val);
    ChainWalked(b, ends, 0, |ends| - 1);
  }

  /** Without a length: up to the break byte, in pairs where it is a map. */
  lemma OpenBytes(b: seq<byte>, at: nat, ends: seq<nat>)
    requires at < |b| && b[at] % 32 == 31 && Broken(b, ends) && ends[0] == at + 1
    ensures b[at] / 32 in {2, 3, 4} ==> Skip(b, at) == Done(ends[|ends| - 1] + 1)
    ensures b[at] / 32 == 5 && |ends| % 2 == 1 ==> Skip(b, at) == Done(ends[|ends| - 1] + 1)
  {
    BrokenWalked(b, ends, 0);
    if |ends| % 2 == 1 { BrokenPairsWalked(b, ends, 0); }
  }

  /** What else a first byte can lead to: an error, the end of the buffer, or one byte for those
      that have no indefinite form. */
  lemma OtherBytes(b: seq<byte>, at: nat)
    ensures at >= |b| ==> Skip(b, at) == RanOut
    ensures at < |b| && b[at] % 32 in {28, 29, 30} ==> Skip(b, at) == BadInfo(b[at] % 32)
    ensures at < |b| && b[at] % 32 == 31 && b[at] / 32 in {0, 1, 6, 7} ==> Skip(b, at) == Done(at + 1)
    ensures at < |b| && b[at] % 32 == 24 && at + 2 > |b| ==> Skip(b, at) == RanOut
    ensures at < |b| && b[at] % 32 == 25 && at + 3 > |b| ==> Skip(b, at) == RanOut
    ensures at < |b| && b[at] % 32 == 26 && at + 5 > |b| ==> Skip(b, at) == RanOut
    ensures at < |b| && b[at] % 32 == 27 && at + 9 > |b| ==> Skip(b, at) == RanOut
  {
  }

  /** The head of five million, 1a 00 4c 4b 40, is stepped over whole, whatever is around it. */
  lemma FiveMillion(pre: seq<byte>, suf: seq<byte>)
    ensures Skip(pre + [0x1a, 0x00, 0x4c, 0x4b, 0x40] + suf, |pre|) == Done(|pre| + 5)
  {
    var b := pre + [0x1a, 0x00, 0x4c, 0x4b, 0x40] + suf;
    assert b[|pre|] == 0x1a && b[|pre| + 1] == 0 && b[|pre| + 2] == 0x4c && b[|pre| + 3] == 0x4b
      && b[|pre| + 4] == 0x40;
    PlainBytes(b, |pre|, |pre| + 5, 5000000);
  }
}
