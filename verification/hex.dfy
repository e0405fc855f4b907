/** Hexadecimal text to bytes and back, as the signer reads and writes transactions. */
module Hex {
  import opened Cbor

  datatype Decoded = Bytes(bytes: seq<byte>) | InvalidLength

  /** The characters that `trim` removes and `parseInt` steps over. */
  predicate IsSpace(c: char) {
    var n := c as int;
    9 <= n <= 13 || 8192 <= n <= 8202 || n in {32, 160, 5760, 8232, 8233, 8239, 8287, 12288, 65279}
  }

  /** The white space and line ends of ECMAScript. */
  lemma SpacesAre(c: char)
    ensures IsSpace(c) <==>
      || c in "\t\n\r \U{0B}\U{0C}\U{A0}\U{1680}\U{2028}\U{2029}\U{202F}\U{205F}\U{3000}\U{FEFF}"
      || '\U{2000}' <= c <= '\U{200A}'
  {
    var s := "\t\n\r \U{0B}\U{0C}\U{A0}\U{1680}\U{2028}\U{2029}\U{202F}\U{205F}\U{3000}\U{FEFF}";
    assert s[0] == '\t' && s[1] == '\n' && s[2] == '\r' && s[3] == ' ' && s[4] == '\U{0B}' && s[5] == '\U{0C}';
    assert s[6] == '\U{A0}' && s[7] == '\U{1680}' && s[8] == '\U{2028}' && s[9] == '\U{2029}' && s[10] == '\U{202F}';
    assert s[11] == '\U{205F}' && s[12] == '\U{3000}' && s[13] == '\U{FEFF}';
  }

  function TrimStart(s: string): string {
    if s != [] && IsSpace(s[0]) then TrimStart(s[1..]) else s
  }

  function TrimEnd(s: string): string {
    if s != [] && IsSpace(s[|s| - 1]) then TrimEnd(s[..|s| - 1]) else s
  }

  function Lower(c: char): char {
    if 'A' <= c <= 'Z' then (c as int + 32) as char else c
  }

  function LowerAll(s: string): (r: string)
    ensures |r| == |s|
  {
    seq(|s|, k requires 0 <= k < |s| => Lower(s[k]))
  }

  /** The 26 capital letters become small ones, and nothing else changes. */
  lemma LowerLetters(s: string, k: nat)
    requires k < |s|
    ensures forall i | 0 <= i < 26 && s[k] == "ABCDEFGHIJKLMNOPQRSTUVWXYZ"[i] ::
              LowerAll(s)[k] == "abcdefghijklmnopqrstuvwxyz"[i]
    ensures s[k] !in "ABCDEFGHIJKLMNOPQRSTUVWXYZ" ==> LowerAll(s)[k] == s[k]
  {
    if 'A' <= s[k] <= 'Z' { assert "ABCDEFGHIJKLMNOPQRSTUVWXYZ"[s[k] as int - 65] == s[k]; }
  }

  lemma LowerTwice(s: string)
    ensures LowerAll(LowerAll(s)) == LowerAll(s)
  {
  }

  function Trim(s: string): string {
    TrimEnd(TrimStart(s))
  }

  function Normal(s: string): string {
    LowerAll(Trim(s))
  }

  predicate IsDigit(c: char) {
    '0' <= c <= '9' || 'a' <= c <= 'f'
  }

  function Digit(c: char): nat
    requires IsDigit(c)
  {
    if c <= '9' then c as int - 48 else c as int - 87
  }

  function DigitChar(n: nat): char
    requires n < 16
  {
    (if n < 10 then n + 48 else n + 87) as char
  }

  /** `parseInt` in base 16 on two characters, stored in a byte: it takes the longest run of
      digits after white space, a sign or `0x`; without one it is NaN, which is stored as 0. */
  function ParsePair(a: char, b: char): byte {
    if IsDigit(a) then
      (if a == '0' && b == 'x' then 0 else if IsDigit(b) then 16 * Digit(a) + Digit(b) else Digit(a))
    else if !IsDigit(b) then 0
    else if a == '-' then (256 - Digit(b)) % 256
    else if a == '+' || IsSpace(a) then Digit(b)
    else 0
  }

  /** Two digits are a byte, one digit and a character that is none are that digit, `0x` and what
      begins otherwise is nothing; a sign or white space in front of a digit is no digit. */
  lemma PairCases(a: char, b: char)
    ensures IsDigit(a) && IsDigit(b) ==> ParsePair(a, b) == 16 * Digit(a) + Digit(b)
    ensures IsDigit(a) && !IsDigit(b) && !(a == '0' && b == 'x') ==> ParsePair(a, b) == Digit(a)
    ensures ParsePair('0', 'x') == 0
    ensures !IsDigit(a) && !IsDigit(b) ==> ParsePair(a, b) == 0
    ensures IsDigit(b) ==> ParsePair('+', b) == ParsePair(' ', b) == ParsePair('\n', b) == Digit(b)
    ensures IsDigit(b) ==> (ParsePair('-', b) + Digit(b)) % 256 == 0
    ensures !IsDigit(a) && a != '+' && a != '-' && !IsSpace(a) ==> ParsePair(a, b) == 0
  {
  }

  function Decode(s: string): Decoded {
    var n := Normal(s);
    if |n| % 2 != 0 then InvalidLength
    else Bytes(seq(|n| / 2, k requires 0 <= k < |n| / 2 => PairAt(n, k)))
  }

  function PairAt(n: string, k: nat): byte
    requires 2 * k + 1 < |n|
  {
    ParsePair(n[2 * k], n[2 * k + 1])
  }

  function ToHex(b: seq<byte>): (s: string)
    ensures forall c | c in s :: IsDigit(c)
  {
    seq(2 * |b|, k requires 0 <= k < 2 * |b| => DigitChar(if k % 2 == 0 then b[k / 2] / 16 else b[k / 2] % 16))
  }

  /** `fromHex`: the loop over pairs of characters. */
  method FromHex(hex: string) returns (ok: bool, out: array<byte>)
    ensures fresh(out) && Decode(hex) == if ok then Bytes(out[..]) else InvalidLength
  {
    var normalized := Normal(hex);
    if |normalized| % 2 != 0 {
      out := new byte[0];
      return false, out;
    }
    out := new byte[|normalized| / 2];
    var i := 0;
    while i < |normalized|
      invariant 0 <= i <= |normalized| && i % 2 == 0
      invariant forall k | 0 <= k < i / 2 :: out[k] == PairAt(normalized, k)
    {
      out[i / 2] := ParsePair(normalized[i], normalized[i + 1]);
      i := i + 2;
    }
    ok := true;
  }

  lemma DigitPair(x: byte)
    ensures ParsePair(DigitChar(x / 16), DigitChar(x % 16)) == x
  {
    assert Digit(DigitChar(x / 16)) == x / 16 && Digit(DigitChar(x % 16)) == x % 16;
  }

  lemma NormalOfDigits(s: string)
    requires forall c | c in s :: IsDigit(c)
    ensures Normal(s) == s
  {
    if s != [] { assert s[0] in s && s[|s| - 1] in s; }
    assert TrimStart(s) == s && TrimEnd(s) == s;
    forall k | 0 <= k < |s| ensures Lower(s[k]) == s[k] { assert s[k] in s; }
  }

  /** Bytes survive the way through text. */
  lemma DecodeInvertsToHex(b: seq<byte>)
    ensures Decode(ToHex(b)) == Bytes(b)
  {
    NormalOfDigits(ToHex(b));
    forall k | 0 <= k < |b| ensures PairAt(ToHex(b), k) == b[k] { PairOfHex(b, k); }
    DecodePairs(ToHex(b), b);
  }

  lemma DecodePairs(s: string, b: seq<byte>)
    requires Normal(s) == s && |s| == 2 * |b| && forall k | 0 <= k < |b| :: PairAt(s, k) == b[k]
    ensures Decode(s) == Bytes(b)
  {
    assert |b| == |s| / 2;
  }

  lemma PairOfHex(b: seq<byte>, k: nat)
    requires k < |b|
    ensures PairAt(ToHex(b), k) == b[k]
  {
    assert (2 * k) % 2 == 0 && (2 * k) / 2 == k && (2 * k + 1) % 2 == 1 && (2 * k + 1) / 2 == k;
    DigitPair(b[k]);
  }

  /** Whoever writes the digits, in capital letters or small ones, and whatever white space is around
      them, means the same bytes. */
  lemma AnySpelling(front: string, s: string, back: string, b: seq<byte>)
    requires |s| == 2 * |b| && forall k | 0 <= k < |s| ::
               var n := if k % 2 == 0 then b[k / 2] / 16 else b[k / 2] % 16;
               s[k] == "0123456789abcdef"[n] || s[k] == "0123456789ABCDEF"[n]
    requires forall c | c in front || c in back :: c == ' ' || c == '\n' || c == '\t' || c == '\r'
    ensures Decode(front + s + back) == Bytes(b)
  {
    forall k | 0 <= k < |s| ensures LowerAll(s)[k] == ToHex(b)[k] && !IsSpace(s[k]) { SpelledDigit(s, b, k); }
    assert LowerAll(s) == ToHex(b);
    TrimAround(front, s, back);
    NormalOfDigits(ToHex(b));
    DecodeInvertsToHex(b);
    assert Normal(front + s + back) == Normal(ToHex(b));
  }

  lemma SpelledDigit(s: string, b: seq<byte>, k: nat)
    requires |s| == 2 * |b| && k < |s|
    requires var n := if k % 2 == 0 then b[k / 2] / 16 else b[k / 2] % 16;
             s[k] == "0123456789abcdef"[n] || s[k] == "0123456789ABCDEF"[n]
    ensures LowerAll(s)[k] == ToHex(b)[k] && !IsSpace(s[k])
  {
  }

  lemma {:induction false} TrimAround(front: string, s: string, back: string)
    requires (forall c | c in front || c in back :: IsSpace(c)) && forall k | 0 <= k < |s| :: !IsSpace(s[k])
    ensures Trim(front + s + back) == s
    decreases |front| + |back|
  {
    if front != [] {
      assert front[0] in front && (front + s + back)[0] == front[0];
      assert (front + s + back)[1..] == front[1..] + s + back;
      TrimAround(front[1..], s, back);
    } else if s != [] && back != [] {
      assert front + s + back == s + back && TrimStart(s + back) == s + back;
      TrimBack(s, back);
    } else if s == [] {
      assert front + s + back == back;
      AllSpace(back);
    } else {
      assert front + s + back == s;
    }
  }

  lemma {:induction false} TrimBack(s: string, back: string)
    requires s != [] && !IsSpace(s[|s| - 1]) && forall c | c in back :: IsSpace(c)
    ensures TrimEnd(s + back) == s
  {
    if back == [] {
      assert s + back == s;
    } else {
      var n := |back| - 1;
      assert back[n] in back && (s + back)[|s + back| - 1] == back[n];
      assert (s + back)[..|s + back| - 1] == s + back[..n];
      TrimBack(s, back[..n]);
    }
  }

  lemma {:induction false} AllSpace(s: string)
    requires forall c | c in s :: IsSpace(c)
    ensures Trim(s) == []
  {
    if s != [] {
      assert s[0] in s;
      AllSpace(s[1..]);
    }
  }

  /** Text survives the way through bytes, up to case and outer white space, exactly when it
      holds digits only; otherwise the source reads it as other bytes without an error. */
  lemma ToHexInvertsDecode(s: string)
    requires Decode(s).Bytes?
    ensures ToHex(Decode(s).bytes) == Normal(s) <==> forall c | c in Normal(s) :: IsDigit(c)
  {
    var n, b := Normal(s), Decode(s).bytes;
    if forall c | c in n :: IsDigit(c) {
      forall j | 0 <= j < |n| ensures ToHex(b)[j] == n[j] {
        var k := j / 2;
        assert n[2 * k] in n && n[2 * k + 1] in n;
        assert b[k] == PairAt(n, k) == 16 * Digit(n[2 * k]) + Digit(n[2 * k + 1]);
        HighLow(Digit(n[2 * k]), Digit(n[2 * k + 1]), b[k]);
        assert DigitChar(Digit(n[j])) == n[j];
      }
    }
  }

  lemma HighLow(hi: nat, lo: nat, x: byte)
    requires lo < 16 && x == 16 * hi + lo
    ensures x / 16 == hi && x % 16 == lo
  {
  }

  lemma {:induction false} TrimStartFront(s: string)
    ensures TrimStart(s) == [] || !IsSpace(TrimStart(s)[0])
  {
    if s != [] && IsSpace(s[0]) { TrimStartFront(s[1..]); }
  }

  lemma {:induction false} TrimEndEnds(s: string)
    ensures var t := TrimEnd(s); t <= s && (t == [] || !IsSpace(t[|t| - 1]))
  {
    if s != [] && IsSpace(s[|s| - 1]) { TrimEndEnds(s[..|s| - 1]); }
  }

  lemma TrimTwice(s: string)
    ensures Trim(Trim(s)) == Trim(s)
  {
    var t := Trim(s);
    TrimStartFront(s);
    TrimEndEnds(TrimStart(s));
    assert TrimStart(t) == t && TrimEnd(t) == t;
  }

  /** Normalizing is idempotent. */
  lemma NormalTwice(s: string)
    ensures Normal(Normal(s)) == Normal(s)
  {
    var t := Trim(s);
    TrimStartFront(s);
    TrimEndEnds(TrimStart(s));
    var n := Normal(s);
    if n != [] { assert n[0] == Lower(t[0]) && n[|n| - 1] == Lower(t[|t| - 1]); }
    assert TrimStart(n) == n && TrimEnd(n) == n;
  }
}
