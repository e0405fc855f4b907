/** Signing a transaction: `signTxCbor` cuts an encoded array into body, witness set and the
    rest, and puts it together again with one witness more. */
module TxSign {
  import opened Cbor
  import opened CborWalk
  import opened CborUnique
  import opened Witness
  import opened WitnessBytes
  import opened WitnessSplice
  import Hex

  datatype Failure = BadHex | NotAnArray(mt: nat) | BadHead(ai: nat) | CutShort | BadWitnesses(error: Error)

  datatype Signing = Signed(tx: seq<byte>) | Failed(why: Failure)

  datatype Output = Text(hex: string) | Thrown(why: Failure)

  /** Hashing and Ed25519 are any functions with results of the right length. */
  datatype Crypto = Crypto(hash: seq<byte> -> seq<byte>, publicKey: seq<byte> -> seq<byte>,
                           signature: (seq<byte>, seq<byte>) -> seq<byte>) {
    ghost predicate Valid() {
      && (forall sk :: |publicKey(sk)| == 32)
      && (forall m, sk :: |signature(m, sk)| == 64)
    }
  }

  /** The vkey witness for some body bytes: public key, and signature of the body's hash. */
  function VKey(c: Crypto, sk: seq<byte>, body: seq<byte>): Item {
    Arr(Head(2, []), [Str(2, Head(24, [32]), c.publicKey(sk)), Str(2, Head(24, [64]), c.signature(c.hash(body), sk))])
  }

  lemma VKeyAccepted(c: Crypto, sk: seq<byte>, body: seq<byte>)
    requires c.Valid()
    ensures Accepted(VKey(c, sk, body))
  {
    OneByteVal(32);
    OneByteVal(64);
    var xs := VKey(c, sk, body).elems;
    assert AllAccepted(xs[1..]) && AllAccepted(xs);
  }

  lemma OneByteVal(n: byte)
    ensures Head(24, [n]).Valid() && Head(24, [n]).Val() == n
  {
    OneByteArgument([n], 0);
  }

  /** What signing does to bytes. */
  ghost function Sign(c: Crypto, tx: seq<byte>, sk: Hex.Decoded): Signing {
    if tx == [] then Failed(NotAnArray(0))
    else if tx[0] / 32 != 4 then Failed(NotAnArray(tx[0] / 32))
    else
      var body := Skip(tx, 1);
      if !body.Done? then Failed(HeadFailure(body))
      else
        var wit := Skip(tx, body.end);
        if !wit.Done? then Failed(HeadFailure(wit))
        else if wit.end > |tx| then Failed(CutShort)
        else if sk.InvalidLength? then Failed(BadHex)
        else Splice(c, tx, body.end, wit.end, sk.bytes)
  }

  function HeadFailure(o: Outcome): Failure
    requires !o.Done?
  {
    if o.BadInfo? then BadHead(o.ai) else CutShort
  }

  ghost function Splice(c: Crypto, tx: seq<byte>, bodyEnd: nat, witEnd: nat, sk: seq<byte>): Signing
    requires 1 <= bodyEnd <= witEnd <= |tx| && Skip(tx, bodyEnd) == Done(witEnd)
  {
    SkipExact(tx, bodyEnd, witEnd);
    var w := ItemOf(tx[bodyEnd..witEnd]);
    match AddVKey(w, VKey(c, sk, tx[1..bodyEnd]))
    case Ok(w') => Signed(tx[..bodyEnd] + Enc(w') + tx[witEnd..])
    case Err(e) => Failed(BadWitnesses(e))
  }

  // ---------------------------------------------------------------- the source code

  /** The 101 bytes of a vkey witness, written at the offsets of the source. */
  method VKeyBytes(pkBytes: seq<byte>, sigBytes: seq<byte>) returns (vkWit: array<byte>)
    requires |pkBytes| == 32 && |sigBytes| == 64
    ensures fresh(vkWit) && vkWit[..] == [0x82, 0x58, 0x20] + pkBytes + [0x58, 0x40] + sigBytes
  {
    vkWit := new byte[101](i requires 0 <= i < 101 =>
      if i == 0 then 0x82 else if i in {1, 35} then 0x58 else if i == 2 then 0x20 else if i == 36 then 0x40
      else if i < 35 then pkBytes[i - 3] else sigBytes[i - 37]);
  }

  lemma VKeyEnc(c: Crypto, sk: seq<byte>, body: seq<byte>)
    requires c.Valid()
    ensures Enc(VKey(c, sk, body))
         == [0x82, 0x58, 0x20] + c.publicKey(sk) + [0x58, 0x40] + c.signature(c.hash(body), sk)
  {
    var a := Str(2, Head(24, [32]), c.publicKey(sk));
    var b := Str(2, Head(24, [64]), c.signature(c.hash(body), sk));
    EncAllSnoc([a], b);
    OneElement(a);
    assert [a] + [b] == [a, b];
  }

  method SignTx(c: Crypto, tx: array<byte>, privateKeyHex: string) returns (ok: bool, why: Failure, result: array<byte>)
    requires c.Valid()
    ensures fresh(result)
    ensures Sign(c, tx[..], Hex.Decode(privateKeyHex)) == if ok then Signed(result[..]) else Failed(why)
  {
    result := new byte[0];
    if tx.Length == 0 { return false, NotAnArray(0), result; }
    var header := tx[0];
    if header / 32 != 4 { return false, NotAnArray(header / 32), result; }
    var body := CborSkip(tx, 1);
    if !body.Done? { return false, HeadFailure(body), result; }
    var wit := CborSkip(tx, body.end);
    if !wit.Done? { return false, HeadFailure(wit), result; }
    if wit.end > tx.Length { return false, CutShort, result; }
    var hexOk, skBytes := Hex.FromHex(privateKeyHex);
    if !hexOk { return false, BadHex, result; }
    ok, why, result := SpliceTx(c, tx, body.end, wit.end, skBytes[..]);
  }

  method SpliceTx(c: Crypto, tx: array<byte>, bodyEnd: nat, witEnd: nat, sk: seq<byte>)
    returns (ok: bool, why: Failure, result: array<byte>)
    requires c.Valid() && 1 <= bodyEnd <= witEnd <= tx.Length && Skip(tx[..], bodyEnd) == Done(witEnd)
    ensures fresh(result)
    ensures Splice(c, tx[..], bodyEnd, witEnd, sk) == if ok then Signed(result[..]) else Failed(why)
  {
    SkipExact(tx[..], bodyEnd, witEnd);
    ghost var w := ItemOf(tx[..][bodyEnd..witEnd]);
    var bodyBytes := Slice(tx, 1, bodyEnd);
    var vkWit := VKeyBytes(c.publicKey(sk), c.signature(c.hash(bodyBytes[..]), sk));
    VKeyEnc(c, sk, bodyBytes[..]);
    SameSlice(tx[..], 1, bodyEnd);
    SameSlice(tx[..], bodyEnd, witEnd);
    var existingWit := Slice(tx, bodyEnd, witEnd);
    var newWit := AddVKeyToWitnessSet(existingWit, vkWit, w, VKey(c, sk, bodyBytes[..]));
    if newWit.Err? {
      result := new byte[0];
      return false, BadWitnesses(newWit.error), result;
    }
    var front := Slice(tx, 0, bodyEnd);
    var rest := Slice(tx, witEnd, tx.Length);
    result := Join3(front, newWit.value, rest);
    ok, why := true, CutShort;
  }

  lemma SameSlice(b: seq<byte>, lo: nat, hi: nat)
    requires lo <= hi <= |b|
    ensures b[..][lo..hi] == b[lo..hi]
  {
  }

  /** `signTxCbor`. */
  method SignTxCbor(c: Crypto, txCborHex: string, privateKeyHex: string) returns (r: Output)
    requires c.Valid()
    ensures SignedText(c, Hex.Decode(txCborHex), Hex.Decode(privateKeyHex), r)
  {
    var ok, tx := Hex.FromHex(txCborHex);
    if !ok { return Thrown(BadHex); }
    var signed, why, result := SignTx(c, tx, privateKeyHex);
    r := if signed then Text(Hex.ToHex(result[..])) else Thrown(why);
  }

  ghost predicate SignedText(c: Crypto, tx: Hex.Decoded, sk: Hex.Decoded, r: Output) {
    if tx.InvalidLength? then r == Thrown(BadHex)
    else
      match Sign(c, tx.bytes, sk)
      case Signed(b) => r == Text(Hex.ToHex(b))
      case Failed(why) => r == Thrown(why)
  }
}
