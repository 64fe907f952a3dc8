/**
 * Binary vectors: the typed fields a wire message is made of. Only the timestamp
 * vector's encoding is modelled in full; the other kinds carry their value.
 */
module Vectors {
  import opened Wrappers
  import opened Addresses

  newtype byte = x: int | 0 <= x < 256

  /** What `toValue()` of a vector yields, as a JavaScript value. */
  datatype Value = Num(n: nat) | Str(s: string) | Addr(a: PeerAddress) | Bytes(b: seq<byte>)

  datatype Vector =
    | TimestampVector(timestamp: nat)
    | StringVector(text: string)
    | AddressVector(address: PeerAddress)
    | RawVector(raw: seq<byte>)

  function ToValue(v: Vector): (r: Value)
    ensures v.TimestampVector? <==> r.Num?
    ensures v.StringVector? <==> r.Str?
    ensures v.TimestampVector? ==> r == Num(v.timestamp)
    ensures v.StringVector? ==> r == Str(v.text)
  {
    match v
    case TimestampVector(t) => Num(t)
    case StringVector(s) => Str(s)
    case AddressVector(a) => Addr(a)
    case RawVector(b) => Bytes(b)
  }

  /** The address vectors of a peer list, in order. */
  function AddressVectors(peers: seq<PeerAddress>): (r: seq<Vector>)
    ensures |r| == |peers|
    ensures forall i :: 0 <= i < |peers| ==> r[i] == AddressVector(peers[i])
  {
    if peers == [] then [] else [AddressVector(peers[0])] + AddressVectors(peers[1..])
  }

  // ---------------------------------------------------------------------------
  // The number's own bytes: minimal big-endian, one byte for zero.

  function NatToBytes(n: nat): (r: seq<byte>)
    ensures |r| >= 1
    decreases n
  {
    if n < 256 then [n as byte] else NatToBytes(n / 256) + [(n % 256) as byte]
  }

  function BytesToNat(bs: seq<byte>): nat
  {
    if bs == [] then 0 else BytesToNat(bs[..|bs| - 1]) * 256 + bs[|bs| - 1] as nat
  }

  /** Reading back the bytes of a number gives the number. */
  lemma {:induction false} BytesToNatOfNatToBytes(n: nat)
    ensures BytesToNat(NatToBytes(n)) == n
    decreases n
  {
    if n >= 256 {
      var r := NatToBytes(n);
      BytesToNatOfNatToBytes(n / 256);
      assert r[..|r| - 1] == NatToBytes(n / 256);
    }
  }

  /** The encoding is canonical: no leading zero byte unless the number is zero. */
  lemma {:induction false} NatToBytesCanonical(n: nat)
    ensures NatToBytes(n)[0] != 0 || n == 0
    ensures n < 256 <==> |NatToBytes(n)| == 1
    decreases n
  {
    if n >= 256 {
      NatToBytesCanonical(n / 256);
    }
  }

  // ---------------------------------------------------------------------------
  // TimestampVector

  /**
   * Construction from the converted input: `converted` is what the timestamp
   * conversion yields, None when it is not a big number; that input is rejected.
   */
  function NewTimestampVector(converted: Option<nat>): (r: Result<Vector>)
    ensures r.Success? <==> converted.Some?
    ensures r.Success? ==> r.value == TimestampVector(converted.value)
  {
    match converted
    case None => Failure("Invalid datetime parameter")
    case Some(t) => Success(TimestampVector(t))
  }

  /** `toBinary`: the base class's header, then the number's bytes. */
  function TimestampToBinary(timestamp: nat, header: seq<byte>): (r: seq<byte>)
    ensures |r| > |header| && r[..|header|] == header
  {
    header + NatToBytes(timestamp)
  }

  /** `fromBinary`: the first two bytes are skipped; a shorter input reads as empty. */
  function TimestampFromBinary(binary: seq<byte>): (r: Vector)
    ensures r.TimestampVector?
  {
    TimestampVector(BytesToNat(if |binary| >= 2 then binary[2..] else []))
  }

  /** With a two-byte header, decoding an encoded timestamp gives it back. */
  lemma TimestampRoundTrip(timestamp: nat, header: seq<byte>)
    requires |header| == 2
    ensures TimestampFromBinary(TimestampToBinary(timestamp, header)) == TimestampVector(timestamp)
    ensures ToValue(TimestampFromBinary(TimestampToBinary(timestamp, header))) == Num(timestamp)
  {
    assert TimestampToBinary(timestamp, header)[2..] == NatToBytes(timestamp);
    BytesToNatOfNatToBytes(timestamp);
  }

  /** Decoding does not look at the header's content. */
  lemma TimestampFromBinaryIgnoresHeader(h1: seq<byte>, h2: seq<byte>, body: seq<byte>)
    requires |h1| == 2 && |h2| == 2
    ensures TimestampFromBinary(h1 + body) == TimestampFromBinary(h2 + body)
  {
    assert (h1 + body)[2..] == body;
    assert (h2 + body)[2..] == body;
  }
}
