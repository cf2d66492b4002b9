/** Checkpoint bytes: little-endian lengths, length-prefixed data and the cursor that reads them back
    (dozer-core/src/checkpoint/serialize.rs). */
module Serialize {
  import opened Wrappers

  type Byte = b: int | 0 <= b < 256

  datatype DeserializationError = NotEnoughData(requested: nat, remaining: nat) | Bincode

  /** What was read, and the bytes after it. */
  datatype Parsed<+T> = Parsed(value: T, rest: seq<Byte>)

  function Power256(n: nat): nat {
    if n == 0 then 1 else 256 * Power256(n - 1)
  }

  /** One more than the largest u64. */
  const U64_LIMIT: nat := Power256(8)

  /** `to_le_bytes` of a number of n bytes. */
  function LeBytes(v: nat, n: nat): (bs: seq<Byte>)
    ensures |bs| == n
  {
    if n == 0 then [] else [v % 256] + LeBytes(v / 256, n - 1)
  }

  /** `from_le_bytes`. */
  function FromLe(bs: seq<Byte>): nat {
    if bs == [] then 0 else bs[0] + 256 * FromLe(bs[1..])
  }

  lemma {:induction false} LeRoundTrip(v: nat, n: nat)
    requires v < Power256(n)
    ensures FromLe(LeBytes(v, n)) == v
  {
    if n > 0 {
      LeRoundTrip(v / 256, n - 1);
      assert LeBytes(v, n)[1..] == LeBytes(v / 256, n - 1);
    }
  }

  /** The i-th byte counts the i-th power of 256: the least significant byte comes first. */
  lemma {:induction false} LittleEndian(v: nat, n: nat, i: nat) returns (low: nat, high: nat)
    requires i < n
    ensures low < Power256(i)
    ensures v == low + LeBytes(v, n)[i] * Power256(i) + high * Power256(i + 1)
  {
    if i == 0 {
      low, high := 0, v / 256;
    } else {
      var low', high' := LittleEndian(v / 256, n - 1, i - 1);
      low, high := 256 * low' + v % 256, high';
      var b := LeBytes(v, n)[i];
      assert b == LeBytes(v / 256, n - 1)[i - 1];
      assert b * Power256(i) == 256 * (b * Power256(i - 1));
      assert high * Power256(i + 1) == 256 * (high * Power256(i));
    }
  }

  function Consume(bs: seq<Byte>, len: nat): Result<Parsed<seq<Byte>>, DeserializationError> {
    if |bs| < len then Err(NotEnoughData(len, |bs|)) else Ok(Parsed(bs[..len], bs[len..]))
  }

  function EncodeU64(v: nat): seq<Byte> {
    LeBytes(v, 8)
  }

  function DecodeU64(bs: seq<Byte>): Result<Parsed<nat>, DeserializationError> {
    match Consume(bs, 8)
    case Err(e) => Err(e)
    case Ok(p) => Ok(Parsed(FromLe(p.value), p.rest))
  }

  function EncodeVec(data: seq<Byte>): seq<Byte> {
    EncodeU64(|data|) + data
  }

  function DecodeVec(bs: seq<Byte>): Result<Parsed<seq<Byte>>, DeserializationError> {
    match DecodeU64(bs)
    case Err(e) => Err(e)
    case Ok(p) => Consume(p.rest, p.value)
  }

  lemma U64RoundTrip(v: nat, rest: seq<Byte>)
    requires v < U64_LIMIT
    ensures DecodeU64(EncodeU64(v) + rest) == Ok(Parsed(v, rest))
  {
    LeRoundTrip(v, 8);
    assert (EncodeU64(v) + rest)[..8] == EncodeU64(v);
    assert (EncodeU64(v) + rest)[8..] == rest;
  }

  lemma VecRoundTrip(data: seq<Byte>, rest: seq<Byte>)
    requires |data| < U64_LIMIT
    ensures DecodeVec(EncodeVec(data) + rest) == Ok(Parsed(data, rest))
  {
    U64RoundTrip(|data|, data + rest);
    assert EncodeVec(data) + rest == EncodeU64(|data|) + (data + rest);
    assert (data + rest)[..|data|] == data && (data + rest)[|data|..] == rest;
  }

  /** Data that breaks off inside a length or inside the data it announces is refused. */
  lemma VecTruncated(data: seq<Byte>, k: nat)
    requires |data| < U64_LIMIT && k < |EncodeVec(data)|
    ensures DecodeVec(EncodeVec(data)[..k]).Err? && DecodeVec(EncodeVec(data)[..k]).error.NotEnoughData?
  {
    if 8 <= k {
      U64RoundTrip(|data|, data[..k - 8]);
      assert EncodeVec(data)[..k] == EncodeU64(|data|) + data[..k - 8];
    }
  }

  class Cursor {
    var data: seq<Byte>

    constructor (data: seq<Byte>)
      ensures this.data == data
    {
      this.data := data;
    }

    method Take(len: nat) returns (r: Result<seq<Byte>, DeserializationError>)
      modifies this
      ensures match Consume(old(data), len)
              case Err(e) => r == Err(e) && data == old(data)
              case Ok(p) => r == Ok(p.value) && data == p.rest
    {
      if |data| < len {
        return Err(NotEnoughData(len, |data|));
      }
      var head := data[..len];
      data := data[len..];
      return Ok(head);
    }

    method ReadU64() returns (r: Result<nat, DeserializationError>)
      modifies this
      ensures match DecodeU64(old(data))
              case Err(e) => r == Err(e) && data == old(data)
              case Ok(p) => r == Ok(p.value) && data == p.rest
    {
      var bytes := Take(8);
      if bytes.Err? {
        return Err(bytes.error);
      }
      return Ok(FromLe(bytes.value));
    }

    /** If the announced data is missing, its length has been consumed all the same. */
    method ReadVec() returns (r: Result<seq<Byte>, DeserializationError>)
      modifies this
      ensures match DecodeVec(old(data))
              case Err(e) => r == Err(e)
              case Ok(p) => r == Ok(p.value) && data == p.rest
    {
      var len := ReadU64();
      if len.Err? {
        return Err(len.error);
      }
      r := Take(len.value);
    }
  }
}
