/**
 * The graph-ts `BigInt`, as far as its construction matters here: a BigInt is a byte array
 * read as a signed little-endian two's-complement integer. `BigInt.fromI32(n)` builds the
 * bytes of `n`, while `new BigInt(n)` is the byte-array constructor, which allocates `n`
 * zero bytes and so holds the value 0 whatever `n` is.
 */
module GraphBigInt {

  newtype byte = x: int | 0 <= x < 256

  /** The unsigned value of little-endian bytes. */
  function Unsigned(bytes: seq<byte>): nat
    decreases bytes
  {
    if bytes == [] then 0 else bytes[0] as nat + 256 * Unsigned(bytes[1..])
  }

  function Pow256(k: nat): (r: nat)
    ensures r > 0
  {
    if k == 0 then 1 else 256 * Pow256(k - 1)
  }

  /** The value of a BigInt: two's complement, the sign taken from the top bit of the last byte. */
  function Value(bytes: seq<byte>): int {
    if bytes != [] && bytes[|bytes| - 1] >= 128 then Unsigned(bytes) - Pow256(|bytes|)
    else Unsigned(bytes)
  }

  /** The bytes `new BigInt(n)` allocates. */
  function ZeroBytes(n: nat): (r: seq<byte>)
    ensures |r| == n && forall i :: 0 <= i < n ==> r[i] == 0
  {
    if n == 0 then [] else [0] + ZeroBytes(n - 1)
  }

  lemma {:induction false} UnsignedZeroBytes(n: nat)
    ensures Unsigned(ZeroBytes(n)) == 0
  {
    if n > 0 {
      assert ZeroBytes(n)[1..] == ZeroBytes(n - 1);
      UnsignedZeroBytes(n - 1);
    }
  }

  /** `new BigInt(n)`, as written: the value of `n` zero bytes, which is 0 for every `n`. */
  function NewBigIntAsWritten(n: nat): (v: int)
    ensures v == 0
  {
    UnsignedZeroBytes(n);
    Value(ZeroBytes(n))
  }

  /** The magnitude of `n` as little-endian bytes, least significant first. */
  function MagnitudeBytes(n: nat): seq<byte>
    decreases n
  {
    if n == 0 then [] else [(n % 256) as byte] + MagnitudeBytes(n / 256)
  }

  lemma {:induction false} UnsignedMagnitude(n: nat)
    ensures Unsigned(MagnitudeBytes(n)) == n
    decreases n
  {
    if n > 0 {
      var q, d := n / 256, n % 256;
      assert MagnitudeBytes(n) == [d as byte] + MagnitudeBytes(q);
      assert MagnitudeBytes(n)[1..] == MagnitudeBytes(q);
      UnsignedMagnitude(q);
      assert n == 256 * q + d;
    }
  }

  /** A zero byte on top does not change the unsigned value. */
  lemma {:induction false} UnsignedZeroTail(bytes: seq<byte>)
    ensures Unsigned(bytes + [0]) == Unsigned(bytes)
    decreases bytes
  {
    if bytes == [] {
      assert Unsigned([0]) == 0 + 256 * Unsigned([]);
    } else {
      assert (bytes + [0])[1..] == bytes[1..] + [0];
      UnsignedZeroTail(bytes[1..]);
    }
  }

  /** The bytes of a non-negative `n`: its magnitude and a zero sign byte. */
  function FromNatBytes(n: nat): seq<byte> {
    MagnitudeBytes(n) + [0]
  }

  /** `BigInt.fromI32(n)` for a non-negative `n`: a BigInt whose value is `n`. */
  function FromI32Value(n: nat): (v: int)
    ensures v == n
  {
    UnsignedMagnitude(n);
    UnsignedZeroTail(MagnitudeBytes(n));
    Value(FromNatBytes(n))
  }

  /** A rate of 1000 bips is recorded as 0 as written, and kept by `BigInt.fromI32`. */
  lemma AsWrittenRecordsZeroFor1000()
    ensures NewBigIntAsWritten(1000) == 0 && FromI32Value(1000) == 1000
  {
  }
}
