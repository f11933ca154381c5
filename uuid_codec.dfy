/** The 16-byte wire form of a 128-bit trace identity.

    A `java.util.UUID` is two signed 64-bit halves. The codec writes the
    most-significant half and then the least-significant half into a
    16-byte `ByteBuffer` (Java's buffers are big-endian), and reads them
    back the same way. The three copies of the codec in the repository
    (`UUIDUtil` and two `ProtobufUUIDUtil`s) are byte-for-byte the same
    algorithm; this module holds their common specification and the two
    buffer primitives `putLong` and `getLong`. */
module UuidCodec {
  import opened Wrappers

  /** One byte of a protobuf `ByteString`, read as unsigned. */
  type byte = x: int | 0 <= x < 256

  const TwoTo63: int := 0x8000_0000_0000_0000
  const TwoTo64: int := 0x1_0000_0000_0000_0000

  /** A Java `long`. */
  type Long = x: int | -TwoTo63 <= x < TwoTo63

  /** A non-null `java.util.UUID`. */
  datatype Uuid = Uuid(msb: Long, lsb: Long)

  /** `EmptyUUID.INSTANCE.emptyUuid`, the reserved all-zero identity. */
  const Zero: Uuid := Uuid(0, 0)

  /** `ByteBuffer.put` throws `BufferOverflowException` when the source
      holds more bytes than the 16-byte buffer has room for. */
  datatype CodecError = BufferOverflow

  function Pow256(n: nat): (r: nat)
    ensures r > 0
  {
    if n == 0 then 1 else 256 * Pow256(n - 1)
  }

  lemma Pow256Eight()
    ensures Pow256(8) == TwoTo64
  {
    assert Pow256(2) == 0x1_0000;
    assert Pow256(4) == 0x1_0000_0000 by { assert Pow256(4) == 256 * 256 * Pow256(2); }
    assert Pow256(6) == 0x1_0000_0000_0000 by { assert Pow256(6) == 256 * 256 * Pow256(4); }
    assert Pow256(8) == 256 * 256 * Pow256(6);
  }

  /** Two's complement: the bit pattern of a `long` read as unsigned. */
  function Unsigned(x: Long): (u: nat)
    ensures u < TwoTo64
    ensures (u - x) % TwoTo64 == 0
  {
    if x < 0 then x + TwoTo64 else x
  }

  /** Two's complement: 64 bits read back as a `long`. */
  function Signed(u: nat): (x: Long)
    requires u < TwoTo64
    ensures Unsigned(x) == u
  {
    if u < TwoTo63 then u else u - TwoTo64
  }

  lemma SignedUnsigned(x: Long)
    ensures Signed(Unsigned(x)) == x
  {
  }

  /** The low `n` bytes of `u`, most significant first (big-endian). */
  function BytesOf(u: nat, n: nat): (r: seq<byte>)
    ensures |r| == n
  {
    if n == 0 then [] else BytesOf(u / 256, n - 1) + [u % 256]
  }

  /** The unsigned big-endian value of a byte string: its first byte is the
      most significant. */
  function ValueOf(s: seq<byte>): (v: nat)
    ensures v < Pow256(|s|)
  {
    if s == [] then 0 else ValueOf(s[..|s| - 1]) * 256 + s[|s| - 1]
  }

  /** What `ByteBuffer.putLong` writes: the 8 big-endian bytes of `x`. */
  function LongBytes(x: Long): (r: seq<byte>)
  {
    BytesOf(Unsigned(x), 8)
  }

  /** What `ByteBuffer.getLong` reads from 8 bytes. */
  function LongOf(b: seq<byte>): (x: Long)
    requires |b| == 8
  {
    Pow256Eight();
    Signed(ValueOf(b))
  }

  function Zeros(n: nat): (r: seq<byte>)
    ensures |r| == n && forall k :: 0 <= k < n ==> r[k] == 0
  {
    if n == 0 then [] else Zeros(n - 1) + [0]
  }

  /** `toBuf`: null becomes the empty `ByteString`; any other id becomes
      its most-significant half followed by its least-significant half. */
  function Encode(id: Option<Uuid>): (r: seq<byte>)
  {
    match id
    case None => []
    case Some(u) => LongBytes(u.msb) + LongBytes(u.lsb)
  }

  /** The 16-byte buffer `fromBuf` reads: the payload, then the zero bytes
      that `ByteBuffer.allocate(16)` left untouched. */
  function Padded(p: seq<byte>): (b: seq<byte>)
    requires |p| <= 16
  {
    p + Zeros(16 - |p|)
  }

  /** `fromBuf`: null or empty decodes to the reserved zero id; more than
      16 bytes overflow the buffer; otherwise the (zero-padded) 16 bytes
      are read as two big-endian longs. */
  function Decode(payload: Option<seq<byte>>): (r: Result<Uuid, CodecError>)
  {
    if payload.None? || payload.value == [] then Success(Zero)
    else if |payload.value| > 16 then Failure(BufferOverflow)
    else
      var b := Padded(payload.value);
      Success(Uuid(LongOf(b[..8]), LongOf(b[8..])))
  }

  // ---- Lemmas about the byte order ----

  lemma {:induction false} ValueOfBytesOf(u: nat, n: nat)
    requires u < Pow256(n)
    ensures ValueOf(BytesOf(u, n)) == u
  {
    if n > 0 {
      var s := BytesOf(u, n);
      assert s[..n - 1] == BytesOf(u / 256, n - 1);
      assert u / 256 < Pow256(n - 1);
      ValueOfBytesOf(u / 256, n - 1);
    }
  }

  lemma {:induction false} BytesOfValueOf(s: seq<byte>)
    ensures BytesOf(ValueOf(s), |s|) == s
  {
    if s != [] {
      var n := |s|;
      var v := ValueOf(s);
      var hi := ValueOf(s[..n - 1]);
      assert v / 256 == hi && v % 256 == s[n - 1];
      BytesOfValueOf(s[..n - 1]);
      assert s == s[..n - 1] + [s[n - 1]];
    }
  }

  /** `getLong` undoes `putLong`. */
  lemma LongRoundTrip(x: Long)
    ensures LongOf(LongBytes(x)) == x
  {
    Pow256Eight();
    ValueOfBytesOf(Unsigned(x), 8);
  }

  /** `putLong` undoes `getLong`. */
  lemma BytesRoundTrip(b: seq<byte>)
    requires |b| == 8
    ensures LongBytes(LongOf(b)) == b
  {
    Pow256Eight();
    BytesOfValueOf(b);
  }

  lemma {:induction false} BytesOfZero(n: nat)
    ensures BytesOf(0, n) == Zeros(n)
  {
    if n > 0 {
      BytesOfZero(n - 1);
    }
  }

  // ---- Properties of the codec ----

  /** A non-null id is sent as exactly 16 bytes: bytes 0..7 are the
      big-endian most-significant half, bytes 8..15 the least-significant
      half. */
  lemma EncodeLayout(u: Uuid)
    ensures |Encode(Some(u))| == 16
    ensures ValueOf(Encode(Some(u))[..8]) == Unsigned(u.msb)
    ensures ValueOf(Encode(Some(u))[8..]) == Unsigned(u.lsb)
  {
    var e := Encode(Some(u));
    assert e[..8] == LongBytes(u.msb) && e[8..] == LongBytes(u.lsb);
    Pow256Eight();
    ValueOfBytesOf(Unsigned(u.msb), 8);
    ValueOfBytesOf(Unsigned(u.lsb), 8);
  }

  /** `fromBuf(toBuf(u)) == u` for every non-null id. */
  lemma RoundTrip(u: Uuid)
    ensures Decode(Some(Encode(Some(u)))) == Success(u)
  {
    var e := Encode(Some(u));
    assert e != [] by { assert |e| == 16; }
    assert Padded(e) == e;
    assert e[..8] == LongBytes(u.msb) && e[8..] == LongBytes(u.lsb);
    LongRoundTrip(u.msb);
    LongRoundTrip(u.lsb);
  }

  /** Conversely, every 16-byte payload is the encoding of the id it
      decodes to, so the codec is a bijection between ids and 16-byte
      strings. */
  lemma DecodeThenEncode(b: seq<byte>)
    requires |b| == 16
    ensures Decode(Some(b)).Success?
    ensures Encode(Some(Decode(Some(b)).value)) == b
  {
    assert b != [];
    assert Padded(b) == b;
    BytesRoundTrip(b[..8]);
    BytesRoundTrip(b[8..]);
    assert b == b[..8] + b[8..];
  }

  /** A null or empty payload decodes to the reserved zero id, and null
      encodes to the empty payload, so null comes back as the zero id and
      not as null. */
  lemma NullAndEmpty()
    ensures Decode(None) == Success(Zero)
    ensures Decode(Some([])) == Success(Zero)
    ensures Encode(None) == []
    ensures Decode(Some(Encode(None))) == Success(Zero)
  {
  }

  /** The zero id is sent as 16 zero bytes, which decode to the same zero
      id that the empty payload decodes to. */
  lemma ZeroIdEncoding()
    ensures Encode(Some(Zero)) == Zeros(16)
    ensures Decode(Some(Zeros(16))) == Decode(Some([]))
  {
    BytesOfZero(8);
    assert Zeros(8) + Zeros(8) == Zeros(16);
    RoundTrip(Zero);
  }

  /** A payload of 1 to 15 bytes decodes as if right-padded with zeros. */
  lemma ShortPayloadIsPadded(p: seq<byte>)
    requires 0 < |p| < 16
    ensures Decode(Some(p)) == Decode(Some(p + Zeros(16 - |p|)))
    ensures Decode(Some(p)).Success?
  {
    var q := p + Zeros(16 - |p|);
    assert Padded(q) == q;
    assert Padded(p) == q;
  }

  /** A payload over 16 bytes overflows the buffer. */
  lemma LongPayloadOverflows(p: seq<byte>)
    ensures Decode(Some(p)) == Failure(BufferOverflow) <==> |p| > 16
  {
  }

  // ---- The ByteBuffer steps, as the source performs them ----

  /** `ByteBuffer.putLong(x)` at position `off`: writes the 8 bytes of `x`,
      lowest byte last, leaving the rest of the buffer alone. */
  method PutLong(a: array<byte>, off: nat, x: Long)
    requires off + 8 <= a.Length
    modifies a
    ensures a[off..off + 8] == LongBytes(x)
    ensures forall k :: 0 <= k < a.Length && !(off <= k < off + 8) ==> a[k] == old(a[k])
  {
    var v := Unsigned(x);
    var i := 8;
    while i > 0
      invariant 0 <= i <= 8
      invariant BytesOf(v, i) + a[off + i..off + 8] == LongBytes(x)
      invariant forall k :: 0 <= k < a.Length && !(off + i <= k < off + 8) ==> a[k] == old(a[k])
    {
      ghost var rest := a[off + i..off + 8];
      i := i - 1;
      a[off + i] := v % 256;
      assert a[off + i..off + 8] == [v % 256] + rest;
      v := v / 256;
    }
  }

  /** `ByteBuffer.getLong()` at position `off`: reads 8 bytes, most
      significant first, as a signed long. */
  method GetLong(a: array<byte>, off: nat) returns (x: Long)
    requires off + 8 <= a.Length
    ensures x == LongOf(a[off..off + 8])
  {
    var v: nat := 0;
    var i := 0;
    while i < 8
      invariant 0 <= i <= 8
      invariant v == ValueOf(a[off..off + i])
    {
      assert a[off..off + i + 1][..i] == a[off..off + i];
      v := v * 256 + a[off + i];
      i := i + 1;
    }
    Pow256Eight();
    x := Signed(v);
  }
}
