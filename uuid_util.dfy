/** The three copies of the id codec. Each is a class of two static
    methods that fill or read a local 16-byte `ByteBuffer`; nothing
    survives a call. Each copy's methods are proved against the shared
    specification in `UuidCodec`, whose lemmas then give every copy the
    round trip and the edge cases. */

/** `client/UUIDUtil.java`. */
module ClientUuidUtil {
  import opened Wrappers
  import opened UuidCodec

  /** `toBuf`: null gives the empty payload; otherwise a fresh 16-byte
      buffer receives `putLong(msb)` then `putLong(lsb)`. */
  method ToBuf(uuid: Option<Uuid>) returns (buf: seq<byte>)
    ensures buf == Encode(uuid)
    ensures uuid.None? ==> buf == []
    ensures uuid.Some? ==> |buf| == 16 && Decode(Some(buf)) == Success(uuid.value)
  {
    if uuid.None? {
      return [];
    }
    var a := new byte[16](_ => 0);
    PutLong(a, 0, uuid.value.msb);
    PutLong(a, 8, uuid.value.lsb);
    assert a[..] == a[0..8] + a[8..16];
    buf := a[..];
    RoundTrip(uuid.value);
  }

  /** `fromBuf`: null or empty gives the zero id; otherwise the payload is
      put into a zeroed 16-byte buffer (overflowing if it is longer) and
      two longs are read back. */
  method FromBuf(uuid: Option<seq<byte>>) returns (r: Result<Uuid, CodecError>)
    ensures r == Decode(uuid)
    ensures r.Failure? <==> uuid.Some? && |uuid.value| > 16
  {
    if uuid.None? || uuid.value == [] {
      return Success(Zero);
    }
    var p := uuid.value;
    if |p| > 16 {
      return Failure(BufferOverflow);
    }
    var a := new byte[16](_ => 0);
    var i := 0;
    while i < |p|
      invariant 0 <= i <= |p|
      invariant forall k :: 0 <= k < i ==> a[k] == p[k]
      invariant forall k :: i <= k < 16 ==> a[k] == 0
    {
      a[i] := p[i];
      i := i + 1;
    }
    assert a[..] == Padded(p);
    assert a[0..8] == Padded(p)[..8] && a[8..16] == Padded(p)[8..];
    var msb := GetLong(a, 0);
    var lsb := GetLong(a, 8);
    r := Success(Uuid(msb, lsb));
  }
}

/** `protocol/util/ProtobufUUIDUtil.java`: the same algorithm, written
    against the same buffer primitives. */
module ProtocolUuidUtil {
  import opened Wrappers
  import opened UuidCodec

  method ToBuf(uuid: Option<Uuid>) returns (buf: seq<byte>)
    ensures buf == Encode(uuid)
    ensures uuid.None? ==> buf == []
    ensures uuid.Some? ==> |buf| == 16 && Decode(Some(buf)) == Success(uuid.value)
  {
    if uuid.None? {
      return [];
    }
    var a := new byte[16](_ => 0);
    PutLong(a, 0, uuid.value.msb);
    PutLong(a, 8, uuid.value.lsb);
    assert a[..] == a[0..8] + a[8..16];
    buf := a[..];
    RoundTrip(uuid.value);
  }

  method FromBuf(uuid: Option<seq<byte>>) returns (r: Result<Uuid, CodecError>)
    ensures r == Decode(uuid)
    ensures r.Failure? <==> uuid.Some? && |uuid.value| > 16
  {
    if uuid.None? || uuid.value == [] {
      return Success(Zero);
    }
    var p := uuid.value;
    if |p| > 16 {
      return Failure(BufferOverflow);
    }
    var a := new byte[16](_ => 0);
    var i := 0;
    while i < |p|
      invariant 0 <= i <= |p|
      invariant forall k :: 0 <= k < i ==> a[k] == p[k]
      invariant forall k :: i <= k < 16 ==> a[k] == 0
    {
      a[i] := p[i];
      i := i + 1;
    }
    assert a[..] == Padded(p);
    assert a[0..8] == Padded(p)[..8] && a[8..16] == Padded(p)[8..];
    var msb := GetLong(a, 0);
    var lsb := GetLong(a, 8);
    r := Success(Uuid(msb, lsb));
  }
}

/** `util/ProtobufUUIDUtil.java`: the same algorithm once more. */
module UtilUuidUtil {
  import opened Wrappers
  import opened UuidCodec

  method ToBuf(uuid: Option<Uuid>) returns (buf: seq<byte>)
    ensures buf == Encode(uuid)
    ensures uuid.None? ==> buf == []
    ensures uuid.Some? ==> |buf| == 16 && Decode(Some(buf)) == Success(uuid.value)
  {
    if uuid.None? {
      return [];
    }
    var a := new byte[16](_ => 0);
    PutLong(a, 0, uuid.value.msb);
    PutLong(a, 8, uuid.value.lsb);
    assert a[..] == a[0..8] + a[8..16];
    buf := a[..];
    RoundTrip(uuid.value);
  }

  method FromBuf(uuid: Option<seq<byte>>) returns (r: Result<Uuid, CodecError>)
    ensures r == Decode(uuid)
    ensures r.Failure? <==> uuid.Some? && |uuid.value| > 16
  {
    if uuid.None? || uuid.value == [] {
      return Success(Zero);
    }
    var p := uuid.value;
    if |p| > 16 {
      return Failure(BufferOverflow);
    }
    var a := new byte[16](_ => 0);
    var i := 0;
    while i < |p|
      invariant 0 <= i <= |p|
      invariant forall k :: 0 <= k < i ==> a[k] == p[k]
      invariant forall k :: i <= k < 16 ==> a[k] == 0
    {
      a[i] := p[i];
      i := i + 1;
    }
    assert a[..] == Padded(p);
    assert a[0..8] == Padded(p)[..8] && a[8..16] == Padded(p)[8..];
    var msb := GetLong(a, 0);
    var lsb := GetLong(a, 8);
    r := Success(Uuid(msb, lsb));
  }
}
