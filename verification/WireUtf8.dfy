/**
 The UTF-8 rule of the format against its definition: bytes pass exactly if they are
 the encoding of Unicode scalar values, each in its shortest form (section 3 of
 RFC 3629).
 */
module WireUtf8s {
  import opened Intervals
  import opened Wire

  /** A code point that is not a surrogate. */
  predicate Scalar(c: int) { 0 <= c <= 0x10ffff && !(0xd800 <= c <= 0xdfff) }

  function EncodeScalar(c: int): seq<Byte>
    requires Scalar(c)
  {
    if c < 0x80 then [c]
    else if c < 0x800 then [0xc0 + c / 64, 0x80 + c % 64]
    else if c < 0x10000 then [0xe0 + c / 4096, 0x80 + c / 64 % 64, 0x80 + c % 64]
    else [0xf0 + c / 262144, 0x80 + c / 4096 % 64, 0x80 + c / 64 % 64, 0x80 + c % 64]
  }

  predicate Scalars(cs: seq<int>) { forall i :: 0 <= i < |cs| ==> Scalar(cs[i]) }

  function EncodeScalars(cs: seq<int>): seq<Byte>
    requires Scalars(cs)
  {
    if cs == [] then [] else EncodeScalar(cs[0]) + EncodeScalars(cs[1..])
  }

  function ByteAt(b: seq<Byte>, i: nat): int
    requires i < |b|
  {
    b[i]
  }

  /** The first character read back. */
  function FirstScalar(b: seq<Byte>): int
    requires CharLen(b) > 0
  {
    var n := CharLen(b);
    if n == 1 then b[0]
    else if n == 2 then (ByteAt(b, 0) - 0xc0) * 64 + (ByteAt(b, 1) - 0x80)
    else if n == 3 then (ByteAt(b, 0) - 0xe0) * 4096 + (ByteAt(b, 1) - 0x80) * 64 + (ByteAt(b, 2) - 0x80)
    else (ByteAt(b, 0) - 0xf0) * 262144 + (ByteAt(b, 1) - 0x80) * 4096 + (ByteAt(b, 2) - 0x80) * 64 + (ByteAt(b, 3) - 0x80)
  }

  lemma ReadsTwo(b: seq<Byte>)
    requires CharLen(b) == 2
    ensures Scalar(FirstScalar(b)) && EncodeScalar(FirstScalar(b)) == b[..2]
  {
    TwoBack(ByteAt(b, 0) - 0xc0, ByteAt(b, 1) - 0x80);
  }

  lemma ReadsThree(b: seq<Byte>)
    requires CharLen(b) == 3
    ensures Scalar(FirstScalar(b)) && EncodeScalar(FirstScalar(b)) == b[..3]
  {
    ThreeBack(ByteAt(b, 0) - 0xe0, ByteAt(b, 1) - 0x80, ByteAt(b, 2) - 0x80);
  }

  lemma ReadsFour(b: seq<Byte>)
    requires CharLen(b) == 4
    ensures Scalar(FirstScalar(b)) && EncodeScalar(FirstScalar(b)) == b[..4]
  {
    FourBack(ByteAt(b, 0) - 0xf0, ByteAt(b, 1) - 0x80, ByteAt(b, 2) - 0x80, ByteAt(b, 3) - 0x80);
  }

  lemma LengthIsSmall(b: seq<Byte>)
    ensures CharLen(b) <= 4
  {
  }

  lemma ReadsBack(b: seq<Byte>)
    requires CharLen(b) > 0
    ensures Scalar(FirstScalar(b)) && EncodeScalar(FirstScalar(b)) == b[..CharLen(b)]
  {
    LengthIsSmall(b);
    if CharLen(b) == 2 { ReadsTwo(b); } else if CharLen(b) == 3 { ReadsThree(b); } else if CharLen(b) == 4 { ReadsFour(b); }
  }

  lemma TwoBack(x: int, y: int)
    requires 0 <= y < 64
    ensures (x * 64 + y) / 64 == x && (x * 64 + y) % 64 == y
  {
  }

  lemma ThreeBack(x: int, y: int, z: int)
    requires 0 <= y < 64 && 0 <= z < 64
    ensures var c := x * 4096 + y * 64 + z; c / 4096 == x && c / 64 % 64 == y && c % 64 == z
  {
    TwoBack(x * 64 + y, z);
    TwoBack(x, y);
    var c := x * 4096 + y * 64 + z;
    assert c == (x * 64 + y) * 64 + z;
    assert c / 4096 == x by { assert 0 <= y * 64 + z < 4096; }
  }

  lemma FourBack(w: int, x: int, y: int, z: int)
    requires 0 <= x < 64 && 0 <= y < 64 && 0 <= z < 64
    ensures var c := w * 262144 + x * 4096 + y * 64 + z; c / 262144 == w && c / 4096 % 64 == x && c / 64 % 64 == y && c % 64 == z
  {
    ThreeBack(w * 64 + x, y, z);
    TwoBack(w, x);
    var c := w * 262144 + x * 4096 + y * 64 + z;
    assert c == (w * 64 + x) * 4096 + y * 64 + z;
    assert c / 262144 == w by { assert 0 <= x * 4096 + y * 64 + z < 262144; }
  }

  lemma TwoIsTwo(c: int, b: seq<Byte>)
    requires 0x80 <= c < 0x800 && |b| >= 2 && b[..2] == EncodeScalar(c)
    ensures CharLen(b) == 2
  {
    assert b[0] == b[..2][0] && b[1] == b[..2][1];
  }

  lemma ThreeIsThree(c: int, b: seq<Byte>)
    requires 0x800 <= c < 0x10000 && Scalar(c) && |b| >= 3 && b[..3] == EncodeScalar(c)
    ensures CharLen(b) == 3
  {
    assert b[0] == b[..3][0] && b[1] == b[..3][1] && b[2] == b[..3][2];
  }

  lemma FourIsFour(c: int, b: seq<Byte>)
    requires 0x10000 <= c <= 0x10ffff && |b| >= 4 && b[..4] == EncodeScalar(c)
    ensures CharLen(b) == 4
  {
    assert b[0] == b[..4][0] && b[1] == b[..4][1] && b[2] == b[..4][2] && b[3] == b[..4][3];
  }

  /** A scalar's encoding is one character, whatever follows it. */
  lemma EncodesOne(c: int, rest: seq<Byte>)
    requires Scalar(c)
    ensures var b := EncodeScalar(c) + rest; CharLen(b) == |EncodeScalar(c)| && b[CharLen(b)..] == rest
  {
    var e := EncodeScalar(c);
    var b := e + rest;
    assert b[..|e|] == e && b[|e|..] == rest;
    if c < 0x80 {
      assert b[0] == e[0];
    } else if c < 0x800 {
      TwoIsTwo(c, b);
    } else if c < 0x10000 {
      ThreeIsThree(c, b);
    } else {
      FourIsFour(c, b);
    }
  }

  lemma {:induction false} EncodedPasses(cs: seq<int>)
    requires Scalars(cs)
    ensures Utf8(EncodeScalars(cs))
    decreases |cs|
  {
    if cs != [] {
      EncodedPasses(cs[1..]);
      EncodesOne(cs[0], EncodeScalars(cs[1..]));
    }
  }

  lemma {:induction false} PassedIsEncoded(b: seq<Byte>) returns (cs: seq<int>)
    requires Utf8(b)
    ensures Scalars(cs) && EncodeScalars(cs) == b
    decreases |b|
  {
    if b == [] {
      cs := [];
    } else {
      var n := CharLen(b);
      var more := PassedIsEncoded(b[n..]);
      ReadsBack(b);
      cs := [FirstScalar(b)] + more;
      assert cs[1..] == more;
      assert b == b[..n] + b[n..];
    }
  }

  /** The rule accepts exactly the encodings of scalar values. */
  lemma Utf8IsRight(b: seq<Byte>)
    ensures Utf8(b) <==> exists cs :: Scalars(cs) && EncodeScalars(cs) == b
  {
    if Utf8(b) { var cs := PassedIsEncoded(b); }
    if exists cs :: Scalars(cs) && EncodeScalars(cs) == b {
      var cs :| Scalars(cs) && EncodeScalars(cs) == b;
      EncodedPasses(cs);
    }
  }
}
