/**
 The byte format both ends speak (docs/wire-format.md): which packets are well
 formed, how one is written, and how a datagram is read. Encoding and decoding
 are shown to undo each other; WireGo.dfy and WireTs.dfy have the two implementations.

 An asset_id is bytes that must be UTF-8 (section 4 of RFC 3629).
 */
module Wire {
  import opened Intervals
  import opened Packets

  // ---- Big-endian numbers ----

  function Pow256(k: nat): nat { if k == 0 then 1 else 256 * Pow256(k - 1) }

  /** n in k bytes, most significant first. */
  function BE(n: nat, k: nat): (b: seq<Byte>)
    ensures |b| == k
  {
    if k == 0 then [] else BE(n / 256, k - 1) + [n % 256]
  }

  function Num(b: seq<Byte>): nat {
    if b == [] then 0 else 256 * Num(b[..|b| - 1]) + b[|b| - 1]
  }

  lemma {:induction false} NumBE(n: nat, k: nat)
    requires n < Pow256(k)
    ensures Num(BE(n, k)) == n
  {
    if k > 0 {
      assert BE(n, k)[..k - 1] == BE(n / 256, k - 1);
      NumBE(n / 256, k - 1);
    }
  }

  lemma {:induction false} BENum(b: seq<Byte>)
    ensures Num(b) < Pow256(|b|) && BE(Num(b), |b|) == b
  {
    if b != [] {
      var front := b[..|b| - 1];
      BENum(front);
      assert Num(b) / 256 == Num(front) && Num(b) % 256 == b[|b| - 1];
      assert b == front + [b[|b| - 1]];
    }
  }

  lemma Widths()
    ensures Pow256(1) == U8_MAX + 1 && Pow256(2) == U16_MAX + 1 && Pow256(4) == U32_MAX + 1 && Pow256(8) == U64_MAX + 1
  {
    assert Pow256(2) == 256 * Pow256(1) && Pow256(3) == 256 * Pow256(2) && Pow256(4) == 256 * Pow256(3);
    assert Pow256(5) == 256 * Pow256(4) && Pow256(6) == 256 * Pow256(5) && Pow256(7) == 256 * Pow256(6) && Pow256(8) == 256 * Pow256(7);
  }

  // ---- UTF-8 ----

  predicate Tail(b: seq<Byte>, i: nat) { i < |b| && 0x80 <= b[i] <= 0xbf }

  predicate In(b: seq<Byte>, i: nat, lo: int, hi: int) { i < |b| && lo <= b[i] <= hi }

  /** The length of the UTF-8 character b starts with, or 0. */
  function CharLen(b: seq<Byte>): (n: nat)
    ensures n <= |b| && (b == [] ==> n == 0)
  {
    if In(b, 0, 0x00, 0x7f) then 1
    else if In(b, 0, 0xc2, 0xdf) && Tail(b, 1) then 2
    else if (In(b, 0, 0xe0, 0xe0) && In(b, 1, 0xa0, 0xbf) && Tail(b, 2))
         || (In(b, 0, 0xe1, 0xec) && Tail(b, 1) && Tail(b, 2))
         || (In(b, 0, 0xed, 0xed) && In(b, 1, 0x80, 0x9f) && Tail(b, 2))
         || (In(b, 0, 0xee, 0xef) && Tail(b, 1) && Tail(b, 2)) then 3
    else if (In(b, 0, 0xf0, 0xf0) && In(b, 1, 0x90, 0xbf) && Tail(b, 2) && Tail(b, 3))
         || (In(b, 0, 0xf1, 0xf3) && Tail(b, 1) && Tail(b, 2) && Tail(b, 3))
         || (In(b, 0, 0xf4, 0xf4) && In(b, 1, 0x80, 0x8f) && Tail(b, 2) && Tail(b, 3)) then 4
    else 0
  }

  predicate Utf8(b: seq<Byte>) { b == [] || (CharLen(b) > 0 && Utf8(b[CharLen(b)..])) }

  // ---- Well-formed packets ----

  const REQ_FIXED_LEN := HEADER_LEN + 6
  const GRANT_LEN := HEADER_LEN + 5
  const RESEND_LEN := HEADER_LEN + 8
  const ERROR_LEN := HEADER_LEN + 1
  const META_FIXED_LEN := HEADER_LEN + 1
  const HELLO_LEN := HEADER_LEN + 4

  function Ascii(s: string): seq<Byte> { seq(|s|, i requires 0 <= i < |s| => s[i] as int % 256) }

  function MetaNames(): seq<seq<Byte>> {
    [Ascii("content-type"), Ascii("etag"), Ascii("last-modified"), Ascii("cache-control")]
  }

  predicate Printable(v: seq<Byte>) { forall i :: 0 <= i < |v| ==> 0x20 <= v[i] <= 0x7e }

  /** Non-empty printable ASCII with no space at either end. */
  predicate ValidValue(v: seq<Byte>) {
    0 < |v| <= U16_MAX && v[0] != 0x20 && v[|v| - 1] != 0x20 && Printable(v)
  }

  predicate FieldsOk(fields: seq<Field>) {
    && |fields| <= |MetaNames()|
    && (forall i :: 0 <= i < |fields| ==> fields[i].name in MetaNames() && ValidValue(fields[i].value))
    && (forall i, j :: 0 <= i < j < |fields| ==> fields[i].name != fields[j].name)
  }

  /** Every number fits the width the wire gives it. */
  predicate Typed(p: Packet) {
    p.rpc <= U64_MAX
    && match p
       case Req(_, grant, _) => grant <= U32_MAX
       case Data(_, size, offset, _) => size <= U32_MAX && offset <= U32_MAX
       case Grant(_, upto, priority) => upto <= U32_MAX && priority <= U8_MAX
       case Resend(_, start, end) => start <= U32_MAX && end <= U32_MAX
       case Error(_, code) => code <= U8_MAX
       case Meta(_, _) => true
       case Hello(_, caps) => caps <= U32_MAX
       case DataSeq(_, size, offset, num, _) => size <= U32_MAX && offset <= U32_MAX && num <= U32_MAX
       case ResendSeq(_, start, end) => start <= U32_MAX && end <= U32_MAX
  }

  /** The rules every datagram obeys beyond its widths. */
  predicate Sensible(p: Packet) {
    match p
    case Req(_, _, assetId) => 0 < |assetId| <= U16_MAX && Utf8(assetId)
    case Data(_, size, offset, payload) => offset + |payload| <= size
    case DataSeq(_, size, offset, _, payload) => offset + |payload| <= size
    case Resend(_, start, end) => start < end
    case ResendSeq(_, start, end) => start < end
    case Meta(_, fields) => FieldsOk(fields)
    case _ => true
  }

  predicate WellFormed(p: Packet) { Typed(p) && Sensible(p) }

  // ---- Writing ----

  function TypeByte(p: Packet): Byte {
    match p
    case Req(_, _, _) => 1 case Data(_, _, _, _) => 2 case Grant(_, _, _) => 3 case Resend(_, _, _) => 4
    case Error(_, _) => 5 case Meta(_, _) => 6 case Hello(_, _) => 7 case DataSeq(_, _, _, _, _) => 8 case ResendSeq(_, _, _) => 9
  }

  function EncodeField(f: Field): seq<Byte> { BE(|f.name|, 1) + f.name + (BE(|f.value|, 2) + f.value) }

  function EncodeFields(fields: seq<Field>): seq<Byte> {
    if fields == [] then [] else EncodeField(fields[0]) + EncodeFields(fields[1..])
  }

  function EncodeBody(p: Packet): seq<Byte> {
    match p
    case Req(_, grant, assetId) => BE(grant, 4) + (BE(|assetId|, 2) + assetId)
    case Data(_, size, offset, payload) => BE(size, 4) + (BE(offset, 4) + payload)
    case Grant(_, upto, priority) => BE(upto, 4) + BE(priority, 1)
    case Resend(_, start, end) => BE(start, 4) + BE(end, 4)
    case Error(_, code) => BE(code, 1)
    case Meta(_, fields) => BE(|fields|, 1) + EncodeFields(fields)
    case Hello(_, caps) => BE(caps, 4)
    case DataSeq(_, size, offset, num, payload) => BE(size, 4) + (BE(offset, 4) + (BE(num, 4) + payload))
    case ResendSeq(_, start, end) => BE(start, 4) + BE(end, 4)
  }

  function Encode(p: Packet): seq<Byte> { [TypeByte(p)] + (BE(p.rpc, 8) + EncodeBody(p)) }

  // ---- Reading ----

  function At(b: seq<Byte>, at: nat, k: nat): nat
    requires at + k <= |b|
  {
    Num(b[at..at + k])
  }

  function Accept(p: Packet): Option<Packet> { if Sensible(p) then Some(p) else None }

  function FieldLen(f: Field): nat { 3 + |f.name| + |f.value| }

  /** The length-prefixed field rest starts with. */
  function HeadField(rest: seq<Byte>): (f: Option<Field>)
    ensures f.Some? ==> FieldLen(f.value) <= |rest| && |f.value.name| <= U8_MAX
  {
    if |rest| < 1 then None
    else
      var n: nat := rest[0];
      if |rest| < 1 + n + 2 then None
      else
        var m := At(rest, 1 + n, 2);
        if |rest| < 3 + n + m then None else Some(Field(rest[1..1 + n], rest[3 + n..3 + n + m]))
  }

  /** `count` fields and nothing after them. */
  function DecodeFields(count: nat, rest: seq<Byte>): Option<seq<Field>> {
    if count == 0 then if rest == [] then Some([]) else None
    else
      var f := HeadField(rest);
      if f.None? then None else Then([f.value], DecodeFields(count - 1, rest[FieldLen(f.value)..]))
  }

  function Then(fields: seq<Field>, more: Option<seq<Field>>): Option<seq<Field>> {
    if more.None? then None else Some(fields + more.value)
  }

  lemma ThenNothing(more: Option<seq<Field>>)
    ensures Then([], more) == more
  {
    if more.Some? { assert [] + more.value == more.value; }
  }

  lemma ThenShift(fields: seq<Field>, f: Field, more: Option<seq<Field>>)
    ensures Then(fields, Then([f], more)) == Then(fields + [f], more)
  {
    if more.Some? { assert fields + ([f] + more.value) == fields + [f] + more.value; }
  }

  /** One turn of a META loop. */
  lemma FieldStep(fields: seq<Field>, count: nat, rest: seq<Byte>, f: Field)
    requires count > 0 && HeadField(rest) == Some(f)
    ensures Then(fields, DecodeFields(count, rest)) == Then(fields + [f], DecodeFields(count - 1, rest[FieldLen(f)..]))
  {
    ThenShift(fields, f, DecodeFields(count - 1, rest[FieldLen(f)..]));
  }

  function Decode(b: seq<Byte>): Option<Packet> {
    if |b| < HEADER_LEN then None
    else
      var id := At(b, 1, 8);
      match b[0]
      case 1 =>
        if |b| < REQ_FIXED_LEN || |b| != REQ_FIXED_LEN + At(b, 13, 2) then None else Accept(Req(id, At(b, 9, 4), b[15..]))
      case 2 => if |b| < DATA_HEADER_LEN then None else Accept(Data(id, At(b, 9, 4), At(b, 13, 4), b[17..]))
      case 3 => if |b| != GRANT_LEN then None else Accept(Grant(id, At(b, 9, 4), At(b, 13, 1)))
      case 4 => if |b| != RESEND_LEN then None else Accept(Resend(id, At(b, 9, 4), At(b, 13, 4)))
      case 5 => if |b| != ERROR_LEN then None else Accept(Error(id, At(b, 9, 1)))
      case 6 =>
        if |b| < META_FIXED_LEN then None
        else
          var fields := DecodeFields(b[9], b[10..]);
          if fields.None? then None else Accept(Meta(id, fields.value))
      case 7 => if |b| != HELLO_LEN then None else Accept(Hello(id, At(b, 9, 4)))
      case 8 =>
        if |b| < DATA_SEQ_HEADER_LEN then None else Accept(DataSeq(id, At(b, 9, 4), At(b, 13, 4), At(b, 17, 4), b[21..]))
      case 9 => if |b| != RESEND_LEN then None else Accept(ResendSeq(id, At(b, 9, 4), At(b, 13, 4)))
      case _ => None
  }

  // ---- The two undo each other ----

  /** Reading back a number written at the front of what follows. */
  lemma ReadBack(pre: seq<Byte>, n: nat, k: nat, rest: seq<Byte>)
    requires n < Pow256(k)
    ensures var b := pre + (BE(n, k) + rest);
      |b| == |pre| + k + |rest| && At(b, |pre|, k) == n && b[|pre| + k..] == rest
  {
    var b := pre + (BE(n, k) + rest);
    assert b[|pre|..|pre| + k] == BE(n, k);
    NumBE(n, k);
  }

  /** Writing what was read gives the bytes back. */
  lemma WriteBack(b: seq<Byte>, at: nat, k: nat)
    requires at + k <= |b|
    ensures At(b, at, k) < Pow256(k) && BE(At(b, at, k), k) == b[at..at + k]
    ensures b[at..] == BE(At(b, at, k), k) + b[at + k..]
  {
    BENum(b[at..at + k]);
    assert b[at..] == b[at..at + k] + b[at + k..];
  }

  lemma NamesFit()
    ensures forall n :: n in MetaNames() ==> 0 < |n| <= 13
  {
  }

  lemma {:induction false} FieldsBack(fields: seq<Field>)
    requires forall f :: f in fields ==> |f.name| <= U8_MAX && |f.value| <= U16_MAX
    ensures DecodeFields(|fields|, EncodeFields(fields)) == Some(fields)
  {
    if fields != [] {
      var f, more := fields[0], EncodeFields(fields[1..]);
      var n, m, rest := |f.name|, |f.value|, EncodeFields(fields);
      forall g | g in fields[1..] ensures g in fields {}
      FieldsBack(fields[1..]);
      Widths();
      FieldBack(f, more);
      assert fields == [f] + fields[1..];
    }
  }

  lemma NameBack(name: seq<Byte>, after: seq<Byte>)
    requires |name| <= U8_MAX
    ensures var b := BE(|name|, 1) + name + after;
      |b| == 1 + |name| + |after| && b[0] == |name| && b[1..1 + |name|] == name && b[1 + |name|..] == after
  {
    assert BE(|name|, 1) == BE(|name| / 256, 0) + [|name| % 256];
  }

  lemma FieldBack(f: Field, more: seq<Byte>)
    requires |f.name| <= U8_MAX && |f.value| <= U16_MAX
    ensures var n, m, rest := |f.name|, |f.value|, EncodeField(f) + more;
      && |rest| == 3 + n + m + |more| && rest[0] == n && At(rest, 1 + n, 2) == m
      && rest[1..1 + n] == f.name && rest[3 + n..3 + n + m] == f.value && rest[3 + n + m..] == more
  {
    Widths();
    var n, m, rest := |f.name|, |f.value|, EncodeField(f) + more;
    var tail := BE(m, 2) + (f.value + more);
    Shift(BE(n, 1) + f.name, BE(m, 2) + f.value, more);
    Shift(BE(m, 2), f.value, more);
    assert rest == BE(n, 1) + f.name + tail;
    NameBack(f.name, tail);
    ReadBack(BE(n, 1) + f.name, m, 2, f.value + more);
    TakeBack(rest, 3 + n, f.value, more);
  }

  lemma TakeBack(b: seq<Byte>, at: nat, x: seq<Byte>, y: seq<Byte>)
    requires at <= |b| && b[at..] == x + y
    ensures b[at..at + |x|] == x && b[at + |x|..] == y
  {
    assert b[at..at + |x|] == b[at..][..|x|];
    assert b[at + |x|..] == b[at..][|x|..];
  }

  lemma {:induction false} FieldsForth(count: nat, rest: seq<Byte>)
    requires DecodeFields(count, rest).Some?
    ensures |DecodeFields(count, rest).value| == count && EncodeFields(DecodeFields(count, rest).value) == rest
  {
    if count > 0 {
      var f := HeadField(rest).value;
      var after := rest[FieldLen(f)..];
      FieldsForth(count - 1, after);
      FieldForth(rest);
      var more := DecodeFields(count - 1, after).value;
      assert DecodeFields(count, rest) == Some([f] + more);
      assert ([f] + more)[1..] == more;
    }
  }

  lemma Pieces(b: seq<Byte>, i: nat, j: nat, k: nat, m: nat)
    requires i <= j <= k <= m <= |b|
    ensures b == b[..i] + b[i..j] + (b[j..k] + b[k..m]) + b[m..]
  {
  }

  lemma FieldForth(rest: seq<Byte>)
    requires HeadField(rest).Some?
    ensures var f := HeadField(rest).value; EncodeField(f) + rest[FieldLen(f)..] == rest
  {
    var n: nat := rest[0];
    var m := At(rest, 1 + n, 2);
    Widths();
    WriteBack(rest, 1 + n, 2);
    OneByte(rest, 0);
    assert rest[..1] == [rest[0]];
    Pieces(rest, 1, 1 + n, 3 + n, 3 + n + m);
  }

  lemma FieldsAreNarrow(fields: seq<Field>)
    requires FieldsOk(fields)
    ensures forall f :: f in fields ==> |f.name| <= U8_MAX && |f.value| <= U16_MAX
    ensures |fields| <= 4
  {
    NamesFit();
  }

  /** The header reads back, and what follows it is the body. */
  lemma HeaderBack(p: Packet)
    requires p.rpc <= U64_MAX
    ensures var b := Encode(p); |b| >= HEADER_LEN && b[0] == TypeByte(p) && At(b, 1, 8) == p.rpc && b[9..] == EncodeBody(p)
  {
    Widths();
    ReadBack([TypeByte(p)], p.rpc, 8, EncodeBody(p));
  }

  /** Reading on where b continues with a number. */
  lemma Next(b: seq<Byte>, at: nat, n: nat, k: nat, rest: seq<Byte>)
    requires at <= |b| && b[at..] == BE(n, k) + rest && n < Pow256(k)
    ensures at + k <= |b| && |b| == at + k + |rest| && At(b, at, k) == n && b[at + k..] == rest
  {
    assert b == b[..at] + b[at..];
    ReadBack(b[..at], n, k, rest);
  }

  lemma NextLast(b: seq<Byte>, at: nat, n: nat, k: nat)
    requires at <= |b| && b[at..] == BE(n, k) && n < Pow256(k)
    ensures |b| == at + k && At(b, at, k) == n
  {
    assert BE(n, k) + [] == BE(n, k);
    Next(b, at, n, k, []);
  }

  /** Decoding what was encoded gives the packet back. */
  lemma DecodeEncode(p: Packet)
    requires WellFormed(p)
    ensures Decode(Encode(p)) == Some(p)
  {
    var b := Encode(p);
    Widths();
    HeaderBack(p);
    match p
    case Req(_, grant, assetId) =>
      Next(b, 9, grant, 4, BE(|assetId|, 2) + assetId);
      Next(b, 13, |assetId|, 2, assetId);
    case Data(_, size, offset, payload) =>
      Next(b, 9, size, 4, BE(offset, 4) + payload);
      Next(b, 13, offset, 4, payload);
    case Grant(_, upto, priority) =>
      Next(b, 9, upto, 4, BE(priority, 1));
      NextLast(b, 13, priority, 1);
    case Resend(_, start, end) =>
      Next(b, 9, start, 4, BE(end, 4));
      NextLast(b, 13, end, 4);
    case Error(_, code) => NextLast(b, 9, code, 1);
    case Meta(_, fields) =>
      FieldsAreNarrow(fields);
      FieldsBack(fields);
      Next(b, 9, |fields|, 1, EncodeFields(fields));
      OneByte(b, 9);
    case Hello(_, caps) => NextLast(b, 9, caps, 4);
    case DataSeq(_, size, offset, num, payload) =>
      Next(b, 9, size, 4, BE(offset, 4) + (BE(num, 4) + payload));
      Next(b, 13, offset, 4, BE(num, 4) + payload);
      Next(b, 17, num, 4, payload);
    case ResendSeq(_, start, end) =>
      Next(b, 9, start, 4, BE(end, 4));
      NextLast(b, 13, end, 4);
  }

  lemma OneByte(b: seq<Byte>, at: nat)
    requires at < |b|
    ensures At(b, at, 1) == b[at] && BE(b[at], 1) == [b[at]]
  {
    var one := b[at..at + 1];
    assert one[..0] == [] && Num([]) == 0;
    assert BE(b[at], 1) == BE(b[at] / 256, 0) + [b[at] % 256];
  }

  lemma WriteLast(b: seq<Byte>, at: nat, k: nat)
    requires |b| == at + k
    ensures At(b, at, k) < Pow256(k) && b[at..] == BE(At(b, at, k), k)
  {
    WriteBack(b, at, k);
    assert b[at..at + k] == b[at..];
  }

  /** The body of a datagram that carries a payload encodes back. */
  lemma LongForth(b: seq<Byte>)
    requires Decode(b).Some? && (b[0] == 1 || b[0] == 2 || b[0] == 8)
    ensures Typed(Decode(b).value) && EncodeBody(Decode(b).value) == b[9..]
  {
    Widths();
    WriteBack(b, 1, 8);
    WriteBack(b, 9, 4);
    if b[0] == 1 {
      WriteBack(b, 13, 2);
    } else {
      WriteBack(b, 13, 4);
      if b[0] == 8 { WriteBack(b, 17, 4); }
    }
  }

  lemma MetaForth(b: seq<Byte>)
    requires Decode(b).Some? && b[0] == 6
    ensures Typed(Decode(b).value) && EncodeBody(Decode(b).value) == b[9..]
  {
    Widths();
    WriteBack(b, 1, 8);
    FieldsForth(b[9], b[10..]);
    OneByte(b, 9);
    WriteBack(b, 9, 1);
  }

  lemma ShortForth(b: seq<Byte>)
    requires Decode(b).Some? && b[0] != 1 && b[0] != 2 && b[0] != 8 && b[0] != 6
    ensures Typed(Decode(b).value) && EncodeBody(Decode(b).value) == b[9..]
  {
    Widths();
    WriteBack(b, 1, 8);
    match b[0]
    case 3 => WriteBack(b, 9, 4); WriteLast(b, 13, 1);
    case 4 => WriteBack(b, 9, 4); WriteLast(b, 13, 4);
    case 5 => WriteLast(b, 9, 1);
    case 7 => WriteLast(b, 9, 4);
    case 9 => WriteBack(b, 9, 4); WriteLast(b, 13, 4);
    case _ =>
  }

  lemma HeaderForth(b: seq<Byte>)
    requires Decode(b).Some?
    ensures var p := Decode(b).value; |b| >= HEADER_LEN && TypeByte(p) == b[0] && p.rpc == At(b, 1, 8) && Sensible(p)
  {
  }

  lemma Assemble(b: seq<Byte>, p: Packet)
    requires |b| >= HEADER_LEN && TypeByte(p) == b[0] && p.rpc == At(b, 1, 8) && EncodeBody(p) == b[9..]
    ensures Encode(p) == b
  {
    assert b == [b[0]] + b[1..];
    WriteBack(b, 1, 8);
  }

  /** Whatever decodes is well formed, and encodes to the same bytes. */
  lemma EncodeDecode(b: seq<Byte>)
    requires Decode(b).Some?
    ensures WellFormed(Decode(b).value) && Encode(Decode(b).value) == b
  {
    if b[0] == 1 || b[0] == 2 || b[0] == 8 { LongForth(b); } else if b[0] == 6 { MetaForth(b); } else { ShortForth(b); }
    HeaderForth(b);
    Assemble(b, Decode(b).value);
  }

  /** The codec is a bijection between accepted datagrams and well-formed packets. */
  lemma Bijection(b: seq<Byte>, p: Packet)
    ensures Decode(b) == Some(p) <==> WellFormed(p) && Encode(p) == b
  {
    if WellFormed(p) { DecodeEncode(p); }
    if Decode(b).Some? { EncodeDecode(b); }
  }
}
