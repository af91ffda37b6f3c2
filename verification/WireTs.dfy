/**
 client/src/wire.ts: decode, which walks the datagram with a cursor, and encode,
 which fills a buffer of the right size in place. Strings that hold bytes one
 for one (META text) are byte sequences, as is an asset_id.
 */
module WireTs {
  import opened Intervals
  import opened Packets
  import opened Wire

  method DecodeBytes(b: seq<Byte>) returns (r: Option<Packet>)
    ensures r == Decode(b)
  {
    if |b| < HEADER_LEN { return None; }
    var id := At(b, 1, 8);
    match b[0]
    case 1 =>
      if |b| < REQ_FIXED_LEN { return None; }
      var n := At(b, 13, 2);
      WriteBack(b, 13, 2);
      Widths();
      if n == 0 || |b| != REQ_FIXED_LEN + n || !Utf8(b[REQ_FIXED_LEN..]) { return None; }
      return Some(Req(id, At(b, 9, 4), b[REQ_FIXED_LEN..]));
    case 2 =>
      if |b| < DATA_HEADER_LEN { return None; }
      return Bounded(Data(id, At(b, 9, 4), At(b, 13, 4), b[DATA_HEADER_LEN..]));
    case 3 =>
      return if |b| != GRANT_LEN then None else Some(Grant(id, At(b, 9, 4), At(b, 13, 1)));
    case 4 =>
      return if |b| != RESEND_LEN then None else Ranged(Resend(id, At(b, 9, 4), At(b, 13, 4)));
    case 5 =>
      return if |b| != ERROR_LEN then None else Some(Error(id, At(b, 9, 1)));
    case 6 =>
      if |b| < META_FIXED_LEN { return None; }
      var fields := Fields(b);
      if fields.None? { return None; }
      var ok := CheckMeta(fields.value);
      return if ok then Some(Meta(id, fields.value)) else None;
    case 7 =>
      return if |b| != HELLO_LEN then None else Some(Hello(id, At(b, 9, 4)));
    case 8 =>
      if |b| < DATA_SEQ_HEADER_LEN { return None; }
      return Bounded(DataSeq(id, At(b, 9, 4), At(b, 13, 4), At(b, 17, 4), b[DATA_SEQ_HEADER_LEN..]));
    case 9 =>
      return if |b| != RESEND_LEN then None else Ranged(ResendSeq(id, At(b, 9, 4), At(b, 13, 4)));
    case _ => return None;
  }

  function Bounded(p: Packet): Option<Packet>
    requires p.Data? || p.DataSeq?
  {
    if p.offset + |p.payload| > p.totalSize then None else Some(p)
  }

  function Ranged(p: Packet): Option<Packet>
    requires p.Resend? || p.ResendSeq?
  {
    if p.start >= p.end then None else Some(p)
  }

  /** The META loop: the cursor moves past one field each turn and must end at the end. */
  method Fields(b: seq<Byte>) returns (r: Option<seq<Field>>)
    requires |b| >= META_FIXED_LEN
    ensures r == DecodeFields(b[9], b[10..])
  {
    var count: nat := b[9];
    var fields, at := [], META_FIXED_LEN;
    ThenNothing(DecodeFields(count, b[10..]));
    ghost var rest, all := b[at..], DecodeFields(count, b[10..]);
    for i := 0 to count
      invariant 0 <= at <= |b| && rest == b[at..]
      invariant all == Then(fields, DecodeFields(count - i, rest))
    {
      var f := FieldAt(b, at);
      if f.None? { return None; }
      FieldStep(fields, count - i, rest, f.value);
      Slice(b, at, FieldLen(f.value));
      fields := fields + [f.value];
      rest := rest[FieldLen(f.value)..];
      at := at + FieldLen(f.value);
    }
    if at != |b| { return None; }
    assert fields + [] == fields;
    return Some(fields);
  }

  lemma Slice(b: seq<Byte>, at: nat, n: nat)
    requires at + n <= |b|
    ensures b[at..][n..] == b[at + n..]
  {
  }

  method FieldAt(b: seq<Byte>, at: nat) returns (f: Option<Field>)
    requires at <= |b|
    ensures f == HeadField(b[at..])
  {
    ghost var rest := b[at..];
    if at + 1 > |b| { return None; }
    var n: nat := b[at];
    if at + 1 + n + 2 > |b| { return None; }
    var name, m := b[at + 1..at + 1 + n], At(b, at + 1 + n, 2);
    assert rest[1..1 + n] == name;
    assert rest[1 + n..3 + n] == b[at + 1 + n..at + 3 + n];
    if at + 3 + n + m > |b| { return None; }
    assert rest[3 + n..3 + n + m] == b[at + 3 + n..at + 3 + n + m];
    return Some(Field(name, b[at + 3 + n..at + 3 + n + m]));
  }

  method CheckMeta(fields: seq<Field>) returns (ok: bool)
    ensures ok <==> FieldsOk(fields)
  {
    if |fields| > |MetaNames()| { return false; }
    var seen := {};
    for i := 0 to |fields|
      invariant seen == set k | 0 <= k < i :: fields[k].name
      invariant forall k :: 0 <= k < i ==> fields[k].name in MetaNames() && ValidValue(fields[k].value)
      invariant forall j, k :: 0 <= j < k < i ==> fields[j].name != fields[k].name
    {
      var f := fields[i];
      if f.name !in MetaNames() { return false; }
      if f.name in seen { return false; }
      seen := seen + {f.name};
      PatternIsValid(f.value);
      if !(0 < |f.value| <= U16_MAX && Pattern(f.value)) { return false; }
    }
    return true;
  }

  predicate Visible(c: Byte) { 0x21 <= c <= 0x7e }

  /** The regular expression: a visible character, then optionally printable ones and a visible one. */
  predicate Pattern(v: seq<Byte>) {
    |v| > 0 && Visible(v[0]) && (|v| == 1 || (Printable(v[1..|v| - 1]) && Visible(v[|v| - 1])))
  }

  /** The regular expression accepts what the server's loop accepts. */
  lemma PatternIsValid(v: seq<Byte>)
    ensures 0 < |v| <= U16_MAX && Pattern(v) <==> ValidValue(v)
  {
    if 0 < |v| <= U16_MAX && Pattern(v) {
      forall i | 0 <= i < |v| ensures 0x20 <= v[i] <= 0x7e {
        if 0 < i < |v| - 1 { assert v[1..|v| - 1][i - 1] == v[i]; }
      }
    }
  }

  /** Fills a fresh buffer with p, or refuses it. */
  method EncodePacket(p: Packet) returns (r: Option<array<Byte>>)
    ensures r.Some? <==> WellFormed(p)
    ensures r.Some? ==> fresh(r.value) && r.value[..] == Encode(p)
  {
    if !Typed(p) { return None; }
    var ok := Acceptable(p);
    if !ok { return None; }
    var b := new Byte[SizeOf(p)];
    SizeIsRight(p);
    b[0] := TypeByte(p);
    PutNum(b, 1, p.rpc, 8);
    assert b[..9] == [TypeByte(p)] + BE(p.rpc, 8);
    PutBody(b, p);
    Shift([TypeByte(p)], BE(p.rpc, 8), EncodeBody(p));
    return Some(b);
  }

  method PutBody(b: array<Byte>, p: Packet)
    requires b.Length == SizeOf(p)
    modifies b
    ensures b[..] == old(b[..9]) + EncodeBody(p)
  {
    ghost var head := b[..9];
    match p {
      case Req(_, grant, assetId) =>
        PutNum(b, 9, grant, 4);
        PutNum(b, 13, |assetId|, 2);
        PutBytes(b, REQ_FIXED_LEN, assetId);
        Assoc(head, BE(grant, 4), BE(|assetId|, 2), assetId);
      case Data(_, size, offset, payload) =>
        PutNum(b, 9, size, 4);
        PutNum(b, 13, offset, 4);
        PutBytes(b, DATA_HEADER_LEN, payload);
        Assoc(head, BE(size, 4), BE(offset, 4), payload);
      case Grant(_, upto, priority) =>
        PutNum(b, 9, upto, 4);
        PutNum(b, 13, priority, 1);
        Shift(head, BE(upto, 4), BE(priority, 1));
      case Resend(_, start, end) =>
        PutNum(b, 9, start, 4);
        PutNum(b, 13, end, 4);
        Shift(head, BE(start, 4), BE(end, 4));
      case Error(_, code) => PutNum(b, 9, code, 1);
      case Meta(_, fields) =>
        PutNum(b, 9, |fields|, 1);
        PutFields(b, META_FIXED_LEN, fields);
        Shift(head, BE(|fields|, 1), EncodeFields(fields));
      case Hello(_, caps) => PutNum(b, 9, caps, 4);
      case DataSeq(_, size, offset, num, payload) =>
        PutNum(b, 9, size, 4);
        PutNum(b, 13, offset, 4);
        PutNum(b, 17, num, 4);
        PutBytes(b, DATA_SEQ_HEADER_LEN, payload);
        Assoc(head + BE(size, 4), BE(offset, 4), BE(num, 4), payload);
        Shift(head, BE(size, 4), BE(offset, 4) + (BE(num, 4) + payload));
      case ResendSeq(_, start, end) =>
        PutNum(b, 9, start, 4);
        PutNum(b, 13, end, 4);
        Shift(head, BE(start, 4), BE(end, 4));
    }
    assert b[..b.Length] == b[..];
  }

  /** The checks on everything but the widths. */
  method Acceptable(p: Packet) returns (ok: bool)
    ensures ok <==> Sensible(p)
  {
    match p
    case Req(_, _, assetId) => return Utf8(assetId) && 0 < |assetId| <= U16_MAX;
    case Meta(_, fields) => ok := CheckMeta(fields);
    case Data(_, _, _, _) => return Bounded(p).Some?;
    case DataSeq(_, _, _, _, _) => return Bounded(p).Some?;
    case Resend(_, _, _) => return Ranged(p).Some?;
    case ResendSeq(_, _, _) => return Ranged(p).Some?;
    case _ => return true;
  }

  function FieldsSize(fields: seq<Field>): nat {
    if fields == [] then 0 else 3 + |fields[0].name| + |fields[0].value| + FieldsSize(fields[1..])
  }

  function SizeOf(p: Packet): nat {
    match p
    case Req(_, _, assetId) => REQ_FIXED_LEN + |assetId|
    case Data(_, _, _, payload) => DATA_HEADER_LEN + |payload|
    case Grant(_, _, _) => GRANT_LEN
    case Resend(_, _, _) => RESEND_LEN
    case Error(_, _) => ERROR_LEN
    case Meta(_, fields) => META_FIXED_LEN + FieldsSize(fields)
    case Hello(_, _) => HELLO_LEN
    case DataSeq(_, _, _, _, payload) => DATA_SEQ_HEADER_LEN + |payload|
    case ResendSeq(_, _, _) => RESEND_LEN
  }

  lemma {:induction false} FieldsSizeIsRight(fields: seq<Field>)
    ensures |EncodeFields(fields)| == FieldsSize(fields)
  {
    if fields != [] { FieldsSizeIsRight(fields[1..]); }
  }

  lemma SizeIsRight(p: Packet)
    ensures |Encode(p)| == SizeOf(p)
  {
    if p.Meta? { FieldsSizeIsRight(p.fields); }
  }

  /** Writes n in k bytes at `at`, most significant first, and nothing else. */
  method PutNum(b: array<Byte>, at: nat, n: nat, k: nat)
    requires at + k <= b.Length
    modifies b
    ensures b[..at + k] == old(b[..at]) + BE(n, k) && b[at + k..] == old(b[at + k..])
  {
    var i, left := k, n;
    while i > 0
      invariant 0 <= i <= k
      invariant b[..at] == old(b[..at]) && b[at + k..] == old(b[at + k..])
      invariant BE(left, i) + b[at + i..at + k] == BE(n, k)
    {
      i := i - 1;
      ghost var tail := b[at + i + 1..at + k];
      b[at + i] := left % 256;
      assert b[at + i..at + k] == [left % 256] + tail;
      left := left / 256;
    }
    assert b[..at + k] == b[..at] + b[at..at + k];
  }

  method PutBytes(b: array<Byte>, at: nat, s: seq<Byte>)
    requires at + |s| <= b.Length
    modifies b
    ensures b[..at + |s|] == old(b[..at]) + s && b[at + |s|..] == old(b[at + |s|..])
  {
    for i := 0 to |s|
      invariant b[..at + i] == old(b[..at]) + s[..i] && b[at + |s|..] == old(b[at + |s|..])
    {
      b[at + i] := s[i];
      assert b[..at + i + 1] == b[..at + i] + [s[i]];
    }
    assert s[..|s|] == s;
  }

  /** A length in k bytes, then the bytes. */
  method PutPrefixed(b: array<Byte>, at: nat, s: seq<Byte>, k: nat)
    requires at + k + |s| <= b.Length
    modifies b
    ensures b[..at + k + |s|] == old(b[..at]) + (BE(|s|, k) + s)
  {
    ghost var done := b[..at];
    PutNum(b, at, |s|, k);
    PutBytes(b, at + k, s);
    Shift(done, BE(|s|, k), s);
  }

  method PutField(b: array<Byte>, at: nat, f: Field)
    requires at + 3 + |f.name| + |f.value| <= b.Length
    modifies b
    ensures b[..at + 3 + |f.name| + |f.value|] == old(b[..at]) + EncodeField(f)
  {
    ghost var done := b[..at];
    PutPrefixed(b, at, f.name, 1);
    PutPrefixed(b, at + 1 + |f.name|, f.value, 2);
    Shift(done, BE(|f.name|, 1) + f.name, BE(|f.value|, 2) + f.value);
  }

  method PutFields(b: array<Byte>, start: nat, fields: seq<Field>)
    requires start + FieldsSize(fields) == b.Length
    modifies b
    ensures b[..] == old(b[..start]) + EncodeFields(fields)
  {
    var at := start;
    ghost var rest := fields;
    for i := 0 to |fields|
      invariant rest == fields[i..] && 0 <= at && at + FieldsSize(rest) == b.Length
      invariant b[..at] + EncodeFields(rest) == old(b[..start]) + EncodeFields(fields)
    {
      var f := fields[i];
      Shift(b[..at], EncodeField(f), EncodeFields(rest[1..]));
      PutField(b, at, f);
      at := at + 3 + |f.name| + |f.value|;
      rest := rest[1..];
    }
    assert b[..at] == b[..];
  }

  /** Both ends accept the same datagrams and read the same packet from each. */
  method RoundTrip(p: Packet) returns (q: Option<Packet>)
    ensures q == if WellFormed(p) then Some(p) else None
  {
    var b := EncodePacket(p);
    if b.None? { return None; }
    DecodeEncode(p);
    q := DecodeBytes(b.value[..]);
  }
}
