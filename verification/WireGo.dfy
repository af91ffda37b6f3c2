/**
 server/internal/wire/wire.go: Decode and Append. A Packet's Go types already
 hold its numbers to their widths; Append checks the rest.
 */
module WireGo {
  import opened Intervals
  import opened Packets
  import opened Wire

  method DecodeBytes(b: seq<Byte>) returns (r: Option<Packet>)
    ensures r == Decode(b)
  {
    if |b| < HEADER_LEN { return None; }
    var id := At(b, 1, 8);
    match b[0]
    case 1 =>
      if |b| < REQ_FIXED_LEN { return None; }
      var n := At(b, 13, 2);
      WriteBack(b, 13, 2);
      Widths();
      if n == 0 || |b| != REQ_FIXED_LEN + n { return None; }
      var assetId := b[15..];
      if !Utf8(assetId) { return None; }
      return Some(Req(id, At(b, 9, 4), assetId));
    case 2 =>
      if |b| < DATA_HEADER_LEN { return None; }
      var p := Data(id, At(b, 9, 4), At(b, 13, 4), b[17..]);
      if p.offset + |p.payload| > p.totalSize { return None; }
      return Some(p);
    case 3 =>
      if |b| != GRANT_LEN { return None; }
      OneByte(b, 13);
      return Some(Grant(id, At(b, 9, 4), b[13]));
    case 4 =>
      if |b| != RESEND_LEN { return None; }
      var p := Resend(id, At(b, 9, 4), At(b, 13, 4));
      return if p.start >= p.end then None else Some(p);
    case 5 =>
      if |b| != ERROR_LEN { return None; }
      OneByte(b, 9);
      return Some(Error(id, b[9]));
    case 6 =>
      if |b| < META_FIXED_LEN { return None; }
      var fields := Fields(b[9], b[META_FIXED_LEN..]);
      if fields.None? { return None; }
      var ok := Check(fields.value);
      return if ok then Some(Meta(id, fields.value)) else None;
    case 7 =>
      if |b| != HELLO_LEN { return None; }
      return Some(Hello(id, At(b, 9, 4)));
    case 8 =>
      if |b| < DATA_SEQ_HEADER_LEN { return None; }
      var p := DataSeq(id, At(b, 9, 4), At(b, 13, 4), At(b, 17, 4), b[21..]);
      if p.offset + |p.payload| > p.totalSize { return None; }
      return Some(p);
    case 9 =>
      if |b| != RESEND_LEN { return None; }
      var p := ResendSeq(id, At(b, 9, 4), At(b, 13, 4));
      return if p.start >= p.end then None else Some(p);
    case _ => return None;
  }

  /** The META loop: each turn takes one field off the front of the rest. */
  method Fields(count: nat, body: seq<Byte>) returns (r: Option<seq<Field>>)
    ensures r == DecodeFields(count, body)
  {
    var fields, rest := [], body;
    ThenNothing(DecodeFields(count, body));
    for i := 0 to count
      invariant DecodeFields(count, body) == Then(fields, DecodeFields(count - i, rest))
    {
      var f := FirstField(rest);
      if f.None? { return None; }
      FieldStep(fields, count - i, rest, f.value);
      fields := fields + [f.value];
      rest := rest[FieldLen(f.value)..];
    }
    if rest != [] { return None; }
    assert fields + [] == fields;
    return Some(fields);
  }

  method FirstField(body: seq<Byte>) returns (f: Option<Field>)
    ensures f == HeadField(body)
  {
    var rest := body;
    if |rest| < 1 { return None; }
    var n: nat := rest[0];
    if |rest| < 1 + n + 2 { return None; }
    var name, m := rest[1..1 + n], At(rest, 1 + n, 2);
    rest := rest[3 + n..];
    if |rest| < m { return None; }
    assert rest[..m] == body[3 + n..3 + n + m];
    return Some(Field(name, rest[..m]));
  }

  /** The per-field rules shared by decoding and encoding. */
  method Check(fields: seq<Field>) returns (ok: bool)
    ensures ok <==> FieldsOk(fields)
  {
    if |fields| > |MetaNames()| { return false; }
    for i := 0 to |fields|
      invariant forall k :: 0 <= k < i ==> fields[k].name in MetaNames() && ValidValue(fields[k].value)
      invariant forall j, k :: 0 <= j < k < i ==> fields[j].name != fields[k].name
    {
      var f := fields[i];
      if f.name !in MetaNames() { return false; }
      for j := 0 to i
        invariant forall k :: 0 <= k < j ==> fields[k].name != f.name
      {
        if fields[j].name == f.name { return false; }
      }
      var valid := ValidMetaValue(f.value);
      if !valid { return false; }
    }
    return true;
  }

  method ValidMetaValue(v: seq<Byte>) returns (ok: bool)
    ensures ok <==> ValidValue(v)
  {
    if |v| == 0 || |v| > U16_MAX || v[0] == 0x20 || v[|v| - 1] == 0x20 { return false; }
    for i := 0 to |v|
      invariant forall k :: 0 <= k < i ==> 0x20 <= v[k] <= 0x7e
    {
      if v[i] < 0x20 || v[i] > 0x7e { return false; }
    }
    return true;
  }

  /** Encodes p onto dst, refusing whatever decoding would. */
  method Append(dst: seq<Byte>, p: Packet) returns (r: Option<seq<Byte>>)
    requires Typed(p)
    ensures r == if WellFormed(p) then Some(dst + Encode(p)) else None
  {
    var out := dst + [TypeByte(p)] + BE(p.rpc, 8);
    ghost var head := out;
    match p {
      case Req(_, grant, assetId) =>
        if |assetId| == 0 || |assetId| > U16_MAX || !Utf8(assetId) { return None; }
        out := out + BE(grant, 4) + BE(|assetId|, 2) + assetId;
        Assoc(head, BE(grant, 4), BE(|assetId|, 2), assetId);
      case Data(_, size, offset, payload) =>
        if offset + |payload| > size { return None; }
        out := out + BE(size, 4) + BE(offset, 4) + payload;
        Assoc(head, BE(size, 4), BE(offset, 4), payload);
      case Grant(_, upto, priority) =>
        out := out + BE(upto, 4) + BE(priority, 1);
        Shift(head, BE(upto, 4), BE(priority, 1));
      case Resend(_, start, end) =>
        if start >= end { return None; }
        out := out + BE(start, 4) + BE(end, 4);
        Shift(head, BE(start, 4), BE(end, 4));
      case Error(_, code) =>
        out := out + BE(code, 1);
      case Meta(_, fields) =>
        var ok := Check(fields);
        if !ok { return None; }
        out := AppendFields(out + BE(|fields|, 1), fields);
        Shift(head, BE(|fields|, 1), EncodeFields(fields));
      case Hello(_, caps) =>
        out := out + BE(caps, 4);
      case DataSeq(_, size, offset, num, payload) =>
        if offset + |payload| > size { return None; }
        out := out + BE(size, 4) + BE(offset, 4) + BE(num, 4) + payload;
        Assoc(head + BE(size, 4), BE(offset, 4), BE(num, 4), payload);
        Shift(head, BE(size, 4), BE(offset, 4) + (BE(num, 4) + payload));
      case ResendSeq(_, start, end) =>
        if start >= end { return None; }
        out := out + BE(start, 4) + BE(end, 4);
        Shift(head, BE(start, 4), BE(end, 4));
    }
    assert out == head + EncodeBody(p);
    Assoc(dst, [TypeByte(p)], BE(p.rpc, 8), EncodeBody(p));
    return Some(out);
  }

  lemma FieldJoins(out: seq<Byte>, f: Field)
    ensures out + BE(|f.name|, 1) + f.name + BE(|f.value|, 2) + f.value == out + EncodeField(f)
  {
    Assoc(out + BE(|f.name|, 1), f.name, BE(|f.value|, 2), f.value);
  }

  method AppendFields(dst: seq<Byte>, fields: seq<Field>) returns (out: seq<Byte>)
    ensures out == dst + EncodeFields(fields)
  {
    out := dst;
    ghost var rest := fields;
    for i := 0 to |fields|
      invariant rest == fields[i..] && out + EncodeFields(rest) == dst + EncodeFields(fields)
    {
      var f := fields[i];
      Shift(out, EncodeField(f), EncodeFields(rest[1..]));
      FieldJoins(out, f);
      out := out + BE(|f.name|, 1) + f.name + BE(|f.value|, 2) + f.value;
      rest := rest[1..];
    }
  }

  /** What Append writes, decoding reads back: the packet, or nothing if Append refused it. */
  method Marshal(p: Packet) returns (r: Option<seq<Byte>>)
    requires Typed(p)
    ensures r.Some? <==> exists b :: Decode(b) == Some(p)
    ensures r.Some? ==> Decode(r.value) == Some(p)
  {
    r := Append([], p);
    if r.Some? {
      assert [] + Encode(p) == Encode(p);
      DecodeEncode(p);
    } else {
      forall b ensures Decode(b) != Some(p) { Bijection(b, p); }
    }
  }
}
