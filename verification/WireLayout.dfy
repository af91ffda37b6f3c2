/**
 The format as its tables give it: which bytes of a datagram are which field, every
 integer with its most significant byte first. A datagram decodes to a packet exactly
 if it is laid out so and the packet is sensible.
 */
module WireLayouts {
  import opened Intervals
  import opened Packets
  import opened Wire

  /** The most significant byte comes first. */
  function BigEndian(b: seq<Byte>): nat {
    if b == [] then 0 else b[0] * Pow256(|b| - 1) + BigEndian(b[1..])
  }

  lemma {:induction false} NumIsBigEndian(b: seq<Byte>)
    ensures Num(b) == BigEndian(b)
    decreases |b|
  {
    if |b| > 1 {
      var front, last := b[..|b| - 1], b[|b| - 1];
      NumIsBigEndian(front);
      NumIsBigEndian(b[1..]);
      assert b[1..][..|b| - 2] == front[1..];
      NumIsBigEndian(front[1..]);
      Widen(b[0], Pow256(|b| - 2), BigEndian(front[1..]), last);
    } else if b != [] {
      assert b[..0] == [] && b[1..] == [];
    }
  }

  lemma Widen(first: nat, p: nat, rest: nat, last: nat)
    ensures 256 * (first * p + rest) + last == first * (256 * p) + (256 * rest + last)
  {
  }

  /** The k bytes from `at` on are this number. */
  predicate NumberAt(b: seq<Byte>, at: nat, k: nat, n: nat) { at + k <= |b| && BigEndian(b[at..at + k]) == n }

  lemma AtIsNumber(b: seq<Byte>, at: nat, k: nat)
    requires at + k <= |b|
    ensures forall n: nat :: NumberAt(b, at, k, n) <==> At(b, at, k) == n
  {
    NumIsBigEndian(b[at..at + k]);
  }

  /** One META field: name length, name, value length, value. */
  predicate HeadLaid(b: seq<Byte>, f: Field) {
    var n, m := |f.name|, |f.value|;
    && 3 + n + m <= |b| && b[0] == n && b[1..1 + n] == f.name
    && NumberAt(b, 1 + n, 2, m) && b[3 + n..3 + n + m] == f.value
  }

  /** META fields one after another, and nothing after them. */
  predicate FieldsLaid(b: seq<Byte>, fields: seq<Field>)
    decreases |fields|
  {
    if fields == [] then b == []
    else
      HeadLaid(b, fields[0]) && FieldsLaid(b[3 + |fields[0].name| + |fields[0].value|..], fields[1..])
  }

  lemma ThenIs(h: Field, more: Option<seq<Field>>, fields: seq<Field>)
    requires fields != []
    ensures Then([h], more) == Some(fields) <==> h == fields[0] && more == Some(fields[1..])
  {
    assert fields == [fields[0]] + fields[1..];
    if more.Some? { assert ([h] + more.value)[0] == h && ([h] + more.value)[1..] == more.value; }
  }

  lemma {:induction false} FieldsAreLaid(b: seq<Byte>, fields: seq<Field>)
    ensures DecodeFields(|fields|, b) == Some(fields) <==> FieldsLaid(b, fields)
    decreases |fields|
  {
    if fields != [] {
      var f, head := fields[0], HeadField(b);
      HeadIsLaid(b, f);
      if head.Some? { ThenIs(head.value, DecodeFields(|fields| - 1, b[FieldLen(head.value)..]), fields); }
      if head == Some(f) { FieldsAreLaid(b[FieldLen(f)..], fields[1..]); }
    }
  }

  lemma HeadIsLaid(b: seq<Byte>, f: Field)
    ensures HeadField(b) == Some(f) <==> HeadLaid(b, f)
  {
    if |b| >= 3 {
      var n: nat := b[0];
      if |b| >= 3 + n {
        AtIsNumber(b, 1 + n, 2);
        assert |b[1..1 + n]| == n;
      }
    }
  }

  /** What each type's table says, lengths included. */
  predicate Laid(b: seq<Byte>, p: Packet) {
    9 <= |b| && NumberAt(b, 1, 8, p.rpc)
    && match p
       case Req(_, grant, assetId) =>
         |b| >= 15 && b[0] == 0x01 && NumberAt(b, 9, 4, grant) && NumberAt(b, 13, 2, |assetId|) && b[15..] == assetId
       case Data(_, size, offset, payload) =>
         |b| >= 17 && b[0] == 0x02 && NumberAt(b, 9, 4, size) && NumberAt(b, 13, 4, offset) && b[17..] == payload
       case Grant(_, upto, priority) => |b| == 14 && b[0] == 0x03 && NumberAt(b, 9, 4, upto) && b[13] == priority
       case Resend(_, start, end) => |b| == 17 && b[0] == 0x04 && NumberAt(b, 9, 4, start) && NumberAt(b, 13, 4, end)
       case Error(_, code) => |b| == 10 && b[0] == 0x05 && b[9] == code
       case Meta(_, fields) => |b| >= 10 && b[0] == 0x06 && b[9] == |fields| && FieldsLaid(b[10..], fields)
       case Hello(_, caps) => |b| == 13 && b[0] == 0x07 && NumberAt(b, 9, 4, caps)
       case DataSeq(_, size, offset, num, payload) =>
         |b| >= 21 && b[0] == 0x08 && NumberAt(b, 9, 4, size) && NumberAt(b, 13, 4, offset) && NumberAt(b, 17, 4, num) && b[21..] == payload
       case ResendSeq(_, start, end) => |b| == 17 && b[0] == 0x09 && NumberAt(b, 9, 4, start) && NumberAt(b, 13, 4, end)
  }

  lemma OneByte(b: seq<Byte>, at: nat)
    requires at < |b|
    ensures At(b, at, 1) == b[at]
  {
    var one := b[at..at + 1];
    assert one == [b[at]] && one[..0] == [];
    assert Num(one) == 256 * Num(one[..0]) + one[0];
  }

  lemma NumbersAt(b: seq<Byte>)
    ensures |b| >= 9 ==> forall n: nat :: NumberAt(b, 1, 8, n) <==> At(b, 1, 8) == n
    ensures |b| >= 13 ==> forall n: nat :: NumberAt(b, 9, 4, n) <==> At(b, 9, 4) == n
    ensures |b| >= 15 ==> forall n: nat :: NumberAt(b, 13, 2, n) <==> At(b, 13, 2) == n
    ensures |b| >= 17 ==> forall n: nat :: NumberAt(b, 13, 4, n) <==> At(b, 13, 4) == n
    ensures |b| >= 21 ==> forall n: nat :: NumberAt(b, 17, 4, n) <==> At(b, 17, 4) == n
    ensures |b| >= 10 ==> At(b, 9, 1) == b[9]
    ensures |b| >= 14 ==> At(b, 13, 1) == b[13]
  {
    if |b| >= 9 { AtIsNumber(b, 1, 8); }
    if |b| >= 13 { AtIsNumber(b, 9, 4); }
    if |b| >= 15 { AtIsNumber(b, 13, 2); }
    if |b| >= 17 { AtIsNumber(b, 13, 4); }
    if |b| >= 21 { AtIsNumber(b, 17, 4); }
    if |b| >= 10 { OneByte(b, 9); }
    if |b| >= 14 { OneByte(b, 13); }
  }

  /** Decoding is reading the tables. */
  lemma DecodesAsLaid(b: seq<Byte>, p: Packet)
    ensures Decode(b) == Some(p) <==> Sensible(p) && Laid(b, p)
  {
    NumbersAt(b);
    if p.Meta? && |b| >= 10 && b[9] == |p.fields| { FieldsAreLaid(b[10..], p.fields); }
    if |b| >= 10 && b[0] == 6 && DecodeFields(b[9], b[10..]).Some? { FieldsForth(b[9], b[10..]); }
  }

  // ---- The META rules ----

  function NamesOf(fields: seq<Field>): set<seq<Byte>> { set i | 0 <= i < |fields| :: fields[i].name }

  /** As many names as fields means that none is there twice. */
  lemma {:induction false} NamesOnce(fields: seq<Field>)
    ensures |NamesOf(fields)| <= |fields|
    ensures |NamesOf(fields)| == |fields| <==> forall i, j :: 0 <= i < j < |fields| ==> fields[i].name != fields[j].name
  {
    if fields != [] {
      var front, last := fields[..|fields| - 1], fields[|fields| - 1];
      NamesOnce(front);
      assert forall i :: 0 <= i < |front| ==> front[i] == fields[i];
      NamesAppend(fields);
      if last.name in NamesOf(front) {
        var i :| 0 <= i < |front| && front[i].name == last.name;
        assert fields[i].name == fields[|fields| - 1].name;
        assert NamesOf(front) + {last.name} == NamesOf(front);
      } else {
        assert forall i :: 0 <= i < |front| ==> fields[i].name != last.name by {
          forall i | 0 <= i < |front| ensures fields[i].name != last.name { assert front[i].name in NamesOf(front); }
        }
      }
    }
  }

  lemma NamesAppend(fields: seq<Field>)
    requires fields != []
    ensures NamesOf(fields) == NamesOf(fields[..|fields| - 1]) + {fields[|fields| - 1].name}
  {
    var front, last := fields[..|fields| - 1], fields[|fields| - 1];
    forall n | n in NamesOf(fields) ensures n in NamesOf(front) + {last.name} {
      var i :| 0 <= i < |fields| && fields[i].name == n;
      if i < |front| { assert front[i].name == n; }
    }
    forall n | n in NamesOf(front) ensures n in NamesOf(fields) {
      var i :| 0 <= i < |front| && front[i].name == n;
      assert fields[i].name == n;
    }
    assert fields[|front|].name in NamesOf(fields);
  }

  lemma {:induction false} SubsetIsSmaller<T>(a: set<T>, b: set<T>)
    requires a <= b
    ensures |a| <= |b|
  {
    if a != {} {
      var x :| x in a;
      SubsetIsSmaller(a - {x}, b - {x});
    }
  }

  function KnownNames(): set<seq<Byte>> { {Ascii("content-type"), Ascii("etag"), Ascii("last-modified"), Ascii("cache-control")} }

  /** META is sensible exactly if its names are among the four known, none twice, and its values are printable with no space at either end; there are then at most four. */
  lemma MetaRules(fields: seq<Field>)
    ensures FieldsOk(fields) <==>
      && NamesOf(fields) <= KnownNames() && |NamesOf(fields)| == |fields|
      && forall i :: 0 <= i < |fields| ==>
        var v := fields[i].value;
        1 <= |v| <= 65535 && v[0] != 32 && v[|v| - 1] != 32 && forall k :: 0 <= k < |v| ==> 32 <= v[k] <= 126
  {
    NamesOnce(fields);
    forall n ensures n in MetaNames() <==> n in KnownNames() {}
    if NamesOf(fields) <= KnownNames() {
      SubsetIsSmaller(NamesOf(fields), KnownNames());
      forall i | 0 <= i < |fields| ensures fields[i].name in MetaNames() { assert fields[i].name in NamesOf(fields); }
    }
  }
}
