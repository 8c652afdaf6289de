/** The wire layout of every message: little-endian fields, length-prefixed texts and counted records. */
module Wire {
  import opened Slots

  type Byte = b: int | 0 <= b < 256

  /** One field of a message; `Text` carries the capacity of the buffer it is decoded into. */
  datatype Field = U8 | U16 | U32 | I8 | I16 | F32 | Flag | Raw(size: nat) | Text(capacity: nat)

  /** A number (a float is its 32-bit pattern), raw bytes, or the bytes of a text. */
  datatype Value = Word(n: int) | Blob(bytes: seq<Byte>) | Str(text: seq<Byte>)

  const MAX_TEXT_LENGTH: nat := 65535

  // ---- little-endian numbers ---------------------------------------------------------------------------

  function Pow256(n: nat): nat { if n == 0 then 1 else 256 * Pow256(n - 1) }

  function LittleEndian(v: nat, n: nat): (r: seq<Byte>)
    ensures |r| == n
  {
    if n == 0 then [] else [v % 256] + LittleEndian(v / 256, n - 1)
  }

  function Number(bs: seq<Byte>): nat {
    if bs == [] then 0 else bs[0] + 256 * Number(bs[1..])
  }

  lemma {:induction false} NumberRoundTrip(v: nat, n: nat)
    requires v < Pow256(n)
    ensures Number(LittleEndian(v, n)) == v
  {
    if n > 0 {
      NumberRoundTrip(v / 256, n - 1);
      assert LittleEndian(v, n)[1..] == LittleEndian(v / 256, n - 1);
    }
  }

  // ---- one field ------------------------------------------------------------------------------------------

  /** The number of bytes of a field of fixed width. */
  function Width(f: Field): nat
    requires !f.Text?
  {
    match f
    case U8 => 1 case I8 => 1 case Flag => 1
    case U16 => 2 case I16 => 2
    case U32 => 4 case F32 => 4
    case Raw(n) => n
  }

  predicate Signed(f: Field) { f.I8? || f.I16? }

  /** The value has the C type of the field. */
  predicate Typed(f: Field, v: Value) {
    match f
    case Raw(n) => v.Blob? && |v.bytes| == n
    case Text(_) => v.Str? && 0 !in v.text
    case _ =>
      v.Word? && (if Signed(f) then -(Pow256(Width(f)) / 2) <= v.n < Pow256(Width(f)) / 2
          else 0 <= v.n < Pow256(Width(f)))
  }

  /** What is left of a value after a round trip: a flag becomes 0 or 1. */
  function Normal(f: Field, v: Value): Value {
    if f.Flag? && v.Word? then Word(if v.n != 0 then 1 else 0) else v
  }

  /** The unsigned pattern of a number in `n` bytes. */
  function Pattern(v: int, n: nat): (r: nat) {
    if v < 0 then (if Pow256(n) + v < 0 then 0 else Pow256(n) + v) else v
  }

  function Unpattern(f: Field, p: nat): int
    requires !f.Text?
  {
    if Signed(f) && p >= Pow256(Width(f)) / 2 then p - Pow256(Width(f)) else p
  }

  predicate Encodable(f: Field, v: Value) { Typed(f, v) && (f.Text? ==> |v.text| <= MAX_TEXT_LENGTH) }

  function FieldBytes(f: Field, v: Value): seq<Byte>
    requires Encodable(f, v)
  {
    match f
    case Raw(_) => v.bytes
    case Text(_) => LittleEndian(|v.text|, 2) + v.text
    case Flag => [if v.n != 0 then 1 else 0]
    case _ => LittleEndian(Pattern(v.n, Width(f)), Width(f))
  }

  /** The value at the front of `bs` and the number of bytes it takes, if the reader accepts them. */
  function ParseField(f: Field, bs: seq<Byte>): (r: Option<(Value, nat)>)
    ensures r.Some? ==> r.value.1 <= |bs|
  {
    if f.Text? then
      if |bs| < 2 then None
      else
        var len := Number(bs[..2]);
        if len + 1 > f.capacity || |bs| < 2 + len then None else Some((Str(bs[2..2 + len]), 2 + len))
    else
      var n := Width(f);
      if |bs| < n then None
      else if f.Raw? then Some((Blob(bs[..n]), n))
      else if f.Flag? then Some((Word(if bs[0] != 0 then 1 else 0), n))
      else Some((Word(Unpattern(f, Number(bs[..n]))), n))
  }

  /** The value fits the buffer its field is decoded into. */
  predicate Fits(f: Field, v: Value) { Encodable(f, v) && (f.Text? ==> |v.text| + 1 <= f.capacity) }

  lemma FieldRoundTrip(f: Field, v: Value, rest: seq<Byte>)
    requires Fits(f, v)
    ensures ParseField(f, FieldBytes(f, v) + rest) == Some((Normal(f, v), |FieldBytes(f, v)|))
  {
    var bs := FieldBytes(f, v) + rest;
    if f.Text? {
      TextRoundTrip(v.text, rest);
    } else if !f.Raw? && !f.Flag? {
      var n := Width(f);
      assert bs[..n] == FieldBytes(f, v);
      assert Pow256(0) == 1 && Pow256(1) == 256 && Pow256(2) == 65536 && Pow256(3) == 16777216;
      NumberRoundTrip(Pattern(v.n, n), n);
    } else if f.Raw? {
      assert bs[..f.size] == v.bytes;
    }
  }

  lemma TextRoundTrip(text: seq<Byte>, rest: seq<Byte>)
    requires |text| <= MAX_TEXT_LENGTH
    ensures var bs := LittleEndian(|text|, 2) + text + rest;
            Number(bs[..2]) == |text| && bs[2..2 + |text|] == text
  {
    var bs := LittleEndian(|text|, 2) + text + rest;
    assert bs[..2] == LittleEndian(|text|, 2);
    assert Pow256(1) == 256 && Pow256(2) == 65536;
    NumberRoundTrip(|text|, 2);
  }

  /** How many bytes each field takes, and which numbers fit in it. */
  lemma FieldSizes(f: Field, v: Value)
    requires Encodable(f, v)
    ensures var n := |FieldBytes(f, v)|;
            match f
            case U8 => n == 1 && 0 <= v.n < 256
            case Flag => n == 1 && 0 <= v.n < 256
            case I8 => n == 1 && -128 <= v.n < 128
            case U16 => n == 2 && 0 <= v.n < 65536
            case I16 => n == 2 && -32768 <= v.n < 32768
            case U32 => n == 4 && 0 <= v.n < 0x1_0000_0000
            case F32 => n == 4 && 0 <= v.n < 0x1_0000_0000
            case Raw(size) => n == size
            case Text(_) => n == 2 + |v.text|
  {
    assert Pow256(0) == 1 && Pow256(1) == 256 && Pow256(2) == 65536 && Pow256(3) == 16777216;
  }

  /** A field cut short is refused. */
  lemma FieldPrefixRejected(f: Field, v: Value, n: nat)
    requires Fits(f, v) && n < |FieldBytes(f, v)|
    ensures ParseField(f, FieldBytes(f, v)[..n]).None?
  {
    if f.Text? && n >= 2 {
      TextRoundTrip(v.text, []);
      var bs := LittleEndian(|v.text|, 2) + v.text;
      assert bs + [] == bs && bs[..n][..2] == bs[..2];
    }
  }

  /** A text too long for its destination is refused. */
  lemma OverlongRejected(f: Field, v: Value, rest: seq<Byte>)
    requires Encodable(f, v) && !Fits(f, v)
    ensures ParseField(f, FieldBytes(f, v) + rest).None?
  {
    TextRoundTrip(v.text, rest);
    assert LittleEndian(|v.text|, 2) + v.text + rest == FieldBytes(f, v) + rest;
  }

  // ---- field lists ------------------------------------------------------------------------------------------

  predicate AllTyped(fields: seq<Field>, vs: seq<Value>) {
    |vs| == |fields| && forall i :: 0 <= i < |fields| ==> Typed(fields[i], vs[i])
  }

  predicate AllEncodable(fields: seq<Field>, vs: seq<Value>) {
    |vs| == |fields| && forall i :: 0 <= i < |fields| ==> Encodable(fields[i], vs[i])
  }

  predicate AllFit(fields: seq<Field>, vs: seq<Value>) {
    |vs| == |fields| && forall i :: 0 <= i < |fields| ==> Fits(fields[i], vs[i])
  }

  function Bytes(fields: seq<Field>, vs: seq<Value>): seq<Byte>
    requires AllEncodable(fields, vs)
  {
    if fields == [] then [] else FieldBytes(fields[0], vs[0]) + Bytes(fields[1..], vs[1..])
  }

  function NormalAll(fields: seq<Field>, vs: seq<Value>): (r: seq<Value>)
    requires |vs| == |fields|
    ensures |r| == |fields|
  {
    if fields == [] then [] else [Normal(fields[0], vs[0])] + NormalAll(fields[1..], vs[1..])
  }

  function Parse(fields: seq<Field>, bs: seq<Byte>): (r: Option<(seq<Value>, nat)>)
    ensures r.Some? ==> |r.value.0| == |fields| && r.value.1 <= |bs|
  {
    if fields == [] then Some(([], 0))
    else
      match ParseField(fields[0], bs)
      case None => None
      case Some((v, n)) =>
        match Parse(fields[1..], bs[n..])
        case None => None
        case Some((vs, m)) => Some(([v] + vs, n + m))
  }

  lemma {:induction false} ParseRoundTrip(fields: seq<Field>, vs: seq<Value>, rest: seq<Byte>)
    requires AllFit(fields, vs)
    ensures Parse(fields, Bytes(fields, vs) + rest) == Some((NormalAll(fields, vs), |Bytes(fields, vs)|))
  {
    hide FieldBytes, ParseField, Typed;
    if fields != [] {
      var head, tail := FieldBytes(fields[0], vs[0]), Bytes(fields[1..], vs[1..]);
      assert Bytes(fields, vs) + rest == head + (tail + rest);
      FieldRoundTrip(fields[0], vs[0], tail + rest);
      assert (head + (tail + rest))[|head|..] == tail + rest;
      ParseRoundTrip(fields[1..], vs[1..], rest);
    }
  }

  lemma {:induction false} ParsePrefixRejected(fields: seq<Field>, vs: seq<Value>, n: nat)
    requires AllFit(fields, vs) && n < |Bytes(fields, vs)|
    ensures Parse(fields, Bytes(fields, vs)[..n]).None?
  {
    hide FieldBytes, ParseField, Typed;
    var head, tail := FieldBytes(fields[0], vs[0]), Bytes(fields[1..], vs[1..]);
    var cut := Bytes(fields, vs)[..n];
    if n < |head| {
      assert cut == head[..n];
      FieldPrefixRejected(fields[0], vs[0], n);
    } else {
      assert cut == head + tail[..n - |head|] && cut[|head|..] == tail[..n - |head|];
      FieldRoundTrip(fields[0], vs[0], tail[..n - |head|]);
      ParsePrefixRejected(fields[1..], vs[1..], n - |head|);
    }
  }

  /** What was written is read if and only if every text fits its destination. */
  lemma {:induction false} ParseIffFits(fields: seq<Field>, vs: seq<Value>, rest: seq<Byte>)
    requires AllEncodable(fields, vs)
    ensures Parse(fields, Bytes(fields, vs) + rest).Some? <==> AllFit(fields, vs)
  {
    hide FieldBytes, ParseField, Typed;
    if fields != [] {
      var head, tail := FieldBytes(fields[0], vs[0]), Bytes(fields[1..], vs[1..]);
      assert Bytes(fields, vs) + rest == head + (tail + rest);
      assert AllFit(fields, vs) <==> Fits(fields[0], vs[0]) && AllFit(fields[1..], vs[1..]);
      if Fits(fields[0], vs[0]) {
        FieldRoundTrip(fields[0], vs[0], tail + rest);
        assert (head + (tail + rest))[|head|..] == tail + rest;
        ParseIffFits(fields[1..], vs[1..], rest);
      } else {
        OverlongRejected(fields[0], vs[0], tail + rest);
      }
    }
  }
}
