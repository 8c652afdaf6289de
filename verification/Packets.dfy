/** The bounded packet writer with sticky overflow, and framed packets with a back-patched length. */
module Packets {
  import opened Slots
  import opened Wire
  import opened Codec

  const MAX_PACKET: nat := 1400
  const LENGTH_AT: nat := 32  // behind the 28-byte packet header, the type and the flags

  // ---- sizes ---------------------------------------------------------------------------------------------

  lemma {:induction false} BytesAppend(a: seq<Field>, b: seq<Field>, vs: seq<Value>, ws: seq<Value>)
    requires AllEncodable(a, vs) && AllEncodable(b, ws)
    ensures AllEncodable(a + b, vs + ws) && Bytes(a + b, vs + ws) == Bytes(a, vs) + Bytes(b, ws)
  {
    hide FieldBytes, Encodable;
    if a == [] {
      assert a + b == b && vs + ws == ws;
    } else {
      BytesAppend(a[1..], b, vs[1..], ws);
      assert (a + b)[1..] == a[1..] + b && (vs + ws)[1..] == vs[1..] + ws;
    }
  }

  /** The width of a list of fixed-width fields. */
  function WidthOf(fields: seq<Field>): nat
    requires forall i :: 0 <= i < |fields| ==> !fields[i].Text?
  {
    if fields == [] then 0 else Width(fields[0]) + WidthOf(fields[1..])
  }

  lemma {:induction false} FixedSize(fields: seq<Field>, vs: seq<Value>)
    requires AllEncodable(fields, vs) && forall i :: 0 <= i < |fields| ==> !fields[i].Text?
    ensures |Bytes(fields, vs)| == WidthOf(fields)
  {
    if fields != [] { FixedSize(fields[1..], vs[1..]); }
  }

  lemma WidthAppend(a: Field, b: Field, rest: seq<Field>)
    requires !a.Text? && !b.Text? && forall i :: 0 <= i < |rest| ==> !rest[i].Text?
    ensures WidthOf([a, b] + rest) == Width(a) + Width(b) + WidthOf(rest)
  {
    var whole := [a, b] + rest;
    assert whole[1..] == [b] + rest && whole[1..][1..] == rest && whole[1..][0] == b;
    assert WidthOf(whole) == Width(a) + WidthOf(whole[1..]);
    assert WidthOf(whole[1..]) == Width(b) + WidthOf(rest);
  }

  lemma WidthOne(a: Field)
    requires !a.Text?
    ensures WidthOf([a]) == Width(a)
  {
    assert [a][1..] == [];
  }

  lemma HeaderWidths()
    ensures WidthOf(PACKET_HEADER) == 28 && WidthOf(MESSAGE_HEADER) == 6
  {
    hide WidthOf;
    WidthOne(U16);
    WidthAppend(U16, U16, [U16]);
    assert MESSAGE_HEADER == [U16, U16] + [U16];
    WidthOne(PAD);
    WidthAppend(U32, U8, [PAD]);
    WidthAppend(U32, U32, [U32, U8] + [PAD]);
    WidthAppend(U16, U32, [U32, U32] + ([U32, U8] + [PAD]));
    WidthAppend(U32, U16, [U16, U32] + ([U32, U32] + ([U32, U8] + [PAD])));
    assert PACKET_HEADER == [U32, U16] + ([U16, U32] + ([U32, U32] + ([U32, U8] + [PAD])));
  }

  // ---- the writer ----------------------------------------------------------------------------------------

  /** A bounded writer with sticky overflow. */
  class PacketWriter {
    const buffer: array<Byte>
    var offset: nat
    var overflowed: bool

    ghost predicate Valid()
      reads this
    {
      offset <= buffer.Length
    }

    ghost function Written(): seq<Byte>
      requires Valid()
      reads this, buffer
    {
      buffer[..offset]
    }

    constructor (buffer: array<Byte>)
      ensures Valid() && this.buffer == buffer && offset == 0 && !overflowed
    {
      this.buffer := buffer;
      offset, overflowed := 0, false;
    }

    /** `pw_write_bytes`: all of the bytes or none, and none ever after an overflow. */
    method WriteBytes(src: seq<Byte>) returns (ok: bool)
      requires Valid()
      modifies this, buffer
      ensures Valid()
      ensures ok <==> !old(overflowed) && old(offset) + |src| <= buffer.Length
      ensures ok ==> !overflowed && Written() == old(Written()) + src && buffer[offset..] == old(buffer[..])[offset..]
      ensures !ok ==> overflowed && offset == old(offset) && buffer[..] == old(buffer[..])
    {
      if overflowed || offset + |src| > buffer.Length {
        overflowed := true;
        return false;
      }
      var i := 0;
      while i < |src|
        invariant i <= |src| && offset == old(offset) && !overflowed
        invariant buffer[..offset + i] == old(buffer[..])[..offset] + src[..i]
        invariant buffer[offset + i..] == old(buffer[..])[offset + i..]
      {
        buffer[offset + i] := src[i];
        i := i + 1;
      }
      assert src[..i] == src;
      offset := offset + |src|;
      ok := true;
    }

    /** Whether the field can be written here: it has an encoding and there is room for it. */
    ghost predicate Room(f: Field, v: Value)
      reads this
    {
      !overflowed && Encodable(f, v) && offset + |FieldBytes(f, v)| <= buffer.Length
    }

    /** The typed writes; a text longer than its 16-bit length allows counts as overflow. */
    method WriteField(f: Field, v: Value) returns (ok: bool)
      requires Valid() && Typed(f, v)
      modifies this, buffer
      ensures Valid()
      ensures ok <==> old(Room(f, v))
      ensures ok ==> !overflowed && Written() == old(Written()) + FieldBytes(f, v)
      ensures !ok ==> overflowed && old(Written()) <= Written()
      ensures old(overflowed) ==> offset == old(offset) && buffer[..] == old(buffer[..])
    {
      if f.Text? {
        if |v.text| > MAX_TEXT_LENGTH {
          overflowed := true;
          return false;
        }
        ghost var start := buffer[..offset];
        ok := WriteBytes(LittleEndian(|v.text|, 2));
        if ok { ok := WriteBytes(v.text); }
        assert ok ==>
            Written() == start + LittleEndian(|v.text|, 2) + v.text == start + (LittleEndian(|v.text|, 2) + v.text);
      } else {
        ok := WriteBytes(FieldBytes(f, v));
      }
    }

    /** A chain of at least one write that stops at the first refusal. */
    method WriteFields(fields: seq<Field>, vs: seq<Value>) returns (ok: bool)
      requires Valid() && fields != [] && AllTyped(fields, vs)
      modifies this, buffer
      ensures Valid()
      ensures ok <==> !old(overflowed) && AllEncodable(fields, vs) && old(offset) + |Bytes(fields, vs)| <= buffer.Length
      ensures ok ==> !overflowed && Written() == old(Written()) + Bytes(fields, vs)
      ensures !ok ==> overflowed && old(Written()) <= Written()
      ensures old(overflowed) ==> offset == old(offset) && buffer[..] == old(buffer[..])
    {
      hide FieldBytes, Encodable, Bytes;
      ghost var start := Written();
      var i := 0;
      NoBytes();
      assert fields[..0] == [] && vs[..0] == [] && start + [] == start;
      while i < |fields|
        invariant i <= |fields| && Valid()
        invariant AllEncodable(fields[..i], vs[..i])
        invariant Written() == start + Bytes(fields[..i], vs[..i])
        invariant i > 0 ==> !overflowed && !old(overflowed)
        invariant i == 0 ==> overflowed == old(overflowed) && buffer[..] == old(buffer[..])
      {
        BytesSnoc(fields, vs, i);
        ghost var here := Written();
        ok := WriteField(fields[i], vs[i]);
        if !ok {
          if AllEncodable(fields, vs) { BytesPrefix(fields, vs, i + 1); }
          assert start <= here <= Written();
          return;
        }
        assert here + FieldBytes(fields[i], vs[i])
            == start + (Bytes(fields[..i], vs[..i]) + FieldBytes(fields[i], vs[i]));
        i := i + 1;
      }
      assert fields[..i] == fields && vs[..i] == vs;
      ok := true;
    }

    /** The encoders: header first, then record by record. They know neither the count nor the text limits of the
        decoder. */
    method EncodeBody(f: Format, m: Body) returns (ok: bool)
      requires Valid() && TypedBody(f, m) && f.header != [] && (m.records != [] ==> f.record != [])
      modifies this, buffer
      ensures Valid()
      ensures ok <==> !old(overflowed) && Writable(f, m) && old(offset) + |Encoding(f, m)| <= buffer.Length
      ensures ok ==> !overflowed && Written() == old(Written()) + Encoding(f, m)
      ensures !ok ==> overflowed && old(Written()) <= Written()
    {
      hide Typed, Bytes, Announced, AllEncodable;
      ghost var start := Written();
      ok := WriteFields(f.header, m.header);
      if !ok { return; }
      ghost var headed := Written();
      if m.records != [] { ok := WriteRecords(f.record, m.records); }
      assert m.records == [] ==> RecordBytes(f.record, m.records) == [];
      assert ok ==> start + Bytes(f.header, m.header) + RecordBytes(f.record, m.records) == start + Encoding(f, m);
      assert start <= headed <= Written();
    }

    /** Record by record, up to the first refusal. */
    method WriteRecords(record: seq<Field>, rs: seq<seq<Value>>) returns (ok: bool)
      requires Valid() && !overflowed && record != [] && forall i :: 0 <= i < |rs| ==> AllTyped(record, rs[i])
      modifies this, buffer
      ensures Valid()
      ensures ok <==> RecordsEncodable(record, rs) && old(offset) + |RecordBytes(record, rs)| <= buffer.Length
      ensures ok ==> !overflowed && Written() == old(Written()) + RecordBytes(record, rs)
      ensures !ok ==> overflowed && old(Written()) <= Written()
    {
      hide AllTyped, AllEncodable, Bytes, RecordBytes;
      ghost var start := Written();
      var i := 0;
      NoRecordBytes(record);
      assert rs[..0] == [] && start + [] == start;
      while i < |rs|
        invariant i <= |rs| && Valid() && !overflowed
        invariant RecordsEncodable(record, rs[..i])
        invariant Written() == start + RecordBytes(record, rs[..i])
      {
        ghost var here := Written();
        ok := WriteFields(record, rs[i]);
        if !ok {
          if RecordsEncodable(record, rs) {
            RecordSnoc(record, rs, i);
            RecordPrefix(record, rs, i + 1);
          }
          assert start <= here <= Written();
          return;
        }
        assert forall j :: 0 <= j < i ==> rs[..i][j] == rs[j];
        RecordSnoc(record, rs, i);
        assert here + Bytes(record, rs[i]) == start + (RecordBytes(record, rs[..i]) + Bytes(record, rs[i]));
        i := i + 1;
      }
      assert rs[..i] == rs;
      ok := true;
    }
  }

  lemma NoBytes()
    ensures Bytes([], []) == []
  {
  }

  lemma NoRecordBytes(record: seq<Field>)
    ensures RecordBytes(record, []) == []
  {
  }

  lemma {:induction false} RecordsAppend(record: seq<Field>, a: seq<seq<Value>>, b: seq<seq<Value>>)
    requires RecordsEncodable(record, a) && RecordsEncodable(record, b)
    ensures RecordsEncodable(record, a + b)
    ensures RecordBytes(record, a + b) == RecordBytes(record, a) + RecordBytes(record, b)
  {
    hide Bytes, AllEncodable;
    if a == [] {
      assert a + b == b;
    } else {
      RecordsAppend(record, a[1..], b);
      assert (a + b)[1..] == a[1..] + b;
    }
  }

  lemma RecordSnoc(record: seq<Field>, rs: seq<seq<Value>>, i: nat)
    requires i < |rs| && (forall j :: 0 <= j <= i ==> AllEncodable(record, rs[j]))
    ensures RecordsEncodable(record, rs[..i]) && RecordsEncodable(record, rs[..i + 1])
    ensures RecordBytes(record, rs[..i + 1]) == RecordBytes(record, rs[..i]) + Bytes(record, rs[i])
  {
    hide Bytes, AllEncodable;
    assert rs[..i + 1] == rs[..i] + [rs[i]];
    RecordsAppend(record, rs[..i], [rs[i]]);
    assert [rs[i]][1..] == [];
  }

  lemma RecordPrefix(record: seq<Field>, rs: seq<seq<Value>>, i: nat)
    requires RecordsEncodable(record, rs) && i <= |rs|
    ensures RecordsEncodable(record, rs[..i]) && |RecordBytes(record, rs[..i])| <= |RecordBytes(record, rs)|
  {
    hide Bytes, AllEncodable;
    RecordsAppend(record, rs[..i], rs[i..]);
    assert rs[..i] + rs[i..] == rs;
  }

  lemma BytesSnoc(fields: seq<Field>, vs: seq<Value>, i: nat)
    requires |vs| == |fields| && i < |fields| && AllEncodable(fields[..i], vs[..i])
    ensures Encodable(fields[i], vs[i]) <==> AllEncodable(fields[..i + 1], vs[..i + 1])
    ensures Encodable(fields[i], vs[i]) ==>
              Bytes(fields[..i + 1], vs[..i + 1]) == Bytes(fields[..i], vs[..i]) + FieldBytes(fields[i], vs[i])
  {
    hide FieldBytes, Encodable;
    assert fields[..i + 1] == fields[..i] + [fields[i]] && vs[..i + 1] == vs[..i] + [vs[i]];
    if Encodable(fields[i], vs[i]) {
      BytesAppend(fields[..i], [fields[i]], vs[..i], [vs[i]]);
      assert Bytes([fields[i]], [vs[i]]) == FieldBytes(fields[i], vs[i]) + Bytes([fields[i]][1..], [vs[i]][1..]);
    } else {
      assert fields[..i + 1][i] == fields[i];
    }
  }

  lemma BytesPrefix(fields: seq<Field>, vs: seq<Value>, i: nat)
    requires AllEncodable(fields, vs) && i <= |fields|
    ensures AllEncodable(fields[..i], vs[..i]) && |Bytes(fields[..i], vs[..i])| <= |Bytes(fields, vs)|
  {
    hide Bytes, Encodable;
    BytesAppend(fields[..i], fields[i..], vs[..i], vs[i..]);
    assert fields[..i] + fields[i..] == fields && vs[..i] + vs[i..] == vs;
  }

  // ---- framed packets ------------------------------------------------------------------------------------

  predicate Short(n: int) { 0 <= n < 65536 }

  function MessageHead(kind: nat, flags: nat, length: nat): seq<Value> { [Word(kind), Word(flags), Word(length)] }

  lemma MessageHeadFits(kind: nat, flags: nat, length: nat)
    requires Short(kind) && Short(flags) && Short(length)
    ensures AllFit(MESSAGE_HEADER, MessageHead(kind, flags, length))
    ensures Bytes(MESSAGE_HEADER, MessageHead(kind, flags, length))
            == LittleEndian(kind, 2) + LittleEndian(flags, 2) + LittleEndian(length, 2)
  {
    assert Pow256(1) == 256 && Pow256(2) == 65536;
    var vs := MessageHead(kind, flags, length);
    assert MESSAGE_HEADER[1..] == [U16, U16] && [U16, U16][1..] == [U16] && [U16][1..] == [];
    assert vs[1..] == [Word(flags), Word(length)] && vs[1..][1..] == [Word(length)];
    assert Bytes([U16], [Word(length)]) == LittleEndian(length, 2);
    assert Bytes([U16, U16], [Word(flags), Word(length)]) == LittleEndian(flags, 2) + LittleEndian(length, 2);
  }

  /** A packet with one message: packet header, message header with the payload length, payload. */
  function PacketBytes(ph: seq<Value>, kind: nat, flags: nat, f: Format, m: Body): seq<Byte>
    requires AllFit(PACKET_HEADER, ph) && Short(kind) && Short(flags) && Writable(f, m) && Short(|Encoding(f, m)|)
  {
    MessageHeadFits(kind, flags, |Encoding(f, m)|);
    Bytes(PACKET_HEADER, ph) + Bytes(MESSAGE_HEADER, MessageHead(kind, flags, |Encoding(f, m)|)) + Encoding(f, m)
  }

  /** What stands before the length of a framed packet. */
  function Front(ph: seq<Value>, kind: nat, flags: nat): (r: seq<Byte>)
    requires AllFit(PACKET_HEADER, ph)
  {
    Bytes(PACKET_HEADER, ph) + LittleEndian(kind, 2) + LittleEndian(flags, 2)
  }

  lemma FrontSize(ph: seq<Value>, kind: nat, flags: nat)
    requires AllFit(PACKET_HEADER, ph)
    ensures |Front(ph, kind, flags)| == LENGTH_AT && |Bytes(PACKET_HEADER, ph)| == 28
  {
    HeaderWidths();
    FixedSize(PACKET_HEADER, ph);
  }

  /** Both headers, the message's with length zero, and the payload. */
  method WriteFrame(w: PacketWriter, ph: seq<Value>, kind: nat, flags: nat, f: Format, m: Body) returns (ok: bool)
    requires w.Valid() && w.offset == 0 && !w.overflowed
    requires AllFit(PACKET_HEADER, ph) && Short(kind) && Short(flags) && TypedBody(f, m)
    requires f.header != [] && (m.records != [] ==> f.record != [])
    modifies w, w.buffer
    ensures w.Valid() && (ok <==> Writable(f, m) && LENGTH_AT + 2 + |Encoding(f, m)| <= w.buffer.Length)
    ensures ok ==> w.Written() == Front(ph, kind, flags) + LittleEndian(0, 2) + Encoding(f, m)
  {
    hide Bytes, Typed, Encoding, Writable, TypedBody, LittleEndian;
    FrontSize(ph, kind, flags);
    MessageHeadFits(kind, flags, 0);
    ok := w.WriteFields(PACKET_HEADER, ph);
    if !ok { return; }
    ok := w.WriteFields(MESSAGE_HEADER, MessageHead(kind, flags, 0));
    if !ok { return; }
    assert w.Written() == Front(ph, kind, flags) + LittleEndian(0, 2);
    ok := w.EncodeBody(f, m);
  }

  /** `tl_send_single`: the message header is written with length zero and patched once the payload length is known. */
  method FramePacket(ph: seq<Value>, kind: nat, flags: nat, f: Format, m: Body) returns (packet: Option<seq<Byte>>)
    requires AllFit(PACKET_HEADER, ph) && Short(kind) && Short(flags) && TypedBody(f, m)
    requires f.header != [] && (m.records != [] ==> f.record != [])
    ensures packet.Some? <==> Writable(f, m) && LENGTH_AT + 2 + |Encoding(f, m)| <= MAX_PACKET
    ensures packet.Some? ==> packet.value == PacketBytes(ph, kind, flags, f, m)
  {
    hide Bytes, Typed, Encoding, Writable, TypedBody, LittleEndian, Front;
    var buffer := new Byte[MAX_PACKET](_ => 0);
    var w := new PacketWriter(buffer);
    var ok := WriteFrame(w, ph, kind, flags, f, m);
    if !ok { return None; }
    FrontSize(ph, kind, flags);
    var length := w.offset - (LENGTH_AT + 2);
    buffer[LENGTH_AT], buffer[LENGTH_AT + 1] := length % 256, length / 256;
    TwoBytes(length);
    PatchedSequence(Front(ph, kind, flags), LittleEndian(0, 2), LittleEndian(length, 2), Encoding(f, m),
        buffer[..w.offset]);
    packet := Some(buffer[..w.offset]);
    PacketSplits(ph, kind, flags, f, m);
  }

  lemma PacketSplits(ph: seq<Value>, kind: nat, flags: nat, f: Format, m: Body)
    requires AllFit(PACKET_HEADER, ph) && Short(kind) && Short(flags) && Writable(f, m) && Short(|Encoding(f, m)|)
    ensures PacketBytes(ph, kind, flags, f, m)
              == Front(ph, kind, flags) + LittleEndian(|Encoding(f, m)|, 2) + Encoding(f, m)
  {
    hide Bytes, Typed, Encoding, Writable, TypedBody, LittleEndian;
    MessageHeadFits(kind, flags, |Encoding(f, m)|);
  }

  lemma TwoBytes(n: nat)
    requires Short(n)
    ensures LittleEndian(n, 2) == [n % 256, n / 256]
  {
    assert LittleEndian(n / 256 / 256, 0) == [];
    assert LittleEndian(n / 256, 1) == [n / 256];
  }

  /** A sequence that differs from `front + before + rest` only in having `after` where `before` stood. */
  lemma PatchedSequence(front: seq<Byte>, before: seq<Byte>, after: seq<Byte>, rest: seq<Byte>, s: seq<Byte>)
    requires |before| == |after| == 2 && |s| == |front| + 2 + |rest|
    requires forall i :: 0 <= i < |s| && i != |front| && i != |front| + 1 ==> s[i] == (front + before + rest)[i]
    requires s[|front|] == after[0] && s[|front| + 1] == after[1]
    ensures s == front + after + rest
  {
  }

  /** A framed packet reads back as its packet header, a message header whose length is the payload's, and the message;
      nothing is left over. */
  lemma FramedPacketDecodes(ph: seq<Value>, kind: nat, flags: nat, k: Kind, m: Body)
    requires AllFit(PACKET_HEADER, ph) && Short(kind) && Short(flags)
    requires Writable(EncoderOf(k), m) && WellFormed(DecoderOf(k), m) && Short(|Encoding(EncoderOf(k), m)|)
    ensures var f, length := DecoderOf(k), |Encoding(EncoderOf(k), m)|;
            var packet := PacketBytes(ph, kind, flags, EncoderOf(k), m);
            && |packet| == 34 + length
            && Parse(PACKET_HEADER, packet) == Some((ph, 28))
            && Parse(MESSAGE_HEADER, packet[28..]) == Some((MessageHead(kind, flags, length), 6))
            && Decode(f, packet[34..]) == Some((if k == BuildResult then NormalBody(f, m) else m, length))
  {
    hide EncoderOf, DecoderOf, Bytes, Parse, Decode, Encoding, Typed, Writable, WellFormed, NormalAll, NormalRecords;
    var payload := Encoding(EncoderOf(k), m);
    var length := |payload|;
    var head := Bytes(PACKET_HEADER, ph);
    MessageHeadFits(kind, flags, length);
    var mid := Bytes(MESSAGE_HEADER, MessageHead(kind, flags, length));
    var packet := PacketBytes(ph, kind, flags, EncoderOf(k), m);
    assert |head| == 28 && |mid| == 6 by {
      HeaderWidths();
      FixedSize(PACKET_HEADER, ph);
      FixedSize(MESSAGE_HEADER, MessageHead(kind, flags, length));
    }
    assert packet == head + (mid + payload);
    ParseRoundTrip(PACKET_HEADER, ph, mid + payload);
    NormalIsIdentity(PACKET_HEADER, ph);
    assert packet[28..] == mid + payload;
    ParseRoundTrip(MESSAGE_HEADER, MessageHead(kind, flags, length), payload);
    NormalIsIdentity(MESSAGE_HEADER, MessageHead(kind, flags, length));
    assert packet[34..] == payload + [];
    CodecLaw(k, m, [], 0);
  }

  // ---- the loop's messages always fit ----------------------------------------------------------------------

  predicate Small(fields: seq<Field>) {
    forall i :: 0 <= i < |fields| ==> !fields[i].Text? && Width(fields[i]) <= 4
  }

  lemma {:induction false} SmallBytes(fields: seq<Field>, vs: seq<Value>)
    requires AllEncodable(fields, vs) && Small(fields)
    ensures |Bytes(fields, vs)| <= 4 * |fields|
  {
    if fields != [] { SmallBytes(fields[1..], vs[1..]); }
  }

  lemma {:induction false} SmallRecords(record: seq<Field>, rs: seq<seq<Value>>)
    requires RecordsEncodable(record, rs) && Small(record) && |record| <= 4
    ensures |RecordBytes(record, rs)| <= 16 * |rs|
  {
    hide Bytes, Typed;
    if rs != [] {
      SmallBytes(record, rs[0]);
      SmallRecords(record, rs[1..]);
    }
  }

  /** The kinds the server loop sends. */
  predicate SentByLoop(k: Kind) {
    k in {Welcome, Pong, ProfileSnapshot, ProfileItems, ProfilePerks, ProfileAppearance, PlayerState, PlayerLeft,
          ActorSpawn, ActorState, ActorDespawn, DamageResult, DeathEvent, BuildResult, ObjectSpawn, ObjectUpdate,
              ObjectDespawn}
  }

  /** No message of the server loop is ever too long for a packet: only a full queue can drop one. */
  lemma LoopMessagesFit(k: Kind, m: Body)
    requires SentByLoop(k) && WellFormed(DecoderOf(k), m)
    ensures Writable(EncoderOf(k), m) && 34 + |Encoding(EncoderOf(k), m)| <= MAX_PACKET
  {
    hide Bytes, Typed, RecordBytes, EncoderOf, DecoderOf, SameLayout, Announced;
    var f := DecoderOf(k);
    WellFormedIsWritable(f, m);
    CodecsMatch(k);
    SameLayoutTurns(f, EncoderOf(k));
    LayoutEncodes(f, EncoderOf(k), m);
    assert SmallFormat(f) by { LoopFormatsAreSmall(k); }
    SmallBytes(f.header, m.header);
    SmallRecords(f.record, m.records);
  }

  lemma SameLayoutTurns(a: Format, b: Format)
    requires SameLayout(b, a)
    ensures SameLayout(a, b)
  {
  }

  predicate SmallFormat(f: Format) {
    Small(f.header) && Small(f.record) && |f.header| <= 20 && |f.record| <= 4 && f.maxCount <= 16
  }

  lemma LoopFormatsAreSmall(k: Kind)
    requires SentByLoop(k)
    ensures SmallFormat(DecoderOf(k))
  {
    hide DecoderOf;
    if k in {Welcome, Pong, ProfileSnapshot, ProfileItems, ProfilePerks, ProfileAppearance} {
      ProfileFormatsAreSmall(k);
    } else if k in {PlayerState, PlayerLeft, ActorSpawn, ActorState, ActorDespawn, DamageResult} {
      ActorFormatsAreSmall(k);
    } else {
      ObjectFormatsAreSmall(k);
    }
  }

  lemma ProfileFormatsAreSmall(k: Kind)
    requires k in {Welcome, Pong, ProfileSnapshot, ProfileItems, ProfilePerks, ProfileAppearance}
    ensures SmallFormat(DecoderOf(k))
  {
  }

  lemma ActorFormatsAreSmall(k: Kind)
    requires k in {PlayerState, PlayerLeft, ActorSpawn, ActorState, ActorDespawn, DamageResult}
    ensures SmallFormat(DecoderOf(k))
  {
  }

  lemma ObjectFormatsAreSmall(k: Kind)
    requires k in {DeathEvent, BuildResult, ObjectSpawn, ObjectUpdate, ObjectDespawn}
    ensures SmallFormat(DecoderOf(k))
  {
  }
}
