/** The bounded reader with sticky overflow, and the decoders that run on it. */
module PacketReading {
  import opened Slots
  import opened Wire
  import opened Codec

  /** What a decoder that has read `acc` in `n` bytes returns, given what the rest decodes to. */
  function Behind<T>(acc: seq<T>, n: nat, rest: Option<(seq<T>, nat)>): Option<(seq<T>, nat)> {
    match rest
    case None => None
    case Some((vs, m)) => Some((acc + vs, n + m))
  }

  lemma BehindEnds<T>(acc: seq<T>, n: nat, rest: Option<(seq<T>, nat)>)
    ensures Behind([], 0, rest) == rest && Behind(acc, n, Some(([], 0))) == Some((acc, n))
  {
    if rest.Some? { assert [] + rest.value.0 == rest.value.0; }
    assert acc + [] == acc;
  }

  lemma NothingLeft(bs: seq<Byte>)
    ensures Parse([], bs) == Some(([], 0))
  {
  }

  lemma ParseCons(fields: seq<Field>, bs: seq<Byte>)
    requires fields != []
    ensures var one := ParseField(fields[0], bs);
            Parse(fields, bs) == if one.None? then None
                else Behind([one.value.0], one.value.1, Parse(fields[1..], bs[one.value.1..]))
  {
    hide ParseField;
  }

  lemma PlainAnnouncesNone(f: Format, header: seq<Value>)
    ensures f.countAt.None? ==> Announced(f, header) == 0
  {
  }

  lemma NoRecordsLeft(record: seq<Field>, bs: seq<Byte>)
    ensures ParseRecords(record, 0, bs) == Some(([], 0))
  {
  }

  /** One more field read. */
  lemma FieldStep(fields: seq<Field>, acc: seq<Value>, n: nat, bs: seq<Byte>)
    requires fields != []
    ensures var one, whole := ParseField(fields[0], bs), Behind(acc, n, Parse(fields, bs));
            if one.None? then whole.None?
            else whole == Behind(acc + [one.value.0], n + one.value.1, Parse(fields[1..], bs[one.value.1..]))
  {
    hide ParseField, Parse;
    ParseCons(fields, bs);
    var one := ParseField(fields[0], bs);
    if one.Some? { Reassociate(acc, one.value.0, Parse(fields[1..], bs[one.value.1..])); }
  }

  /** One more record read. */
  lemma RecordStep(record: seq<Field>, count: nat, acc: seq<seq<Value>>, n: nat, bs: seq<Byte>)
    requires count > 0
    ensures var one, whole := Parse(record, bs), Behind(acc, n, ParseRecords(record, count, bs));
            if one.None? then whole.None?
            else whole == Behind(acc + [one.value.0], n + one.value.1,
                ParseRecords(record, count - 1, bs[one.value.1..]))
  {
    hide Parse;
    var one := Parse(record, bs);
    if one.Some? { Reassociate(acc, one.value.0, ParseRecords(record, count - 1, bs[one.value.1..])); }
  }

  lemma Reassociate<T>(acc: seq<T>, v: T, tail: Option<(seq<T>, nat)>)
    ensures tail.Some? ==> acc + ([v] + tail.value.0) == acc + [v] + tail.value.0
  {
  }

  /** The header can be read and announces more records than the message may have. */
  predicate TooMany(f: Format, bs: seq<Byte>) {
    var header := Parse(f.header, bs);
    header.Some? && Announced(f, header.value.0) > f.maxCount
  }

  class PacketReader {
    const data: seq<Byte>
    var offset: nat
    var overflowed: bool

    ghost predicate Valid()
      reads this
    {
      offset <= |data|
    }

    ghost function Rest(): seq<Byte>
      requires Valid()
      reads this
    {
      data[offset..]
    }

    constructor (data: seq<Byte>)
      ensures Valid() && this.data == data && offset == 0 && !overflowed
    {
      this.data := data;
      offset, overflowed := 0, false;
    }

    /** `pr_read_bytes`: all of the bytes or none, and none ever after an overflow. */
    method ReadBytes(n: nat) returns (bytes: Option<seq<Byte>>)
      requires Valid()
      modifies this
      ensures Valid()
      ensures bytes.Some? <==> !old(overflowed) && n <= |old(Rest())|
      ensures bytes.Some? ==> bytes.value == old(Rest())[..n] && offset == old(offset) + n && !overflowed
      ensures bytes.None? ==> offset == old(offset) && overflowed
    {
      if overflowed || offset + n > |data| {
        overflowed := true;
        return None;
      }
      bytes := Some(data[offset..offset + n]);
      offset := offset + n;
    }

    /** The typed reads; a text that does not fit its destination counts as overflow. */
    method ReadField(f: Field) returns (v: Option<Value>)
      requires Valid()
      modifies this
      ensures Valid() && offset >= old(offset)
      ensures v.Some? <==> !old(overflowed) && ParseField(f, old(Rest())).Some?
      ensures v.Some? ==> !overflowed && ParseField(f, old(Rest())) == Some((v.value, offset - old(offset)))
      ensures v.None? ==> overflowed
    {
      ghost var whole := Rest();
      if f.Text? {
        var head := ReadBytes(2);
        if head.None? { return None; }
        var length := Number(head.value);
        if length + 1 > f.capacity {
          overflowed := true;
          return None;
        }
        var text := ReadBytes(length);
        if text.None? { return None; }
        assert text.value == whole[2..2 + length];
        v := Some(Str(text.value));
      } else {
        var bytes := ReadBytes(Width(f));
        if bytes.None? { return None; }
        v := Some(match f
                  case Raw(_) => Blob(bytes.value)
                  case Flag => Word(if bytes.value[0] != 0 then 1 else 0)
                  case _ => Word(Unpattern(f, Number(bytes.value))));
      }
    }

    /** A chain of at least one read that stops at the first refusal. */
    method ReadFields(fields: seq<Field>) returns (vs: Option<seq<Value>>)
      requires Valid() && fields != []
      modifies this
      ensures Valid() && offset >= old(offset)
      ensures vs.Some? <==> !old(overflowed) && Parse(fields, old(Rest())).Some?
      ensures vs.Some? ==> !overflowed && Parse(fields, old(Rest())) == Some((vs.value, offset - old(offset)))
      ensures vs.None? ==> overflowed
    {
      hide ParseField, Parse, Behind;
      ghost var whole := Rest();
      var acc: seq<Value> := [];
      var i := 0;
      BehindEnds([], 0, Parse(fields, whole));
      assert fields[0..] == fields;
      while i < |fields|
        invariant i <= |fields| && Valid() && offset >= old(offset)
        invariant i > 0 ==> !overflowed && !old(overflowed)
        invariant i == 0 ==> overflowed == old(overflowed)
        invariant Parse(fields, whole) == Behind(acc, offset - old(offset), Parse(fields[i..], Rest()))
      {
        ghost var here := Rest();
        assert fields[i..][1..] == fields[i + 1..];
        FieldStep(fields[i..], acc, offset - old(offset), here);
        var v := ReadField(fields[i]);
        ghost var n := |here| - |Rest()|;
        assert Rest() == here[n..];
        if v.None? { return None; }
        i, acc := i + 1, acc + [v.value];
      }
      assert fields[i..] == [];
      NothingLeft(Rest());
      BehindEnds(acc, offset - old(offset), None);
      vs := Some(acc);
    }

    /** A message decoder: the header, a check of the count it announces, then record by record. A count over the
        limit is refused without marking the reader as overflowed. */
    method DecodeBody(f: Format) returns (m: Option<Body>)
      requires Valid() && f.header != [] && (f.countAt.Some? ==> f.record != [])
      modifies this
      ensures Valid() && offset >= old(offset)
      ensures m.Some? <==> !old(overflowed) && Decode(f, old(Rest())).Some?
      ensures m.Some? ==> !overflowed && Decode(f, old(Rest())) == Some((m.value, offset - old(offset)))
      ensures !old(overflowed) && TooMany(f, old(Rest())) ==> m.None? && !overflowed
    {
      hide Parse, ParseRecords, Behind, Announced;
      ghost var whole := Rest();
      var header := ReadFields(f.header);
      if header.None? { return None; }
      var count := Announced(f, header.value);
      PlainAnnouncesNone(f, header.value);
      if count > f.maxCount { return None; }
      ghost var start, body := offset, Rest();
      assert body == whole[offset - old(offset)..];
      var acc: seq<seq<Value>> := [];
      var i := 0;
      BehindEnds([], 0, ParseRecords(f.record, count, body));
      while i < count
        invariant i <= count && Valid() && offset >= start && !overflowed
        invariant ParseRecords(f.record, count, body)
            == Behind(acc, offset - start, ParseRecords(f.record, count - i, Rest()))
      {
        ghost var here := Rest();
        RecordStep(f.record, count - i, acc, offset - start, here);
        var v := ReadFields(f.record);
        if v.None? { return None; }
        assert Rest() == here[|here| - |Rest()|..];
        i, acc := i + 1, acc + [v.value];
      }
      NoRecordsLeft(f.record, Rest());
      BehindEnds(acc, offset - start, None);
      m := Some(Body(header.value, acc));
    }
  }
}
