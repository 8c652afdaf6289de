/** The codecs of all messages and their round trip. */
module Codec {
  import opened Slots
  import opened Wire

  /** A header, and for some messages records whose number the header field `countAt` gives. */
  datatype Format = Format(header: seq<Field>, countAt: Option<nat>, record: seq<Field>, maxCount: nat)

  datatype Kind =
    | Hello | Welcome | Ping | Pong | Disconnect
    | ProfileSnapshot | ProfileItems | ProfilePerks | ProfileAppearance
    | InputState | PlayerState | PlayerLeft | InterestSet | BubbleViolation
    | ActorSpawn | ActorState | ActorDespawn
    | FireIntent | MeleeIntent | DamageResult | DeathEvent
    | BuildRequest | BuildResult | ObjectSpawn | ObjectMoveRequest | ObjectScrapRequest | ObjectUpdate | ObjectDespawn
    | DialogueOpen | DialogueLine | DialogueChoices | DialogueSelect | DialogueClose
    | QuestUpdate

  const VEC3: seq<Field> := [F32, F32, F32]
  const PAD: Field := Raw(3)
  const TEXT: Field := Text(MAX_TEXT_LENGTH + 1)  // a writer only knows the limit of the 16-bit length
  const ANY: nat := 65535  // nor does it limit a count

  function Plain(fields: seq<Field>): Format { Format(fields, None, [], 0) }

  /** What the encoder of each message writes. */
  function EncoderOf(k: Kind): Format {
    match k
    case Hello => Plain([U32, U32, TEXT, TEXT])
    case Welcome => Plain([U32, U16, U16, U32])
    case Ping => Plain([U32])
    case Pong => Plain([U32])
    case Disconnect => Plain([U8])
    case ProfileSnapshot => Plain([U32, U32, U32, U32, U8, U8, U8, U8, U8, U8, U8, U8])
    case ProfileItems => Format([U16, U16], Some(0), [U32, U32, U8, PAD], ANY)
    case ProfilePerks => Format([U16, U16], Some(0), [U32, U8, PAD], ANY)
    case ProfileAppearance => Plain([U8, PAD, U32])
    case InputState => Plain([U32, I8, I8, I16, I16, U32, U32])
    case PlayerState => Plain([U16, U16] + VEC3 + VEC3 + VEC3 + [U8, PAD, U16, U16, U32, U32, U32])
    case PlayerLeft => Plain([U16, U16])
    case InterestSet => Format(VEC3 + [F32, U16, U16], Some(4), [U32], ANY)
    case BubbleViolation => Plain([U16, U8, U8] + VEC3)
    case ActorSpawn => Plain([U32, U32] + VEC3 + VEC3 + [U8, U8, U16])
    case ActorState => Plain([U32] + VEC3 + VEC3 + [F32, U16, U16, U32])
    case ActorDespawn => Plain([U32, U8, PAD])
    case FireIntent => Plain([U16, U16, U32] + VEC3 + VEC3 + [U8, PAD, U32])
    case MeleeIntent => Plain([U16, U16, U32, U32, U32])
    case DamageResult => Plain([U32, U32, F32, U8, U8, U16, F32])
    case DeathEvent => Plain([U32, U32, U32])
    case BuildRequest => Plain([U32, U16, U16, U32, U32] + VEC3 + VEC3 + [U32])
    case BuildResult => Plain([U32, Flag, U8, U16, U32])
    case ObjectSpawn => Plain([U32, U32] + VEC3 + VEC3 + [U16, U16])
    case ObjectMoveRequest => Plain([U32, U16, U16, U32] + VEC3 + VEC3)
    case ObjectScrapRequest => Plain([U32, U16, U16, U32])
    case ObjectUpdate => Plain([U32, U32] + VEC3 + VEC3 + [U16, U16])
    case ObjectDespawn => Plain([U32, U8, PAD])
    case DialogueOpen => Plain([U32, U32, U32])
    case DialogueLine => Plain([U32, U32, TEXT])
    case DialogueChoices => Format([U32, U16, U16], Some(1), [U32, U8, PAD, TEXT], ANY)
    case DialogueSelect => Plain([U32, U32])
    case DialogueClose => Plain([U32, U8, PAD])
    case QuestUpdate => Format([U32, U16, U8, U8], Some(3), [U32, U8, PAD, TEXT], ANY)
  }

  /** What the decoder of each message reads, with the sizes of the buffers it is given. */
  function DecoderOf(k: Kind): Format {
    match k
    case Hello => Plain([U32, U32, Text(65), Text(65)])
    case Welcome => Plain([U32, U16, U16, U32])
    case Ping => Plain([U32])
    case Pong => Plain([U32])
    case Disconnect => Plain([U8])
    case ProfileSnapshot => Plain([U32, U32, U32, U32, U8, U8, U8, U8, U8, U8, U8, U8])
    case ProfileItems => Format([U16, U16], Some(0), [U32, U32, U8, PAD], 16)
    case ProfilePerks => Format([U16, U16], Some(0), [U32, U8, PAD], 16)
    case ProfileAppearance => Plain([U8, PAD, U32])
    case InputState => Plain([U32, I8, I8, I16, I16, U32, U32])
    case PlayerState => Plain([U16, U16] + VEC3 + VEC3 + VEC3 + [U8, PAD, U16, U16, U32, U32, U32])
    case PlayerLeft => Plain([U16, U16])
    case InterestSet => Format(VEC3 + [F32, U16, U16], Some(4), [U32], 128)
    case BubbleViolation => Plain([U16, U8, U8] + VEC3)
    case ActorSpawn => Plain([U32, U32] + VEC3 + VEC3 + [U8, U8, U16])
    case ActorState => Plain([U32] + VEC3 + VEC3 + [F32, U16, U16, U32])
    case ActorDespawn => Plain([U32, U8, PAD])
    case FireIntent => Plain([U16, U16, U32] + VEC3 + VEC3 + [U8, PAD, U32])
    case MeleeIntent => Plain([U16, U16, U32, U32, U32])
    case DamageResult => Plain([U32, U32, F32, U8, U8, U16, F32])
    case DeathEvent => Plain([U32, U32, U32])
    case BuildRequest => Plain([U32, U16, U16, U32, U32] + VEC3 + VEC3 + [U32])
    case BuildResult => Plain([U32, Flag, U8, U16, U32])
    case ObjectSpawn => Plain([U32, U32] + VEC3 + VEC3 + [U16, U16])
    case ObjectMoveRequest => Plain([U32, U16, U16, U32] + VEC3 + VEC3)
    case ObjectScrapRequest => Plain([U32, U16, U16, U32])
    case ObjectUpdate => Plain([U32, U32] + VEC3 + VEC3 + [U16, U16])
    case ObjectDespawn => Plain([U32, U8, PAD])
    case DialogueOpen => Plain([U32, U32, U32])
    case DialogueLine => Plain([U32, U32, Text(256)])
    case DialogueChoices => Format([U32, U16, U16], Some(1), [U32, U8, PAD, Text(256)], 12)
    case DialogueSelect => Plain([U32, U32])
    case DialogueClose => Plain([U32, U8, PAD])
    case QuestUpdate => Format([U32, U16, U8, U8], Some(3), [U32, U8, PAD, Text(256)], 16)
  }

  const PACKET_HEADER: seq<Field> := [U32, U16, U16, U32, U32, U32, U32, U8, PAD]
  const MESSAGE_HEADER: seq<Field> := [U16, U16, U16]

  datatype Body = Body(header: seq<Value>, records: seq<seq<Value>>)

  // ---- records -----------------------------------------------------------------------------------------

  predicate RecordsFit(record: seq<Field>, rs: seq<seq<Value>>) {
    forall i :: 0 <= i < |rs| ==> AllFit(record, rs[i])
  }

  predicate RecordsEncodable(record: seq<Field>, rs: seq<seq<Value>>) {
    forall i :: 0 <= i < |rs| ==> AllEncodable(record, rs[i])
  }

  function RecordBytes(record: seq<Field>, rs: seq<seq<Value>>): seq<Byte>
    requires RecordsEncodable(record, rs)
  {
    if rs == [] then [] else Bytes(record, rs[0]) + RecordBytes(record, rs[1..])
  }

  function NormalRecords(record: seq<Field>, rs: seq<seq<Value>>): (r: seq<seq<Value>>)
    requires RecordsFit(record, rs)
    ensures |r| == |rs|
  {
    if rs == [] then [] else [NormalAll(record, rs[0])] + NormalRecords(record, rs[1..])
  }

  function ParseRecords(record: seq<Field>, count: nat, bs: seq<Byte>): (r: Option<(seq<seq<Value>>, nat)>)
    ensures r.Some? ==> |r.value.0| == count && r.value.1 <= |bs|
  {
    if count == 0 then Some(([], 0))
    else
      match Parse(record, bs)
      case None => None
      case Some((v, n)) =>
        match ParseRecords(record, count - 1, bs[n..])
        case None => None
        case Some((vs, m)) => Some(([v] + vs, n + m))
  }

  lemma {:induction false} RecordsRoundTrip(record: seq<Field>, rs: seq<seq<Value>>, rest: seq<Byte>)
    requires RecordsFit(record, rs)
    ensures ParseRecords(record, |rs|, RecordBytes(record, rs) + rest)
            == Some((NormalRecords(record, rs), |RecordBytes(record, rs)|))
  {
    hide Bytes, Parse, Typed;
    if rs != [] {
      assert AllFit(record, rs[0]);
      var head, tail := Bytes(record, rs[0]), RecordBytes(record, rs[1..]);
      assert RecordBytes(record, rs) + rest == head + (tail + rest);
      ParseRoundTrip(record, rs[0], tail + rest);
      assert (head + (tail + rest))[|head|..] == tail + rest;
      RecordsRoundTrip(record, rs[1..], rest);
    }
  }

  lemma {:induction false} RecordsIffFit(record: seq<Field>, rs: seq<seq<Value>>, rest: seq<Byte>)
    requires RecordsEncodable(record, rs)
    ensures ParseRecords(record, |rs|, RecordBytes(record, rs) + rest).Some? <==> RecordsFit(record, rs)
  {
    hide Bytes, Parse, AllFit;
    if rs != [] {
      var head, tail := Bytes(record, rs[0]), RecordBytes(record, rs[1..]);
      assert RecordBytes(record, rs) + rest == head + (tail + rest);
      assert RecordsFit(record, rs) <==> AllFit(record, rs[0]) && RecordsFit(record, rs[1..]);
      ParseIffFits(record, rs[0], tail + rest);
      if AllFit(record, rs[0]) {
        ParseRoundTrip(record, rs[0], tail + rest);
        assert (head + (tail + rest))[|head|..] == tail + rest;
        RecordsIffFit(record, rs[1..], rest);
      }
    }
  }

  lemma {:induction false} RecordsPrefixRejected(record: seq<Field>, rs: seq<seq<Value>>, n: nat)
    requires RecordsFit(record, rs) && n < |RecordBytes(record, rs)|
    ensures ParseRecords(record, |rs|, RecordBytes(record, rs)[..n]).None?
  {
    hide Bytes, Parse, Typed;
    assert AllFit(record, rs[0]);
    var head, tail := Bytes(record, rs[0]), RecordBytes(record, rs[1..]);
    var cut := RecordBytes(record, rs)[..n];
    if n < |head| {
      assert cut == head[..n];
      ParsePrefixRejected(record, rs[0], n);
    } else {
      assert cut == head + tail[..n - |head|] && cut[|head|..] == tail[..n - |head|];
      ParseRoundTrip(record, rs[0], tail[..n - |head|]);
      RecordsPrefixRejected(record, rs[1..], n - |head|);
    }
  }

  // ---- whole messages ----------------------------------------------------------------------------------

  /** The number of records the header announces; none for a plain message. */
  function Announced(f: Format, header: seq<Value>): nat {
    if f.countAt.Some? && f.countAt.value < |header| && header[f.countAt.value].Word? && header[f.countAt.value].n >= 0
    then header[f.countAt.value].n else 0
  }

  /** The values have the types of the message, and there are as many records as the header announces. */
  predicate TypedBody(f: Format, m: Body) {
    && AllTyped(f.header, m.header) && (forall i :: 0 <= i < |m.records| ==> AllTyped(f.record, m.records[i]))
    && |m.records| == Announced(f, m.header)
  }

  /** The message has an encoding: no text is longer than its length prefix can say. */
  predicate Writable(f: Format, m: Body) {
    && AllEncodable(f.header, m.header) && RecordsEncodable(f.record, m.records)
    && |m.records| == Announced(f, m.header)
  }

  /** The message is within its count and text limits. */
  predicate WellFormed(f: Format, m: Body) {
    && AllFit(f.header, m.header) && RecordsFit(f.record, m.records)
    && |m.records| == Announced(f, m.header) <= f.maxCount
  }

  lemma WellFormedIsWritable(f: Format, m: Body)
    requires WellFormed(f, m)
    ensures Writable(f, m)
  {
    hide Typed;
    forall i | 0 <= i < |m.records| ensures AllEncodable(f.record, m.records[i]) {
      assert AllFit(f.record, m.records[i]);
    }
  }

  function Encoding(f: Format, m: Body): seq<Byte>
    requires Writable(f, m)
  {
    Bytes(f.header, m.header) + RecordBytes(f.record, m.records)
  }

  /** The decoder: the message at the front of `bs` and the number of bytes consumed. */
  function Decode(f: Format, bs: seq<Byte>): Option<(Body, nat)> {
    match Parse(f.header, bs)
    case None => None
    case Some((header, n)) =>
      var count := Announced(f, header);
      if count > f.maxCount then None
      else
        match ParseRecords(f.record, count, bs[n..])
        case None => None
        case Some((records, m)) => Some((Body(header, records), n + m))
  }

  function NormalBody(f: Format, m: Body): Body
    requires WellFormed(f, m)
  {
    Body(NormalAll(f.header, m.header), NormalRecords(f.record, m.records))
  }

  /** The count is not a flag, so a round trip keeps it. */
  predicate SoundFormat(f: Format) {
    f.countAt.Some? ==>
      f.countAt.value < |f.header| && (f.header[f.countAt.value].U8? || f.header[f.countAt.value].U16?)
  }

  lemma {:induction false} NormalAllAt(fields: seq<Field>, vs: seq<Value>, i: nat)
    requires |vs| == |fields| && i < |fields|
    ensures NormalAll(fields, vs)[i] == Normal(fields[i], vs[i])
  {
    if i > 0 { NormalAllAt(fields[1..], vs[1..], i - 1); }
  }

  lemma NormalKeepsCount(f: Format, header: seq<Value>)
    requires SoundFormat(f) && AllFit(f.header, header)
    ensures Announced(f, NormalAll(f.header, header)) == Announced(f, header)
  {
    if f.countAt.Some? { NormalAllAt(f.header, header, f.countAt.value); }
  }

  /** Decoding an encoding, whatever follows it, returns the message and consumes exactly its bytes. */
  lemma DecodeRoundTrip(f: Format, m: Body, rest: seq<Byte>)
    requires SoundFormat(f) && WellFormed(f, m) && Writable(f, m)
    ensures Decode(f, Encoding(f, m) + rest) == Some((NormalBody(f, m), |Encoding(f, m)|))
  {
    hide Bytes, Parse, RecordBytes, ParseRecords, NormalAll, NormalRecords, Typed, Announced;
    var head, tail := Bytes(f.header, m.header), RecordBytes(f.record, m.records);
    assert Encoding(f, m) + rest == head + (tail + rest);
    ParseRoundTrip(f.header, m.header, tail + rest);
    assert (head + (tail + rest))[|head|..] == tail + rest;
    NormalKeepsCount(f, m.header);
    RecordsRoundTrip(f.record, m.records, rest);
  }

  /** An encoding is decoded if and only if the message is within the decoder's limits. */
  lemma DecodesIffWellFormed(f: Format, m: Body, rest: seq<Byte>)
    requires SoundFormat(f) && Writable(f, m)
    ensures Decode(f, Encoding(f, m) + rest).Some? <==> WellFormed(f, m)
  {
    hide Bytes, Parse, RecordBytes, ParseRecords, NormalAll, AllFit, AllEncodable, RecordsFit, RecordsEncodable,
         Announced;
    var head, tail := Bytes(f.header, m.header), RecordBytes(f.record, m.records);
    assert Encoding(f, m) + rest == head + (tail + rest);
    ParseIffFits(f.header, m.header, tail + rest);
    if AllFit(f.header, m.header) {
      ParseRoundTrip(f.header, m.header, tail + rest);
      assert (head + (tail + rest))[|head|..] == tail + rest;
      NormalKeepsCount(f, m.header);
      RecordsIffFit(f.record, m.records, rest);
    }
  }

  /** Every strict prefix of an encoding is refused. */
  lemma DecodePrefixRejected(f: Format, m: Body, n: nat)
    requires SoundFormat(f) && WellFormed(f, m) && Writable(f, m) && n < |Encoding(f, m)|
    ensures Decode(f, Encoding(f, m)[..n]).None?
  {
    hide Bytes, Parse, RecordBytes, ParseRecords, NormalAll, NormalRecords, Typed, Announced;
    var head, tail := Bytes(f.header, m.header), RecordBytes(f.record, m.records);
    var cut := Encoding(f, m)[..n];
    if n < |head| {
      assert cut == head[..n];
      ParsePrefixRejected(f.header, m.header, n);
    } else {
      assert cut == head + tail[..n - |head|] && cut[|head|..] == tail[..n - |head|];
      ParseRoundTrip(f.header, m.header, tail[..n - |head|]);
      NormalKeepsCount(f, m.header);
      RecordsPrefixRejected(f.record, m.records, n - |head|);
    }
  }

  // ---- encoders and decoders fit together -----------------------------------------------------------------

  /** The two fields are laid out alike; they may differ in how long a text they take. */
  predicate Alike(a: Field, b: Field) { a == b || (a.Text? && b.Text?) }

  predicate AllAlike(a: seq<Field>, b: seq<Field>) {
    |a| == |b| && forall i :: 0 <= i < |a| ==> Alike(a[i], b[i])
  }

  predicate SameLayout(a: Format, b: Format) {
    a.countAt == b.countAt && AllAlike(a.header, b.header) && AllAlike(a.record, b.record)
  }

  lemma {:induction false} AlikeBytes(a: seq<Field>, b: seq<Field>, vs: seq<Value>)
    requires AllAlike(a, b) && AllEncodable(a, vs)
    ensures AllEncodable(b, vs) && Bytes(a, vs) == Bytes(b, vs)
  {
    if a != [] {
      assert Alike(a[0], b[0]) && AllAlike(a[1..], b[1..]);
      AlikeBytes(a[1..], b[1..], vs[1..]);
      assert forall i :: 0 <= i < |b| ==> Alike(a[i], b[i]) && Encodable(a[i], vs[i]);
    }
  }

  lemma {:induction false} AlikeRecords(a: seq<Field>, b: seq<Field>, rs: seq<seq<Value>>)
    requires AllAlike(a, b) && RecordsEncodable(a, rs)
    ensures RecordsEncodable(b, rs) && RecordBytes(a, rs) == RecordBytes(b, rs)
  {
    hide Bytes, AllEncodable, AllAlike;
    if rs != [] {
      AlikeRecords(a, b, rs[1..]);
      AlikeBytes(a, b, rs[0]);
      assert forall i :: 1 <= i < |rs| ==> rs[i] == rs[1..][i - 1];
    }
  }

  lemma LayoutEncodes(a: Format, b: Format, m: Body)
    requires SameLayout(a, b) && Writable(a, m)
    ensures Writable(b, m) && Encoding(a, m) == Encoding(b, m)
  {
    hide Bytes, RecordBytes, AllEncodable, RecordsEncodable, AllAlike;
    AlikeBytes(a.header, b.header, m.header);
    AlikeRecords(a.record, b.record, m.records);
  }

  /** The encoder and the decoder of every message agree on its layout. */
  lemma CodecsMatch(k: Kind)
    ensures SameLayout(EncoderOf(k), DecoderOf(k))
  {
    if Early(k) { EarlyMatch(k); } else { LateMatch(k); }
  }

  lemma EarlyMatch(k: Kind)
    requires Early(k)
    ensures SameLayout(EncoderOf(k), DecoderOf(k))
  {
  }

  lemma LateMatch(k: Kind)
    requires !Early(k)
    ensures SameLayout(EncoderOf(k), DecoderOf(k))
  {
  }

  lemma FormatsAreSound(k: Kind)
    ensures SoundFormat(DecoderOf(k))
  {
  }

  lemma {:induction false} NormalIsIdentity(fields: seq<Field>, vs: seq<Value>)
    requires |vs| == |fields| && Flag !in fields
    ensures NormalAll(fields, vs) == vs
  {
    if fields != [] {
      assert fields == [fields[0]] + fields[1..];
      NormalIsIdentity(fields[1..], vs[1..]);
    }
  }

  lemma {:induction false} NormalRecordsIdentity(record: seq<Field>, rs: seq<seq<Value>>)
    requires RecordsFit(record, rs) && Flag !in record
    ensures NormalRecords(record, rs) == rs
  {
    if rs != [] {
      assert AllFit(record, rs[0]);
      NormalIsIdentity(record, rs[0]);
      NormalRecordsIdentity(record, rs[1..]);
    }
  }

  predicate Unflagged(f: Format) { Flag !in f.header && Flag !in f.record }

  lemma OnlyBuildResultHasFlag(k: Kind)
    requires k != BuildResult
    ensures Unflagged(DecoderOf(k))
  {
    if Early(k) { EarlyUnflagged(k); } else { LateUnflagged(k); }
  }

  predicate Early(k: Kind) {
    k in {Hello, Welcome, Ping, Pong, Disconnect, ProfileSnapshot, ProfileItems, ProfilePerks, ProfileAppearance,
          InputState, PlayerState, PlayerLeft, InterestSet, BubbleViolation, ActorSpawn, ActorState, ActorDespawn}
  }

  lemma EarlyUnflagged(k: Kind)
    requires Early(k)
    ensures Unflagged(DecoderOf(k))
  {
  }

  lemma LateUnflagged(k: Kind)
    requires k != BuildResult && !Early(k)
    ensures Unflagged(DecoderOf(k))
  {
  }

  /** The codec law, for every kind of message that its encoder can write: decoding the encoding gives the message back
      and consumes exactly the bytes written if the message is within the decoder's limits, and is refused if it is not;
      no strict prefix decodes. Only the build result's flag is normalised. */
  lemma CodecLaw(k: Kind, m: Body, rest: seq<Byte>, n: nat)
    requires Writable(EncoderOf(k), m)
    ensures var f, bs := DecoderOf(k), Encoding(EncoderOf(k), m);
            && (WellFormed(f, m) ==>
                  && Decode(f, bs + rest) == Some((if k == BuildResult then NormalBody(f, m) else m, |bs|))
                  && (n < |bs| ==> Decode(f, bs[..n]).None?))
            && (!WellFormed(f, m) ==> Decode(f, bs + rest).None?)
  {
    hide EncoderOf, DecoderOf, Decode, Encoding, NormalAll, NormalRecords, AllFit, RecordsFit, Announced, Writable,
         SameLayout, Unflagged;
    var f := DecoderOf(k);
    FormatsAreSound(k);
    CodecsMatch(k);
    LayoutEncodes(EncoderOf(k), f, m);
    DecodesIffWellFormed(f, m, rest);
    if WellFormed(f, m) {
      DecodeRoundTrip(f, m, rest);
      if n < |Encoding(f, m)| { DecodePrefixRejected(f, m, n); }
      if k != BuildResult { UnflaggedIsNormal(k, m); }
    }
  }

  lemma UnflaggedIsNormal(k: Kind, m: Body)
    requires k != BuildResult && WellFormed(DecoderOf(k), m)
    ensures NormalBody(DecoderOf(k), m) == m
  {
    hide DecoderOf, NormalAll, NormalRecords, AllFit, RecordsFit, Announced;
    var f := DecoderOf(k);
    OnlyBuildResultHasFlag(k);
    assert |m.header| == |f.header| by { FitsSize(f.header, m.header); }
    NormalIsIdentity(f.header, m.header);
    NormalRecordsIdentity(f.record, m.records);
  }

  lemma FitsSize(fields: seq<Field>, vs: seq<Value>)
    requires AllFit(fields, vs)
    ensures |vs| == |fields|
  {
  }
}
