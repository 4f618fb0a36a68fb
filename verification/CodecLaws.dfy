/** The codec's promises, for every packet and every byte string. */
module CodecLaws {
  import opened Words
  import opened Wrappers
  import opened Bytes
  import opened Protocol
  import opened WireFormat
  import opened WireLaws
  import opened CommandFormat
  import opened PacketFormat

  // ---------------------------------------------------------------- commands

  lemma CommandFromValues(c: Command, rest: Octets)
    ensures CommandFrom(CommandTag(c), CommandValues(c), rest) == Parsed(c, rest)
  {
    assert StandsFor(CommandTag(c), CommandValues(c), c);
    forall d | StandsFor(CommandTag(c), CommandValues(c), d) ensures d == c {
      CommandInjective(c, d);
    }
  }

  lemma ValuesOfCommand(tag: Byte, vs: seq<Value>, rest: Octets)
    requires CommandFrom(tag, vs, rest).Parsed?
    ensures var d := CommandFrom(tag, vs, rest);
      CommandTag(d.value) == tag && CommandValues(d.value) == vs && d.rest == rest
  {
  }

  /** Reading a discriminator and the record it announces, for any layout table. */
  lemma TaggedRoundTrip(tag: Byte, schema: seq<Kind>, vs: seq<Value>, rest: Octets)
    requires AllFit(schema, vs)
    ensures var buf := [tag] + EncodeFields(schema, vs) + rest;
      buf[0] == tag && DecodeFields(schema, buf[1..]) == Parsed(vs, rest)
  {
    TagFirst(tag, EncodeFields(schema, vs), rest);
    FieldsRoundTrip(schema, vs, rest);
  }

  lemma TaggedSound(schema: seq<Kind>, buf: Octets)
    requires buf != [] && DecodeFields(schema, buf[1..]).Parsed?
    ensures var d := DecodeFields(schema, buf[1..]);
      && AllFit(schema, d.value)
      && Consumed(buf, d.rest, [buf[0]] + EncodeFields(schema, d.value), [false] + FieldFlags(schema, d.value))
  {
    hide FieldFlags, EncodeFields;
    var d := DecodeFields(schema, buf[1..]);
    FieldsSound(schema, buf[1..]);
    assert Consumed(buf, buf[1..], [buf[0]], [false]);
    ConsumedThen(buf, buf[1..], d.rest, [buf[0]], [false], EncodeFields(schema, d.value), FieldFlags(schema, d.value));
  }

  lemma TaggedAccepts(tag: Byte, schema: seq<Kind>, vs: seq<Value>, buf: Octets, rest: Octets)
    requires AllFit(schema, vs)
    requires Consumed(buf, rest, [tag] + EncodeFields(schema, vs), [false] + FieldFlags(schema, vs))
    ensures buf != [] && buf[0] == tag && DecodeFields(schema, buf[1..]) == Parsed(vs, rest)
  {
    hide FieldFlags, EncodeFields, DecodeFields;
    ConsumedSplit(buf, rest, [tag], [false], EncodeFields(schema, vs), FieldFlags(schema, vs));
    assert buf[..1][0] == buf[0];
    FieldsAccept(schema, vs, buf[1..], rest);
  }

  lemma TaggedExtend(schema: seq<Kind>, buf: Octets, more: Octets)
    requires buf != [] && DecodeFields(schema, buf[1..]).Parsed?
    ensures var d := DecodeFields(schema, buf[1..]);
      (buf + more)[0] == buf[0] && DecodeFields(schema, (buf + more)[1..]) == Parsed(d.value, d.rest + more)
  {
    assert (buf + more)[1..] == buf[1..] + more;
    FieldsExtend(schema, buf[1..], more);
  }

  lemma CommandRoundTrip(c: Command, rest: Octets)
    requires FitsCommand(c)
    ensures DecodeCommand(EncodeCommand(c) + rest) == Parsed(c, rest)
  {
    CommandShaped(c);
    TaggedRoundTrip(CommandTag(c), CommandSchema(CommandTag(c)).value, CommandValues(c), rest);
    CommandFromValues(c, rest);
  }

  lemma CommandSound(buf: Octets)
    requires DecodeCommand(buf).Parsed?
    ensures FitsCommand(DecodeCommand(buf).value)
    ensures var d := DecodeCommand(buf); Consumed(buf, d.rest, EncodeCommand(d.value), CommandFlags(d.value))
  {
    var schema := CommandSchema(buf[0]).value;
    var fields := DecodeFields(schema, buf[1..]);
    TaggedSound(schema, buf);
    ValuesOfCommand(buf[0], fields.value, fields.rest);
  }

  lemma CommandAccepts(c: Command, buf: Octets, rest: Octets)
    requires FitsCommand(c)
    requires Consumed(buf, rest, EncodeCommand(c), CommandFlags(c))
    ensures DecodeCommand(buf) == Parsed(c, rest)
  {
    hide Consumed;
    CommandShaped(c);
    TaggedAccepts(CommandTag(c), CommandSchema(CommandTag(c)).value, CommandValues(c), buf, rest);
    CommandFromValues(c, rest);
  }

  lemma CommandExtend(buf: Octets, more: Octets)
    requires DecodeCommand(buf).Parsed?
    ensures DecodeCommand(buf + more) == Parsed(DecodeCommand(buf).value, DecodeCommand(buf).rest + more)
  {
    var schema := CommandSchema(buf[0]).value;
    var fields := DecodeFields(schema, buf[1..]);
    TaggedExtend(schema, buf, more);
    ValuesOfCommand(buf[0], fields.value, fields.rest);
    CommandFromValues(DecodeCommand(buf).value, fields.rest);
    CommandFromValues(DecodeCommand(buf).value, fields.rest + more);
  }

  // ---------------------------------------------------------------- handshakes

  lemma HandshakeOfValues(m: Handshake, rest: Octets)
    ensures HandshakeOf(HandshakeTag(m), HandshakeValues(m), rest) == Parsed(m, rest)
  {
    HandshakeShaped(m);
  }

  lemma ValuesOfHandshake(tag: Byte, vs: seq<Value>, rest: Octets)
    requires HandshakeOf(tag, vs, rest).Parsed?
    ensures HandshakeTag(HandshakeOf(tag, vs, rest).value) == tag
    ensures HandshakeValues(HandshakeOf(tag, vs, rest).value) == vs
    ensures HandshakeOf(tag, vs, rest).rest == rest
  {
  }

  lemma HandshakeRoundTrip(m: Handshake, rest: Octets)
    requires FitsHandshake(m)
    ensures DecodeHandshake(EncodeHandshake(m) + rest) == Parsed(m, rest)
  {
    HandshakeShaped(m);
    TaggedRoundTrip(HandshakeTag(m), HandshakeSchema(HandshakeTag(m)).value, HandshakeValues(m), rest);
    HandshakeOfValues(m, rest);
  }

  lemma HandshakeSound(buf: Octets)
    requires DecodeHandshake(buf).Parsed?
    ensures FitsHandshake(DecodeHandshake(buf).value)
    ensures var d := DecodeHandshake(buf); Consumed(buf, d.rest, EncodeHandshake(d.value), HandshakeFlags(d.value))
  {
    var schema := HandshakeSchema(buf[0]).value;
    var fields := DecodeFields(schema, buf[1..]);
    TaggedSound(schema, buf);
    ValuesOfHandshake(buf[0], fields.value, fields.rest);
  }

  lemma HandshakeAccepts(m: Handshake, buf: Octets, rest: Octets)
    requires FitsHandshake(m)
    requires Consumed(buf, rest, EncodeHandshake(m), HandshakeFlags(m))
    ensures DecodeHandshake(buf) == Parsed(m, rest)
  {
    hide Consumed;
    HandshakeShaped(m);
    TaggedAccepts(HandshakeTag(m), HandshakeSchema(HandshakeTag(m)).value, HandshakeValues(m), buf, rest);
    HandshakeOfValues(m, rest);
  }

  lemma HandshakeExtend(buf: Octets, more: Octets)
    requires DecodeHandshake(buf).Parsed?
    ensures DecodeHandshake(buf + more) == Parsed(DecodeHandshake(buf).value, DecodeHandshake(buf).rest + more)
  {
    var schema := HandshakeSchema(buf[0]).value;
    var fields := DecodeFields(schema, buf[1..]);
    TaggedExtend(schema, buf, more);
    ValuesOfHandshake(buf[0], fields.value, fields.rest);
    assert HandshakeOf(buf[0], fields.value, fields.rest + more).Parsed?;
  }

  // ---------------------------------------------------------------- payloads

  lemma TailRoundTrip(p: Payload, rest: Octets)
    requires FitsPayload(p)
    ensures DecodeTail(PayloadType(p), PlainValues(p), EncodeTail(p) + rest) == Parsed(p, rest)
  {
    PlainShaped(p);
    assert [] + rest == rest;
    match p
    case HandshakePayload(m) => HandshakeRoundTrip(m, rest);
    case CommandPayload(_, _, _, _, c) => CommandRoundTrip(c, rest);
    case _ =>
  }

  lemma PayloadRoundTrip(p: Payload, rest: Octets)
    requires FitsPayload(p)
    ensures DecodePayload(PayloadType(p), EncodePayload(p) + rest) == Parsed(p, rest)
  {
    PlainShaped(p);
    Regroup(EncodePlain(p), EncodeTail(p), rest);
    FieldsRoundTrip(PlainSchema(PayloadType(p)).value, PlainValues(p), EncodeTail(p) + rest);
    TailRoundTrip(p, rest);
  }

  lemma TailSound(packetType: Byte, vs: seq<Value>, buf: Octets)
    requires DecodeTail(packetType, vs, buf).Parsed?
    requires AllFit(PlainSchema(packetType).value, vs)
    ensures var d := DecodeTail(packetType, vs, buf);
      && PayloadType(d.value) == packetType
      && PlainValues(d.value) == vs
      && FitsPayload(d.value)
      && Consumed(buf, d.rest, EncodeTail(d.value), TailFlags(d.value))
  {
    if packetType == 1 {
      HandshakeSound(buf);
    } else if packetType == 2 {
      CommandSound(buf);
    }
    PlainShaped(DecodeTail(packetType, vs, buf).value);
  }

  lemma PayloadSound(packetType: Byte, buf: Octets)
    requires DecodePayload(packetType, buf).Parsed?
    ensures var d := DecodePayload(packetType, buf);
      && PayloadType(d.value) == packetType && FitsPayload(d.value)
      && Consumed(buf, d.rest, EncodePayload(d.value), PayloadFlags(d.value))
  {
    var schema := PlainSchema(packetType).value;
    var fields := DecodeFields(schema, buf);
    var d := DecodeTail(packetType, fields.value, fields.rest);
    FieldsSound(schema, buf);
    TailSound(packetType, fields.value, fields.rest);
    PlainShaped(d.value);
    ConsumedThen(buf, fields.rest, d.rest, EncodePlain(d.value), PlainFlags(d.value),
                 EncodeTail(d.value), TailFlags(d.value));
  }

  lemma TailAccepts(p: Payload, buf: Octets, rest: Octets)
    requires FitsPayload(p)
    requires Consumed(buf, rest, EncodeTail(p), TailFlags(p))
    ensures DecodeTail(PayloadType(p), PlainValues(p), buf) == Parsed(p, rest)
  {
    hide DecodeHandshake, DecodeCommand, Spells;
    PlainShaped(p);
    match p
    case HandshakePayload(m) => HandshakeAccepts(m, buf, rest);
    case CommandPayload(_, _, _, _, c) => CommandAccepts(c, buf, rest);
    case _ => assert buf[0..] == buf;
  }

  lemma PayloadAccepts(p: Payload, buf: Octets, rest: Octets)
    requires FitsPayload(p)
    requires Consumed(buf, rest, EncodePayload(p), PayloadFlags(p))
    ensures DecodePayload(PayloadType(p), buf) == Parsed(p, rest)
  {
    hide Consumed, EncodeTail, TailFlags, DecodeTail, EncodeFields, FieldFlags, DecodeFields;
    PlainShaped(p);
    FlagsCover(PlainSchema(PayloadType(p)).value, PlainValues(p));
    var mid := |EncodePlain(p)|;
    ConsumedSplit(buf, rest, EncodePlain(p), PlainFlags(p), EncodeTail(p), TailFlags(p));
    FieldsAccept(PlainSchema(PayloadType(p)).value, PlainValues(p), buf, buf[mid..]);
    TailAccepts(p, buf[mid..], rest);
  }

  lemma TailExtend(packetType: Byte, vs: seq<Value>, buf: Octets, more: Octets)
    requires DecodeTail(packetType, vs, buf).Parsed?
    ensures var d := DecodeTail(packetType, vs, buf);
      DecodeTail(packetType, vs, buf + more) == Parsed(d.value, d.rest + more)
  {
    if packetType == 1 {
      HandshakeExtend(buf, more);
    } else if packetType == 2 {
      CommandExtend(buf, more);
    }
  }

  lemma PayloadExtend(packetType: Byte, buf: Octets, more: Octets)
    requires DecodePayload(packetType, buf).Parsed?
    ensures var d := DecodePayload(packetType, buf);
      DecodePayload(packetType, buf + more) == Parsed(d.value, d.rest + more)
  {
    var schema := PlainSchema(packetType).value;
    FieldsExtend(schema, buf, more);
    TailExtend(packetType, DecodeFields(schema, buf).value, DecodeFields(schema, buf).rest, more);
  }

  // ---------------------------------------------------------------- packets

  lemma HeaderOfValues(h: Header)
    ensures AllShaped(HEADER, HeaderValues(h)) && HeaderOf(HeaderValues(h)) == h
  {
    HeaderShaped(h);
  }

  lemma ValuesOfHeader(vs: seq<Value>)
    requires AllShaped(HEADER, vs)
    ensures HeaderValues(HeaderOf(vs)) == vs
  {
  }

  /** Decoding undoes encoding and stops exactly where the packet ends. */
  lemma ParseEncode(p: Packet, suffix: Octets)
    requires Encodable(p)
    ensures Parse(Encode(p) + suffix) == Parsed(p, suffix)
  {
    Regroup(EncodeHeader(p.header), EncodePayload(p.payload), suffix);
    HeaderOfValues(p.header);
    HeaderShaped(p.header);
    FieldsRoundTrip(HEADER, HeaderValues(p.header), EncodePayload(p.payload) + suffix);
    PayloadRoundTrip(p.payload, suffix);
  }

  lemma ParseSound(buf: Octets)
    requires Parse(buf).Parsed?
    ensures Encodable(Parse(buf).value)
    ensures var d := Parse(buf); Consumed(buf, d.rest, Encode(d.value), PacketFlags(d.value))
  {
    var fields := DecodeFields(HEADER, buf);
    var h := HeaderOf(fields.value);
    var d := DecodePayload(h.packetType, fields.rest);
    FieldsSound(HEADER, buf);
    PayloadSound(h.packetType, fields.rest);
    ValuesOfHeader(fields.value);
    ConsumedThen(buf, fields.rest, d.rest, EncodeHeader(h), HeaderFlags(h),
                 EncodePayload(d.value), PayloadFlags(d.value));
  }

  lemma ParseAccepts(p: Packet, buf: Octets, rest: Octets)
    requires Encodable(p)
    requires Consumed(buf, rest, Encode(p), PacketFlags(p))
    ensures Parse(buf) == Parsed(p, rest)
  {
    hide Consumed, EncodePayload, PayloadFlags, DecodePayload, EncodeFields, FieldFlags, DecodeFields;
    HeaderShaped(p.header);
    HeaderOfValues(p.header);
    FlagsCover(HEADER, HeaderValues(p.header));
    var mid := |EncodeHeader(p.header)|;
    ConsumedSplit(buf, rest, EncodeHeader(p.header), HeaderFlags(p.header),
                  EncodePayload(p.payload), PayloadFlags(p.payload));
    FieldsAccept(HEADER, HeaderValues(p.header), buf, buf[mid..]);
    PayloadAccepts(p.payload, buf[mid..], rest);
  }

  lemma ParseExtend(buf: Octets, more: Octets)
    requires Parse(buf).Parsed?
    ensures Parse(buf + more) == Parsed(Parse(buf).value, Parse(buf).rest + more)
  {
    FieldsExtend(HEADER, buf, more);
    var fields := DecodeFields(HEADER, buf);
    PayloadExtend(HeaderOf(fields.value).packetType, fields.rest, more);
  }

  // ---------------------------------------------------------------- the promises

  /**
   Round trip, with any bytes after the packet, exactly when the header names the payload's
   type, every string is below 65536 bytes and every list below 2^32 elements.
   */
  lemma RoundTripIff(p: Packet, suffix: Octets)
    ensures Decode(Encode(p) + suffix) == Some(p) <==> Encodable(p)
  {
    if Encodable(p) {
      ParseEncode(p, suffix);
    } else if Parse(Encode(p) + suffix).Parsed? {
      ParseSound(Encode(p) + suffix);
    }
  }

  /** Packets are self-delimiting: no proper prefix of an encoding decodes at all. */
  lemma ProperPrefixFails(p: Packet, n: nat)
    requires Encodable(p)
    requires n < |Encode(p)|
    ensures Decode(Encode(p)[..n]) == None
  {
    hide Encode, Parse, Encodable;
    var prefix, more := Encode(p)[..n], Encode(p)[n..];
    if Parse(prefix).Parsed? {
      ParseExtend(prefix, more);
      assert prefix + more == Encode(p) + [];
      ParseEncode(p, []);
    }
  }

  /** Different packets never share an encoding, nor does one encoding start another. */
  lemma EncodingsIncomparable(p: Packet, q: Packet)
    requires Encodable(p) && Encodable(q)
    requires |Encode(p)| <= |Encode(q)| && Encode(q)[..|Encode(p)|] == Encode(p)
    ensures p == q
  {
    if |Encode(p)| < |Encode(q)| {
      ProperPrefixFails(q, |Encode(p)|);
    }
    assert Encode(p) + [] == Encode(p);
    ParseEncode(p, []);
    assert Encode(q) + [] == Encode(q) && Encode(q)[..|Encode(q)|] == Encode(q);
    ParseEncode(q, []);
  }

  /** The bytes that mean `p`: its encoding, but for flags, where any byte other than 0 serves as 1. */
  ghost predicate Means(b: Octets, p: Packet) {
    && |b| == |Encode(p)|
    && forall i :: 0 <= i < |b| ==>
         if i in FlagOffsets(p) then Encode(p)[i] == (if b[i] == 0 then 0 else 1) else b[i] == Encode(p)[i]
  }

  lemma FlagsCoverPacket(p: Packet)
    ensures |Encode(p)| == |PacketFlags(p)|
  {
    hide EncodeFields, FieldFlags, CommandSchema, CommandValues, CommandTag;
    HeaderShaped(p.header);
    FlagsCover(HEADER, HeaderValues(p.header));
    PlainShaped(p.payload);
    FlagsCover(PlainSchema(PayloadType(p.payload)).value, PlainValues(p.payload));
    match p.payload
    case HandshakePayload(m) =>
      HandshakeShaped(m);
      FlagsCover(HandshakeSchema(HandshakeTag(m)).value, HandshakeValues(m));
    case CommandPayload(_, _, _, _, m) =>
      CommandShaped(m);
      FlagsCover(CommandSchema(CommandTag(m)).value, CommandValues(m));
    case _ =>
  }

  lemma MeansIsSpelling(b: Octets, p: Packet)
    ensures Means(b, p) <==> Spells(b, Encode(p), PacketFlags(p))
  {
    hide Encode, PacketFlags;
    FlagsCoverPacket(p);
    assert forall i: nat :: i in FlagOffsets(p) <==> i < |PacketFlags(p)| && PacketFlags(p)[i];
  }

  /**
   The decoder, characterised: a buffer parses to `p` leaving `rest` exactly when `p` can be
   carried, the bytes before `rest` are as many as the encoding has, and they mean `p`.
   */
  lemma ParseIff(buf: Octets, p: Packet, rest: Octets)
    ensures Parse(buf) == Parsed(p, rest) <==>
            Encodable(p) && |buf| == |Encode(p)| + |rest| && buf[|Encode(p)|..] == rest && Means(buf[..|Encode(p)|], p)
  {
    hide Parse, Encode, PacketFlags, Encodable, Means;
    if |Encode(p)| <= |buf| {
      MeansIsSpelling(buf[..|Encode(p)|], p);
    }
    if Parse(buf) == Parsed(p, rest) {
      ParseSound(buf);
    } else if Encodable(p) && Consumed(buf, rest, Encode(p), PacketFlags(p)) {
      ParseAccepts(p, buf, rest);
    }
  }

  /** The exact preimage: the byte strings of its encoding's length that decode to `p` are those that mean it. */
  lemma PreimageIff(b: Octets, p: Packet)
    requires |b| == |Encode(p)|
    ensures Decode(b) == Some(p) <==> Encodable(p) && Means(b, p)
  {
    hide Parse, Encode, Encodable, Means;
    assert b[..|b|] == b && b[|b|..] == [];
    ParseIff(b, p, []);
    if Decode(b) == Some(p) {
      ParseIff(b, p, Parse(b).rest);
    }
  }

  /**
   What decodes re-encodes to exactly as many bytes as were read. They differ from those read at
   flag offsets only, and there only where a byte was neither 0 nor 1; the canonical bytes decode
   to the same packet again.
   */
  lemma DecodeNormalises(buf: Octets)
    requires Decode(buf).Some?
    ensures var p := Decode(buf).value;
      && Encodable(p)
      && |Encode(p)| <= |buf|
      && Parse(buf).rest == buf[|Encode(p)|..]
      && (forall i :: 0 <= i < |Encode(p)| && i !in FlagOffsets(p) ==> buf[i] == Encode(p)[i])
      && (forall i :: 0 <= i < |Encode(p)| && i in FlagOffsets(p) ==>
            Encode(p)[i] == (if buf[i] == 0 then 0 else 1))
      && Decode(Encode(p)) == Some(p)
  {
    hide Encode, FlagOffsets, Parse, Encodable;
    var p := Parse(buf).value;
    var n := |Encode(p)|;
    ParseIff(buf, p, Parse(buf).rest);
    assert forall i :: 0 <= i < n ==> buf[i] == buf[..n][i];
    RoundTripIff(p, []);
    assert Encode(p) + [] == Encode(p);
  }

  /** A snapshot of n entities is never announced by fewer than 25n bytes after its count. */
  lemma SnapshotBytes(buf: Octets)
    requires Decode(buf).Some? && Decode(buf).value.payload.SnapshotPayload?
    ensures |buf| >= 21 + 8 + 4 + 25 * |Decode(buf).value.payload.entities|
  {
    ParseSound(buf);
    var p := Decode(buf).value;
    HeaderShaped(p.header);
    HeaderSize(HeaderValues(p.header));
    SnapshotSize(p.payload);
  }

  lemma SnapshotSize(p: Payload)
    requires p.SnapshotPayload?
    ensures |EncodePayload(p)| == 8 + 4 + 25 * |p.entities|
  {
    PlainShaped(p);
    EntitiesLength(p.entities);
    var ks, vs := PlainSchema(3).value, PlainValues(p);
    assert |EncodeFields(ks[1..], vs[1..])| == 4 + 25 * |p.entities|;
  }

  lemma HeaderSize(vs: seq<Value>)
    requires AllShaped(HEADER, vs)
    ensures |EncodeFields(HEADER, vs)| == 21
  {
    var k1 := HEADER[1..];
    var k2 := k1[1..];
    var k3 := k2[1..];
    assert k3 == [Uint(1)];
    assert |EncodeFields(k3, vs[1..][1..][1..])| == 1;
    assert |EncodeFields(k2, vs[1..][1..])| == 9;
    assert |EncodeFields(k1, vs[1..])| == 17;
  }
}
