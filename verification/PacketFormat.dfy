/** Whole packets: header, discriminator and payload, encoded and decoded through the field layouts. */
module PacketFormat {
  import opened Words
  import opened Wrappers
  import opened Bytes
  import opened Protocol
  import opened WireFormat
  import opened CommandFormat

  // ---------------------------------------------------------------- commands

  function EncodeCommand(c: Command): Octets {
    CommandShaped(c);
    [CommandTag(c)] + EncodeFields(CommandSchema(CommandTag(c)).value, CommandValues(c))
  }

  function CommandFlags(c: Command): seq<bool> {
    CommandShaped(c);
    [false] + FieldFlags(CommandSchema(CommandTag(c)).value, CommandValues(c))
  }

  ghost predicate FitsCommand(c: Command) {
    CommandShaped(c);
    AllFit(CommandSchema(CommandTag(c)).value, CommandValues(c))
  }

  ghost predicate StandsFor(tag: Byte, vs: seq<Value>, c: Command) {
    CommandTag(c) == tag && CommandValues(c) == vs
  }

  ghost function DecodeCommand(buf: Octets): Parsed<Command> {
    if buf == [] || CommandSchema(buf[0]).None? then Fail
    else
      match DecodeFields(CommandSchema(buf[0]).value, buf[1..])
      case Fail => Fail
      case Parsed(vs, rest) => CommandFrom(buf[0], vs, rest)
  }

  /** The one command, if any, with this discriminator and these field values. */
  ghost function CommandFrom(tag: Byte, vs: seq<Value>, rest: Octets): Parsed<Command> {
    if exists c :: StandsFor(tag, vs, c) then
      var c :| StandsFor(tag, vs, c);
      Parsed(c, rest)
    else Fail
  }

  // ---------------------------------------------------------------- handshakes

  function HandshakeSchema(tag: Byte): Option<seq<Kind>> {
    match tag
    case 1 => Some([Uint(4), Str])
    case 2 => Some([Flag, Uint(8), Uint(8), Uint(8), OptStr])
    case 3 => Some([Uint(8), Str])
    case _ => None
  }

  function HandshakeTag(m: Handshake): Byte {
    match m
    case ClientHello(_, _) => 1
    case ServerHello(_, _, _, _, _) => 2
    case Disconnect(_, _) => 3
  }

  function HandshakeValues(m: Handshake): seq<Value> {
    match m
    case ClientHello(version, name) => [Num(version), TextOf(name)]
    case ServerHello(accepted, session, tick, reason, token) =>
      [Bool(accepted), Num(session), Num(tick), Num(token), MaybeText(reason)]
    case Disconnect(session, reason) => [Num(session), TextOf(reason)]
  }

  lemma HandshakeShaped(m: Handshake)
    ensures HandshakeSchema(HandshakeTag(m)).Some?
    ensures AllShaped(HandshakeSchema(HandshakeTag(m)).value, HandshakeValues(m))
  {
    Limits();
  }

  function EncodeHandshake(m: Handshake): Octets {
    HandshakeShaped(m);
    [HandshakeTag(m)] + EncodeFields(HandshakeSchema(HandshakeTag(m)).value, HandshakeValues(m))
  }

  function HandshakeFlags(m: Handshake): seq<bool> {
    HandshakeShaped(m);
    [false] + FieldFlags(HandshakeSchema(HandshakeTag(m)).value, HandshakeValues(m))
  }

  ghost predicate FitsHandshake(m: Handshake) {
    HandshakeShaped(m);
    AllFit(HandshakeSchema(HandshakeTag(m)).value, HandshakeValues(m))
  }

  function DecodeHandshake(buf: Octets): Parsed<Handshake> {
    Limits();
    if buf == [] || HandshakeSchema(buf[0]).None? then Fail
    else
      match DecodeFields(HandshakeSchema(buf[0]).value, buf[1..])
      case Fail => Fail
      case Parsed(vs, rest) =>
        HandshakeOf(buf[0], vs, rest)
  }

  function HandshakeOf(tag: Byte, vs: seq<Value>, rest: Octets): Parsed<Handshake> {
    Limits();
    if HandshakeSchema(tag).None? || !AllShaped(HandshakeSchema(tag).value, vs) then Fail
    else
      match tag
      case 1 => Parsed(ClientHello(vs[0].n, vs[1].s), rest)
      case 2 => Parsed(ServerHello(vs[0].b, vs[1].n, vs[2].n, vs[4].text, vs[3].n), rest)
      case _ => Parsed(Disconnect(vs[0].n, vs[1].s), rest)
  }

  // ---------------------------------------------------------------- payloads

  function PayloadType(p: Payload): Byte {
    match p
    case HandshakePayload(_) => 1
    case CommandPayload(_, _, _, _, _) => 2
    case SnapshotPayload(_, _) => 3
    case DeltaPayload(_, _, _, _) => 4
    case PingPayload(_) => 5
    case PongPayload(_, _) => 6
  }

  /** The plain fields of a payload: all of it, except what follows in a handshake or command. */
  function PlainSchema(packetType: Byte): Option<seq<Kind>> {
    match packetType
    case 1 => Some([])
    case 2 => Some([Uint(8), Uint(8), Uint(8), Uint(8)])
    case 3 => Some([Uint(8), Entities])
    case 4 => Some([Uint(8), Uint(8), Entities, Ids])
    case 5 => Some([Uint(8)])
    case 6 => Some([Uint(8), Uint(8)])
    case _ => None
  }

  function PlainValues(p: Payload): seq<Value> {
    match p
    case HandshakePayload(_) => []
    case CommandPayload(session, sequence, tick, token, _) => [Num(session), Num(sequence), Num(tick), Num(token)]
    case SnapshotPayload(tick, entities) => [Num(tick), EntityList(entities)]
    case DeltaPayload(base, target, updated, removed) =>
      [Num(base), Num(target), EntityList(updated), IdList(removed)]
    case PingPayload(timestamp) => [Num(timestamp)]
    case PongPayload(timestamp, tick) => [Num(timestamp), Num(tick)]
  }

  lemma PlainShaped(p: Payload)
    ensures PlainSchema(PayloadType(p)).Some?
    ensures AllShaped(PlainSchema(PayloadType(p)).value, PlainValues(p))
  {
    Limits();
  }

  function EncodePlain(p: Payload): Octets {
    PlainShaped(p);
    EncodeFields(PlainSchema(PayloadType(p)).value, PlainValues(p))
  }

  /** What follows the plain fields. */
  function EncodeTail(p: Payload): Octets {
    match p
    case HandshakePayload(m) => EncodeHandshake(m)
    case CommandPayload(_, _, _, _, c) => EncodeCommand(c)
    case _ => []
  }

  function EncodePayload(p: Payload): Octets {
    EncodePlain(p) + EncodeTail(p)
  }

  function PlainFlags(p: Payload): seq<bool> {
    PlainShaped(p);
    FieldFlags(PlainSchema(PayloadType(p)).value, PlainValues(p))
  }

  function TailFlags(p: Payload): seq<bool> {
    match p
    case HandshakePayload(m) => HandshakeFlags(m)
    case CommandPayload(_, _, _, _, c) => CommandFlags(c)
    case _ => []
  }

  function PayloadFlags(p: Payload): seq<bool> {
    PlainFlags(p) + TailFlags(p)
  }

  ghost predicate FitsPayload(p: Payload) {
    PlainShaped(p);
    && AllFit(PlainSchema(PayloadType(p)).value, PlainValues(p))
    && (p.HandshakePayload? ==> FitsHandshake(p.message))
    && (p.CommandPayload? ==> FitsCommand(p.command))
  }

  ghost function DecodeTail(packetType: Byte, vs: seq<Value>, buf: Octets): Parsed<Payload> {
    Limits();
    if PlainSchema(packetType).None? || !AllShaped(PlainSchema(packetType).value, vs) then Fail
    else
      match packetType
      case 1 =>
        (match DecodeHandshake(buf) case Fail => Fail case Parsed(m, rest) => Parsed(HandshakePayload(m), rest))
      case 2 =>
        (match DecodeCommand(buf)
         case Fail => Fail
         case Parsed(c, rest) => Parsed(CommandPayload(vs[0].n, vs[1].n, vs[2].n, vs[3].n, c), rest))
      case 3 => Parsed(SnapshotPayload(vs[0].n, vs[1].entities), buf)
      case 4 => Parsed(DeltaPayload(vs[0].n, vs[1].n, vs[2].entities, vs[3].ids), buf)
      case 5 => Parsed(PingPayload(vs[0].n), buf)
      case _ => Parsed(PongPayload(vs[0].n, vs[1].n), buf)
  }

  ghost function DecodePayload(packetType: Byte, buf: Octets): Parsed<Payload> {
    match PlainSchema(packetType)
    case None => Fail
    case Some(schema) =>
      match DecodeFields(schema, buf)
      case Fail => Fail
      case Parsed(vs, rest) => DecodeTail(packetType, vs, rest)
  }

  // ---------------------------------------------------------------- packets

  const HEADER: seq<Kind> := [Uint(4), Uint(8), Uint(8), Uint(1)]

  function HeaderValues(h: Header): seq<Value> {
    [Num(h.protocolVersion), Num(h.session), Num(h.sequence), Num(h.packetType)]
  }

  lemma HeaderShaped(h: Header)
    ensures AllShaped(HEADER, HeaderValues(h)) && AllFit(HEADER, HeaderValues(h))
  {
    Limits();
  }

  function HeaderOf(vs: seq<Value>): Header
    requires AllShaped(HEADER, vs)
  {
    Limits();
    Header(vs[0].n, vs[1].n, vs[2].n, vs[3].n)
  }

  function EncodeHeader(h: Header): Octets {
    HeaderShaped(h);
    EncodeFields(HEADER, HeaderValues(h))
  }

  function Encode(p: Packet): Octets {
    EncodeHeader(p.header) + EncodePayload(p.payload)
  }

  function HeaderFlags(h: Header): seq<bool> {
    HeaderShaped(h);
    FieldFlags(HEADER, HeaderValues(h))
  }

  /** Which bytes of a packet's encoding are flags. */
  function PacketFlags(p: Packet): seq<bool> {
    HeaderFlags(p.header) + PayloadFlags(p.payload)
  }

  /** The same as offsets: boolean fields, presence bytes of options, and entities' activity bytes. */
  function FlagOffsets(p: Packet): set<nat> {
    set i: nat | i < |PacketFlags(p)| && PacketFlags(p)[i]
  }

  /** What the wire can carry: the header names the payload's type, and lengths fit their prefixes. */
  ghost predicate Encodable(p: Packet) {
    p.header.packetType == PayloadType(p.payload) && FitsPayload(p.payload)
  }

  ghost function Parse(buf: Octets): Parsed<Packet> {
    match DecodeFields(HEADER, buf)
    case Fail => Fail
    case Parsed(vs, rest) =>
      if !AllShaped(HEADER, vs) then Fail
      else
        match DecodePayload(HeaderOf(vs).packetType, rest)
        case Fail => Fail
        case Parsed(p, rest') => Parsed(Packet(HeaderOf(vs), p), rest')
  }

  /** Trailing bytes are ignored; every failure is one serialization error. */
  ghost function Decode(buf: Octets): Option<Packet> {
    match Parse(buf)
    case Fail => None
    case Parsed(p, _) => Some(p)
  }
}
