/**
 The wire format as a description: every message is a list of typed fields behind a
 discriminator byte. One encoder and one decoder interpret the description.
 */
module WireFormat {
  import opened Words
  import opened Wrappers
  import opened Bytes
  import opened Protocol

  // ---------------------------------------------------------------- fields

  datatype Kind =
    | Uint(width: nat)
    | Code(last: Byte)
    | Flag
    | Str
    | OptId
    | OptStr
    | Order
    | Entities
    | Ids

  datatype Value =
    | Num(n: nat)
    | Bool(b: bool)
    | TextOf(s: Text)
    | MaybeId(id: Option<u64>)
    | MaybeText(text: Option<Text>)
    | OrderOf(order: RobotOrder)
    | EntityList(entities: seq<EntitySnapshot>)
    | IdList(ids: seq<u64>)

  /** The value has the shape the kind asks for. */
  predicate Shaped(k: Kind, v: Value) {
    match k
    case Uint(w) => v.Num? && v.n < Limit(w)
    case Code(last) => v.Num? && 1 <= v.n <= last
    case Flag => v.Bool?
    case Str => v.TextOf?
    case OptId => v.MaybeId?
    case OptStr => v.MaybeText?
    case Order => v.OrderOf?
    case Entities => v.EntityList?
    case Ids => v.IdList?
  }

  /** Lengths fit their prefixes: strings in 16 bits, element counts in 32. */
  predicate Fits(k: Kind, v: Value) {
    && Shaped(k, v)
    && (v.TextOf? ==> |v.s| < 0x1_0000)
    && (v.MaybeText? && v.text.Some? ==> |v.text.value| < 0x1_0000)
    && (v.EntityList? ==> |v.entities| < 0x1_0000_0000)
    && (v.IdList? ==> |v.ids| < 0x1_0000_0000)
  }

  function FlagByte(b: bool): Byte {
    if b then 1 else 0
  }

  /** The length prefix keeps only the low 16 bits of the length. */
  function EncodeText(s: Text): Octets {
    LE(|s| % 0x1_0000, 2) + s
  }

  function EncodeVec3(v: Vec3): Octets {
    LE(v.x, 4) + LE(v.y, 4) + LE(v.z, 4)
  }

  function EncodeEntity(e: EntitySnapshot): Octets {
    LE(e.id, 8) + LE(e.faction, 4) + LE(e.region, 4) + [FlagByte(e.active)] + LE(e.flags, 8)
  }

  function EncodeEntities(es: seq<EntitySnapshot>): Octets {
    if es == [] then [] else EncodeEntity(es[0]) + EncodeEntities(es[1..])
  }

  function EncodeIds(ids: seq<u64>): Octets {
    if ids == [] then [] else LE(ids[0], 8) + EncodeIds(ids[1..])
  }

  function EncodeOrder(o: RobotOrder): Octets {
    match o
    case Follow(target) => [1] + LE(target, 8)
    case Guard(position) => [2] + EncodeVec3(position)
    case Attack(target) => [3] + LE(target, 8)
    case MoveTo(position) => [4] + EncodeVec3(position)
    case ReturnToBase => [5]
  }

  function EncodeOptId(id: Option<u64>): Octets {
    if id.Some? then [1] + LE(id.value, 8) else [0]
  }

  function EncodeOptText(text: Option<Text>): Octets {
    if text.Some? then [1] + EncodeText(text.value) else [0]
  }

  /** The count keeps only its low 32 bits. */
  function EncodeEntityList(es: seq<EntitySnapshot>): Octets {
    LE(|es| % 0x1_0000_0000, 4) + EncodeEntities(es)
  }

  function EncodeIdList(ids: seq<u64>): Octets {
    LE(|ids| % 0x1_0000_0000, 4) + EncodeIds(ids)
  }

  function EncodeValue(k: Kind, v: Value): Octets
    requires Shaped(k, v)
  {
    match k
    case Uint(w) => LE(v.n, w)
    case Code(_) => [v.n]
    case Flag => [FlagByte(v.b)]
    case Str => EncodeText(v.s)
    case OptId => EncodeOptId(v.id)
    case OptStr => EncodeOptText(v.text)
    case Order => EncodeOrder(v.order)
    case Entities => EncodeEntityList(v.entities)
    case Ids => EncodeIdList(v.ids)
  }

  // ---------------------------------------------------------------- flag bytes

  /** Which bytes of an encoding are flags, read as "not zero": booleans, presence bytes and entity activity. */
  function Fixed(n: nat): seq<bool> {
    seq(n, _ => false)
  }

  function EntityFlags(): (flags: seq<bool>)
    ensures |flags| == 25
  {
    Fixed(16) + [true] + Fixed(8)
  }

  function EntitiesFlags(n: nat): (flags: seq<bool>)
    ensures |flags| == 25 * n
  {
    if n == 0 then [] else EntityFlags() + EntitiesFlags(n - 1)
  }

  function OptIdFlags(id: Option<u64>): seq<bool> {
    if id.Some? then [true] + Fixed(8) else [true]
  }

  function OptTextFlags(text: Option<Text>): seq<bool> {
    if text.Some? then [true] + Fixed(|EncodeText(text.value)|) else [true]
  }

  function ValueFlags(k: Kind, v: Value): seq<bool>
    requires Shaped(k, v)
  {
    match k
    case Flag => [true]
    case OptId => OptIdFlags(v.id)
    case OptStr => OptTextFlags(v.text)
    case Entities => Fixed(4) + EntitiesFlags(|v.entities|)
    case _ => Fixed(|EncodeValue(k, v)|)
  }

  /** A parse either fails or yields a value and the bytes that follow it. */
  datatype Parsed<+T> = Fail | Parsed(value: T, rest: Octets)

  function DecodeUint(w: nat, buf: Octets): Parsed<nat> {
    if |buf| < w then Fail else Parsed(FromLE(buf[..w]), buf[w..])
  }

  function DecodeFlag(buf: Octets): Parsed<bool> {
    if buf == [] then Fail else Parsed(buf[0] != 0, buf[1..])
  }

  function DecodeText(buf: Octets): Parsed<Text> {
    if |buf| < 2 || |buf| < 2 + FromLE(buf[..2]) || !Utf8(buf[2..2 + FromLE(buf[..2])]) then Fail
    else Parsed(buf[2..2 + FromLE(buf[..2])], buf[2 + FromLE(buf[..2])..])
  }

  /** The unsigned integer in a slice of at most eight bytes. */
  function Field(buf: Octets, lo: nat, hi: nat): (n: nat)
    requires lo <= hi <= |buf|
    ensures n < Limit(hi - lo)
  {
    LEOfFromLE(buf[lo..hi]);
    FromLE(buf[lo..hi])
  }

  function DecodeVec3(buf: Octets): Parsed<Vec3> {
    Limits();
    if |buf| < 12 then Fail
    else Parsed(Vec3(Field(buf, 0, 4), Field(buf, 4, 8), Field(buf, 8, 12)), buf[12..])
  }

  /** An entity is 25 bytes. */
  function DecodeEntity(buf: Octets): Parsed<EntitySnapshot> {
    Limits();
    if |buf| < 25 then Fail
    else
      Parsed(EntitySnapshot(Field(buf, 0, 8), Field(buf, 8, 12), Field(buf, 12, 16), buf[16] != 0, Field(buf, 17, 25)),
             buf[25..])
  }

  function DecodeEntities(n: nat, buf: Octets): Parsed<seq<EntitySnapshot>> {
    if n == 0 then Parsed([], buf)
    else
      match DecodeEntity(buf)
      case Fail => Fail
      case Parsed(e, rest) =>
        match DecodeEntities(n - 1, rest)
        case Fail => Fail
        case Parsed(es, rest') => Parsed([e] + es, rest')
  }

  function DecodeId(buf: Octets): Parsed<u64> {
    Limits();
    if |buf| < 8 then Fail else Parsed(Field(buf, 0, 8), buf[8..])
  }

  function DecodeIds(n: nat, buf: Octets): Parsed<seq<u64>> {
    if n == 0 then Parsed([], buf)
    else
      match DecodeId(buf)
      case Fail => Fail
      case Parsed(id, rest) =>
        match DecodeIds(n - 1, rest)
        case Fail => Fail
        case Parsed(ids, rest') => Parsed([id] + ids, rest')
  }

  function DecodeOrder(buf: Octets): Parsed<RobotOrder> {
    if buf == [] then Fail
    else if buf[0] == 1 || buf[0] == 3 then
      match DecodeId(buf[1..])
      case Fail => Fail
      case Parsed(id, rest) => Parsed(if buf[0] == 1 then Follow(id) else Attack(id), rest)
    else if buf[0] == 2 || buf[0] == 4 then
      match DecodeVec3(buf[1..])
      case Fail => Fail
      case Parsed(v, rest) => Parsed(if buf[0] == 2 then Guard(v) else MoveTo(v), rest)
    else if buf[0] == 5 then Parsed(ReturnToBase, buf[1..])
    else Fail
  }

  function DecodeOptId(buf: Octets): Parsed<Option<u64>> {
    match DecodeFlag(buf)
    case Fail => Fail
    case Parsed(present, rest) =>
      if !present then Parsed(None, rest)
      else match DecodeId(rest) case Fail => Fail case Parsed(id, rest') => Parsed(Some(id), rest')
  }

  function DecodeOptText(buf: Octets): Parsed<Option<Text>> {
    match DecodeFlag(buf)
    case Fail => Fail
    case Parsed(present, rest) =>
      if !present then Parsed(None, rest)
      else match DecodeText(rest) case Fail => Fail case Parsed(s, rest') => Parsed(Some(s), rest')
  }

  function DecodeEntityList(buf: Octets): Parsed<seq<EntitySnapshot>> {
    match DecodeUint(4, buf)
    case Fail => Fail
    case Parsed(n, rest) => DecodeEntities(n, rest)
  }

  function DecodeIdList(buf: Octets): Parsed<seq<u64>> {
    match DecodeUint(4, buf)
    case Fail => Fail
    case Parsed(n, rest) => DecodeIds(n, rest)
  }

  function DecodeValue(k: Kind, buf: Octets): Parsed<Value> {
    match k
    case Uint(w) => (match DecodeUint(w, buf) case Fail => Fail case Parsed(n, rest) => Parsed(Num(n), rest))
    case Code(last) =>
      if buf == [] || !(1 <= buf[0] <= last) then Fail else Parsed(Num(buf[0]), buf[1..])
    case Flag => (match DecodeFlag(buf) case Fail => Fail case Parsed(b, rest) => Parsed(Bool(b), rest))
    case Str => (match DecodeText(buf) case Fail => Fail case Parsed(s, rest) => Parsed(TextOf(s), rest))
    case OptId => (match DecodeOptId(buf) case Fail => Fail case Parsed(id, rest) => Parsed(MaybeId(id), rest))
    case OptStr => (match DecodeOptText(buf) case Fail => Fail case Parsed(s, rest) => Parsed(MaybeText(s), rest))
    case Order => (match DecodeOrder(buf) case Fail => Fail case Parsed(o, rest) => Parsed(OrderOf(o), rest))
    case Entities =>
      (match DecodeEntityList(buf) case Fail => Fail case Parsed(es, rest) => Parsed(EntityList(es), rest))
    case Ids => (match DecodeIdList(buf) case Fail => Fail case Parsed(ids, rest) => Parsed(IdList(ids), rest))
  }

  // ---------------------------------------------------------------- records

  predicate AllShaped(ks: seq<Kind>, vs: seq<Value>) {
    |ks| == |vs| && forall i :: 0 <= i < |ks| ==> Shaped(ks[i], vs[i])
  }

  predicate AllFit(ks: seq<Kind>, vs: seq<Value>) {
    |ks| == |vs| && forall i :: 0 <= i < |ks| ==> Fits(ks[i], vs[i])
  }

  function EncodeFields(ks: seq<Kind>, vs: seq<Value>): Octets
    requires AllShaped(ks, vs)
  {
    if ks == [] then [] else EncodeValue(ks[0], vs[0]) + EncodeFields(ks[1..], vs[1..])
  }

  function FieldFlags(ks: seq<Kind>, vs: seq<Value>): seq<bool>
    requires AllShaped(ks, vs)
  {
    if ks == [] then [] else ValueFlags(ks[0], vs[0]) + FieldFlags(ks[1..], vs[1..])
  }

  function DecodeFields(ks: seq<Kind>, buf: Octets): Parsed<seq<Value>> {
    if ks == [] then Parsed([], buf)
    else
      match DecodeValue(ks[0], buf)
      case Fail => Fail
      case Parsed(v, rest) =>
        match DecodeFields(ks[1..], rest)
        case Fail => Fail
        case Parsed(vs, rest') => Parsed([v] + vs, rest')
  }
}
