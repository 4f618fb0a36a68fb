/** The decoder: bounded reads that advance a cursor over a received buffer. */
module PacketReaders {
  import opened Words
  import opened Wrappers
  import opened Bytes
  import opened Protocol
  import opened WireFormat
  import opened WireLaws
  import opened CommandFormat
  import opened PacketFormat
  import opened CodecLaws

  datatype ProtocolError = SerializationError

  /** A read from one cursor to the next agrees with a parse of the bytes at the first. */
  ghost predicate Agrees<T>(buf: Octets, r: Result<T, ProtocolError>, next: nat, d: Parsed<T>) {
    && next <= |buf|
    && (r.Ok? <==> d.Parsed?)
    && (r.Ok? ==> d == Parsed(r.value, buf[next..]))
  }

  /** The same, for a read that yields one field of a record. */
  ghost predicate Reads(buf: Octets, cursor: nat, next: nat, k: Kind, ok: bool, v: Value)
    requires cursor <= |buf|
  {
    && next <= |buf|
    && DecodeValue(k, buf[cursor..]) == if ok then Parsed(v, buf[next..]) else Fail
  }

  // ---------------------------------------------------------------- integers

  method ReadUint(buf: Octets, cursor: nat, width: nat) returns (r: Result<nat, ProtocolError>, next: nat)
    requires cursor <= |buf|
    ensures Agrees(buf, r, next, DecodeUint(width, buf[cursor..]))
    ensures r.Ok? ==> r.value < Limit(width)
  {
    if cursor + width > |buf| {
      return Err(SerializationError), cursor;
    }
    assert buf[cursor..][..width] == buf[cursor..cursor + width];
    assert buf[cursor..][width..] == buf[cursor + width..];
    LEOfFromLE(buf[cursor..cursor + width]);
    return Ok(FromLE(buf[cursor..cursor + width])), cursor + width;
  }

  method ReadU8(buf: Octets, cursor: nat) returns (r: Result<Byte, ProtocolError>, next: nat)
    requires cursor <= |buf|
    ensures Reads(buf, cursor, next, Uint(1), r.Ok?, if r.Ok? then Num(r.value) else Num(0))
  {
    Limits();
    var n;
    n, next :- ReadUint(buf, cursor, 1);
    r := Ok(n);
  }

  method ReadU16(buf: Octets, cursor: nat) returns (r: Result<u16, ProtocolError>, next: nat)
    requires cursor <= |buf|
    ensures Reads(buf, cursor, next, Uint(2), r.Ok?, if r.Ok? then Num(r.value) else Num(0))
  {
    Limits();
    var n;
    n, next :- ReadUint(buf, cursor, 2);
    r := Ok(n);
  }

  method ReadU32(buf: Octets, cursor: nat) returns (r: Result<u32, ProtocolError>, next: nat)
    requires cursor <= |buf|
    ensures Reads(buf, cursor, next, Uint(4), r.Ok?, if r.Ok? then Num(r.value) else Num(0))
  {
    Limits();
    var n;
    n, next :- ReadUint(buf, cursor, 4);
    r := Ok(n);
  }

  method ReadU64(buf: Octets, cursor: nat) returns (r: Result<u64, ProtocolError>, next: nat)
    requires cursor <= |buf|
    ensures Reads(buf, cursor, next, Uint(8), r.Ok?, if r.Ok? then Num(r.value) else Num(0))
  {
    Limits();
    var n;
    n, next :- ReadUint(buf, cursor, 8);
    r := Ok(n);
  }

  method ReadId(buf: Octets, cursor: nat) returns (r: Result<u64, ProtocolError>, next: nat)
    requires cursor <= |buf|
    ensures Agrees(buf, r, next, DecodeId(buf[cursor..]))
  {
    Limits();
    var n;
    n, next :- ReadUint(buf, cursor, 8);
    assert buf[cursor..][..8] == buf[cursor..][0..8];
    r := Ok(n);
  }

  method ReadByte(buf: Octets, cursor: nat) returns (r: Result<Byte, ProtocolError>, next: nat)
    requires cursor <= |buf|
    ensures next <= |buf|
    ensures r.Ok? <==> buf[cursor..] != []
    ensures r.Ok? ==> r.value == buf[cursor..][0] && buf[next..] == buf[cursor..][1..]
  {
    if cursor >= |buf| {
      return Err(SerializationError), cursor;
    }
    return Ok(buf[cursor]), cursor + 1;
  }

  method ReadBool(buf: Octets, cursor: nat) returns (r: Result<bool, ProtocolError>, next: nat)
    requires cursor <= |buf|
    ensures Agrees(buf, r, next, DecodeFlag(buf[cursor..]))
  {
    var b;
    b, next :- ReadByte(buf, cursor);
    r := Ok(b != 0);
  }

  // ---------------------------------------------------------------- strings and compounds

  method ReadText(buf: Octets, cursor: nat) returns (r: Result<Text, ProtocolError>, next: nat)
    requires cursor <= |buf|
    ensures Agrees(buf, r, next, DecodeText(buf[cursor..]))
  {
    var len;
    len, next :- ReadUint(buf, cursor, 2);
    ghost var start := buf[cursor..];
    assert |buf[next..]| == |start[2..]|;
    assert next == cursor + 2;
    if next + len > |buf| {
      return Err(SerializationError), next;
    }
    assert |start| >= 2 + len;
    assert start[2..] == buf[next..];
    assert buf[next..next + len] == start[2..2 + len];
    assert buf[next + len..] == start[2 + len..];
    if !Utf8(buf[next..next + len]) {
      return Err(SerializationError), next;
    }
    var s: Text := buf[next..next + len];
    return Ok(s), next + len;
  }

  method ReadVec3(buf: Octets, cursor: nat) returns (r: Result<Vec3, ProtocolError>, next: nat)
    requires cursor <= |buf|
    ensures Agrees(buf, r, next, DecodeVec3(buf[cursor..]))
  {
    next := cursor;
    Limits();
    ghost var start := buf[cursor..];
    var x, c1 :- ReadUint(buf, cursor, 4);
    var y, c2 :- ReadUint(buf, c1, 4);
    var z, c3 :- ReadUint(buf, c2, 4);
    assert start[..4] == start[0..4] && start[4..][..4] == start[4..8] && start[8..][..4] == start[8..12];
    return Ok(Vec3(x, y, z)), c3;
  }

  method ReadEntity(buf: Octets, cursor: nat) returns (r: Result<EntitySnapshot, ProtocolError>, next: nat)
    requires cursor <= |buf|
    ensures Agrees(buf, r, next, DecodeEntity(buf[cursor..]))
  {
    next := cursor;
    Limits();
    ghost var start := buf[cursor..];
    var id, c1 :- ReadUint(buf, cursor, 8);
    var faction, c2 :- ReadUint(buf, c1, 4);
    var region, c3 :- ReadUint(buf, c2, 4);
    var active, c4 :- ReadByte(buf, c3);
    var flags, c5 :- ReadUint(buf, c4, 8);
    assert start[..8] == start[0..8] && start[8..][..4] == start[8..12] && start[12..][..4] == start[12..16];
    assert start[17..][..8] == start[17..25];
    return Ok(EntitySnapshot(id, faction, region, active != 0, flags)), c5;
  }

  method ReadRobotOrder(buf: Octets, cursor: nat) returns (r: Result<RobotOrder, ProtocolError>, next: nat)
    requires cursor <= |buf|
    ensures Agrees(buf, r, next, DecodeOrder(buf[cursor..]))
  {
    next := cursor;
    var code, c1 :- ReadByte(buf, cursor);
    if code == 1 {
      var target, c2 :- ReadId(buf, c1);
      return Ok(Follow(target)), c2;
    } else if code == 2 {
      var position, c2 :- ReadVec3(buf, c1);
      return Ok(Guard(position)), c2;
    } else if code == 3 {
      var target, c2 :- ReadId(buf, c1);
      return Ok(Attack(target)), c2;
    } else if code == 4 {
      var position, c2 :- ReadVec3(buf, c1);
      return Ok(MoveTo(position)), c2;
    } else if code == 5 {
      return Ok(ReturnToBase), c1;
    }
    return Err(SerializationError), c1;
  }

  method ReadOptionalId(buf: Octets, cursor: nat) returns (r: Result<Option<u64>, ProtocolError>, next: nat)
    requires cursor <= |buf|
    ensures Agrees(buf, r, next, DecodeOptId(buf[cursor..]))
  {
    next := cursor;
    var present, c1 :- ReadBool(buf, cursor);
    if present {
      var id, c2 :- ReadId(buf, c1);
      return Ok(Some(id)), c2;
    }
    return Ok(None), c1;
  }

  method ReadOptionalText(buf: Octets, cursor: nat) returns (r: Result<Option<Text>, ProtocolError>, next: nat)
    requires cursor <= |buf|
    ensures Agrees(buf, r, next, DecodeOptText(buf[cursor..]))
  {
    next := cursor;
    var present, c1 :- ReadBool(buf, cursor);
    if present {
      var s, c2 :- ReadText(buf, c1);
      return Ok(Some(s)), c2;
    }
    return Ok(None), c1;
  }

  /** A counted loop that has read `done` when `tail` is what the rest parses to. */
  ghost function AfterList<T>(done: seq<T>, tail: Parsed<seq<T>>): Parsed<seq<T>> {
    match tail
    case Fail => Fail
    case Parsed(xs, rest) => Parsed(done + xs, rest)
  }

  lemma AfterNone<T>(tail: Parsed<seq<T>>)
    ensures AfterList([], tail) == tail
  {
    if tail.Parsed? {
      assert [] + tail.value == tail.value;
    }
  }

  lemma AfterOne<T>(done: seq<T>, x: T, tail: Parsed<seq<T>>)
    ensures tail.Parsed? ==>
              AfterList(done, Parsed([x] + tail.value, tail.rest)) == AfterList(done + [x], tail)
  {
    if tail.Parsed? {
      assert done + ([x] + tail.value) == done + [x] + tail.value;
    }
  }

  method ReadEntityList(buf: Octets, cursor: nat)
    returns (r: Result<seq<EntitySnapshot>, ProtocolError>, next: nat)
    requires cursor <= |buf|
    ensures Agrees(buf, r, next, DecodeEntityList(buf[cursor..]))
  {
    var count;
    count, next :- ReadUint(buf, cursor, 4);
    ghost var goal := DecodeEntities(count, buf[next..]);
    AfterNone(goal);
    var entities: seq<EntitySnapshot> := [];
    for i := 0 to count
      invariant next <= |buf|
      invariant goal == AfterList(entities, DecodeEntities(count - i, buf[next..]))
    {
      var e;
      e, next :- ReadEntity(buf, next);
      AfterOne(entities, e, DecodeEntities(count - i - 1, buf[next..]));
      entities := entities + [e];
    }
    assert entities + [] == entities;
    r := Ok(entities);
  }

  method ReadIdList(buf: Octets, cursor: nat) returns (r: Result<seq<u64>, ProtocolError>, next: nat)
    requires cursor <= |buf|
    ensures Agrees(buf, r, next, DecodeIdList(buf[cursor..]))
  {
    var count;
    count, next :- ReadUint(buf, cursor, 4);
    ghost var goal := DecodeIds(count, buf[next..]);
    AfterNone(goal);
    var ids: seq<u64> := [];
    for i := 0 to count
      invariant next <= |buf|
      invariant goal == AfterList(ids, DecodeIds(count - i, buf[next..]))
    {
      var id;
      id, next :- ReadId(buf, next);
      AfterOne(ids, id, DecodeIds(count - i - 1, buf[next..]));
      ids := ids + [id];
    }
    assert ids + [] == ids;
    r := Ok(ids);
  }

  // ---------------------------------------------------------------- fields of a record

  method ReadCode(buf: Octets, cursor: nat, last: Byte) returns (r: Result<Byte, ProtocolError>, next: nat)
    requires cursor <= |buf|
    ensures Reads(buf, cursor, next, Code(last), r.Ok?, if r.Ok? then Num(r.value) else Num(0))
    ensures r.Ok? ==> 1 <= r.value <= last
  {
    var code;
    code, next :- ReadByte(buf, cursor);
    if code < 1 || code > last {
      return Err(SerializationError), next;
    }
    r := Ok(code);
  }

  method ReadFlag(buf: Octets, cursor: nat) returns (r: Result<bool, ProtocolError>, next: nat)
    requires cursor <= |buf|
    ensures Reads(buf, cursor, next, Flag, r.Ok?, if r.Ok? then Bool(r.value) else Num(0))
  {
    r, next := ReadBool(buf, cursor);
  }

  method ReadString(buf: Octets, cursor: nat) returns (r: Result<Text, ProtocolError>, next: nat)
    requires cursor <= |buf|
    ensures Reads(buf, cursor, next, Str, r.Ok?, if r.Ok? then TextOf(r.value) else Num(0))
  {
    r, next := ReadText(buf, cursor);
  }

  method ReadOptId(buf: Octets, cursor: nat) returns (r: Result<Option<u64>, ProtocolError>, next: nat)
    requires cursor <= |buf|
    ensures Reads(buf, cursor, next, OptId, r.Ok?, if r.Ok? then MaybeId(r.value) else Num(0))
  {
    r, next := ReadOptionalId(buf, cursor);
  }

  method ReadOptString(buf: Octets, cursor: nat) returns (r: Result<Option<Text>, ProtocolError>, next: nat)
    requires cursor <= |buf|
    ensures Reads(buf, cursor, next, OptStr, r.Ok?, if r.Ok? then MaybeText(r.value) else Num(0))
  {
    r, next := ReadOptionalText(buf, cursor);
  }

  method ReadOrder(buf: Octets, cursor: nat) returns (r: Result<RobotOrder, ProtocolError>, next: nat)
    requires cursor <= |buf|
    ensures Reads(buf, cursor, next, Order, r.Ok?, if r.Ok? then OrderOf(r.value) else Num(0))
  {
    r, next := ReadRobotOrder(buf, cursor);
  }

  method ReadEntities(buf: Octets, cursor: nat) returns (r: Result<seq<EntitySnapshot>, ProtocolError>, next: nat)
    requires cursor <= |buf|
    ensures Reads(buf, cursor, next, Entities, r.Ok?, if r.Ok? then EntityList(r.value) else Num(0))
  {
    r, next := ReadEntityList(buf, cursor);
  }

  method ReadIds(buf: Octets, cursor: nat) returns (r: Result<seq<u64>, ProtocolError>, next: nat)
    requires cursor <= |buf|
    ensures Reads(buf, cursor, next, Ids, r.Ok?, if r.Ok? then IdList(r.value) else Num(0))
  {
    r, next := ReadIdList(buf, cursor);
  }

  // ---------------------------------------------------------------- commands

  lemma Unroll0(s: Octets)
    ensures DecodeFields([], s) == Parsed([], s)
  {
  }

  lemma {:induction false} UnrollHead(k: Kind, ks: seq<Kind>, s: Octets)
    ensures DecodeFields([k] + ks, s) ==
            match DecodeValue(k, s)
            case Fail => Fail
            case Parsed(v, s0) =>
              match DecodeFields(ks, s0)
              case Fail => Fail
              case Parsed(vs, tail) => Parsed([v] + vs, tail)
  {
    assert ([k] + ks)[1..] == ks;
  }

  lemma Unroll1(k0: Kind, s: Octets)
    ensures DecodeFields([k0], s) ==
            match DecodeValue(k0, s)
            case Fail => Fail
            case Parsed(v0, s0) =>
              Parsed([v0], s0)
  {
    assert [k0][1..] == [];
    match DecodeValue(k0, s)
    case Fail =>
    case Parsed(v0, s0) =>
      assert [v0] + [] == [v0];
  }

  lemma Unroll2(k0: Kind, k1: Kind, s: Octets)
    ensures DecodeFields([k0, k1], s) ==
            match DecodeValue(k0, s)
            case Fail => Fail
            case Parsed(v0, s0) =>
              match DecodeValue(k1, s0)
              case Fail => Fail
              case Parsed(v1, s1) =>
                Parsed([v0, v1], s1)
  {
    hide DecodeValue, DecodeFields;
    assert [k0] + [k1] == [k0, k1];
    UnrollHead(k0, [k1], s);
    match DecodeValue(k0, s)
    case Fail =>
    case Parsed(v0, s0) =>
      Unroll1(k1, s0);
      if DecodeFields([k1], s0).Parsed? {
        var vs := DecodeFields([k1], s0).value;
        assert [v0] + vs == [v0, vs[0]];
      }
  }

  lemma Unroll3(k0: Kind, k1: Kind, k2: Kind, s: Octets)
    ensures DecodeFields([k0, k1, k2], s) ==
            match DecodeValue(k0, s)
            case Fail => Fail
            case Parsed(v0, s0) =>
              match DecodeValue(k1, s0)
              case Fail => Fail
              case Parsed(v1, s1) =>
                match DecodeValue(k2, s1)
                case Fail => Fail
                case Parsed(v2, s2) =>
                  Parsed([v0, v1, v2], s2)
  {
    hide DecodeValue, DecodeFields;
    assert [k0] + [k1, k2] == [k0, k1, k2];
    UnrollHead(k0, [k1, k2], s);
    match DecodeValue(k0, s)
    case Fail =>
    case Parsed(v0, s0) =>
      Unroll2(k1, k2, s0);
      if DecodeFields([k1, k2], s0).Parsed? {
        var vs := DecodeFields([k1, k2], s0).value;
        assert [v0] + vs == [v0, vs[0], vs[1]];
      }
  }

  lemma Unroll4(k0: Kind, k1: Kind, k2: Kind, k3: Kind, s: Octets)
    ensures DecodeFields([k0, k1, k2, k3], s) ==
            match DecodeValue(k0, s)
            case Fail => Fail
            case Parsed(v0, s0) =>
              match DecodeValue(k1, s0)
              case Fail => Fail
              case Parsed(v1, s1) =>
                match DecodeValue(k2, s1)
                case Fail => Fail
                case Parsed(v2, s2) =>
                  match DecodeValue(k3, s2)
                  case Fail => Fail
                  case Parsed(v3, s3) =>
                    Parsed([v0, v1, v2, v3], s3)
  {
    hide DecodeValue, DecodeFields;
    assert [k0] + [k1, k2, k3] == [k0, k1, k2, k3];
    UnrollHead(k0, [k1, k2, k3], s);
    match DecodeValue(k0, s)
    case Fail =>
    case Parsed(v0, s0) =>
      Unroll3(k1, k2, k3, s0);
      if DecodeFields([k1, k2, k3], s0).Parsed? {
        var vs := DecodeFields([k1, k2, k3], s0).value;
        assert [v0] + vs == [v0, vs[0], vs[1], vs[2]];
      }
  }

  lemma Unroll5(k0: Kind, k1: Kind, k2: Kind, k3: Kind, k4: Kind, s: Octets)
    ensures DecodeFields([k0, k1, k2, k3, k4], s) ==
            match DecodeValue(k0, s)
            case Fail => Fail
            case Parsed(v0, s0) =>
              match DecodeValue(k1, s0)
              case Fail => Fail
              case Parsed(v1, s1) =>
                match DecodeValue(k2, s1)
                case Fail => Fail
                case Parsed(v2, s2) =>
                  match DecodeValue(k3, s2)
                  case Fail => Fail
                  case Parsed(v3, s3) =>
                    match DecodeValue(k4, s3)
                    case Fail => Fail
                    case Parsed(v4, s4) =>
                      Parsed([v0, v1, v2, v3, v4], s4)
  {
    hide DecodeValue, DecodeFields;
    assert [k0] + [k1, k2, k3, k4] == [k0, k1, k2, k3, k4];
    UnrollHead(k0, [k1, k2, k3, k4], s);
    match DecodeValue(k0, s)
    case Fail =>
    case Parsed(v0, s0) =>
      Unroll4(k1, k2, k3, k4, s0);
      if DecodeFields([k1, k2, k3, k4], s0).Parsed? {
        var vs := DecodeFields([k1, k2, k3, k4], s0).value;
        assert [v0] + vs == [v0, vs[0], vs[1], vs[2], vs[3]];
      }
  }

  lemma Unroll6(k0: Kind, k1: Kind, k2: Kind, k3: Kind, k4: Kind, k5: Kind, s: Octets)
    ensures DecodeFields([k0, k1, k2, k3, k4, k5], s) ==
            match DecodeValue(k0, s)
            case Fail => Fail
            case Parsed(v0, s0) =>
              match DecodeValue(k1, s0)
              case Fail => Fail
              case Parsed(v1, s1) =>
                match DecodeValue(k2, s1)
                case Fail => Fail
                case Parsed(v2, s2) =>
                  match DecodeValue(k3, s2)
                  case Fail => Fail
                  case Parsed(v3, s3) =>
                    match DecodeValue(k4, s3)
                    case Fail => Fail
                    case Parsed(v4, s4) =>
                      match DecodeValue(k5, s4)
                      case Fail => Fail
                      case Parsed(v5, s5) =>
                        Parsed([v0, v1, v2, v3, v4, v5], s5)
  {
    hide DecodeValue, DecodeFields;
    assert [k0] + [k1, k2, k3, k4, k5] == [k0, k1, k2, k3, k4, k5];
    UnrollHead(k0, [k1, k2, k3, k4, k5], s);
    match DecodeValue(k0, s)
    case Fail =>
    case Parsed(v0, s0) =>
      Unroll5(k1, k2, k3, k4, k5, s0);
      if DecodeFields([k1, k2, k3, k4, k5], s0).Parsed? {
        var vs := DecodeFields([k1, k2, k3, k4, k5], s0).value;
        assert [v0] + vs == [v0, vs[0], vs[1], vs[2], vs[3], vs[4]];
      }
  }

  /** A record has been read in full, or cannot be. */
  ghost predicate ReadBehind(buf: Octets, cursor: nat, next: nat, schema: seq<Kind>, ok: bool)
    requires cursor <= |buf|
  {
    var d := DecodeFields(schema, buf[cursor..]);
    next <= |buf| && d.Parsed? == ok && (ok ==> d.rest == buf[next..])
  }

  lemma CommandStands(tag: Byte, vs: seq<Value>, c: Command, rest: Octets)
    requires StandsFor(tag, vs, c)
    ensures CommandFrom(tag, vs, rest) == Parsed(c, rest)
  {
    CommandFromValues(c, rest);
  }

  method DecodeUnitCommand(tag: Byte, buf: Octets, cursor: nat) returns (r: Result<Command, ProtocolError>, next: nat)
    requires cursor <= |buf|
    requires tag in {1, 2, 4, 5, 7}
    ensures ReadBehind(buf, cursor, next, CommandSchema(tag).value, r.Ok?)
    ensures r.Ok? ==> StandsFor(tag, DecodeFields(CommandSchema(tag).value, buf[cursor..]).value, r.value)
  {
    hide DecodeValue, DecodeFields;
    next := cursor;
    if tag == 1 {
      Unroll6(Uint(4), Uint(4), Uint(4), Uint(4), Uint(4), Uint(4), buf[cursor..]);
      var px, c1 :- ReadU32(buf, cursor);
      var py, c2 :- ReadU32(buf, c1);
      var pz, c3 :- ReadU32(buf, c2);
      var vx, c4 :- ReadU32(buf, c3);
      var vy, c5 :- ReadU32(buf, c4);
      var vz, c6 :- ReadU32(buf, c5);
      return Ok(Move(Vec3(px, py, pz), Vec3(vx, vy, vz))), c6;
    } else if tag == 2 {
      Unroll2(Code(8), OptId, buf[cursor..]);
      var code, c1 :- ReadCode(buf, cursor, 8);
      var target, c2 :- ReadOptId(buf, c1);
      return Ok(Action(ActionOf(code), target)), c2;
    } else if tag == 4 {
      Unroll2(Uint(8), Order, buf[cursor..]);
      var robot, c1 :- ReadU64(buf, cursor);
      var order, c2 :- ReadOrder(buf, c1);
      return Ok(RobotCommand(robot, order)), c2;
    } else if tag == 5 {
      Unroll2(Uint(2), Uint(4), buf[cursor..]);
      var resource, c1 :- ReadU16(buf, cursor);
      var amount, c2 :- ReadU32(buf, c1);
      return Ok(RequestResource(resource, amount)), c2;
    } else {
      Unroll2(Uint(8), Uint(4), buf[cursor..]);
      var entity, c1 :- ReadU64(buf, cursor);
      var region, c2 :- ReadU32(buf, c1);
      return Ok(TransferRegion(entity, region)), c2;
    }
  }

  method DecodeStructureCommand(tag: Byte, buf: Octets, cursor: nat) returns (r: Result<Command, ProtocolError>,
      next: nat)
    requires cursor <= |buf|
    requires tag in {8, 9, 10, 15, 16}
    ensures ReadBehind(buf, cursor, next, CommandSchema(tag).value, r.Ok?)
    ensures r.Ok? ==> StandsFor(tag, DecodeFields(CommandSchema(tag).value, buf[cursor..]).value, r.value)
  {
    hide DecodeValue, DecodeFields;
    next := cursor;
    if tag == 8 {
      Unroll5(Code(12), Uint(4), Uint(4), Uint(4), Uint(4), buf[cursor..]);
      var code, c1 :- ReadCode(buf, cursor, 12);
      var px, c2 :- ReadU32(buf, c1);
      var py, c3 :- ReadU32(buf, c2);
      var pz, c4 :- ReadU32(buf, c3);
      var rotation, c5 :- ReadU32(buf, c4);
      return Ok(BuildStructure(StructureOf(code), Vec3(px, py, pz), rotation)), c5;
    } else if tag == 9 {
      Unroll1(Uint(8), buf[cursor..]);
      var structure, c1 :- ReadU64(buf, cursor);
      return Ok(DismantleStructure(structure)), c1;
    } else if tag == 10 {
      Unroll2(Uint(8), OptId, buf[cursor..]);
      var structure, c1 :- ReadU64(buf, cursor);
      var actor, c2 :- ReadOptId(buf, c1);
      return Ok(RepairStructure(structure, actor)), c2;
    } else if tag == 15 {
      Unroll2(Uint(8), Uint(4), buf[cursor..]);
      var structure, c1 :- ReadU64(buf, cursor);
      var recipe, c2 :- ReadU32(buf, c1);
      return Ok(SetProductionRecipe(structure, recipe)), c2;
    } else {
      Unroll2(Uint(8), Uint(8), buf[cursor..]);
      var structure, c1 :- ReadU64(buf, cursor);
      var deposit, c2 :- ReadU64(buf, c1);
      return Ok(SetExtractionTarget(structure, deposit)), c2;
    }
  }

  method DecodeEconomyCommand(tag: Byte, buf: Octets, cursor: nat) returns (r: Result<Command, ProtocolError>,
      next: nat)
    requires cursor <= |buf|
    requires tag in {11, 12, 13, 14}
    ensures ReadBehind(buf, cursor, next, CommandSchema(tag).value, r.Ok?)
    ensures r.Ok? ==> StandsFor(tag, DecodeFields(CommandSchema(tag).value, buf[cursor..]).value, r.value)
  {
    hide DecodeValue, DecodeFields;
    next := cursor;
    if tag == 11 {
      Unroll4(Uint(8), Uint(8), Uint(2), Uint(4), buf[cursor..]);
      var source, c1 :- ReadU64(buf, cursor);
      var dest, c2 :- ReadU64(buf, c1);
      var resource, c3 :- ReadU16(buf, c2);
      var amount, c4 :- ReadU32(buf, c3);
      return Ok(TransferResource(source, dest, resource, amount)), c4;
    } else if tag == 12 {
      Unroll4(Uint(8), Uint(2), Uint(4), Uint(8), buf[cursor..]);
      var entity, c1 :- ReadU64(buf, cursor);
      var resource, c2 :- ReadU16(buf, c1);
      var amount, c3 :- ReadU32(buf, c2);
      var reservation, c4 :- ReadU64(buf, c3);
      return Ok(ReserveResource(entity, resource, amount, reservation)), c4;
    } else if tag == 13 {
      Unroll3(Uint(8), Uint(8), Uint(8), buf[cursor..]);
      var reservation, c1 :- ReadU64(buf, cursor);
      var source, c2 :- ReadU64(buf, c1);
      var dest, c3 :- ReadU64(buf, c2);
      return Ok(CommitTransfer(reservation, source, dest)), c3;
    } else {
      Unroll2(Uint(8), Uint(8), buf[cursor..]);
      var reservation, c1 :- ReadU64(buf, cursor);
      var source, c2 :- ReadU64(buf, c1);
      return Ok(CancelReservation(reservation, source)), c2;
    }
  }

  method DecodeLogisticsCommand(tag: Byte, buf: Octets, cursor: nat) returns (r: Result<Command, ProtocolError>,
      next: nat)
    requires cursor <= |buf|
    requires tag in {17, 18, 19, 20, 21}
    ensures ReadBehind(buf, cursor, next, CommandSchema(tag).value, r.Ok?)
    ensures r.Ok? ==> StandsFor(tag, DecodeFields(CommandSchema(tag).value, buf[cursor..]).value, r.value)
  {
    hide DecodeValue, DecodeFields;
    next := cursor;
    if tag == 17 {
      Unroll5(Uint(8), Uint(8), Uint(2), Uint(4), Uint(1), buf[cursor..]);
      var source, c1 :- ReadU64(buf, cursor);
      var dest, c2 :- ReadU64(buf, c1);
      var resource, c3 :- ReadU16(buf, c2);
      var amount, c4 :- ReadU32(buf, c3);
      var priority, c5 :- ReadU8(buf, c4);
      return Ok(CreateLogisticsJob(source, dest, resource, amount, priority)), c5;
    } else if tag == 18 {
      Unroll1(Uint(8), buf[cursor..]);
      var job, c1 :- ReadU64(buf, cursor);
      return Ok(CancelLogisticsJob(job)), c1;
    } else if tag == 19 {
      Unroll2(Uint(8), Uint(8), buf[cursor..]);
      var job, c1 :- ReadU64(buf, cursor);
      var worker, c2 :- ReadU64(buf, c1);
      return Ok(ClaimLogisticsJob(job, worker)), c2;
    } else if tag == 20 {
      Unroll2(Uint(8), Uint(8), buf[cursor..]);
      var job, c1 :- ReadU64(buf, cursor);
      var worker, c2 :- ReadU64(buf, c1);
      return Ok(ExecuteLogisticsPickup(job, worker)), c2;
    } else {
      Unroll2(Uint(8), Uint(8), buf[cursor..]);
      var job, c1 :- ReadU64(buf, cursor);
      var worker, c2 :- ReadU64(buf, c1);
      return Ok(ExecuteLogisticsDropoff(job, worker)), c2;
    }
  }

  method DecodeRegroup(buf: Octets, cursor: nat) returns (r: Result<Command, ProtocolError>, next: nat)
    requires cursor <= |buf|
    ensures ReadBehind(buf, cursor, next, CommandSchema(34).value, r.Ok?)
    ensures r.Ok? ==> StandsFor(34, DecodeFields(CommandSchema(34).value, buf[cursor..]).value, r.value)
  {
    hide DecodeValue, DecodeFields;
    next := cursor;
    Unroll4(Uint(4), Uint(4), Uint(4), Uint(4), buf[cursor..]);
    var squad, c1 :- ReadU32(buf, cursor);
    var rx, c2 :- ReadU32(buf, c1);
    var ry, c3 :- ReadU32(buf, c2);
    var rz, c4 :- ReadU32(buf, c3);
    return Ok(SquadRegroup(squad, Vec3(rx, ry, rz))), c4;
  }

  method DecodeSquadCommand(tag: Byte, buf: Octets, cursor: nat) returns (r: Result<Command, ProtocolError>, next: nat)
    requires cursor <= |buf|
    requires tag in {30, 31, 32, 33, 34}
    ensures ReadBehind(buf, cursor, next, CommandSchema(tag).value, r.Ok?)
    ensures r.Ok? ==> StandsFor(tag, DecodeFields(CommandSchema(tag).value, buf[cursor..]).value, r.value)
  {
    hide DecodeValue, DecodeFields;
    next := cursor;
    if tag == 30 {
      Unroll2(Uint(4), Uint(8), buf[cursor..]);
      var player, c1 :- ReadU32(buf, cursor);
      var robot, c2 :- ReadU64(buf, c1);
      return Ok(AssignEscort(player, robot)), c2;
    } else if tag == 31 {
      Unroll2(Uint(4), Uint(8), buf[cursor..]);
      var player, c1 :- ReadU32(buf, cursor);
      var robot, c2 :- ReadU64(buf, c1);
      return Ok(ReleaseEscort(player, robot)), c2;
    } else if tag == 32 {
      Unroll2(Uint(4), Uint(8), buf[cursor..]);
      var squad, c1 :- ReadU32(buf, cursor);
      var robot, c2 :- ReadU64(buf, c1);
      return Ok(AssignSquadMember(squad, robot)), c2;
    } else if tag == 33 {
      Unroll2(Uint(4), Uint(8), buf[cursor..]);
      var squad, c1 :- ReadU32(buf, cursor);
      var robot, c2 :- ReadU64(buf, c1);
      return Ok(RemoveSquadMember(squad, robot)), c2;
    } else {
      r, next := DecodeRegroup(buf, cursor);
    }
  }

  method DecodeResearchCommand(tag: Byte, buf: Octets, cursor: nat) returns (r: Result<Command, ProtocolError>,
      next: nat)
    requires cursor <= |buf|
    requires tag in {100, 101, 102}
    ensures ReadBehind(buf, cursor, next, CommandSchema(tag).value, r.Ok?)
    ensures r.Ok? ==> StandsFor(tag, DecodeFields(CommandSchema(tag).value, buf[cursor..]).value, r.value)
  {
    hide DecodeValue, DecodeFields;
    next := cursor;
    if tag == 100 {
      Unroll1(Uint(4), buf[cursor..]);
      var tech, c1 :- ReadU32(buf, cursor);
      return Ok(QueueResearch(tech)), c1;
    } else if tag == 101 {
      Unroll1(Uint(8), buf[cursor..]);
      var job, c1 :- ReadU64(buf, cursor);
      return Ok(CancelResearch(job)), c1;
    } else {
      Unroll2(Uint(8), Uint(2), buf[cursor..]);
      var job, c1 :- ReadU64(buf, cursor);
      var newIndex, c2 :- ReadU16(buf, c1);
      return Ok(ReorderResearchQueue(job, newIndex)), c2;
    }
  }

  method DecodeManifestCommand(tag: Byte, buf: Octets, cursor: nat) returns (r: Result<Command, ProtocolError>,
      next: nat)
    requires cursor <= |buf|
    requires tag == 160
    ensures ReadBehind(buf, cursor, next, CommandSchema(tag).value, r.Ok?)
    ensures r.Ok? ==> StandsFor(tag, DecodeFields(CommandSchema(tag).value, buf[cursor..]).value, r.value)
  {
    hide DecodeValue, DecodeFields;
    next := cursor;
    Unroll4(Str, Uint(4), Uint(8), Flag, buf[cursor..]);
    var buildId, c1 :- ReadString(buf, cursor);
    var protocolVersion, c2 :- ReadU32(buf, c1);
    var contentHash, c3 :- ReadU64(buf, c2);
    var official, c4 :- ReadFlag(buf, c3);
    return Ok(SubmitClientManifest(buildId, protocolVersion, contentHash, official)), c4;
  }

  method DecodeKick(buf: Octets, cursor: nat) returns (r: Result<Command, ProtocolError>, next: nat)
    requires cursor <= |buf|
    ensures ReadBehind(buf, cursor, next, CommandSchema(161).value, r.Ok?)
    ensures r.Ok? ==> StandsFor(161, DecodeFields(CommandSchema(161).value, buf[cursor..]).value, r.value)
  {
    hide DecodeValue, DecodeFields;
    next := cursor;
    Unroll2(Uint(8), Uint(1), buf[cursor..]);
    var session, c1 :- ReadU64(buf, cursor);
    var reason, c2 :- ReadU8(buf, c1);
    return Ok(AdminKickSession(session, reason)), c2;
  }

  method DecodeTrust(buf: Octets, cursor: nat) returns (r: Result<Command, ProtocolError>, next: nat)
    requires cursor <= |buf|
    ensures ReadBehind(buf, cursor, next, CommandSchema(162).value, r.Ok?)
    ensures r.Ok? ==> StandsFor(162, DecodeFields(CommandSchema(162).value, buf[cursor..]).value, r.value)
  {
    hide DecodeValue, DecodeFields;
    next := cursor;
    Unroll2(Uint(8), Uint(1), buf[cursor..]);
    var session, c1 :- ReadU64(buf, cursor);
    var trust, c2 :- ReadU8(buf, c1);
    return Ok(AdminSetTrustLevel(session, trust)), c2;
  }

  method DecodeGrant(buf: Octets, cursor: nat) returns (r: Result<Command, ProtocolError>, next: nat)
    requires cursor <= |buf|
    ensures ReadBehind(buf, cursor, next, CommandSchema(163).value, r.Ok?)
    ensures r.Ok? ==> StandsFor(163, DecodeFields(CommandSchema(163).value, buf[cursor..]).value, r.value)
  {
    hide DecodeValue, DecodeFields;
    next := cursor;
    Unroll3(Uint(8), Uint(2), Uint(4), buf[cursor..]);
    var entity, c1 :- ReadU64(buf, cursor);
    var resource, c2 :- ReadU16(buf, c1);
    var amount, c3 :- ReadU32(buf, c2);
    return Ok(AdminGrantResource(entity, resource, amount)), c3;
  }

  method DecodeRole(buf: Octets, cursor: nat) returns (r: Result<Command, ProtocolError>, next: nat)
    requires cursor <= |buf|
    ensures ReadBehind(buf, cursor, next, CommandSchema(164).value, r.Ok?)
    ensures r.Ok? ==> StandsFor(164, DecodeFields(CommandSchema(164).value, buf[cursor..]).value, r.value)
  {
    hide DecodeValue, DecodeFields;
    next := cursor;
    Unroll2(Uint(8), Uint(1), buf[cursor..]);
    var session, c1 :- ReadU64(buf, cursor);
    var role, c2 :- ReadU8(buf, c1);
    return Ok(AdminSetSessionRole(session, role)), c2;
  }

  method DecodeAdminCommand(tag: Byte, buf: Octets, cursor: nat) returns (r: Result<Command, ProtocolError>, next: nat)
    requires cursor <= |buf|
    requires tag in {161, 162, 163, 164}
    ensures ReadBehind(buf, cursor, next, CommandSchema(tag).value, r.Ok?)
    ensures r.Ok? ==> StandsFor(tag, DecodeFields(CommandSchema(tag).value, buf[cursor..]).value, r.value)
  {
    hide ReadBehind, StandsFor;
    if tag == 161 {
      r, next := DecodeKick(buf, cursor);
    } else if tag == 162 {
      r, next := DecodeTrust(buf, cursor);
    } else if tag == 163 {
      r, next := DecodeGrant(buf, cursor);
    } else {
      r, next := DecodeRole(buf, cursor);
    }
  }

  method DecodeCommand(buf: Octets, cursor: nat) returns (r: Result<Command, ProtocolError>, next: nat)
    requires cursor <= |buf|
    ensures Agrees(buf, r, next, PacketFormat.DecodeCommand(buf[cursor..]))
  {
    next := cursor;
    var tag, body :- ReadByte(buf, cursor);
    if tag in {1, 2, 4, 5, 7} {
      r, next := DecodeUnitCommand(tag, buf, body);
      if r.Ok? {
        CommandStands(tag, DecodeFields(CommandSchema(tag).value, buf[body..]).value, r.value, buf[next..]);
      }
    } else if tag in {8, 9, 10, 15, 16} {
      r, next := DecodeStructureCommand(tag, buf, body);
      if r.Ok? {
        CommandStands(tag, DecodeFields(CommandSchema(tag).value, buf[body..]).value, r.value, buf[next..]);
      }
    } else if tag in {11, 12, 13, 14} {
      r, next := DecodeEconomyCommand(tag, buf, body);
      if r.Ok? {
        CommandStands(tag, DecodeFields(CommandSchema(tag).value, buf[body..]).value, r.value, buf[next..]);
      }
    } else if tag in {17, 18, 19, 20, 21} {
      r, next := DecodeLogisticsCommand(tag, buf, body);
      if r.Ok? {
        CommandStands(tag, DecodeFields(CommandSchema(tag).value, buf[body..]).value, r.value, buf[next..]);
      }
    } else if tag in {30, 31, 32, 33, 34} {
      r, next := DecodeSquadCommand(tag, buf, body);
      if r.Ok? {
        CommandStands(tag, DecodeFields(CommandSchema(tag).value, buf[body..]).value, r.value, buf[next..]);
      }
    } else if tag in {100, 101, 102} {
      r, next := DecodeResearchCommand(tag, buf, body);
      if r.Ok? {
        CommandStands(tag, DecodeFields(CommandSchema(tag).value, buf[body..]).value, r.value, buf[next..]);
      }
    } else if tag == 160 {
      r, next := DecodeManifestCommand(tag, buf, body);
      if r.Ok? {
        CommandStands(tag, DecodeFields(CommandSchema(tag).value, buf[body..]).value, r.value, buf[next..]);
      }
    } else if tag in {161, 162, 163, 164} {
      r, next := DecodeAdminCommand(tag, buf, body);
      if r.Ok? {
        CommandStands(tag, DecodeFields(CommandSchema(tag).value, buf[body..]).value, r.value, buf[next..]);
      }
    } else {
      // 3 and 6 are retired; everything else was never assigned
      return Err(SerializationError), body;
    }
  }

  // ---------------------------------------------------------------- packets

  method DecodeHandshake(buf: Octets, cursor: nat) returns (r: Result<Handshake, ProtocolError>, next: nat)
    requires cursor <= |buf|
    ensures Agrees(buf, r, next, PacketFormat.DecodeHandshake(buf[cursor..]))
  {
    hide DecodeValue, DecodeFields;
    next := cursor;
    var tag, c0 :- ReadByte(buf, cursor);
    if tag == 1 {
      Unroll2(Uint(4), Str, buf[c0..]);
      var version, c1 :- ReadU32(buf, c0);
      var name, c2 :- ReadString(buf, c1);
      r, next := Ok(ClientHello(version, name)), c2;
    } else if tag == 2 {
      Unroll5(Flag, Uint(8), Uint(8), Uint(8), OptStr, buf[c0..]);
      var accepted, c1 :- ReadFlag(buf, c0);
      var session, c2 :- ReadU64(buf, c1);
      var tick, c3 :- ReadU64(buf, c2);
      var token, c4 :- ReadU64(buf, c3);
      var reason, c5 :- ReadOptString(buf, c4);
      r, next := Ok(ServerHello(accepted, session, tick, reason, token)), c5;
    } else if tag == 3 {
      Unroll2(Uint(8), Str, buf[c0..]);
      var session, c1 :- ReadU64(buf, c0);
      var reason, c2 :- ReadString(buf, c1);
      r, next := Ok(Disconnect(session, reason)), c2;
    } else {
      return Err(SerializationError), c0;
    }
    HandshakeOfValues(r.value, buf[next..]);
  }

  method DecodePayload(packetType: Byte, buf: Octets, cursor: nat)
    returns (r: Result<Payload, ProtocolError>, next: nat)
    requires cursor <= |buf|
    ensures Agrees(buf, r, next, PacketFormat.DecodePayload(packetType, buf[cursor..]))
  {
    hide DecodeValue, DecodeFields;
    next := cursor;
    if packetType == 1 {
      Unroll0(buf[cursor..]);
      var message, c1 :- DecodeHandshake(buf, cursor);
      return Ok(HandshakePayload(message)), c1;
    } else if packetType == 2 {
      Unroll4(Uint(8), Uint(8), Uint(8), Uint(8), buf[cursor..]);
      var session, c1 :- ReadU64(buf, cursor);
      var sequence, c2 :- ReadU64(buf, c1);
      var tick, c3 :- ReadU64(buf, c2);
      var token, c4 :- ReadU64(buf, c3);
      var command, c5 :- DecodeCommand(buf, c4);
      return Ok(CommandPayload(session, sequence, tick, token, command)), c5;
    } else if packetType == 3 {
      Unroll2(Uint(8), Entities, buf[cursor..]);
      var tick, c1 :- ReadU64(buf, cursor);
      var entities, c2 :- ReadEntities(buf, c1);
      return Ok(SnapshotPayload(tick, entities)), c2;
    } else if packetType == 4 {
      Unroll4(Uint(8), Uint(8), Entities, Ids, buf[cursor..]);
      var baseTick, c1 :- ReadU64(buf, cursor);
      var target, c2 :- ReadU64(buf, c1);
      var updated, c3 :- ReadEntities(buf, c2);
      var removed, c4 :- ReadIds(buf, c3);
      return Ok(DeltaPayload(baseTick, target, updated, removed)), c4;
    } else if packetType == 5 {
      Unroll1(Uint(8), buf[cursor..]);
      var timestamp, c1 :- ReadU64(buf, cursor);
      return Ok(PingPayload(timestamp)), c1;
    } else if packetType == 6 {
      Unroll2(Uint(8), Uint(8), buf[cursor..]);
      var timestamp, c1 :- ReadU64(buf, cursor);
      var tick, c2 :- ReadU64(buf, c1);
      return Ok(PongPayload(timestamp, tick)), c2;
    }
    return Err(SerializationError), cursor;
  }

  /** Total over every byte string: either the packet that is spelled out, or one error. */
  method DecodePacket(buf: Octets) returns (r: Result<Packet, ProtocolError>)
    ensures r.Ok? ==> Decode(buf) == Some(r.value)
    ensures r.Err? ==> Decode(buf) == None
  {
    hide DecodeValue, DecodeFields;
    assert buf[0..] == buf;
    assert HEADER == [Uint(4), Uint(8), Uint(8), Uint(1)];
    Unroll4(Uint(4), Uint(8), Uint(8), Uint(1), buf);
    var version, c1 :- ReadU32(buf, 0);
    var session, c2 :- ReadU64(buf, c1);
    var sequence, c3 :- ReadU64(buf, c2);
    var packetType, c4 :- ReadU8(buf, c3);
    var header := Header(version, session, sequence, packetType);
    HeaderOfValues(header);
    var payload, _ :- DecodePayload(packetType, buf, c4);
    return Ok(Packet(header, payload));
  }
}
