/** The encoder: one byte buffer, appended to field by field. */
module PacketWriters {
  import opened Words
  import opened Wrappers
  import opened Bytes
  import opened Protocol
  import opened WireFormat
  import opened WireLaws
  import opened CommandFormat
  import opened PacketFormat

  lemma {:induction false} EncodeSnoc(ks: seq<Kind>, vs: seq<Value>, k: Kind, v: Value)
    requires AllShaped(ks, vs) && Shaped(k, v)
    ensures AllShaped(ks + [k], vs + [v])
    ensures EncodeFields(ks + [k], vs + [v]) == EncodeFields(ks, vs) + EncodeValue(k, v)
  {
    if ks == [] {
      assert EncodeFields([k], [v]) == EncodeValue(k, v) + EncodeFields([k][1..], [v][1..]);
      assert EncodeValue(k, v) + [] == EncodeValue(k, v);
    } else {
      EncodeSnoc(ks[1..], vs[1..], k, v);
      assert (ks + [k])[1..] == ks[1..] + [k] && (vs + [v])[1..] == vs[1..] + [v];
      Regroup(EncodeValue(ks[0], vs[0]), EncodeFields(ks[1..], vs[1..]), EncodeValue(k, v));
    }
  }

  class PacketWriter {
    var buf: Octets
    // The record under way: where it began, and the fields appended to it so far.
    ghost var base: Octets
    ghost var kinds: seq<Kind>
    ghost var values: seq<Value>

    ghost predicate Valid()
      reads this
    {
      AllShaped(kinds, values) && buf == base + EncodeFields(kinds, values)
    }

    constructor ()
      ensures Valid() && buf == [] && base == [] && kinds == [] && values == []
    {
      buf, base, kinds, values := [], [], [], [];
    }

    /** Starts a record behind discriminator bytes that belong to no field. */
    method Tag(tag: Byte)
      modifies this
      ensures Valid() && base == old(buf) + [tag] && buf == base && kinds == [] && values == []
    {
      buf := buf + [tag];
      base, kinds, values := buf, [], [];
    }

    ghost method Begin()
      modifies this`base, this`kinds, this`values
      ensures Valid() && base == buf && kinds == [] && values == []
    {
      base, kinds, values := buf, [], [];
    }

    /** Every `Put` method appends one field. */
    ghost predicate Appended(base0: Octets, kinds0: seq<Kind>, values0: seq<Value>, k: Kind, v: Value)
      reads this
    {
      Valid() && base == base0 && kinds == kinds0 + [k] && values == values0 + [v]
    }

    method PutBytes(ghost k: Kind, ghost v: Value, bytes: Octets)
      requires Valid() && Shaped(k, v) && bytes == EncodeValue(k, v)
      modifies this
      ensures Appended(old(base), old(kinds), old(values), k, v)
    {
      EncodeSnoc(kinds, values, k, v);
      Regroup(base, EncodeFields(kinds, values), bytes);
      buf := buf + bytes;
      kinds, values := kinds + [k], values + [v];
    }

    method PutU8(n: Byte)
      requires Valid()
      modifies this
      ensures Appended(old(base), old(kinds), old(values), Uint(1), Num(n))
    {
      Limits();
      PutBytes(Uint(1), Num(n), LE(n, 1));
    }

    method PutU16(n: u16)
      requires Valid()
      modifies this
      ensures Appended(old(base), old(kinds), old(values), Uint(2), Num(n))
    {
      Limits();
      PutBytes(Uint(2), Num(n), LE(n, 2));
    }

    method PutU32(n: u32)
      requires Valid()
      modifies this
      ensures Appended(old(base), old(kinds), old(values), Uint(4), Num(n))
    {
      Limits();
      PutBytes(Uint(4), Num(n), LE(n, 4));
    }

    method PutU64(n: u64)
      requires Valid()
      modifies this
      ensures Appended(old(base), old(kinds), old(values), Uint(8), Num(n))
    {
      Limits();
      PutBytes(Uint(8), Num(n), LE(n, 8));
    }

    method PutCode(ghost last: Byte, code: Byte)
      requires Valid() && 1 <= code <= last
      modifies this
      ensures Appended(old(base), old(kinds), old(values), Code(last), Num(code))
    {
      PutBytes(Code(last), Num(code), [code]);
    }

    method PutFlag(b: bool)
      requires Valid()
      modifies this
      ensures Appended(old(base), old(kinds), old(values), Flag, Bool(b))
    {
      PutBytes(Flag, Bool(b), [if b then 1 else 0]);
    }

    method PutString(s: Text)
      requires Valid()
      modifies this
      ensures Appended(old(base), old(kinds), old(values), Str, TextOf(s))
    {
      var bytes := LE(|s| % 0x1_0000, 2);
      bytes := bytes + s;
      PutBytes(Str, TextOf(s), bytes);
    }

    method PutOptId(id: Option<u64>)
      requires Valid()
      modifies this
      ensures Appended(old(base), old(kinds), old(values), OptId, MaybeId(id))
    {
      var bytes: Octets;
      match id {
        case Some(target) => bytes := [1] + LE(target, 8);
        case None => bytes := [0];
      }
      PutBytes(OptId, MaybeId(id), bytes);
    }

    method PutOptString(text: Option<Text>)
      requires Valid()
      modifies this
      ensures Appended(old(base), old(kinds), old(values), OptStr, MaybeText(text))
    {
      var bytes: Octets;
      match text {
        case Some(s) => bytes := [1] + (LE(|s| % 0x1_0000, 2) + s);
        case None => bytes := [0];
      }
      PutBytes(OptStr, MaybeText(text), bytes);
    }

    method PutOrder(o: RobotOrder)
      requires Valid()
      modifies this
      ensures Appended(old(base), old(kinds), old(values), Order, OrderOf(o))
    {
      var bytes: Octets;
      match o {
        case Follow(target) => bytes := [1] + LE(target, 8);
        case Guard(p) => bytes := [2] + (LE(p.x, 4) + LE(p.y, 4) + LE(p.z, 4));
        case Attack(target) => bytes := [3] + LE(target, 8);
        case MoveTo(p) => bytes := [4] + (LE(p.x, 4) + LE(p.y, 4) + LE(p.z, 4));
        case ReturnToBase => bytes := [5];
      }
      PutBytes(Order, OrderOf(o), bytes);
    }

    method PutEntities(es: seq<EntitySnapshot>)
      requires Valid()
      modifies this
      ensures Appended(old(base), old(kinds), old(values), Entities, EntityList(es))
    {
      var bytes := LE(|es| % 0x1_0000_0000, 4);
      var i := 0;
      while i < |es|
        invariant 0 <= i <= |es|
        invariant Valid() && base == old(base) && kinds == old(kinds) && values == old(values)
        invariant bytes + EncodeEntities(es[i..]) == EncodeEntityList(es)
      {
        assert es[i..][1..] == es[i + 1..];
        Regroup(bytes, EncodeEntity(es[i]), EncodeEntities(es[i + 1..]));
        bytes := bytes + EncodeEntity(es[i]);
        i := i + 1;
      }
      PutBytes(Entities, EntityList(es), bytes);
    }

    method PutIds(ids: seq<u64>)
      requires Valid()
      modifies this
      ensures Appended(old(base), old(kinds), old(values), Ids, IdList(ids))
    {
      var bytes := LE(|ids| % 0x1_0000_0000, 4);
      var i := 0;
      while i < |ids|
        invariant 0 <= i <= |ids|
        invariant Valid() && base == old(base) && kinds == old(kinds) && values == old(values)
        invariant bytes + EncodeIds(ids[i..]) == EncodeIdList(ids)
      {
        assert ids[i..][1..] == ids[i + 1..];
        Regroup(bytes, LE(ids[i], 8), EncodeIds(ids[i + 1..]));
        bytes := bytes + LE(ids[i], 8);
        i := i + 1;
      }
      PutBytes(Ids, IdList(ids), bytes);
    }

    // ---------------------------------------------------------------- commands

    /** The discriminator and every field of the command have been written. */
    ghost predicate Wrote(buf0: Octets, c: Command)
      reads this
    {
      && Valid()
      && base == buf0 + [CommandTag(c)]
      && CommandSchema(CommandTag(c)) == Some(kinds)
      && values == CommandValues(c)
    }

    method EncodeUnitCommand(c: Command)
      requires c.Move? || c.Action? || c.RobotCommand? || c.RequestResource? || c.TransferRegion?
      modifies this
      ensures Wrote(old(buf), c)
    {
      hide EncodeFields, EncodeValue, AllShaped;
      if c.Move? {
        Tag(1);
        PutU32(c.position.x);
        PutU32(c.position.y);
        PutU32(c.position.z);
        PutU32(c.velocity.x);
        PutU32(c.velocity.y);
        PutU32(c.velocity.z);
      } else if c.Action? {
        Tag(2);
        PutCode(8, ActionCode(c.actionType));
        PutOptId(c.target);
      } else if c.RobotCommand? {
        Tag(4);
        PutU64(c.robot);
        PutOrder(c.order);
      } else if c.RequestResource? {
        Tag(5);
        PutU16(c.resource);
        PutU32(c.amount);
      } else {
        Tag(7);
        PutU64(c.entity);
        PutU32(c.region);
      }
      assert kinds == CommandSchema(CommandTag(c)).value;
      assert values == CommandValues(c);
    }

    method EncodeStructureCommand(c: Command)
      requires c.BuildStructure? || c.DismantleStructure? || c.RepairStructure? || c.SetProductionRecipe? ||
          c.SetExtractionTarget?
      modifies this
      ensures Wrote(old(buf), c)
    {
      hide EncodeFields, EncodeValue, AllShaped;
      if c.BuildStructure? {
        Tag(8);
        PutCode(12, StructureCode(c.kind));
        PutU32(c.position.x);
        PutU32(c.position.y);
        PutU32(c.position.z);
        PutU32(c.rotation);
      } else if c.DismantleStructure? {
        Tag(9);
        PutU64(c.structure);
      } else if c.RepairStructure? {
        Tag(10);
        PutU64(c.structure);
        PutOptId(c.actor);
      } else if c.SetProductionRecipe? {
        Tag(15);
        PutU64(c.structure);
        PutU32(c.recipe);
      } else {
        Tag(16);
        PutU64(c.structure);
        PutU64(c.deposit);
      }
      assert kinds == CommandSchema(CommandTag(c)).value;
      assert values == CommandValues(c);
    }

    method EncodeEconomyCommand(c: Command)
      requires c.TransferResource? || c.ReserveResource? || c.CommitTransfer? || c.CancelReservation?
      modifies this
      ensures Wrote(old(buf), c)
    {
      hide EncodeFields, EncodeValue, AllShaped;
      if c.TransferResource? {
        Tag(11);
        PutU64(c.source);
        PutU64(c.dest);
        PutU16(c.resource);
        PutU32(c.amount);
      } else if c.ReserveResource? {
        Tag(12);
        PutU64(c.entity);
        PutU16(c.resource);
        PutU32(c.amount);
        PutU64(c.reservation);
      } else if c.CommitTransfer? {
        Tag(13);
        PutU64(c.reservation);
        PutU64(c.source);
        PutU64(c.dest);
      } else {
        Tag(14);
        PutU64(c.reservation);
        PutU64(c.source);
      }
      assert kinds == CommandSchema(CommandTag(c)).value;
      assert values == CommandValues(c);
    }

    method EncodeLogisticsCommand(c: Command)
      requires c.CreateLogisticsJob? || c.CancelLogisticsJob? || c.ClaimLogisticsJob? ||
          c.ExecuteLogisticsPickup? || c.ExecuteLogisticsDropoff?
      modifies this
      ensures Wrote(old(buf), c)
    {
      hide EncodeFields, EncodeValue, AllShaped;
      if c.CreateLogisticsJob? {
        Tag(17);
        PutU64(c.source);
        PutU64(c.dest);
        PutU16(c.resource);
        PutU32(c.amount);
        PutU8(c.priority);
      } else if c.CancelLogisticsJob? {
        Tag(18);
        PutU64(c.job);
      } else if c.ClaimLogisticsJob? {
        Tag(19);
        PutU64(c.job);
        PutU64(c.worker);
      } else if c.ExecuteLogisticsPickup? {
        Tag(20);
        PutU64(c.job);
        PutU64(c.worker);
      } else {
        Tag(21);
        PutU64(c.job);
        PutU64(c.worker);
      }
      assert kinds == CommandSchema(CommandTag(c)).value;
      assert values == CommandValues(c);
    }

    method EncodeSquadCommand(c: Command)
      requires c.AssignEscort? || c.ReleaseEscort? || c.AssignSquadMember? || c.RemoveSquadMember? || c.SquadRegroup?
      modifies this
      ensures Wrote(old(buf), c)
    {
      hide EncodeFields, EncodeValue, AllShaped;
      if c.AssignEscort? {
        Tag(30);
        PutU32(c.player);
        PutU64(c.robot);
      } else if c.ReleaseEscort? {
        Tag(31);
        PutU32(c.player);
        PutU64(c.robot);
      } else if c.AssignSquadMember? {
        Tag(32);
        PutU32(c.squad);
        PutU64(c.robot);
      } else if c.RemoveSquadMember? {
        Tag(33);
        PutU32(c.squad);
        PutU64(c.robot);
      } else {
        Tag(34);
        PutU32(c.squad);
        PutU32(c.rally.x);
        PutU32(c.rally.y);
        PutU32(c.rally.z);
      }
      assert kinds == CommandSchema(CommandTag(c)).value;
      assert values == CommandValues(c);
    }

    method EncodeResearchCommand(c: Command)
      requires c.QueueResearch? || c.CancelResearch? || c.ReorderResearchQueue?
      modifies this
      ensures Wrote(old(buf), c)
    {
      hide EncodeFields, EncodeValue, AllShaped;
      if c.QueueResearch? {
        Tag(100);
        PutU32(c.tech);
      } else if c.CancelResearch? {
        Tag(101);
        PutU64(c.job);
      } else {
        Tag(102);
        PutU64(c.job);
        PutU16(c.newIndex);
      }
      assert kinds == CommandSchema(CommandTag(c)).value;
      assert values == CommandValues(c);
    }

    method EncodeManifestCommand(c: Command)
      requires c.SubmitClientManifest?
      modifies this
      ensures Wrote(old(buf), c)
    {
      hide EncodeFields, EncodeValue, AllShaped;
      Tag(160);
      PutString(c.buildId);
      PutU32(c.protocolVersion);
      PutU64(c.contentHash);
      PutFlag(c.official);
      assert kinds == CommandSchema(CommandTag(c)).value;
      assert values == CommandValues(c);
    }

    method EncodeAdminCommand(c: Command)
      requires c.AdminKickSession? || c.AdminSetTrustLevel? || c.AdminGrantResource? || c.AdminSetSessionRole?
      modifies this
      ensures Wrote(old(buf), c)
    {
      hide EncodeFields, EncodeValue, AllShaped;
      if c.AdminKickSession? {
        Tag(161);
        PutU64(c.session);
        PutU8(c.reason);
      } else if c.AdminSetTrustLevel? {
        Tag(162);
        PutU64(c.session);
        PutU8(c.trust);
      } else if c.AdminGrantResource? {
        Tag(163);
        PutU64(c.entity);
        PutU16(c.resource);
        PutU32(c.amount);
      } else {
        Tag(164);
        PutU64(c.session);
        PutU8(c.role);
      }
      assert kinds == CommandSchema(CommandTag(c)).value;
      assert values == CommandValues(c);
    }

    method EncodeCommand(c: Command)
      modifies this
      ensures buf == old(buf) + PacketFormat.EncodeCommand(c)
    {
      match c {
        case Move(_, _) | Action(_, _) | RobotCommand(_, _) | RequestResource(_, _) | TransferRegion(_, _) =>
            EncodeUnitCommand(c);
        case BuildStructure(_, _, _) | DismantleStructure(_) | RepairStructure(_, _) | SetProductionRecipe(_, _) |
            SetExtractionTarget(_, _) => EncodeStructureCommand(c);
        case TransferResource(_, _, _, _) | ReserveResource(_, _, _, _) | CommitTransfer(_, _, _) |
            CancelReservation(_, _) => EncodeEconomyCommand(c);
        case CreateLogisticsJob(_, _, _, _, _) | CancelLogisticsJob(_) | ClaimLogisticsJob(_, _) |
            ExecuteLogisticsPickup(_, _) | ExecuteLogisticsDropoff(_, _) => EncodeLogisticsCommand(c);
        case AssignEscort(_, _) | ReleaseEscort(_, _) | AssignSquadMember(_, _) | RemoveSquadMember(_, _) |
            SquadRegroup(_, _) => EncodeSquadCommand(c);
        case QueueResearch(_) | CancelResearch(_) | ReorderResearchQueue(_, _) => EncodeResearchCommand(c);
        case SubmitClientManifest(_, _, _, _) => EncodeManifestCommand(c);
        case AdminKickSession(_, _) | AdminSetTrustLevel(_, _) | AdminGrantResource(_, _, _) |
            AdminSetSessionRole(_, _) => EncodeAdminCommand(c);
      }
      Regroup(old(buf), [CommandTag(c)], EncodeFields(kinds, values));
    }

    // ---------------------------------------------------------------- packets

    method EncodeHandshake(m: Handshake)
      modifies this
      ensures buf == old(buf) + PacketFormat.EncodeHandshake(m)
    {
      hide EncodeFields, EncodeValue, AllShaped;
      match m {
        case ClientHello(version, name) =>
          Tag(1);
          PutU32(version);
          PutString(name);
        case ServerHello(accepted, session, tick, reason, token) =>
          Tag(2);
          PutFlag(accepted);
          PutU64(session);
          PutU64(tick);
          PutU64(token);
          PutOptString(reason);
        case Disconnect(session, reason) =>
          Tag(3);
          PutU64(session);
          PutString(reason);
      }
      assert kinds == HandshakeSchema(HandshakeTag(m)).value;
      assert values == HandshakeValues(m);
      Regroup(old(buf), [HandshakeTag(m)], EncodeFields(kinds, values));
    }

    method EncodePlainFields(p: Payload)
      modifies this
      ensures buf == old(buf) + EncodePlain(p)
    {
      hide EncodeFields, EncodeValue, AllShaped;
      Begin();
      match p {
        case HandshakePayload(_) =>
        case CommandPayload(session, sequence, tick, token, _) =>
          PutU64(session);
          PutU64(sequence);
          PutU64(tick);
          PutU64(token);
        case SnapshotPayload(tick, entities) =>
          PutU64(tick);
          PutEntities(entities);
        case DeltaPayload(baseTick, target, updated, removed) =>
          PutU64(baseTick);
          PutU64(target);
          PutEntities(updated);
          PutIds(removed);
        case PingPayload(timestamp) =>
          PutU64(timestamp);
        case PongPayload(timestamp, tick) =>
          PutU64(timestamp);
          PutU64(tick);
      }
      assert kinds == PlainSchema(PayloadType(p)).value;
      assert values == PlainValues(p);
    }

    method EncodePacket(p: Packet)
      requires buf == []
      modifies this
      ensures buf == Encode(p)
    {
      Begin();
      PutU32(p.header.protocolVersion);
      PutU64(p.header.session);
      PutU64(p.header.sequence);
      PutU8(p.header.packetType);
      assert kinds == HEADER && values == HeaderValues(p.header);
      assert buf == EncodeHeader(p.header);
      EncodePlainFields(p.payload);
      Regroup(EncodeHeader(p.header), EncodePlain(p.payload), EncodeTail(p.payload));
      match p.payload {
        case HandshakePayload(m) => EncodeHandshake(m);
        case CommandPayload(_, _, _, _, c) => EncodeCommand(c);
        case _ => assert buf == buf + [];
      }
    }
  }

  /** A fresh buffer per packet. */
  method EncodePacket(p: Packet) returns (bytes: Octets)
    ensures bytes == Encode(p)
  {
    var w := new PacketWriter();
    w.EncodePacket(p);
    bytes := w.buf;
  }
}
