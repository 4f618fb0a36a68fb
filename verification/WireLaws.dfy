/**
 Three laws of every field kind and every record: decoding undoes encoding whatever follows;
 what decodes is well formed and re-encodes to the bytes read, up to flag bytes; and bytes
 appended to a decodable buffer are left over.
 */
module WireLaws {
  import opened Words
  import opened Wrappers
  import opened Bytes
  import opened Protocol
  import opened WireFormat

  /**
   `a` spells the canonical bytes `b`: the same bytes, except that at a flag, where `b` holds 0 or
   1, `a` holds any byte that is zero exactly when `b` is.
   */
  ghost predicate Spells(a: Octets, b: Octets, flags: seq<bool>) {
    && |a| == |b| == |flags|
    && forall i :: 0 <= i < |a| ==> if flags[i] then b[i] == (if a[i] == 0 then 0 else 1) else a[i] == b[i]
  }

  lemma SpellsConcat(a: Octets, b: Octets, f: seq<bool>, c: Octets, d: Octets, g: seq<bool>)
    requires Spells(a, b, f) && Spells(c, d, g)
    ensures Spells(a + c, b + d, f + g)
  {
  }

  /** A successful parse read exactly `|canonical|` bytes, and they spell `canonical`. */
  ghost predicate Consumed(buf: Octets, rest: Octets, canonical: Octets, flags: seq<bool>) {
    && |buf| == |canonical| + |rest|
    && buf[|canonical|..] == rest
    && Spells(buf[..|canonical|], canonical, flags)
  }

  lemma NothingConsumed(buf: Octets)
    ensures Consumed(buf, buf, [], [])
  {
  }

  lemma ConsumedThen(buf: Octets, mid: Octets, rest: Octets, a: Octets, f: seq<bool>, b: Octets, g: seq<bool>)
    requires Consumed(buf, mid, a, f) && Consumed(mid, rest, b, g)
    ensures Consumed(buf, rest, a + b, f + g)
  {
    assert buf[..|a + b|] == buf[..|a|] + mid[..|b|];
    SpellsConcat(buf[..|a|], a, f, mid[..|b|], b, g);
    assert buf[|a + b|..] == mid[|b|..];
  }

  lemma SpellsSplit(a: Octets, b: Octets, f: seq<bool>, c: Octets, d: Octets, g: seq<bool>)
    requires |a| == |b| == |f|
    requires Spells(a + c, b + d, f + g)
    ensures Spells(a, b, f) && Spells(c, d, g)
  {
    var x, y, z := a + c, b + d, f + g;
    assert forall i :: 0 <= i < |a| ==> x[i] == a[i] && y[i] == b[i] && z[i] == f[i];
    assert forall i :: 0 <= i < |c| ==> x[|a| + i] == c[i] && y[|a| + i] == d[i] && z[|a| + i] == g[i];
  }

  lemma ConsumedSplit(buf: Octets, rest: Octets, a: Octets, f: seq<bool>, b: Octets, g: seq<bool>)
    requires |a| == |f|
    requires Consumed(buf, rest, a + b, f + g)
    ensures |a| <= |buf|
    ensures Consumed(buf, buf[|a|..], a, f) && Consumed(buf[|a|..], rest, b, g)
  {
    var mid := buf[|a|..];
    assert buf[..|a + b|] == buf[..|a|] + mid[..|b|];
    SpellsSplit(buf[..|a|], a, f, mid[..|b|], b, g);
    assert mid[|b|..] == buf[|a + b|..];
  }

  /** Bytes without a flag among them are read exactly when they are canonical themselves. */
  lemma ExactlyConsumed(buf: Octets, rest: Octets, canonical: Octets)
    ensures Consumed(buf, rest, canonical, Fixed(|canonical|)) <==> buf == canonical + rest
  {
    if Consumed(buf, rest, canonical, Fixed(|canonical|)) {
      assert buf == buf[..|canonical|] + buf[|canonical|..];
      assert buf[..|canonical|] == canonical;
    }
  }

  lemma Regroup(a: Octets, b: Octets, c: Octets)
    ensures a + b + c == a + (b + c)
  {
  }

  // ---------------------------------------------------------------- scalars

  lemma UintRoundTrip(w: nat, n: nat, rest: Octets)
    requires n < Limit(w)
    ensures DecodeUint(w, LE(n, w) + rest) == Parsed(n, rest)
  {
    FromLEOfLE(n, w);
    assert (LE(n, w) + rest)[..w] == LE(n, w);
    assert (LE(n, w) + rest)[w..] == rest;
  }

  lemma UintSound(w: nat, buf: Octets)
    requires DecodeUint(w, buf).Parsed?
    ensures DecodeUint(w, buf).value < Limit(w)
    ensures buf == LE(DecodeUint(w, buf).value, w) + DecodeUint(w, buf).rest
  {
    LEOfFromLE(buf[..w]);
  }

  lemma UintExtend(w: nat, buf: Octets, more: Octets)
    requires DecodeUint(w, buf).Parsed?
    ensures DecodeUint(w, buf + more) == Parsed(DecodeUint(w, buf).value, DecodeUint(w, buf).rest + more)
  {
    assert (buf + more)[..w] == buf[..w];
    assert (buf + more)[w..] == buf[w..] + more;
  }

  lemma FieldOfLE(before: Octets, n: nat, w: nat, after: Octets)
    requires n < Limit(w)
    ensures Field(before + LE(n, w) + after, |before|, |before| + w) == n
  {
    FromLEOfLE(n, w);
    assert (before + LE(n, w) + after)[|before|..|before| + w] == LE(n, w);
  }

  lemma LEOfField(buf: Octets, lo: nat, hi: nat)
    requires lo <= hi <= |buf|
    ensures LE(Field(buf, lo, hi), hi - lo) == buf[lo..hi]
  {
    LEOfFromLE(buf[lo..hi]);
  }

  lemma FieldExtend(buf: Octets, more: Octets, lo: nat, hi: nat)
    requires lo <= hi <= |buf|
    ensures Field(buf + more, lo, hi) == Field(buf, lo, hi)
  {
    assert (buf + more)[lo..hi] == buf[lo..hi];
  }

  // ---------------------------------------------------------------- identifiers

  lemma IdRoundTrip(id: u64, rest: Octets)
    ensures DecodeId(LE(id, 8) + rest) == Parsed(id, rest)
  {
    Limits();
    FieldOfLE([], id, 8, rest);
    assert [] + LE(id, 8) + rest == LE(id, 8) + rest;
    assert (LE(id, 8) + rest)[8..] == rest;
  }

  lemma IdSound(buf: Octets)
    requires DecodeId(buf).Parsed?
    ensures buf == LE(DecodeId(buf).value, 8) + DecodeId(buf).rest
  {
    LEOfField(buf, 0, 8);
    assert buf[..8] == buf[0..8];
  }

  lemma IdExtend(buf: Octets, more: Octets)
    requires DecodeId(buf).Parsed?
    ensures DecodeId(buf + more) == Parsed(DecodeId(buf).value, DecodeId(buf).rest + more)
  {
    FieldExtend(buf, more, 0, 8);
    assert (buf + more)[8..] == buf[8..] + more;
  }

  // ---------------------------------------------------------------- flags and strings

  lemma FlagRoundTrip(b: bool, rest: Octets)
    ensures DecodeFlag([FlagByte(b)] + rest) == Parsed(b, rest)
  {
    assert ([FlagByte(b)] + rest)[1..] == rest;
  }

  lemma FlagSound(buf: Octets)
    requires DecodeFlag(buf).Parsed?
    ensures Consumed(buf, DecodeFlag(buf).rest, [FlagByte(DecodeFlag(buf).value)], [true])
  {
  }

  lemma FlagExtend(buf: Octets, more: Octets)
    requires DecodeFlag(buf).Parsed?
    ensures DecodeFlag(buf + more) == Parsed(DecodeFlag(buf).value, DecodeFlag(buf).rest + more)
  {
    assert (buf + more)[1..] == buf[1..] + more;
  }

  lemma TextRoundTrip(s: Text, rest: Octets)
    requires |s| < 0x1_0000
    ensures DecodeText(EncodeText(s) + rest) == Parsed(s, rest)
  {
    Limits();
    hide LE, FromLE, Utf8;
    var buf := EncodeText(s) + rest;
    FromLEOfLE(|s|, 2);
    assert buf[..2] == LE(|s|, 2);
    assert buf[2..2 + |s|] == s;
    assert buf[2 + |s|..] == rest;
  }

  lemma TextSound(buf: Octets)
    requires DecodeText(buf).Parsed?
    ensures |DecodeText(buf).value| < 0x1_0000
    ensures buf == EncodeText(DecodeText(buf).value) + DecodeText(buf).rest
  {
    Limits();
    hide Utf8, LE, FromLE;
    var prefix, s := buf[..2], DecodeText(buf).value;
    LEOfFromLE(prefix);
    assert EncodeText(s) == prefix + s;
    SplitTwo(buf, prefix, s);
  }

  lemma SplitTwo(buf: Octets, a: Octets, b: Octets)
    requires |a| + |b| <= |buf|
    requires buf[..|a|] == a && buf[|a|..|a| + |b|] == b
    ensures buf[..|a + b|] == a + b
  {
  }

  lemma TextExtend(buf: Octets, more: Octets)
    requires DecodeText(buf).Parsed?
    ensures DecodeText(buf + more) == Parsed(DecodeText(buf).value, DecodeText(buf).rest + more)
  {
    var n := 2 + FromLE(buf[..2]);
    assert (buf + more)[..2] == buf[..2];
    assert (buf + more)[2..n] == buf[2..n];
    assert (buf + more)[n..] == buf[n..] + more;
  }

  // ---------------------------------------------------------------- vectors of floats

  lemma FieldIs(buf: Octets, lo: nat, hi: nat, n: nat)
    requires lo <= hi <= |buf| && n < Limit(hi - lo)
    requires buf[lo..hi] == LE(n, hi - lo)
    ensures Field(buf, lo, hi) == n
  {
    FromLEOfLE(n, hi - lo);
  }

  lemma Vec3Parts(x: Octets, y: Octets, z: Octets, rest: Octets)
    requires |x| == |y| == |z| == 4
    ensures var buf := x + y + z + rest;
      buf[0..4] == x && buf[4..8] == y && buf[8..12] == z && buf[12..] == rest
  {
  }

  lemma Vec3RoundTrip(v: Vec3, rest: Octets)
    ensures DecodeVec3(EncodeVec3(v) + rest) == Parsed(v, rest)
  {
    Limits();
    Vec3Parts(LE(v.x, 4), LE(v.y, 4), LE(v.z, 4), rest);
    var buf := EncodeVec3(v) + rest;
    FieldIs(buf, 0, 4, v.x);
    FieldIs(buf, 4, 8, v.y);
    FieldIs(buf, 8, 12, v.z);
  }

  lemma ThreeWords(buf: Octets)
    requires |buf| >= 12
    ensures buf == buf[0..4] + buf[4..8] + buf[8..12] + buf[12..]
  {
  }

  lemma Vec3Sound(buf: Octets)
    requires DecodeVec3(buf).Parsed?
    ensures buf == EncodeVec3(DecodeVec3(buf).value) + DecodeVec3(buf).rest
  {
    hide LE, Field;
    LEOfField(buf, 0, 4);
    LEOfField(buf, 4, 8);
    LEOfField(buf, 8, 12);
    ThreeWords(buf);
  }

  lemma Vec3Extend(buf: Octets, more: Octets)
    requires DecodeVec3(buf).Parsed?
    ensures DecodeVec3(buf + more) == Parsed(DecodeVec3(buf).value, DecodeVec3(buf).rest + more)
  {
    FieldExtend(buf, more, 0, 4);
    FieldExtend(buf, more, 4, 8);
    FieldExtend(buf, more, 8, 12);
    assert (buf + more)[12..] == buf[12..] + more;
  }

  // ---------------------------------------------------------------- entities

  /** Where the five parts of an entity sit. */
  lemma EntityParts(id: Octets, faction: Octets, region: Octets, flag: Octets, flags: Octets, rest: Octets)
    requires |id| == |flags| == 8 && |faction| == |region| == 4 && |flag| == 1
    ensures var buf := id + faction + region + flag + flags + rest;
      && buf[0..8] == id && buf[8..12] == faction && buf[12..16] == region
      && buf[16] == flag[0] && buf[17..25] == flags && buf[25..] == rest
  {
  }

  lemma EntityRoundTrip(e: EntitySnapshot, rest: Octets)
    ensures DecodeEntity(EncodeEntity(e) + rest) == Parsed(e, rest)
  {
    Limits();
    EntityParts(LE(e.id, 8), LE(e.faction, 4), LE(e.region, 4), [FlagByte(e.active)], LE(e.flags, 8), rest);
    var buf := EncodeEntity(e) + rest;
    FieldIs(buf, 0, 8, e.id);
    FieldIs(buf, 8, 12, e.faction);
    FieldIs(buf, 12, 16, e.region);
    FieldIs(buf, 17, 25, e.flags);
  }

  lemma EntityReencodes(buf: Octets)
    requires |buf| >= 25
    ensures EncodeEntity(DecodeEntity(buf).value) ==
            buf[0..8] + buf[8..12] + buf[12..16] + [FlagByte(buf[16] != 0)] + buf[17..25]
  {
    var e := DecodeEntity(buf).value;
    assert LE(e.id, 8) == buf[0..8] by { LEOfField(buf, 0, 8); }
    assert LE(e.faction, 4) == buf[8..12] by { LEOfField(buf, 8, 12); }
    assert LE(e.region, 4) == buf[12..16] by { LEOfField(buf, 12, 16); }
    assert LE(e.flags, 8) == buf[17..25] by { LEOfField(buf, 17, 25); }
  }

  lemma EntitySound(buf: Octets)
    requires DecodeEntity(buf).Parsed?
    ensures Consumed(buf, DecodeEntity(buf).rest, EncodeEntity(DecodeEntity(buf).value), EntityFlags())
  {
    EntityReencodes(buf);
    EntityBytes(buf, buf[0..8], buf[8..12], buf[12..16], FlagByte(buf[16] != 0), buf[17..25]);
  }

  lemma EntityBytes(buf: Octets, id: Octets, faction: Octets, region: Octets, flag: Byte, flags: Octets)
    requires |buf| >= 25
    requires id == buf[0..8] && faction == buf[8..12] && region == buf[12..16] && flags == buf[17..25]
    requires flag == FlagByte(buf[16] != 0)
    ensures Consumed(buf, buf[25..], id + faction + region + [flag] + flags, EntityFlags())
  {
  }

  lemma EntityExtend(buf: Octets, more: Octets)
    requires DecodeEntity(buf).Parsed?
    ensures DecodeEntity(buf + more) == Parsed(DecodeEntity(buf).value, DecodeEntity(buf).rest + more)
  {
    FieldExtend(buf, more, 0, 8);
    FieldExtend(buf, more, 8, 12);
    FieldExtend(buf, more, 12, 16);
    FieldExtend(buf, more, 17, 25);
    assert (buf + more)[25..] == buf[25..] + more;
  }

  lemma {:induction false} EntitiesRoundTrip(es: seq<EntitySnapshot>, rest: Octets)
    ensures DecodeEntities(|es|, EncodeEntities(es) + rest) == Parsed(es, rest)
  {
    if es == [] {
      assert EncodeEntities(es) + rest == rest;
    } else {
      var tail := EncodeEntities(es[1..]) + rest;
      assert EncodeEntities(es) + rest == EncodeEntity(es[0]) + tail;
      EntityRoundTrip(es[0], tail);
      EntitiesRoundTrip(es[1..], rest);
      assert [es[0]] + es[1..] == es;
    }
  }

  /** A counted vector of `n` entities is read from exactly 25n bytes. */
  lemma {:induction false} EntitiesWidth(n: nat, buf: Octets)
    requires DecodeEntities(n, buf).Parsed?
    ensures |buf| == 25 * n + |DecodeEntities(n, buf).rest|
    decreases n
  {
    if n == 0 {
    } else {
      EntitiesWidth(n - 1, DecodeEntity(buf).rest);
    }
  }

  lemma {:induction false} EntitiesSound(n: nat, buf: Octets)
    requires DecodeEntities(n, buf).Parsed?
    ensures |DecodeEntities(n, buf).value| == n
    ensures Consumed(buf, DecodeEntities(n, buf).rest, EncodeEntities(DecodeEntities(n, buf).value), EntitiesFlags(n))
    decreases n
  {
    hide Consumed, EncodeEntity, DecodeEntity, EntityFlags;
    if n == 0 {
      NothingConsumed(buf);
    } else {
      var first := DecodeEntity(buf);
      var others := DecodeEntities(n - 1, first.rest);
      EntitySound(buf);
      EntitiesSound(n - 1, first.rest);
      ConsumedThen(buf, first.rest, others.rest, EncodeEntity(first.value), EntityFlags(),
                   EncodeEntities(others.value), EntitiesFlags(n - 1));
      assert ([first.value] + others.value)[1..] == others.value;
    }
  }

  lemma {:induction false} EntitiesExtend(n: nat, buf: Octets, more: Octets)
    requires DecodeEntities(n, buf).Parsed?
    ensures DecodeEntities(n, buf + more) == Parsed(DecodeEntities(n, buf).value, DecodeEntities(n, buf).rest + more)
    decreases n
  {
    if n == 0 {
    } else {
      EntityExtend(buf, more);
      EntitiesExtend(n - 1, DecodeEntity(buf).rest, more);
    }
  }

  lemma {:induction false} IdsRoundTrip(ids: seq<u64>, rest: Octets)
    ensures DecodeIds(|ids|, EncodeIds(ids) + rest) == Parsed(ids, rest)
  {
    if ids == [] {
      assert EncodeIds(ids) + rest == rest;
    } else {
      var tail := EncodeIds(ids[1..]) + rest;
      assert EncodeIds(ids) + rest == LE(ids[0], 8) + tail;
      IdRoundTrip(ids[0], tail);
      IdsRoundTrip(ids[1..], rest);
      assert [ids[0]] + ids[1..] == ids;
    }
  }

  lemma {:induction false} IdsSound(n: nat, buf: Octets)
    requires DecodeIds(n, buf).Parsed?
    ensures |DecodeIds(n, buf).value| == n
    ensures buf == EncodeIds(DecodeIds(n, buf).value) + DecodeIds(n, buf).rest
    decreases n
  {
    if n == 0 {
    } else {
      var first := DecodeId(buf);
      var others := DecodeIds(n - 1, first.rest);
      IdSound(buf);
      IdsSound(n - 1, first.rest);
      Regroup(LE(first.value, 8), EncodeIds(others.value), others.rest);
      assert ([first.value] + others.value)[1..] == others.value;
    }
  }

  lemma {:induction false} IdsExtend(n: nat, buf: Octets, more: Octets)
    requires DecodeIds(n, buf).Parsed?
    ensures DecodeIds(n, buf + more) == Parsed(DecodeIds(n, buf).value, DecodeIds(n, buf).rest + more)
    decreases n
  {
    if n == 0 {
    } else {
      IdExtend(buf, more);
      IdsExtend(n - 1, DecodeId(buf).rest, more);
    }
  }

  // ---------------------------------------------------------------- robot orders

  lemma TagFirst(tag: Byte, body: Octets, rest: Octets)
    ensures ([tag] + body + rest)[0] == tag
    ensures ([tag] + body + rest)[1..] == body + rest
  {
  }

  lemma OrderRoundTrip(o: RobotOrder, rest: Octets)
    ensures DecodeOrder(EncodeOrder(o) + rest) == Parsed(o, rest)
  {
    match o
    case Follow(target) => TargetOrderRoundTrip(o, target, rest);
    case Attack(target) => TargetOrderRoundTrip(o, target, rest);
    case Guard(position) => PositionOrderRoundTrip(o, position, rest);
    case MoveTo(position) => PositionOrderRoundTrip(o, position, rest);
    case ReturnToBase => assert ([5] + rest)[1..] == rest;
  }

  lemma TargetOrderRoundTrip(o: RobotOrder, target: u64, rest: Octets)
    requires o == Follow(target) || o == Attack(target)
    ensures DecodeOrder(EncodeOrder(o) + rest) == Parsed(o, rest)
  {
    TagFirst(if o.Follow? then 1 else 3, LE(target, 8), rest);
    IdRoundTrip(target, rest);
  }

  lemma PositionOrderRoundTrip(o: RobotOrder, position: Vec3, rest: Octets)
    requires o == Guard(position) || o == MoveTo(position)
    ensures DecodeOrder(EncodeOrder(o) + rest) == Parsed(o, rest)
  {
    TagFirst(if o.Guard? then 2 else 4, EncodeVec3(position), rest);
    Vec3RoundTrip(position, rest);
  }

  lemma OrderSound(buf: Octets)
    requires DecodeOrder(buf).Parsed?
    ensures buf == EncodeOrder(DecodeOrder(buf).value) + DecodeOrder(buf).rest
  {
    var tag := [buf[0]];
    assert buf == tag + buf[1..];
    if buf[0] == 1 || buf[0] == 3 {
      IdSound(buf[1..]);
      Regroup(tag, LE(DecodeId(buf[1..]).value, 8), DecodeId(buf[1..]).rest);
    } else if buf[0] == 2 || buf[0] == 4 {
      Vec3Sound(buf[1..]);
      Regroup(tag, EncodeVec3(DecodeVec3(buf[1..]).value), DecodeVec3(buf[1..]).rest);
    }
  }

  lemma OrderExtend(buf: Octets, more: Octets)
    requires DecodeOrder(buf).Parsed?
    ensures DecodeOrder(buf + more) == Parsed(DecodeOrder(buf).value, DecodeOrder(buf).rest + more)
  {
    assert (buf + more)[0] == buf[0];
    assert (buf + more)[1..] == buf[1..] + more;
    if buf[0] == 1 || buf[0] == 3 {
      IdExtend(buf[1..], more);
    } else if buf[0] == 2 || buf[0] == 4 {
      Vec3Extend(buf[1..], more);
    }
  }

  // ---------------------------------------------------------------- fields

  lemma OptIdRoundTrip(id: Option<u64>, rest: Octets)
    ensures DecodeOptId(EncodeOptId(id) + rest) == Parsed(id, rest)
  {
    if id.Some? {
      TagFirst(1, LE(id.value, 8), rest);
      IdRoundTrip(id.value, rest);
    } else {
      FlagRoundTrip(false, rest);
    }
  }

  lemma OptTextRoundTrip(text: Option<Text>, rest: Octets)
    requires text.Some? ==> |text.value| < 0x1_0000
    ensures DecodeOptText(EncodeOptText(text) + rest) == Parsed(text, rest)
  {
    if text.Some? {
      TagFirst(1, EncodeText(text.value), rest);
      TextRoundTrip(text.value, rest);
    } else {
      FlagRoundTrip(false, rest);
    }
  }

  /** A count of fewer than 2^32 elements survives its 32-bit prefix. */
  lemma CountRoundTrip(n: nat, body: Octets, rest: Octets)
    requires n < 0x1_0000_0000
    ensures DecodeUint(4, LE(n % 0x1_0000_0000, 4) + body + rest) == Parsed(n, body + rest)
  {
    Limits();
    assert LE(n, 4) + body + rest == LE(n, 4) + (body + rest);
    UintRoundTrip(4, n, body + rest);
  }

  lemma EntityListRoundTrip(es: seq<EntitySnapshot>, rest: Octets)
    requires |es| < 0x1_0000_0000
    ensures DecodeEntityList(EncodeEntityList(es) + rest) == Parsed(es, rest)
  {
    CountRoundTrip(|es|, EncodeEntities(es), rest);
    EntitiesRoundTrip(es, rest);
  }

  lemma IdListRoundTrip(ids: seq<u64>, rest: Octets)
    requires |ids| < 0x1_0000_0000
    ensures DecodeIdList(EncodeIdList(ids) + rest) == Parsed(ids, rest)
  {
    CountRoundTrip(|ids|, EncodeIds(ids), rest);
    IdsRoundTrip(ids, rest);
  }

  lemma ValueRoundTrip(k: Kind, v: Value, rest: Octets)
    requires Fits(k, v)
    ensures DecodeValue(k, EncodeValue(k, v) + rest) == Parsed(v, rest)
  {
    match k
    case Uint(w) => UintRoundTrip(w, v.n, rest);
    case Code(_) => assert ([v.n as Byte] + rest)[1..] == rest;
    case Flag => FlagRoundTrip(v.b, rest);
    case Str => TextRoundTrip(v.s, rest);
    case OptId => OptIdRoundTrip(v.id, rest);
    case OptStr => OptTextRoundTrip(v.text, rest);
    case Order => OrderRoundTrip(v.order, rest);
    case Entities => EntityListRoundTrip(v.entities, rest);
    case Ids => IdListRoundTrip(v.ids, rest);
  }

  lemma OptIdSound(buf: Octets)
    requires DecodeOptId(buf).Parsed?
    ensures var d := DecodeOptId(buf); Consumed(buf, d.rest, EncodeOptId(d.value), OptIdFlags(d.value))
  {
    FlagSound(buf);
    var flag := DecodeFlag(buf);
    if flag.value {
      var id := DecodeId(flag.rest);
      IdSound(flag.rest);
      ExactlyConsumed(flag.rest, id.rest, LE(id.value, 8));
      ConsumedThen(buf, flag.rest, id.rest, [1], [true], LE(id.value, 8), Fixed(8));
    }
  }

  lemma OptTextSound(buf: Octets)
    requires DecodeOptText(buf).Parsed?
    ensures DecodeOptText(buf).value.Some? ==> |DecodeOptText(buf).value.value| < 0x1_0000
    ensures Consumed(buf, DecodeOptText(buf).rest, EncodeOptText(DecodeOptText(buf).value),
                     OptTextFlags(DecodeOptText(buf).value))
  {
    FlagSound(buf);
    var flag := DecodeFlag(buf);
    if flag.value {
      var text := DecodeText(flag.rest);
      TextSound(flag.rest);
      ExactlyConsumed(flag.rest, text.rest, EncodeText(text.value));
      ConsumedThen(buf, flag.rest, text.rest, [1], [true], EncodeText(text.value), Fixed(|EncodeText(text.value)|));
    }
  }

  lemma CountSound(buf: Octets)
    requires DecodeUint(4, buf).Parsed?
    ensures DecodeUint(4, buf).value < 0x1_0000_0000
    ensures buf == LE(DecodeUint(4, buf).value % 0x1_0000_0000, 4) + DecodeUint(4, buf).rest
  {
    Limits();
    UintSound(4, buf);
  }

  /** An accepted list of `n` entities is followed by exactly what lies 25n bytes after its count. */
  lemma EntityListSound(buf: Octets)
    requires DecodeEntityList(buf).Parsed?
    ensures var d := DecodeEntityList(buf);
      && |d.value| < 0x1_0000_0000
      && |buf| == 4 + 25 * |d.value| + |d.rest|
      && Consumed(buf, d.rest, EncodeEntityList(d.value), Fixed(4) + EntitiesFlags(|d.value|))
  {
    CountSound(buf);
    var count := DecodeUint(4, buf);
    var list := DecodeEntities(count.value, count.rest);
    EntitiesSound(count.value, count.rest);
    EntitiesWidth(count.value, count.rest);
    var prefix := LE(count.value % 0x1_0000_0000, 4);
    ExactlyConsumed(buf, count.rest, prefix);
    ConsumedThen(buf, count.rest, list.rest, prefix, Fixed(4), EncodeEntities(list.value), EntitiesFlags(count.value));
  }

  lemma IdListSound(buf: Octets)
    requires DecodeIdList(buf).Parsed?
    ensures var d := DecodeIdList(buf);
      |d.value| < 0x1_0000_0000 && buf == EncodeIdList(d.value) + d.rest
  {
    CountSound(buf);
    var count := DecodeUint(4, buf);
    var list := DecodeIds(count.value, count.rest);
    IdsSound(count.value, count.rest);
    Regroup(LE(count.value % 0x1_0000_0000, 4), EncodeIds(list.value), list.rest);
  }

  lemma OptIdExtend(buf: Octets, more: Octets)
    requires DecodeOptId(buf).Parsed?
    ensures DecodeOptId(buf + more) == Parsed(DecodeOptId(buf).value, DecodeOptId(buf).rest + more)
  {
    FlagExtend(buf, more);
    if DecodeFlag(buf).value {
      IdExtend(DecodeFlag(buf).rest, more);
    }
  }

  lemma OptTextExtend(buf: Octets, more: Octets)
    requires DecodeOptText(buf).Parsed?
    ensures DecodeOptText(buf + more) == Parsed(DecodeOptText(buf).value, DecodeOptText(buf).rest + more)
  {
    FlagExtend(buf, more);
    if DecodeFlag(buf).value {
      TextExtend(DecodeFlag(buf).rest, more);
    }
  }

  lemma EntityListExtend(buf: Octets, more: Octets)
    requires DecodeEntityList(buf).Parsed?
    ensures DecodeEntityList(buf + more) == Parsed(DecodeEntityList(buf).value, DecodeEntityList(buf).rest + more)
  {
    UintExtend(4, buf, more);
    EntitiesExtend(DecodeUint(4, buf).value, DecodeUint(4, buf).rest, more);
  }

  lemma IdListExtend(buf: Octets, more: Octets)
    requires DecodeIdList(buf).Parsed?
    ensures DecodeIdList(buf + more) == Parsed(DecodeIdList(buf).value, DecodeIdList(buf).rest + more)
  {
    UintExtend(4, buf, more);
    IdsExtend(DecodeUint(4, buf).value, DecodeUint(4, buf).rest, more);
  }

  lemma ValueSound(k: Kind, buf: Octets)
    requires DecodeValue(k, buf).Parsed?
    ensures Fits(k, DecodeValue(k, buf).value)
    ensures var d := DecodeValue(k, buf);
      Consumed(buf, d.rest, EncodeValue(k, d.value), ValueFlags(k, d.value))
  {
    var d := DecodeValue(k, buf);
    match k
    case Uint(w) =>
      UintSound(w, buf);
      ExactlyConsumed(buf, d.rest, LE(d.value.n, w));
    case Code(_) => ExactlyConsumed(buf, d.rest, [d.value.n]);
    case Flag => FlagSound(buf);
    case Str =>
      TextSound(buf);
      ExactlyConsumed(buf, d.rest, EncodeText(d.value.s));
    case OptId => OptIdSound(buf);
    case OptStr => OptTextSound(buf);
    case Order =>
      OrderSound(buf);
      ExactlyConsumed(buf, d.rest, EncodeOrder(d.value.order));
    case Entities => EntityListSound(buf);
    case Ids =>
      IdListSound(buf);
      ExactlyConsumed(buf, d.rest, EncodeIdList(d.value.ids));
  }

  // ---------------------------------------------------------------- every spelling is accepted

  /** Bytes outside the flags are read as they stand. */
  lemma SpelledSlice(buf: Octets, canonical: Octets, flags: seq<bool>, lo: nat, hi: nat)
    requires lo <= hi <= |canonical| <= |buf|
    requires Spells(buf[..|canonical|], canonical, flags)
    requires forall i :: lo <= i < hi ==> !flags[i]
    ensures buf[lo..hi] == canonical[lo..hi]
  {
    assert forall i :: 0 <= i < |canonical| ==> buf[i] == buf[..|canonical|][i];
  }

  lemma EntityAccepts(e: EntitySnapshot, buf: Octets, rest: Octets)
    requires Consumed(buf, rest, EncodeEntity(e), EntityFlags())
    ensures DecodeEntity(buf) == Parsed(e, rest)
  {
    Limits();
    var canonical := EncodeEntity(e);
    EntityParts(LE(e.id, 8), LE(e.faction, 4), LE(e.region, 4), [FlagByte(e.active)], LE(e.flags, 8), []);
    assert canonical + [] == canonical;
    SpelledSlice(buf, canonical, EntityFlags(), 0, 8);
    SpelledSlice(buf, canonical, EntityFlags(), 8, 12);
    SpelledSlice(buf, canonical, EntityFlags(), 12, 16);
    SpelledSlice(buf, canonical, EntityFlags(), 17, 25);
    FieldIs(buf, 0, 8, e.id);
    FieldIs(buf, 8, 12, e.faction);
    FieldIs(buf, 12, 16, e.region);
    FieldIs(buf, 17, 25, e.flags);
    assert buf[..25][16] == buf[16];
  }

  lemma {:induction false} EntitiesAccept(es: seq<EntitySnapshot>, buf: Octets, rest: Octets)
    requires Consumed(buf, rest, EncodeEntities(es), EntitiesFlags(|es|))
    ensures DecodeEntities(|es|, buf) == Parsed(es, rest)
  {
    if es == [] {
      assert buf[0..] == buf;
    } else {
      hide Consumed, Spells, DecodeEntity, EncodeEntity, EntityFlags, LE, FromLE;
      EntityLength(es[0]);
      ConsumedSplit(buf, rest, EncodeEntity(es[0]), EntityFlags(), EncodeEntities(es[1..]), EntitiesFlags(|es| - 1));
      EntityAccepts(es[0], buf, buf[25..]);
      EntitiesAccept(es[1..], buf[25..], rest);
      assert [es[0]] + es[1..] == es;
    }
  }

  lemma EntityLength(e: EntitySnapshot)
    ensures |EncodeEntity(e)| == 25
  {
  }

  lemma EntityListAccepts(es: seq<EntitySnapshot>, buf: Octets, rest: Octets)
    requires |es| < 0x1_0000_0000
    requires Consumed(buf, rest, EncodeEntityList(es), Fixed(4) + EntitiesFlags(|es|))
    ensures DecodeEntityList(buf) == Parsed(es, rest)
  {
    hide Consumed, EncodeEntities, DecodeEntities, EntitiesFlags, LE, FromLE;
    Limits();
    var prefix := LE(|es| % 0x1_0000_0000, 4);
    ConsumedSplit(buf, rest, prefix, Fixed(4), EncodeEntities(es), EntitiesFlags(|es|));
    ExactlyConsumed(buf, buf[4..], prefix);
    UintRoundTrip(4, |es|, buf[4..]);
    EntitiesAccept(es, buf[4..], rest);
  }

  lemma FlagAccepts(b: bool, buf: Octets, rest: Octets)
    requires Consumed(buf, rest, [FlagByte(b)], [true])
    ensures DecodeFlag(buf) == Parsed(b, rest)
  {
    assert buf[..1][0] == buf[0];
  }

  lemma OptIdAccepts(id: Option<u64>, buf: Octets, rest: Octets)
    requires Consumed(buf, rest, EncodeOptId(id), OptIdFlags(id))
    ensures DecodeOptId(buf) == Parsed(id, rest)
  {
    if id.Some? {
      ConsumedSplit(buf, rest, [1], [true], LE(id.value, 8), Fixed(8));
      FlagAccepts(true, buf, buf[1..]);
      ExactlyConsumed(buf[1..], rest, LE(id.value, 8));
      IdRoundTrip(id.value, rest);
    } else {
      FlagAccepts(false, buf, rest);
    }
  }

  lemma OptTextAccepts(text: Option<Text>, buf: Octets, rest: Octets)
    requires text.Some? ==> |text.value| < 0x1_0000
    requires Consumed(buf, rest, EncodeOptText(text), OptTextFlags(text))
    ensures DecodeOptText(buf) == Parsed(text, rest)
  {
    if text.Some? {
      var body := EncodeText(text.value);
      ConsumedSplit(buf, rest, [1], [true], body, Fixed(|body|));
      FlagAccepts(true, buf, buf[1..]);
      ExactlyConsumed(buf[1..], rest, body);
      TextRoundTrip(text.value, rest);
    } else {
      FlagAccepts(false, buf, rest);
    }
  }

  lemma ValueAccepts(k: Kind, v: Value, buf: Octets, rest: Octets)
    requires Fits(k, v)
    requires Consumed(buf, rest, EncodeValue(k, v), ValueFlags(k, v))
    ensures DecodeValue(k, buf) == Parsed(v, rest)
  {
    hide Consumed;
    match k
    case Flag => FlagAccepts(v.b, buf, rest);
    case OptId => OptIdAccepts(v.id, buf, rest);
    case OptStr => OptTextAccepts(v.text, buf, rest);
    case Entities => EntityListAccepts(v.entities, buf, rest);
    case _ =>
      ExactlyConsumed(buf, rest, EncodeValue(k, v));
      ValueRoundTrip(k, v, rest);
  }

  lemma ValueExtend(k: Kind, buf: Octets, more: Octets)
    requires DecodeValue(k, buf).Parsed?
    ensures DecodeValue(k, buf + more) == Parsed(DecodeValue(k, buf).value, DecodeValue(k, buf).rest + more)
  {
    match k
    case Uint(w) => UintExtend(w, buf, more);
    case Code(_) => assert (buf + more)[1..] == buf[1..] + more;
    case Flag => FlagExtend(buf, more);
    case Str => TextExtend(buf, more);
    case OptId => OptIdExtend(buf, more);
    case OptStr => OptTextExtend(buf, more);
    case Order => OrderExtend(buf, more);
    case Entities => EntityListExtend(buf, more);
    case Ids => IdListExtend(buf, more);
  }

  // ---------------------------------------------------------------- records

  lemma {:induction false} FieldsRoundTrip(ks: seq<Kind>, vs: seq<Value>, rest: Octets)
    requires AllFit(ks, vs)
    ensures DecodeFields(ks, EncodeFields(ks, vs) + rest) == Parsed(vs, rest)
  {
    hide EncodeValue, DecodeValue;
    if ks == [] {
      assert EncodeFields(ks, vs) + rest == rest;
    } else {
      var head, body := EncodeValue(ks[0], vs[0]), EncodeFields(ks[1..], vs[1..]);
      Regroup(head, body, rest);
      ValueRoundTrip(ks[0], vs[0], body + rest);
      FieldsRoundTrip(ks[1..], vs[1..], rest);
      assert [vs[0]] + vs[1..] == vs;
    }
  }

  lemma {:induction false} FieldsSound(ks: seq<Kind>, buf: Octets)
    requires DecodeFields(ks, buf).Parsed?
    ensures AllFit(ks, DecodeFields(ks, buf).value)
    ensures var d := DecodeFields(ks, buf);
      Consumed(buf, d.rest, EncodeFields(ks, d.value), FieldFlags(ks, d.value))
  {
    if ks == [] {
    } else {
      var first := DecodeValue(ks[0], buf);
      var others := DecodeFields(ks[1..], first.rest);
      ValueSound(ks[0], buf);
      FieldsSound(ks[1..], first.rest);
      ConsumedThen(buf, first.rest, others.rest, EncodeValue(ks[0], first.value), ValueFlags(ks[0], first.value),
                   EncodeFields(ks[1..], others.value), FieldFlags(ks[1..], others.value));
      var vs := [first.value] + others.value;
      assert vs[1..] == others.value;
      assert forall i :: 0 < i < |ks| ==> ks[i] == ks[1..][i - 1] && vs[i] == others.value[i - 1];
    }
  }

  lemma {:induction false} FieldsExtend(ks: seq<Kind>, buf: Octets, more: Octets)
    requires DecodeFields(ks, buf).Parsed?
    ensures DecodeFields(ks, buf + more) == Parsed(DecodeFields(ks, buf).value, DecodeFields(ks, buf).rest + more)
  {
    if ks == [] {
    } else {
      ValueExtend(ks[0], buf, more);
      FieldsExtend(ks[1..], DecodeValue(ks[0], buf).rest, more);
    }
  }

  lemma {:induction false} FlagsCover(ks: seq<Kind>, vs: seq<Value>)
    requires AllShaped(ks, vs)
    ensures |EncodeFields(ks, vs)| == |FieldFlags(ks, vs)|
  {
    if ks == [] {
    } else {
      ValueFlagsCover(ks[0], vs[0]);
      FlagsCover(ks[1..], vs[1..]);
    }
  }

  lemma ValueFlagsCover(k: Kind, v: Value)
    requires Shaped(k, v)
    ensures |EncodeValue(k, v)| == |ValueFlags(k, v)|
  {
    if k.Entities? {
      EntitiesLength(v.entities);
    }
  }

  lemma {:induction false} EntitiesLength(es: seq<EntitySnapshot>)
    ensures |EncodeEntities(es)| == 25 * |es|
  {
    if es == [] {
    } else {
      EntitiesLength(es[1..]);
    }
  }

  lemma {:induction false} FieldsAccept(ks: seq<Kind>, vs: seq<Value>, buf: Octets, rest: Octets)
    requires AllFit(ks, vs)
    requires Consumed(buf, rest, EncodeFields(ks, vs), FieldFlags(ks, vs))
    ensures DecodeFields(ks, buf) == Parsed(vs, rest)
  {
    if ks == [] {
      assert buf[0..] == buf;
    } else {
      hide Consumed, EncodeValue, DecodeValue, ValueFlags;
      var head, flags := EncodeValue(ks[0], vs[0]), ValueFlags(ks[0], vs[0]);
      ValueFlagsCover(ks[0], vs[0]);
      ConsumedSplit(buf, rest, head, flags, EncodeFields(ks[1..], vs[1..]), FieldFlags(ks[1..], vs[1..]));
      ValueAccepts(ks[0], vs[0], buf, buf[|head|..]);
      FieldsAccept(ks[1..], vs[1..], buf[|head|..], rest);
      assert [vs[0]] + vs[1..] == vs;
    }
  }

  /** A record parses exactly from the spellings of its canonical bytes. */
  lemma FieldsIff(ks: seq<Kind>, vs: seq<Value>, buf: Octets, rest: Octets)
    ensures DecodeFields(ks, buf) == Parsed(vs, rest) <==>
            AllFit(ks, vs) && Consumed(buf, rest, EncodeFields(ks, vs), FieldFlags(ks, vs))
  {
    hide Consumed, EncodeFields, FieldFlags;
    if DecodeFields(ks, buf).Parsed? {
      FieldsSound(ks, buf);
    }
    if AllFit(ks, vs) && Consumed(buf, rest, EncodeFields(ks, vs), FieldFlags(ks, vs)) {
      FieldsAccept(ks, vs, buf, rest);
    }
  }
}
