/** The bytes on the wire, written out: every message, command, order and code with its fields in order. */
module WireBytes {
  import opened Words
  import opened Wrappers
  import opened Bytes
  import opened Protocol
  import opened WireFormat
  import opened CommandFormat
  import opened PacketFormat

  // ---------------------------------------------------------------- scalars

  /** Byte `i` of a little-endian number is its digit of weight 256^i. */
  lemma {:induction false} DigitOf(n: nat, k: nat, i: nat)
    requires i < k
    ensures LE(n, k)[i] == n / Limit(i) % 256
  {
    if i == 0 {
    } else {
      DigitOf(n / 256, k - 1, i - 1);
      assert 256 * Limit(i - 1) == Limit(i);
      DivideTwice(n, 256, Limit(i - 1));
    }
  }

  lemma DivideTwice(n: nat, a: nat, b: nat)
    requires a > 0 && b > 0 && a * b > 0
    ensures n / a / b == n / (a * b)
  {
    var m := n / a;
    var q := m / b;
    Euclid(n, a);
    Euclid(m, b);
    Grouped(q, b, m % b, a);
    Below(m % b, b, a);
    Quotient(n, q, m % b * a + n % a, a * b);
  }

  lemma Euclid(x: nat, m: nat)
    requires m > 0
    ensures x == x / m * m + x % m && x % m < m
  {
  }

  lemma Grouped(q: nat, b: nat, d: nat, a: nat)
    ensures (q * b + d) * a == q * (a * b) + d * a
  {
  }

  lemma Below(d: nat, b: nat, a: nat)
    requires d < b
    ensures d * a + a <= a * b
  {
    MulStep(d + 1, b, a);
  }

  lemma MulStep(c: nat, b: nat, a: nat)
    requires c <= b
    ensures c * a <= a * b
  {
  }

  lemma Quotient(n: nat, q: nat, r: nat, m: nat)
    requires m > 0 && n == q * m + r && r < m
    ensures n / m == q
  {
    var p := n / m;
    Euclid(n, m);
    if p < q {
      MulStep(p + 1, q, m);
    } else if p > q {
      MulStep(q + 1, p, m);
    }
  }

  lemma OneByte(b: Byte)
    ensures LE(b, 1) == [b]
  {
    assert LE(b / 256, 0) == [];
  }

  // ---------------------------------------------------------------- records, field by field

  lemma Fields0(ks: seq<Kind>, vs: seq<Value>)
    requires ks == [] && vs == []
    ensures EncodeFields(ks, vs) == []
  {
  }

  lemma FieldsCons(k: Kind, ks: seq<Kind>, v: Value, vs: seq<Value>)
    requires AllShaped([k] + ks, [v] + vs)
    ensures Shaped(k, v) && AllShaped(ks, vs)
    ensures EncodeFields([k] + ks, [v] + vs) == EncodeValue(k, v) + EncodeFields(ks, vs)
  {
    assert ([k] + ks)[0] == k && ([v] + vs)[0] == v;
    assert ([k] + ks)[1..] == ks && ([v] + vs)[1..] == vs;
    assert forall i :: 0 <= i < |ks| ==> ([k] + ks)[i + 1] == ks[i] && ([v] + vs)[i + 1] == vs[i];
  }

  lemma Fields1(k0: Kind, v0: Value)
    requires AllShaped([k0], [v0])
    ensures Shaped(k0, v0)
    ensures EncodeFields([k0], [v0]) ==
            EncodeValue(k0, v0)
  {
    hide EncodeValue, EncodeFields, Shaped;
    assert [k0] == [k0] + [] && [v0] == [v0] + [];
    FieldsCons(k0, [], v0, []);
    Fields0([], []);
  }

  lemma Fields2(k0: Kind, v0: Value, k1: Kind, v1: Value)
    requires AllShaped([k0, k1], [v0, v1])
    ensures Shaped(k0, v0) && Shaped(k1, v1)
    ensures EncodeFields([k0, k1], [v0, v1]) ==
            EncodeValue(k0, v0) + EncodeValue(k1, v1)
  {
    hide EncodeValue, EncodeFields, Shaped;
    assert [k0, k1] == [k0] + [k1] && [v0, v1] == [v0] + [v1];
    FieldsCons(k0, [k1], v0, [v1]);
    Fields1(k1, v1);
  }

  lemma Fields3(k0: Kind, v0: Value, k1: Kind, v1: Value, k2: Kind, v2: Value)
    requires AllShaped([k0, k1, k2], [v0, v1, v2])
    ensures Shaped(k0, v0) && Shaped(k1, v1) && Shaped(k2, v2)
    ensures EncodeFields([k0, k1, k2], [v0, v1, v2]) ==
            EncodeValue(k0, v0) + EncodeValue(k1, v1) + EncodeValue(k2, v2)
  {
    hide EncodeValue, EncodeFields, Shaped;
    assert [k0, k1, k2] == [k0] + [k1, k2] && [v0, v1, v2] == [v0] + [v1, v2];
    FieldsCons(k0, [k1, k2], v0, [v1, v2]);
    Fields2(k1, v1, k2, v2);
  }

  lemma Fields4(k0: Kind, v0: Value, k1: Kind, v1: Value, k2: Kind, v2: Value, k3: Kind, v3: Value)
    requires AllShaped([k0, k1, k2, k3], [v0, v1, v2, v3])
    ensures Shaped(k0, v0) && Shaped(k1, v1) && Shaped(k2, v2) && Shaped(k3, v3)
    ensures EncodeFields([k0, k1, k2, k3], [v0, v1, v2, v3]) ==
            EncodeValue(k0, v0) + EncodeValue(k1, v1) + EncodeValue(k2, v2) + EncodeValue(k3, v3)
  {
    hide EncodeValue, EncodeFields, Shaped;
    assert [k0, k1, k2, k3] == [k0] + [k1, k2, k3] && [v0, v1, v2, v3] == [v0] + [v1, v2, v3];
    FieldsCons(k0, [k1, k2, k3], v0, [v1, v2, v3]);
    Fields3(k1, v1, k2, v2, k3, v3);
  }

  lemma Fields5(k0: Kind, v0: Value, k1: Kind, v1: Value, k2: Kind, v2: Value,
                k3: Kind, v3: Value, k4: Kind, v4: Value)
    requires AllShaped([k0, k1, k2, k3, k4], [v0, v1, v2, v3, v4])
    ensures Shaped(k0, v0) && Shaped(k1, v1) && Shaped(k2, v2) && Shaped(k3, v3) && Shaped(k4, v4)
    ensures EncodeFields([k0, k1, k2, k3, k4], [v0, v1, v2, v3, v4]) ==
            EncodeValue(k0, v0) + EncodeValue(k1, v1) + EncodeValue(k2, v2) + EncodeValue(k3, v3) + EncodeValue(k4, v4)
  {
    hide EncodeValue, EncodeFields, Shaped;
    assert [k0, k1, k2, k3, k4] == [k0] + [k1, k2, k3, k4] && [v0, v1, v2, v3, v4] == [v0] + [v1, v2, v3, v4];
    FieldsCons(k0, [k1, k2, k3, k4], v0, [v1, v2, v3, v4]);
    Fields4(k1, v1, k2, v2, k3, v3, k4, v4);
  }

  lemma Fields6(k0: Kind, v0: Value, k1: Kind, v1: Value, k2: Kind, v2: Value,
                k3: Kind, v3: Value, k4: Kind, v4: Value, k5: Kind, v5: Value)
    requires AllShaped([k0, k1, k2, k3, k4, k5], [v0, v1, v2, v3, v4, v5])
    ensures Shaped(k0, v0) && Shaped(k1, v1) && Shaped(k2, v2) && Shaped(k3, v3) && Shaped(k4, v4) && Shaped(k5, v5)
    ensures EncodeFields([k0, k1, k2, k3, k4, k5], [v0, v1, v2, v3, v4, v5]) ==
            EncodeValue(k0, v0) + EncodeValue(k1, v1) + EncodeValue(k2, v2) + EncodeValue(k3, v3) +
            EncodeValue(k4, v4) + EncodeValue(k5, v5)
  {
    hide EncodeValue, EncodeFields, Shaped;
    assert [k0, k1, k2, k3, k4, k5] == [k0] + [k1, k2, k3, k4, k5];
    assert [v0, v1, v2, v3, v4, v5] == [v0] + [v1, v2, v3, v4, v5];
    FieldsCons(k0, [k1, k2, k3, k4, k5], v0, [v1, v2, v3, v4, v5]);
    Fields5(k1, v1, k2, v2, k3, v3, k4, v4, k5, v5);
  }

  // ---------------------------------------------------------------- commands

  /** Movement, requests and regions: the discriminator, then every field in order, little endian. */
  lemma MotionBytes(p: Vec3, v: Vec3, r: u16, n: u32, a: u64, m: u32)
    ensures EncodeCommand(Move(p, v)) == [1] + (LE(p.x, 4) + LE(p.y, 4) + LE(p.z, 4) + LE(v.x, 4) + LE(v.y, 4) +
            LE(v.z, 4))
    ensures EncodeCommand(RequestResource(r, n)) == [5] + (LE(r, 2) + LE(n, 4))
    ensures EncodeCommand(TransferRegion(a, m)) == [7] + (LE(a, 8) + LE(m, 4))
  {
    hide EncodeFields, LE;
    MoveBytes(p, v);
    RequestResourceBytes(r, n);
    TransferRegionBytes(a, m);
  }

  lemma MoveBytes(p: Vec3, v: Vec3)
    ensures EncodeCommand(Move(p, v)) == [1] + (LE(p.x, 4) + LE(p.y, 4) + LE(p.z, 4) + LE(v.x, 4) + LE(v.y, 4) +
            LE(v.z, 4))
  {
    hide EncodeFields, LE;
    CommandShaped(Move(p, v));
    Fields6(Uint(4), Num(p.x), Uint(4), Num(p.y), Uint(4), Num(p.z),
            Uint(4), Num(v.x), Uint(4), Num(v.y), Uint(4), Num(v.z));
  }

  lemma RequestResourceBytes(r: u16, n: u32)
    ensures EncodeCommand(RequestResource(r, n)) == [5] + (LE(r, 2) + LE(n, 4))
  {
    hide EncodeFields, LE;
    CommandShaped(RequestResource(r, n));
    Fields2(Uint(2), Num(r), Uint(4), Num(n));
  }

  lemma TransferRegionBytes(a: u64, m: u32)
    ensures EncodeCommand(TransferRegion(a, m)) == [7] + (LE(a, 8) + LE(m, 4))
  {
    hide EncodeFields, LE;
    CommandShaped(TransferRegion(a, m));
    Fields2(Uint(8), Num(a), Uint(4), Num(m));
  }

  /** Structures, but for building and repair: the discriminator, then every field in order, little endian. */
  lemma StructureBytes(a: u64, n: u32, b: u64)
    ensures EncodeCommand(DismantleStructure(a)) == [9] + (LE(a, 8))
    ensures EncodeCommand(SetProductionRecipe(a, n)) == [15] + (LE(a, 8) + LE(n, 4))
    ensures EncodeCommand(SetExtractionTarget(a, b)) == [16] + (LE(a, 8) + LE(b, 8))
  {
    hide EncodeFields, LE;
    DismantleStructureBytes(a);
    SetProductionRecipeBytes(a, n);
    SetExtractionTargetBytes(a, b);
  }

  lemma DismantleStructureBytes(a: u64)
    ensures EncodeCommand(DismantleStructure(a)) == [9] + (LE(a, 8))
  {
    hide EncodeFields, LE;
    CommandShaped(DismantleStructure(a));
    Fields1(Uint(8), Num(a));
  }

  lemma SetProductionRecipeBytes(a: u64, n: u32)
    ensures EncodeCommand(SetProductionRecipe(a, n)) == [15] + (LE(a, 8) + LE(n, 4))
  {
    hide EncodeFields, LE;
    CommandShaped(SetProductionRecipe(a, n));
    Fields2(Uint(8), Num(a), Uint(4), Num(n));
  }

  lemma SetExtractionTargetBytes(a: u64, b: u64)
    ensures EncodeCommand(SetExtractionTarget(a, b)) == [16] + (LE(a, 8) + LE(b, 8))
  {
    hide EncodeFields, LE;
    CommandShaped(SetExtractionTarget(a, b));
    Fields2(Uint(8), Num(a), Uint(8), Num(b));
  }

  /** The four economy calls: the discriminator, then every field in order, little endian. */
  lemma EconomyBytes(a: u64, b: u64, r: u16, n: u32, d: u64)
    ensures EncodeCommand(TransferResource(a, b, r, n)) == [11] + (LE(a, 8) + LE(b, 8) + LE(r, 2) + LE(n, 4))
    ensures EncodeCommand(ReserveResource(a, r, n, b)) == [12] + (LE(a, 8) + LE(r, 2) + LE(n, 4) + LE(b, 8))
    ensures EncodeCommand(CommitTransfer(a, b, d)) == [13] + (LE(a, 8) + LE(b, 8) + LE(d, 8))
    ensures EncodeCommand(CancelReservation(a, b)) == [14] + (LE(a, 8) + LE(b, 8))
  {
    hide EncodeFields, LE;
    TransferResourceBytes(a, b, r, n);
    ReserveResourceBytes(a, r, n, b);
    CommitTransferBytes(a, b, d);
    CancelReservationBytes(a, b);
  }

  lemma TransferResourceBytes(a: u64, b: u64, r: u16, n: u32)
    ensures EncodeCommand(TransferResource(a, b, r, n)) == [11] + (LE(a, 8) + LE(b, 8) + LE(r, 2) + LE(n, 4))
  {
    hide EncodeFields, LE;
    CommandShaped(TransferResource(a, b, r, n));
    Fields4(Uint(8), Num(a), Uint(8), Num(b), Uint(2), Num(r), Uint(4), Num(n));
  }

  lemma ReserveResourceBytes(a: u64, r: u16, n: u32, b: u64)
    ensures EncodeCommand(ReserveResource(a, r, n, b)) == [12] + (LE(a, 8) + LE(r, 2) + LE(n, 4) + LE(b, 8))
  {
    hide EncodeFields, LE;
    CommandShaped(ReserveResource(a, r, n, b));
    Fields4(Uint(8), Num(a), Uint(2), Num(r), Uint(4), Num(n), Uint(8), Num(b));
  }

  lemma CommitTransferBytes(a: u64, b: u64, d: u64)
    ensures EncodeCommand(CommitTransfer(a, b, d)) == [13] + (LE(a, 8) + LE(b, 8) + LE(d, 8))
  {
    hide EncodeFields, LE;
    CommandShaped(CommitTransfer(a, b, d));
    Fields3(Uint(8), Num(a), Uint(8), Num(b), Uint(8), Num(d));
  }

  lemma CancelReservationBytes(a: u64, b: u64)
    ensures EncodeCommand(CancelReservation(a, b)) == [14] + (LE(a, 8) + LE(b, 8))
  {
    hide EncodeFields, LE;
    CommandShaped(CancelReservation(a, b));
    Fields2(Uint(8), Num(a), Uint(8), Num(b));
  }

  /** Logistics jobs: the discriminator, then every field in order, little endian. */
  lemma LogisticsBytes(a: u64, b: u64, r: u16, n: u32, k: Byte)
    ensures EncodeCommand(CreateLogisticsJob(a, b, r, n, k)) == [17] + (LE(a, 8) + LE(b, 8) + LE(r, 2) + LE(n, 4) +
            [k])
    ensures EncodeCommand(CancelLogisticsJob(a)) == [18] + (LE(a, 8))
    ensures EncodeCommand(ClaimLogisticsJob(a, b)) == [19] + (LE(a, 8) + LE(b, 8))
    ensures EncodeCommand(ExecuteLogisticsPickup(a, b)) == [20] + (LE(a, 8) + LE(b, 8))
    ensures EncodeCommand(ExecuteLogisticsDropoff(a, b)) == [21] + (LE(a, 8) + LE(b, 8))
  {
    hide EncodeFields, LE;
    CreateLogisticsJobBytes(a, b, r, n, k);
    CancelLogisticsJobBytes(a);
    ClaimLogisticsJobBytes(a, b);
    ExecuteLogisticsPickupBytes(a, b);
    ExecuteLogisticsDropoffBytes(a, b);
  }

  lemma CreateLogisticsJobBytes(a: u64, b: u64, r: u16, n: u32, k: Byte)
    ensures EncodeCommand(CreateLogisticsJob(a, b, r, n, k)) == [17] + (LE(a, 8) + LE(b, 8) + LE(r, 2) + LE(n, 4) +
            [k])
  {
    hide EncodeFields, LE;
    CommandShaped(CreateLogisticsJob(a, b, r, n, k));
    OneByte(k);
    Fields5(Uint(8), Num(a), Uint(8), Num(b), Uint(2), Num(r), Uint(4), Num(n), Uint(1), Num(k));
  }

  lemma CancelLogisticsJobBytes(a: u64)
    ensures EncodeCommand(CancelLogisticsJob(a)) == [18] + (LE(a, 8))
  {
    hide EncodeFields, LE;
    CommandShaped(CancelLogisticsJob(a));
    Fields1(Uint(8), Num(a));
  }

  lemma ClaimLogisticsJobBytes(a: u64, b: u64)
    ensures EncodeCommand(ClaimLogisticsJob(a, b)) == [19] + (LE(a, 8) + LE(b, 8))
  {
    hide EncodeFields, LE;
    CommandShaped(ClaimLogisticsJob(a, b));
    Fields2(Uint(8), Num(a), Uint(8), Num(b));
  }

  lemma ExecuteLogisticsPickupBytes(a: u64, b: u64)
    ensures EncodeCommand(ExecuteLogisticsPickup(a, b)) == [20] + (LE(a, 8) + LE(b, 8))
  {
    hide EncodeFields, LE;
    CommandShaped(ExecuteLogisticsPickup(a, b));
    Fields2(Uint(8), Num(a), Uint(8), Num(b));
  }

  lemma ExecuteLogisticsDropoffBytes(a: u64, b: u64)
    ensures EncodeCommand(ExecuteLogisticsDropoff(a, b)) == [21] + (LE(a, 8) + LE(b, 8))
  {
    hide EncodeFields, LE;
    CommandShaped(ExecuteLogisticsDropoff(a, b));
    Fields2(Uint(8), Num(a), Uint(8), Num(b));
  }

  /** Escorts and squads: the discriminator, then every field in order, little endian. */
  lemma SquadBytes(n: u32, a: u64, p: Vec3)
    ensures EncodeCommand(AssignEscort(n, a)) == [30] + (LE(n, 4) + LE(a, 8))
    ensures EncodeCommand(ReleaseEscort(n, a)) == [31] + (LE(n, 4) + LE(a, 8))
    ensures EncodeCommand(AssignSquadMember(n, a)) == [32] + (LE(n, 4) + LE(a, 8))
    ensures EncodeCommand(RemoveSquadMember(n, a)) == [33] + (LE(n, 4) + LE(a, 8))
    ensures EncodeCommand(SquadRegroup(n, p)) == [34] + (LE(n, 4) + LE(p.x, 4) + LE(p.y, 4) + LE(p.z, 4))
  {
    hide EncodeFields, LE;
    AssignEscortBytes(n, a);
    ReleaseEscortBytes(n, a);
    AssignSquadMemberBytes(n, a);
    RemoveSquadMemberBytes(n, a);
    SquadRegroupBytes(n, p);
  }

  lemma AssignEscortBytes(n: u32, a: u64)
    ensures EncodeCommand(AssignEscort(n, a)) == [30] + (LE(n, 4) + LE(a, 8))
  {
    hide EncodeFields, LE;
    CommandShaped(AssignEscort(n, a));
    Fields2(Uint(4), Num(n), Uint(8), Num(a));
  }

  lemma ReleaseEscortBytes(n: u32, a: u64)
    ensures EncodeCommand(ReleaseEscort(n, a)) == [31] + (LE(n, 4) + LE(a, 8))
  {
    hide EncodeFields, LE;
    CommandShaped(ReleaseEscort(n, a));
    Fields2(Uint(4), Num(n), Uint(8), Num(a));
  }

  lemma AssignSquadMemberBytes(n: u32, a: u64)
    ensures EncodeCommand(AssignSquadMember(n, a)) == [32] + (LE(n, 4) + LE(a, 8))
  {
    hide EncodeFields, LE;
    CommandShaped(AssignSquadMember(n, a));
    Fields2(Uint(4), Num(n), Uint(8), Num(a));
  }

  lemma RemoveSquadMemberBytes(n: u32, a: u64)
    ensures EncodeCommand(RemoveSquadMember(n, a)) == [33] + (LE(n, 4) + LE(a, 8))
  {
    hide EncodeFields, LE;
    CommandShaped(RemoveSquadMember(n, a));
    Fields2(Uint(4), Num(n), Uint(8), Num(a));
  }

  lemma SquadRegroupBytes(n: u32, p: Vec3)
    ensures EncodeCommand(SquadRegroup(n, p)) == [34] + (LE(n, 4) + LE(p.x, 4) + LE(p.y, 4) + LE(p.z, 4))
  {
    hide EncodeFields, LE;
    CommandShaped(SquadRegroup(n, p));
    Fields4(Uint(4), Num(n), Uint(4), Num(p.x), Uint(4), Num(p.y), Uint(4), Num(p.z));
  }

  /** Research: the discriminator, then every field in order, little endian. */
  lemma ResearchBytes(n: u32, a: u64, r: u16)
    ensures EncodeCommand(QueueResearch(n)) == [100] + (LE(n, 4))
    ensures EncodeCommand(CancelResearch(a)) == [101] + (LE(a, 8))
    ensures EncodeCommand(ReorderResearchQueue(a, r)) == [102] + (LE(a, 8) + LE(r, 2))
  {
    hide EncodeFields, LE;
    QueueResearchBytes(n);
    CancelResearchBytes(a);
    ReorderResearchQueueBytes(a, r);
  }

  lemma QueueResearchBytes(n: u32)
    ensures EncodeCommand(QueueResearch(n)) == [100] + (LE(n, 4))
  {
    hide EncodeFields, LE;
    CommandShaped(QueueResearch(n));
    Fields1(Uint(4), Num(n));
  }

  lemma CancelResearchBytes(a: u64)
    ensures EncodeCommand(CancelResearch(a)) == [101] + (LE(a, 8))
  {
    hide EncodeFields, LE;
    CommandShaped(CancelResearch(a));
    Fields1(Uint(8), Num(a));
  }

  lemma ReorderResearchQueueBytes(a: u64, r: u16)
    ensures EncodeCommand(ReorderResearchQueue(a, r)) == [102] + (LE(a, 8) + LE(r, 2))
  {
    hide EncodeFields, LE;
    CommandShaped(ReorderResearchQueue(a, r));
    Fields2(Uint(8), Num(a), Uint(2), Num(r));
  }

  /** Administration: the discriminator, then every field in order, little endian. */
  lemma AdminBytes(a: u64, k: Byte, r: u16, n: u32)
    ensures EncodeCommand(AdminKickSession(a, k)) == [161] + (LE(a, 8) + [k])
    ensures EncodeCommand(AdminSetTrustLevel(a, k)) == [162] + (LE(a, 8) + [k])
    ensures EncodeCommand(AdminGrantResource(a, r, n)) == [163] + (LE(a, 8) + LE(r, 2) + LE(n, 4))
    ensures EncodeCommand(AdminSetSessionRole(a, k)) == [164] + (LE(a, 8) + [k])
  {
    hide EncodeFields, LE;
    AdminKickSessionBytes(a, k);
    AdminSetTrustLevelBytes(a, k);
    AdminGrantResourceBytes(a, r, n);
    AdminSetSessionRoleBytes(a, k);
  }

  lemma AdminKickSessionBytes(a: u64, k: Byte)
    ensures EncodeCommand(AdminKickSession(a, k)) == [161] + (LE(a, 8) + [k])
  {
    hide EncodeFields, LE;
    CommandShaped(AdminKickSession(a, k));
    OneByte(k);
    Fields2(Uint(8), Num(a), Uint(1), Num(k));
  }

  lemma AdminSetTrustLevelBytes(a: u64, k: Byte)
    ensures EncodeCommand(AdminSetTrustLevel(a, k)) == [162] + (LE(a, 8) + [k])
  {
    hide EncodeFields, LE;
    CommandShaped(AdminSetTrustLevel(a, k));
    OneByte(k);
    Fields2(Uint(8), Num(a), Uint(1), Num(k));
  }

  lemma AdminGrantResourceBytes(a: u64, r: u16, n: u32)
    ensures EncodeCommand(AdminGrantResource(a, r, n)) == [163] + (LE(a, 8) + LE(r, 2) + LE(n, 4))
  {
    hide EncodeFields, LE;
    CommandShaped(AdminGrantResource(a, r, n));
    Fields3(Uint(8), Num(a), Uint(2), Num(r), Uint(4), Num(n));
  }

  lemma AdminSetSessionRoleBytes(a: u64, k: Byte)
    ensures EncodeCommand(AdminSetSessionRole(a, k)) == [164] + (LE(a, 8) + [k])
  {
    hide EncodeFields, LE;
    CommandShaped(AdminSetSessionRole(a, k));
    OneByte(k);
    Fields2(Uint(8), Num(a), Uint(1), Num(k));
  }

  // ---------------------------------------------------------------- codes, orders and options

  /** An optional number: a presence byte, then the number if there is one. */
  function Optional(id: Option<u64>): Octets {
    if id.Some? then [1] + LE(id.value, 8) else [0]
  }

  lemma ActionRecord(a: ActionType, target: Option<u64>)
    ensures EncodeCommand(Action(a, target)) == [2] + ([ActionCode(a)] + Optional(target))
  {
    hide EncodeFields, LE;
    CommandShaped(Action(a, target));
    Fields2(Code(8), Num(ActionCode(a)), OptId, MaybeId(target));
  }

  /** Actions: their codes run from 1 to 8, and the target is optional. */
  lemma ActionBytes(target: Option<u64>)
    ensures EncodeCommand(Action(FireWeapon, target)) == [2] + ([1] + Optional(target))
    ensures EncodeCommand(Action(Reload, target)) == [2] + ([2] + Optional(target))
    ensures EncodeCommand(Action(UseItem, target)) == [2] + ([3] + Optional(target))
    ensures EncodeCommand(Action(Interact, target)) == [2] + ([4] + Optional(target))
    ensures EncodeCommand(Action(AttackAction, target)) == [2] + ([5] + Optional(target))
    ensures EncodeCommand(Action(MoveAction, target)) == [2] + ([6] + Optional(target))
    ensures EncodeCommand(Action(HoldPosition, target)) == [2] + ([7] + Optional(target))
    ensures EncodeCommand(Action(Return, target)) == [2] + ([8] + Optional(target))
  {
    hide EncodeCommand, LE, Optional;
    ActionRecord(FireWeapon, target);
    ActionRecord(Reload, target);
    ActionRecord(UseItem, target);
    ActionRecord(Interact, target);
    ActionRecord(AttackAction, target);
    ActionRecord(MoveAction, target);
    ActionRecord(HoldPosition, target);
    ActionRecord(Return, target);
  }

  lemma BuildRecord(k: StructureKind, p: Vec3, rotation: u32)
    ensures EncodeCommand(BuildStructure(k, p, rotation)) ==
            [8] + ([StructureCode(k)] + LE(p.x, 4) + LE(p.y, 4) + LE(p.z, 4) + LE(rotation, 4))
  {
    hide EncodeFields, LE;
    CommandShaped(BuildStructure(k, p, rotation));
    Fields5(Code(12), Num(StructureCode(k)), Uint(4), Num(p.x), Uint(4), Num(p.y), Uint(4), Num(p.z),
            Uint(4), Num(rotation));
  }

  /** Building: the structure codes run from 1 to 12, walls first. */
  lemma BuildBytes(p: Vec3, rotation: u32)
    ensures EncodeCommand(BuildStructure(Wall(Mk1Stone), p, rotation)) ==
            [8] + ([1] + LE(p.x, 4) + LE(p.y, 4) + LE(p.z, 4) + LE(rotation, 4))
    ensures EncodeCommand(BuildStructure(Wall(Mk2Steel), p, rotation)) ==
            [8] + ([2] + LE(p.x, 4) + LE(p.y, 4) + LE(p.z, 4) + LE(rotation, 4))
    ensures EncodeCommand(BuildStructure(Wall(Mk3Composite), p, rotation)) ==
            [8] + ([3] + LE(p.x, 4) + LE(p.y, 4) + LE(p.z, 4) + LE(rotation, 4))
    ensures EncodeCommand(BuildStructure(Pylon, p, rotation)) ==
            [8] + ([4] + LE(p.x, 4) + LE(p.y, 4) + LE(p.z, 4) + LE(rotation, 4))
    ensures EncodeCommand(BuildStructure(DepotStructure, p, rotation)) ==
            [8] + ([5] + LE(p.x, 4) + LE(p.y, 4) + LE(p.z, 4) + LE(rotation, 4))
    ensures EncodeCommand(BuildStructure(Turret, p, rotation)) ==
            [8] + ([6] + LE(p.x, 4) + LE(p.y, 4) + LE(p.z, 4) + LE(rotation, 4))
    ensures EncodeCommand(BuildStructure(Fabricator, p, rotation)) ==
            [8] + ([7] + LE(p.x, 4) + LE(p.y, 4) + LE(p.z, 4) + LE(rotation, 4))
    ensures EncodeCommand(BuildStructure(Generator, p, rotation)) ==
            [8] + ([8] + LE(p.x, 4) + LE(p.y, 4) + LE(p.z, 4) + LE(rotation, 4))
    ensures EncodeCommand(BuildStructure(Battery, p, rotation)) ==
            [8] + ([9] + LE(p.x, 4) + LE(p.y, 4) + LE(p.z, 4) + LE(rotation, 4))
    ensures EncodeCommand(BuildStructure(MiningDrill, p, rotation)) ==
            [8] + ([10] + LE(p.x, 4) + LE(p.y, 4) + LE(p.z, 4) + LE(rotation, 4))
    ensures EncodeCommand(BuildStructure(Refinery, p, rotation)) ==
            [8] + ([11] + LE(p.x, 4) + LE(p.y, 4) + LE(p.z, 4) + LE(rotation, 4))
    ensures EncodeCommand(BuildStructure(ResearchFacility, p, rotation)) ==
            [8] + ([12] + LE(p.x, 4) + LE(p.y, 4) + LE(p.z, 4) + LE(rotation, 4))
  {
    hide EncodeCommand, LE;
    BuildRecord(Wall(Mk1Stone), p, rotation);
    BuildRecord(Wall(Mk2Steel), p, rotation);
    BuildRecord(Wall(Mk3Composite), p, rotation);
    BuildRecord(Pylon, p, rotation);
    BuildRecord(DepotStructure, p, rotation);
    BuildRecord(Turret, p, rotation);
    BuildRecord(Fabricator, p, rotation);
    BuildRecord(Generator, p, rotation);
    BuildRecord(Battery, p, rotation);
    BuildRecord(MiningDrill, p, rotation);
    BuildRecord(Refinery, p, rotation);
    BuildRecord(ResearchFacility, p, rotation);
  }

  lemma RepairBytes(structure: u64, actor: Option<u64>)
    ensures EncodeCommand(RepairStructure(structure, actor)) == [10] + (LE(structure, 8) + Optional(actor))
  {
    hide EncodeFields, LE;
    CommandShaped(RepairStructure(structure, actor));
    Fields2(Uint(8), Num(structure), OptId, MaybeId(actor));
  }

  lemma OrderRecord(robot: u64, order: RobotOrder)
    ensures EncodeCommand(RobotCommand(robot, order)) == [4] + (LE(robot, 8) + EncodeOrder(order))
  {
    hide EncodeFields, LE, EncodeOrder;
    CommandShaped(RobotCommand(robot, order));
    Fields2(Uint(8), Num(robot), Order, OrderOf(order));
  }

  /** Robot orders: their codes run from 1 to 5. */
  lemma OrderBytes(robot: u64, target: u64, p: Vec3)
    ensures EncodeCommand(RobotCommand(robot, Follow(target))) == [4] + (LE(robot, 8) + ([1] + LE(target, 8)))
    ensures EncodeCommand(RobotCommand(robot, Guard(p))) ==
            [4] + (LE(robot, 8) + ([2] + (LE(p.x, 4) + LE(p.y, 4) + LE(p.z, 4))))
    ensures EncodeCommand(RobotCommand(robot, RobotOrder.Attack(target))) ==
            [4] + (LE(robot, 8) + ([3] + LE(target, 8)))
    ensures EncodeCommand(RobotCommand(robot, MoveTo(p))) ==
            [4] + (LE(robot, 8) + ([4] + (LE(p.x, 4) + LE(p.y, 4) + LE(p.z, 4))))
    ensures EncodeCommand(RobotCommand(robot, ReturnToBase)) == [4] + (LE(robot, 8) + [5])
  {
    hide EncodeCommand, LE;
    OrderRecord(robot, Follow(target));
    OrderRecord(robot, Guard(p));
    OrderRecord(robot, RobotOrder.Attack(target));
    OrderRecord(robot, MoveTo(p));
    OrderRecord(robot, ReturnToBase);
  }

  // ---------------------------------------------------------------- single fields

  lemma Small(n: nat, m: nat)
    requires n < m
    ensures n % m == n
  {
  }

  lemma NumberField(w: nat, n: nat)
    requires n < Limit(w)
    ensures Shaped(Uint(w), Num(n)) && EncodeValue(Uint(w), Num(n)) == LE(n, w)
  {
    hide LE;
  }

  lemma FlagField(b: bool)
    ensures Shaped(Flag, Bool(b)) && EncodeValue(Flag, Bool(b)) == [if b then 1 else 0]
  {
  }

  lemma TextField(t: Text)
    requires |t| < 0x1_0000
    ensures Shaped(Str, TextOf(t)) && EncodeValue(Str, TextOf(t)) == LE(|t|, 2) + t
  {
    hide LE, Utf8;
    Small(|t|, 0x1_0000);
  }

  lemma OptionalTextField(t: Option<Text>)
    requires t.Some? ==> |t.value| < 0x1_0000
    ensures Shaped(OptStr, MaybeText(t))
    ensures EncodeValue(OptStr, MaybeText(t)) ==
            if t.Some? then [1] + (LE(|t.value|, 2) + t.value) else [0]
  {
    hide LE;
  }

  lemma ListFields(v: Value)
    ensures v.EntityList? ==> Shaped(Entities, v) && EncodeValue(Entities, v) == EncodeEntityList(v.entities)
    ensures v.IdList? ==> Shaped(Ids, v) && EncodeValue(Ids, v) == EncodeIdList(v.ids)
  {
    hide EncodeEntityList, EncodeIdList;
  }

  lemma EntitiesField(es: seq<EntitySnapshot>)
    requires |es| < 0x1_0000_0000
    ensures Shaped(Entities, EntityList(es))
    ensures EncodeValue(Entities, EntityList(es)) == LE(|es|, 4) + EncodeEntities(es)
  {
    hide EncodeValue, EncodeEntityList, LE, EncodeEntities;
    ListFields(EntityList(es));
    EntityListBytes(es);
  }

  lemma EntityListBytes(es: seq<EntitySnapshot>)
    requires |es| < 0x1_0000_0000
    ensures EncodeEntityList(es) == LE(|es|, 4) + EncodeEntities(es)
  {
    hide LE, EncodeEntities;
    Small(|es|, 0x1_0000_0000);
  }

  lemma IdsField(ids: seq<u64>)
    requires |ids| < 0x1_0000_0000
    ensures Shaped(Ids, IdList(ids))
    ensures EncodeValue(Ids, IdList(ids)) == LE(|ids|, 4) + EncodeIds(ids)
  {
    hide EncodeValue, EncodeIdList, LE, EncodeIds;
    ListFields(IdList(ids));
    IdListBytes(ids);
  }

  lemma IdListBytes(ids: seq<u64>)
    requires |ids| < 0x1_0000_0000
    ensures EncodeIdList(ids) == LE(|ids|, 4) + EncodeIds(ids)
  {
    hide LE, EncodeIds;
    Small(|ids|, 0x1_0000_0000);
  }

  lemma ManifestRecord(build: Text, version: u32, content: u64, official: bool)
    ensures AllShaped([Str, Uint(4), Uint(8), Flag], [TextOf(build), Num(version), Num(content), Bool(official)])
    ensures EncodeCommand(SubmitClientManifest(build, version, content, official)) ==
            [160] + EncodeFields([Str, Uint(4), Uint(8), Flag],
                                 [TextOf(build), Num(version), Num(content), Bool(official)])
  {
    hide EncodeFields, EncodeValue, LE;
    CommandShaped(SubmitClientManifest(build, version, content, official));
  }

  /** A manifest: build, protocol, content hash and the official mark. */
  lemma ManifestBytes(build: Text, version: u32, content: u64, official: bool)
    requires |build| < 0x1_0000
    ensures EncodeCommand(SubmitClientManifest(build, version, content, official)) ==
            [160] + (LE(|build|, 2) + build + LE(version, 4) + LE(content, 8) + [if official then 1 else 0])
  {
    hide EncodeFields, EncodeValue, LE;
    Limits();
    TextField(build);
    NumberField(4, version);
    NumberField(8, content);
    FlagField(official);
    ManifestRecord(build, version, content, official);
    Fields4(Str, TextOf(build), Uint(4), Num(version), Uint(8), Num(content), Flag, Bool(official));
  }

  // ---------------------------------------------------------------- handshakes

  lemma ClientHelloBytes(version: u32, name: Text)
    requires |name| < 0x1_0000
    ensures EncodeHandshake(ClientHello(version, name)) == [1] + (LE(version, 4) + (LE(|name|, 2) + name))
  {
    hide EncodeFields, EncodeValue, LE;
    HandshakeShaped(ClientHello(version, name));
    Limits();
    NumberField(4, version);
    TextField(name);
    Fields2(Uint(4), Num(version), Str, TextOf(name));
  }

  lemma ServerHelloBytes(accepted: bool, session: u64, tick: u64, reason: Option<Text>, token: u64)
    requires reason.Some? ==> |reason.value| < 0x1_0000
    ensures EncodeHandshake(ServerHello(accepted, session, tick, reason, token)) ==
            [2] + ([if accepted then 1 else 0] + LE(session, 8) + LE(tick, 8) + LE(token, 8) +
            if reason.Some? then [1] + (LE(|reason.value|, 2) + reason.value) else [0])
  {
    hide EncodeFields, EncodeValue, LE;
    HandshakeShaped(ServerHello(accepted, session, tick, reason, token));
    Limits();
    FlagField(accepted);
    NumberField(8, session);
    NumberField(8, tick);
    NumberField(8, token);
    OptionalTextField(reason);
    Fields5(Flag, Bool(accepted), Uint(8), Num(session), Uint(8), Num(tick), Uint(8), Num(token),
            OptStr, MaybeText(reason));
  }

  lemma GoodbyeBytes(session: u64, reason: Text)
    requires |reason| < 0x1_0000
    ensures EncodeHandshake(Handshake.Disconnect(session, reason)) ==
            [3] + (LE(session, 8) + (LE(|reason|, 2) + reason))
  {
    hide EncodeFields, EncodeValue, LE;
    HandshakeShaped(Handshake.Disconnect(session, reason));
    Limits();
    NumberField(8, session);
    TextField(reason);
    Fields2(Uint(8), Num(session), Str, TextOf(reason));
  }

  /** The three handshakes in one view; every string stands behind its length in two bytes. */
  lemma HandshakeBytes(version: u32, name: Text, accepted: bool, session: u64, tick: u64, reason: Option<Text>,
                       token: u64)
    requires |name| < 0x1_0000 && (reason.Some? ==> |reason.value| < 0x1_0000)
    ensures EncodeHandshake(ClientHello(version, name)) == [1] + (LE(version, 4) + (LE(|name|, 2) + name))
    ensures EncodeHandshake(ServerHello(accepted, session, tick, reason, token)) ==
            [2] + ([if accepted then 1 else 0] + LE(session, 8) + LE(tick, 8) + LE(token, 8) +
            if reason.Some? then [1] + (LE(|reason.value|, 2) + reason.value) else [0])
    ensures EncodeHandshake(Handshake.Disconnect(session, name)) == [3] + (LE(session, 8) + (LE(|name|, 2) + name))
  {
    hide EncodeHandshake, LE;
    ClientHelloBytes(version, name);
    ServerHelloBytes(accepted, session, tick, reason, token);
    GoodbyeBytes(session, name);
  }

  // ---------------------------------------------------------------- lists

  lemma {:induction false} EntitiesSplit(es: seq<EntitySnapshot>)
    ensures |EncodeEntities(es)| == 25 * |es|
    ensures es != [] ==> EncodeEntities(es)[25..] == EncodeEntities(es[1..])
  {
    if es == [] {
    } else {
      EntitiesSplit(es[1..]);
    }
  }

  /** Entity `i` of a list lies in the 25 bytes from 25i on: number, faction, region, activity, flags. */
  lemma {:induction false} EntityBytes(es: seq<EntitySnapshot>, i: nat)
    requires i < |es|
    ensures |EncodeEntities(es)| == 25 * |es|
    ensures EncodeEntities(es)[25 * i..25 * i + 25] ==
            LE(es[i].id, 8) + LE(es[i].faction, 4) + LE(es[i].region, 4) + [if es[i].active then 1 else 0] +
            LE(es[i].flags, 8)
  {
    hide LE;
    EntitiesSplit(es);
    if i == 0 {
      assert EncodeEntities(es) == EncodeEntity(es[0]) + EncodeEntities(es[1..]);
    } else {
      EntityBytes(es[1..], i - 1);
      assert EncodeEntities(es)[25 * i..25 * i + 25] == EncodeEntities(es)[25..][25 * (i - 1)..25 * (i - 1) + 25];
    }
  }

  lemma {:induction false} IdsSplit(ids: seq<u64>)
    ensures |EncodeIds(ids)| == 8 * |ids|
    ensures ids != [] ==> EncodeIds(ids)[8..] == EncodeIds(ids[1..])
  {
    if ids == [] {
    } else {
      IdsSplit(ids[1..]);
    }
  }

  lemma {:induction false} IdBytes(ids: seq<u64>, i: nat)
    requires i < |ids|
    ensures |EncodeIds(ids)| == 8 * |ids|
    ensures EncodeIds(ids)[8 * i..8 * i + 8] == LE(ids[i], 8)
  {
    hide LE;
    IdsSplit(ids);
    if i == 0 {
      assert EncodeIds(ids) == LE(ids[0], 8) + EncodeIds(ids[1..]);
    } else {
      IdBytes(ids[1..], i - 1);
      assert EncodeIds(ids)[8 * i..8 * i + 8] == EncodeIds(ids)[8..][8 * (i - 1)..8 * (i - 1) + 8];
    }
  }

  // ---------------------------------------------------------------- packets

  lemma HeaderBytes(h: Header)
    ensures EncodeHeader(h) == LE(h.protocolVersion, 4) + LE(h.session, 8) + LE(h.sequence, 8) + [h.packetType]
  {
    hide EncodeFields, LE;
    HeaderShaped(h);
    OneByte(h.packetType);
    Fields4(Uint(4), Num(h.protocolVersion), Uint(8), Num(h.session), Uint(8), Num(h.sequence),
            Uint(1), Num(h.packetType));
  }

  lemma CommandPayloadBytes(session: u64, sequence: u64, tick: u64, token: u64, c: Command)
    ensures EncodePayload(CommandPayload(session, sequence, tick, token, c)) ==
            LE(session, 8) + LE(sequence, 8) + LE(tick, 8) + LE(token, 8) + EncodeCommand(c)
  {
    hide EncodeFields, LE, EncodeCommand;
    PlainShaped(CommandPayload(session, sequence, tick, token, c));
    Fields4(Uint(8), Num(session), Uint(8), Num(sequence), Uint(8), Num(tick), Uint(8), Num(token));
  }

  lemma SnapshotPayloadBytes(tick: u64, es: seq<EntitySnapshot>)
    requires |es| < 0x1_0000_0000
    ensures EncodePayload(SnapshotPayload(tick, es)) == LE(tick, 8) + (LE(|es|, 4) + EncodeEntities(es))
  {
    hide EncodeFields, EncodeValue, LE, EncodeEntities;
    PlainShaped(SnapshotPayload(tick, es));
    Limits();
    NumberField(8, tick);
    EntitiesField(es);
    Fields2(Uint(8), Num(tick), Entities, EntityList(es));
    NothingBehind(EncodePlain(SnapshotPayload(tick, es)));
  }

  lemma DeltaPayloadBytes(base: u64, target: u64, es: seq<EntitySnapshot>, ids: seq<u64>)
    requires |es| < 0x1_0000_0000 && |ids| < 0x1_0000_0000
    ensures EncodePayload(DeltaPayload(base, target, es, ids)) ==
            LE(base, 8) + LE(target, 8) + (LE(|es|, 4) + EncodeEntities(es)) + (LE(|ids|, 4) + EncodeIds(ids))
  {
    hide EncodeFields, EncodeValue, LE, EncodeEntities, EncodeIds;
    PlainShaped(DeltaPayload(base, target, es, ids));
    Limits();
    NumberField(8, base);
    NumberField(8, target);
    EntitiesField(es);
    IdsField(ids);
    Fields4(Uint(8), Num(base), Uint(8), Num(target), Entities, EntityList(es), Ids, IdList(ids));
    NothingBehind(EncodePlain(DeltaPayload(base, target, es, ids)));
  }

  lemma PingBytes(timestamp: u64, tick: u64)
    ensures EncodePayload(PingPayload(timestamp)) == LE(timestamp, 8)
    ensures EncodePayload(PongPayload(timestamp, tick)) == LE(timestamp, 8) + LE(tick, 8)
  {
    hide EncodeFields, LE;
    PlainShaped(PingPayload(timestamp));
    PlainShaped(PongPayload(timestamp, tick));
    Fields1(Uint(8), Num(timestamp));
    Fields2(Uint(8), Num(timestamp), Uint(8), Num(tick));
    NothingBehind(EncodePlain(PingPayload(timestamp)));
    NothingBehind(EncodePlain(PongPayload(timestamp, tick)));
  }

  lemma HandshakePayloadBytes(m: Handshake)
    ensures EncodePayload(HandshakePayload(m)) == EncodeHandshake(m)
  {
    hide EncodeHandshake, EncodeFields;
    PlainShaped(HandshakePayload(m));
    Fields0([], []);
    assert [] + EncodeHandshake(m) == EncodeHandshake(m);
  }

  lemma NothingBehind(b: Octets)
    ensures b + [] == b
  {
  }

  /**
   A whole packet: version, session, sequence and payload type in 21 bytes, then the payload. The
   types are 1 handshake, 2 command, 3 snapshot, 4 delta, 5 ping and 6 pong, and only a packet whose
   header says so can be carried.
   */
  lemma PacketBytes(p: Packet)
    ensures Encode(p) ==
            LE(p.header.protocolVersion, 4) + LE(p.header.session, 8) + LE(p.header.sequence, 8) +
            [p.header.packetType] + EncodePayload(p.payload)
    ensures Encodable(p) ==>
              match p.payload
              case HandshakePayload(_) => p.header.packetType == 1
              case CommandPayload(_, _, _, _, _) => p.header.packetType == 2
              case SnapshotPayload(_, _) => p.header.packetType == 3
              case DeltaPayload(_, _, _, _) => p.header.packetType == 4
              case PingPayload(_) => p.header.packetType == 5
              case PongPayload(_, _) => p.header.packetType == 6
  {
    hide EncodeHeader, EncodePayload, LE, FitsPayload;
    HeaderBytes(p.header);
  }

  /** The payloads behind the header, type by type. */
  lemma PayloadBytes(session: u64, sequence: u64, tick: u64, token: u64, c: Command, m: Handshake,
                     es: seq<EntitySnapshot>, ids: seq<u64>)
    requires |es| < 0x1_0000_0000 && |ids| < 0x1_0000_0000
    ensures EncodePayload(HandshakePayload(m)) == EncodeHandshake(m)
    ensures EncodePayload(CommandPayload(session, sequence, tick, token, c)) ==
            LE(session, 8) + LE(sequence, 8) + LE(tick, 8) + LE(token, 8) + EncodeCommand(c)
    ensures EncodePayload(SnapshotPayload(tick, es)) == LE(tick, 8) + (LE(|es|, 4) + EncodeEntities(es))
    ensures EncodePayload(DeltaPayload(sequence, tick, es, ids)) ==
            LE(sequence, 8) + LE(tick, 8) + (LE(|es|, 4) + EncodeEntities(es)) + (LE(|ids|, 4) + EncodeIds(ids))
    ensures EncodePayload(PingPayload(tick)) == LE(tick, 8)
    ensures EncodePayload(PongPayload(sequence, tick)) == LE(sequence, 8) + LE(tick, 8)
  {
    hide EncodePayload, LE, EncodeEntities, EncodeIds, EncodeCommand, EncodeHandshake;
    HandshakePayloadBytes(m);
    CommandPayloadBytes(session, sequence, tick, token, c);
    SnapshotPayloadBytes(tick, es);
    DeltaPayloadBytes(sequence, tick, es, ids);
    PingBytes(tick, tick);
    PingBytes(sequence, tick);
  }
}
