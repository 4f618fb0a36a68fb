/**
 Storage containers as values: fragmented slots, the reservation map that sits over them,
 and what each container operation must do to both.
 */
module Containers {
  import opened Words
  import opened Wrappers
  import opened Resources

  type EntityId = nat
  type FactionId = nat
  type ReservationId = nat
  type SimTick = nat

  const NULL_ID: nat := 0

  datatype ContainerKind = Backpack | Depot | Silo | Hopper | CargoBuffer

  datatype GameError =
    | InvalidId
    | ResourceOverflow
    | ResourceUnderflow
    | PermissionDenied
    | InvalidCommand
    | InventoryFull(maxSlots: nat, maxVolumeLiters: nat)
    | ReservationNotFound(reservation: ReservationId)
    | ReservationAlreadyExists(reservation: ReservationId)
    | InsufficientUnreservedBalance(available: nat, requested: nat)
    | ContainerNotFound(entity: EntityId)
    | CorruptedState

  datatype Slot = Slot(resource: ResourceId, quantity: u32, reserved: u32) {
    /** Unlocked balance; saturates at zero on a corrupt slot. */
    function Available(): u32 {
      if reserved <= quantity then quantity - reserved else 0
    }

    predicate IsEmpty() {
      quantity == 0 && reserved == 0
    }
  }

  datatype Reservation = Reservation(
    resource: ResourceId, amount: u32, createdTick: SimTick, source: EntityId, target: Option<EntityId>)

  datatype Container = Container(
    owner: EntityId, ownerFaction: FactionId, kind: ContainerKind,
    maxSlots: nat, maxVolumeLiters: nat,
    slots: seq<Slot>, reservations: map<ReservationId, Reservation>)

  // ---------------------------------------------------------------- sums over slots

  /** What a slot contributes to each of the totals the source computes. */
  datatype Measure =
    | Quantity(resource: ResourceId)
    | Unreserved(resource: ResourceId)
    | Locked(resource: ResourceId)
    | Deductible(resource: ResourceId)
    | Headroom(resource: ResourceId, stackLimit: nat)
    | VolumeMl

  function UnitVolume(r: ResourceId): nat {
    match Lookup(r)
    case None => 0
    case Some(def) => def.unitVolumeMl
  }

  function Weigh(m: Measure, s: Slot): nat {
    match m
    case Quantity(r) => if s.resource == r then s.quantity else 0
    case Unreserved(r) => if s.resource == r then s.Available() else 0
    case Locked(r) => if s.resource == r then s.reserved else 0
    case Deductible(r) => if s.resource == r then Min(s.reserved, s.quantity) else 0
    case Headroom(r, limit) => if s.resource == r && s.quantity < limit then limit - s.quantity else 0
    case VolumeMl => s.quantity * UnitVolume(s.resource)
  }

  function Sum(m: Measure, slots: seq<Slot>): nat {
    if slots == [] then 0 else Weigh(m, slots[0]) + Sum(m, slots[1..])
  }

  // ---------------------------------------------------------------- walks over slots

  /** Top up the stacks of `r`, front to back, with up to `n` units. */
  function Fill(slots: seq<Slot>, r: ResourceId, limit: nat, n: nat): seq<Slot>
    requires limit <= 5000
  {
    if slots == [] || n == 0 then slots
    else
      var k := Min(n, Weigh(Headroom(r, limit), slots[0]));
      [slots[0].(quantity := slots[0].quantity + k)] + Fill(slots[1..], r, limit, n - k)
  }

  /** Fresh slots holding `n` units of `r`, all full except perhaps the last. */
  function Grow(r: ResourceId, limit: nat, n: nat): seq<Slot>
    requires 0 < limit <= 5000
  {
    if n == 0 then [] else [Slot(r, Min(n, limit), 0)] + Grow(r, limit, n - Min(n, limit))
  }

  /** Take up to `n` unreserved units of `r`, back to front. */
  function TakeBack(slots: seq<Slot>, r: ResourceId, n: nat): seq<Slot> {
    if slots == [] || n == 0 then slots
    else
      var s := slots[|slots| - 1];
      var k := Min(n, Weigh(Unreserved(r), s));
      TakeBack(slots[..|slots| - 1], r, n - k) + [s.(quantity := s.quantity - k)]
  }

  /** Lock up to `n` unreserved units of `r`, front to back. */
  function Lock(slots: seq<Slot>, r: ResourceId, n: nat): seq<Slot> {
    if slots == [] || n == 0 then slots
    else
      var k := Min(n, Weigh(Unreserved(r), slots[0]));
      [slots[0].(reserved := slots[0].reserved + k)] + Lock(slots[1..], r, n - k)
  }

  /** Unlock up to `n` units of `r`, front to back. */
  function Unlock(slots: seq<Slot>, r: ResourceId, n: nat): seq<Slot> {
    if slots == [] || n == 0 then slots
    else
      var k := Min(n, Weigh(Locked(r), slots[0]));
      [slots[0].(reserved := slots[0].reserved - k)] + Unlock(slots[1..], r, n - k)
  }

  datatype Deduction = Deduction(slots: seq<Slot>, completed: bool)

  /**
   Deduct `n` locked units of `r`, front to back. A slot that claims more locked units than
   it holds stops the walk half way, with its lock already released.
   */
  function Deduct(slots: seq<Slot>, r: ResourceId, n: nat): Deduction {
    if slots == [] || n == 0 then Deduction(slots, true)
    else
      var s := slots[0];
      var k := Min(n, Weigh(Locked(r), s));
      if s.quantity < k then
        Deduction([s.(reserved := s.reserved - k)] + slots[1..], false)
      else
        var rest := Deduct(slots[1..], r, n - k);
        Deduction([s.(reserved := s.reserved - k, quantity := s.quantity - k)] + rest.slots, rest.completed)
  }

  /** Drop the empty slots. */
  function Compact(slots: seq<Slot>): seq<Slot> {
    if slots == [] then []
    else if slots[0].IsEmpty() then Compact(slots[1..])
    else [slots[0]] + Compact(slots[1..])
  }

  // ---------------------------------------------------------------- acceptance

  /**
   `n` units fit iff they do not exceed the free space in existing stacks plus a full stack
   for every slot still unused. With more slots than allowed, only existing stacks count.
   */
  predicate FitsSlots(slots: seq<Slot>, maxSlots: nat, r: ResourceId, limit: nat, n: nat) {
    var room := Sum(Headroom(r, limit), slots);
    n <= room || n - room <= (maxSlots - |slots|) * limit
  }

  predicate FitsVolume(c: Container, r: ResourceId, n: nat) {
    Sum(VolumeMl, c.slots) + n * UnitVolume(r) <= c.maxVolumeLiters * 1000 + 1
  }

  predicate Admits(kind: ContainerKind, r: ResourceId) {
    Lookup(r).Some? && (kind == Silo ==> Lookup(r).value.category == RawMineral)
  }

  predicate CanAccept(c: Container, r: ResourceId, n: nat) {
    n == 0
    || (Admits(c.kind, r) && FitsVolume(c, r, n)
        && FitsSlots(c.slots, c.maxSlots, r, Lookup(r).value.stackLimit, n))
  }

  // ---------------------------------------------------------------- operations

  datatype Outcome<+T> = Outcome(after: Container, result: Result<T, GameError>)

  function FullError(c: Container): GameError {
    InventoryFull(c.maxSlots, c.maxVolumeLiters)
  }

  function AddTo(c: Container, r: ResourceId, n: nat): Outcome<()> {
    if n == 0 then Outcome(c, Ok(()))
    else if !CanAccept(c, r, n) then Outcome(c, Err(FullError(c)))
    else
      var limit := Lookup(r).value.stackLimit;
      var room := Sum(Headroom(r, limit), c.slots);
      Outcome(c.(slots := Fill(c.slots, r, limit, n) + Grow(r, limit, n - Min(n, room))), Ok(()))
  }

  function RemoveFrom(c: Container, r: ResourceId, n: nat): Outcome<()> {
    var available := Sum(Unreserved(r), c.slots);
    if n == 0 then Outcome(c, Ok(()))
    else if available < n then Outcome(c, Err(InsufficientUnreservedBalance(available, n)))
    else Outcome(c.(slots := Compact(TakeBack(c.slots, r, n))), Ok(()))
  }

  function ReserveIn(c: Container, id: ReservationId, r: ResourceId, n: u32, tick: SimTick, target: Option<EntityId>)
    : Outcome<()>
  {
    var available := Sum(Unreserved(r), c.slots);
    if id == NULL_ID then Outcome(c, Err(InvalidId))
    else if n == 0 then Outcome(c, Ok(()))
    else if id in c.reservations then Outcome(c, Err(ReservationAlreadyExists(id)))
    else if available < n then Outcome(c, Err(InsufficientUnreservedBalance(available, n)))
    else
      Outcome(c.(slots := Lock(c.slots, r, n),
                 reservations := c.reservations[id := Reservation(r, n, tick, c.owner, target)]),
              Ok(()))
  }

  function CommitIn(c: Container, id: ReservationId): Outcome<(ResourceId, u32)> {
    if id !in c.reservations then Outcome(c, Err(ReservationNotFound(id)))
    else
      var res := c.reservations[id];
      if Sum(Deductible(res.resource), c.slots) < res.amount then Outcome(c, Err(ResourceUnderflow))
      else
        var walk := Deduct(c.slots, res.resource, res.amount);
        if walk.completed then
          Outcome(c.(slots := Compact(walk.slots), reservations := c.reservations - {id}),
                  Ok((res.resource, res.amount)))
        else
          Outcome(c.(slots := walk.slots, reservations := c.reservations - {id}), Err(ResourceUnderflow))
  }

  function ReleaseIn(c: Container, id: ReservationId): Outcome<(ResourceId, u32)> {
    if id !in c.reservations then Outcome(c, Err(ReservationNotFound(id)))
    else
      var res := c.reservations[id];
      if Sum(Locked(res.resource), c.slots) < res.amount then Outcome(c, Err(ResourceUnderflow))
      else
        Outcome(c.(slots := Unlock(c.slots, res.resource, res.amount), reservations := c.reservations - {id}),
                Ok((res.resource, res.amount)))
  }

  // ---------------------------------------------------------------- the invariant

  /** Amount promised to live reservations of `r`. */
  ghost function Pledged(m: map<ReservationId, Reservation>, r: ResourceId): nat
    decreases |m|
  {
    if m == map[] then 0
    else
      var k :| k in m;
      (if m[k].resource == r then m[k].amount else 0) + Pledged(m - {k}, r)
  }

  ghost predicate SlotsSound(slots: seq<Slot>) {
    forall i :: 0 <= i < |slots| ==> slots[i].reserved <= slots[i].quantity
  }

  /** The slot locks and the reservation map agree on every resource. */
  ghost predicate LedgerAgrees(c: Container) {
    forall r: ResourceId :: Sum(Locked(r), c.slots) == Pledged(c.reservations, r)
  }

  ghost predicate Sound(c: Container) {
    && |c.slots| <= c.maxSlots
    && Sum(VolumeMl, c.slots) <= c.maxVolumeLiters * 1000 + 1
    && SlotsSound(c.slots)
    && LedgerAgrees(c)
  }
}
