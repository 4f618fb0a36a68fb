/** What each faction knows: contacts in view, remembered structures, and the record of sightings. */
module Knowledge {
  import opened Wrappers
  import opened OrderedKeys
  import opened FogGrids

  const NO_FACTION: nat := 0
  const AVATAR_SENSOR_RADIUS: real := 45.0

  // ---------------------------------------------------------------- the world as a census

  datatype Robot = Robot(entity: nat, faction: nat, hp: nat, position: Position, sensorRadius: real)

  datatype Avatar = Avatar(entity: nat, faction: nat, position: Position)

  /** `live` and `emits` are what the structure registry answers for the structure's state. */
  datatype Structure = Structure(
    kind: nat,
    faction: nat,
    position: Position,
    boundsMin: Position,
    boundsMax: Position,
    hp: nat,
    live: bool,
    emits: bool,
    sensorRadius: real
  )

  /** `registry` holds the faction of every registered entity. */
  datatype Census = Census(
    registry: map<nat, nat>,
    robots: seq<Robot>,
    avatars: seq<Avatar>,
    structures: map<nat, Structure>
  )

  /** A structure as it was last seen. */
  datatype Ghost = Ghost(
    kind: nat,
    faction: nat,
    position: Position,
    boundsMin: Position,
    boundsMax: Position,
    lastSeenHp: nat,
    lastSeenTick: nat
  )

  datatype Sighting =
    | EntitySpotted(tick: nat, observer: nat, target: nat, position: Position)
    | EntityLost(tick: nat, observer: nat, target: nat)

  datatype Knowledge = Knowledge(
    fog: Cells,
    visible: set<nat>,
    previous: set<nat>,
    ghosts: map<nat, Ghost>,
    sensors: seq<Sensor>
  )

  // ---------------------------------------------------------------- sensors

  /** A base radius under the faction's research multiplier. */
  function Reach(base: real, mult: real): real {
    base * mult
  }

  function RobotSensors(f: nat, mult: real, rs: seq<Robot>): seq<Sensor> {
    if rs == [] then []
    else
      var before, r := RobotSensors(f, mult, rs[..|rs| - 1]), rs[|rs| - 1];
      if r.faction == f && r.hp > 0 then before + [Sensor(r.position, Reach(r.sensorRadius, mult))] else before
  }

  function StructureSensors(f: nat, mult: real, ss: map<nat, Structure>, ids: seq<nat>): seq<Sensor>
    requires forall id :: id in ids ==> id in ss
  {
    if ids == [] then []
    else
      var before, s := StructureSensors(f, mult, ss, ids[..|ids| - 1]), ss[ids[|ids| - 1]];
      if s.faction == f && s.emits then before + [Sensor(s.position, Reach(s.sensorRadius, mult))] else before
  }

  function AvatarSensors(f: nat, mult: real, avatars: seq<Avatar>): seq<Sensor> {
    if avatars == [] then []
    else
      var before, a := AvatarSensors(f, mult, avatars[..|avatars| - 1]), avatars[|avatars| - 1];
      if a.faction == f then before + [Sensor(a.position, Reach(AVATAR_SENSOR_RADIUS, mult))] else before
  }

  function Sensors(f: nat, mult: real, w: Census): seq<Sensor> {
    RobotSensors(f, mult, w.robots)
    + StructureSensors(f, mult, w.structures, Ascending(w.structures.Keys))
    + AvatarSensors(f, mult, w.avatars)
  }

  /** Eyes: this tick's sensors and the grid they lit. */
  datatype View = View(sensors: seq<Sensor>, fog: Cells)

  ghost predicate InSensor(sensors: seq<Sensor>, p: Position) {
    exists s :: s in sensors && InRange(s, p.x, p.z)
  }

  ghost predicate Sees(v: View, p: Position) {
    InSensor(v.sensors, p) || PositionState(v.fog, p.x, p.z) == Visible
  }

  // ---------------------------------------------------------------- contacts

  datatype Contact = Contact(entity: nat, position: Position)

  ghost function RobotContacts(f: nat, v: View, rs: seq<Robot>): seq<Contact> {
    if rs == [] then []
    else
      var before, r := RobotContacts(f, v, rs[..|rs| - 1]), rs[|rs| - 1];
      if r.faction != f && r.hp > 0 && Sees(v, r.position) then before + [Contact(r.entity, r.position)] else before
  }

  ghost function AvatarContacts(f: nat, v: View, avatars: seq<Avatar>): seq<Contact> {
    if avatars == [] then []
    else
      var before, a := AvatarContacts(f, v, avatars[..|avatars| - 1]), avatars[|avatars| - 1];
      if a.faction != f && Sees(v, a.position) then before + [Contact(a.entity, a.position)] else before
  }

  ghost predicate Observed(f: nat, v: View, s: Structure) {
    s.faction != f && s.live && Sees(v, s.position)
  }

  ghost function StructureContacts(f: nat, v: View, ss: map<nat, Structure>, ids: seq<nat>): seq<Contact>
    requires forall id :: id in ids ==> id in ss
  {
    if ids == [] then []
    else
      var before, id := StructureContacts(f, v, ss, ids[..|ids| - 1]), ids[|ids| - 1];
      if Observed(f, v, ss[id]) then before + [Contact(id, ss[id].position)] else before
  }

  ghost function Contacts(f: nat, v: View, w: Census): seq<Contact> {
    RobotContacts(f, v, w.robots)
    + AvatarContacts(f, v, w.avatars)
    + StructureContacts(f, v, w.structures, Ascending(w.structures.Keys))
  }

  ghost function Entities(contacts: seq<Contact>): set<nat> {
    set c | c in contacts :: c.entity
  }

  /** A contact is recorded when it was not in view a tick ago. */
  ghost function Spotted(f: nat, tick: nat, previous: set<nat>, contacts: seq<Contact>): seq<Sighting> {
    if contacts == [] then []
    else
      var before, c := Spotted(f, tick, previous, contacts[..|contacts| - 1]), contacts[|contacts| - 1];
      if c.entity in previous then before else before + [EntitySpotted(tick, f, c.entity, c.position)]
  }

  ghost function LostFrom(f: nat, tick: nat, previous: seq<nat>, visible: set<nat>): seq<Sighting> {
    if previous == [] then []
    else
      var before, e := LostFrom(f, tick, previous[..|previous| - 1], visible), previous[|previous| - 1];
      if e in visible then before else before + [EntityLost(tick, f, e)]
  }

  // ---------------------------------------------------------------- ghosts

  function GhostOf(s: Structure, tick: nat): Ghost {
    Ghost(s.kind, s.faction, s.position, s.boundsMin, s.boundsMax, s.hp, tick)
  }

  ghost function Refreshed(ghosts: map<nat, Ghost>, f: nat, tick: nat, v: View, ss: map<nat, Structure>, ids: seq<nat>)
    : map<nat, Ghost>
    requires forall id :: id in ids ==> id in ss
  {
    if ids == [] then ghosts
    else
      var before, id := Refreshed(ghosts, f, tick, v, ss, ids[..|ids| - 1]), ids[|ids| - 1];
      if Observed(f, v, ss[id]) then before[id := GhostOf(ss[id], tick)] else before
  }

  predicate Alive(ss: map<nat, Structure>, id: nat) {
    id in ss && ss[id].live
  }

  /** A ghost whose site is in view while its structure is gone. */
  ghost predicate Stale(v: View, ss: map<nat, Structure>, id: nat, g: Ghost) {
    Sees(v, g.position) && !Alive(ss, id)
  }

  ghost function Surviving(ghosts: map<nat, Ghost>, v: View, ss: map<nat, Structure>): map<nat, Ghost> {
    map id | id in ghosts && !Stale(v, ss, id, ghosts[id]) :: ghosts[id]
  }

  // ---------------------------------------------------------------- one faction's step

  ghost function ViewOf(k: Knowledge, f: nat, mult: real, w: Census): View {
    View(Sensors(f, mult, w), Frame(k.fog, Sensors(f, mult, w)))
  }

  ghost function After(k: Knowledge, f: nat, tick: nat, mult: real, w: Census): Knowledge {
    var v := ViewOf(k, f, mult, w);
    var seen := Refreshed(k.ghosts, f, tick, v, w.structures, Ascending(w.structures.Keys));
    Knowledge(v.fog, Entities(Contacts(f, v, w)), k.visible, Surviving(seen, v, w.structures), v.sensors)
  }

  ghost function Recorded(k: Knowledge, f: nat, tick: nat, mult: real, w: Census): seq<Sighting> {
    var v := ViewOf(k, f, mult, w);
    var contacts := Contacts(f, v, w);
    Spotted(f, tick, k.visible, contacts) + LostFrom(f, tick, Ascending(k.visible), Entities(contacts))
  }

  function NewKnowledge(): Knowledge {
    Knowledge(Shroud(), {}, {}, map[], [])
  }

  // ---------------------------------------------------------------- all factions

  type Factions = map<nat, Knowledge>

  function Of(m: Factions, f: nat): Knowledge {
    if f in m then m[f] else NewKnowledge()
  }

  /** Every faction that owns anything, or is known already. */
  function ActiveFactions(known: set<nat>, w: Census): set<nat> {
    (set e | e in w.registry :: w.registry[e])
    + (set r | r in w.robots :: r.faction)
    + (set a | a in w.avatars :: a.faction)
    + (set id | id in w.structures :: w.structures[id].faction)
    + known
    - {NO_FACTION}
  }

  datatype Moment = Moment(tick: nat, mult: nat -> real, census: Census)

  datatype Ledger = Ledger(factions: Factions, journal: seq<Sighting>)

  /** The factions step one after another; each sees the same world. */
  ghost function StepAll(l: Ledger, t: Moment, fs: seq<nat>): Ledger {
    if fs == [] then l
    else
      var before, f := StepAll(l, t, fs[..|fs| - 1]), fs[|fs| - 1];
      var k := Of(before.factions, f);
      Ledger(before.factions[f := After(k, f, t.tick, t.mult(f), t.census)],
             before.journal + Recorded(k, f, t.tick, t.mult(f), t.census))
  }

  ghost function StepMoment(l: Ledger, t: Moment): Ledger {
    StepAll(l, t, Ascending(ActiveFactions(l.factions.Keys, t.census)))
  }

  ghost function Run(l: Ledger, ts: seq<Moment>): Ledger {
    if ts == [] then l else StepMoment(Run(l, ts[..|ts| - 1]), ts[|ts| - 1])
  }

  // ---------------------------------------------------------------- queries

  predicate KnowsStructure(m: Factions, f: nat, id: nat, w: Census) {
    || f == NO_FACTION
    || (id in w.structures && (w.structures[id].faction == f || w.structures[id].faction == NO_FACTION))
    || (f in m && (id in m[f].ghosts || id in m[f].visible))
  }

  predicate KnowsEntity(m: Factions, f: nat, e: nat, w: Census) {
    if f == NO_FACTION then true
    else if e in w.registry then
      w.registry[e] == f || w.registry[e] == NO_FACTION || (f in m && e in m[f].visible)
    else KnowsStructure(m, f, e, w)
  }
}
