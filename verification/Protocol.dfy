/** Packets, snapshots and commands as the codec sees them. */
module Protocol {
  import opened Words
  import opened Wrappers
  import opened Bytes

  /** Three 32-bit floats, as raw bit patterns. */
  datatype Vec3 = Vec3(x: u32, y: u32, z: u32)

  datatype ActionType = FireWeapon | Reload | UseItem | Interact | AttackAction | MoveAction | HoldPosition | Return

  datatype WallTier = Mk1Stone | Mk2Steel | Mk3Composite

  datatype StructureKind =
    | Wall(tier: WallTier)
    | Pylon | DepotStructure | Turret | Fabricator | Generator | Battery | MiningDrill | Refinery | ResearchFacility

  datatype RobotOrder =
    | Follow(target: u64)
    | Guard(position: Vec3)
    | Attack(target: u64)
    | MoveTo(position: Vec3)
    | ReturnToBase

  datatype Command =
    | Move(position: Vec3, velocity: Vec3)
    | Action(actionType: ActionType, target: Option<u64>)
    | RobotCommand(robot: u64, order: RobotOrder)
    | RequestResource(resource: u16, amount: u32)
    | TransferRegion(entity: u64, region: u32)
    | BuildStructure(kind: StructureKind, position: Vec3, rotation: u32)
    | DismantleStructure(structure: u64)
    | RepairStructure(structure: u64, actor: Option<u64>)
    | TransferResource(source: u64, dest: u64, resource: u16, amount: u32)
    | ReserveResource(entity: u64, resource: u16, amount: u32, reservation: u64)
    | CommitTransfer(reservation: u64, source: u64, dest: u64)
    | CancelReservation(reservation: u64, source: u64)
    | SetProductionRecipe(structure: u64, recipe: u32)
    | SetExtractionTarget(structure: u64, deposit: u64)
    | CreateLogisticsJob(source: u64, dest: u64, resource: u16, amount: u32, priority: Byte)
    | CancelLogisticsJob(job: u64)
    | ClaimLogisticsJob(job: u64, worker: u64)
    | ExecuteLogisticsPickup(job: u64, worker: u64)
    | ExecuteLogisticsDropoff(job: u64, worker: u64)
    | AssignEscort(player: u32, robot: u64)
    | ReleaseEscort(player: u32, robot: u64)
    | AssignSquadMember(squad: u32, robot: u64)
    | RemoveSquadMember(squad: u32, robot: u64)
    | SquadRegroup(squad: u32, rally: Vec3)
    | QueueResearch(tech: u32)
    | CancelResearch(job: u64)
    | ReorderResearchQueue(job: u64, newIndex: u16)
    | SubmitClientManifest(buildId: Text, protocolVersion: u32, contentHash: u64, official: bool)
    | AdminKickSession(session: u64, reason: Byte)
    | AdminSetTrustLevel(session: u64, trust: Byte)
    | AdminGrantResource(entity: u64, resource: u16, amount: u32)
    | AdminSetSessionRole(session: u64, role: Byte)

  datatype EntitySnapshot = EntitySnapshot(id: u64, faction: u32, region: u32, active: bool, flags: u64)

  datatype Handshake =
    | ClientHello(protocolVersion: u32, clientName: Text)
    | ServerHello(accepted: bool, session: u64, serverTick: u64, rejectReason: Option<Text>, token: u64)
    | Disconnect(session: u64, reason: Text)

  datatype Payload =
    | HandshakePayload(message: Handshake)
    | CommandPayload(session: u64, sequence: u64, clientTick: u64, token: u64, command: Command)
    | SnapshotPayload(serverTick: u64, entities: seq<EntitySnapshot>)
    | DeltaPayload(baseTick: u64, targetTick: u64, updated: seq<EntitySnapshot>, removed: seq<u64>)
    | PingPayload(timestamp: u64)
    | PongPayload(timestamp: u64, serverTick: u64)

  datatype Header = Header(protocolVersion: u32, session: u64, sequence: u64, packetType: Byte)

  datatype Packet = Packet(header: Header, payload: Payload)
}
