/** The layout of every command, and the correspondence between commands and field values. */
module CommandFormat {
  import opened Words
  import opened Wrappers
  import opened Bytes
  import opened Protocol
  import opened WireFormat

  // ---------------------------------------------------------------- enumerations

  function ActionCode(a: ActionType): (code: Byte)
    ensures 1 <= code <= 8
  {
    match a
    case FireWeapon => 1
    case Reload => 2
    case UseItem => 3
    case Interact => 4
    case AttackAction => 5
    case MoveAction => 6
    case HoldPosition => 7
    case Return => 8
  }

  function ActionOf(code: nat): (a: ActionType)
    requires 1 <= code <= 8
    ensures ActionCode(a) == code
  {
    match code
    case 1 => FireWeapon
    case 2 => Reload
    case 3 => UseItem
    case 4 => Interact
    case 5 => AttackAction
    case 6 => MoveAction
    case 7 => HoldPosition
    case _ => Return
  }

  lemma ActionCodeInjective(a: ActionType, b: ActionType)
    requires ActionCode(a) == ActionCode(b)
    ensures a == b
  {
  }

  function StructureCode(k: StructureKind): (code: Byte)
    ensures 1 <= code <= 12
  {
    match k
    case Wall(Mk1Stone) => 1
    case Wall(Mk2Steel) => 2
    case Wall(Mk3Composite) => 3
    case Pylon => 4
    case DepotStructure => 5
    case Turret => 6
    case Fabricator => 7
    case Generator => 8
    case Battery => 9
    case MiningDrill => 10
    case Refinery => 11
    case ResearchFacility => 12
  }

  function StructureOf(code: nat): (k: StructureKind)
    requires 1 <= code <= 12
    ensures StructureCode(k) == code
  {
    match code
    case 1 => Wall(Mk1Stone)
    case 2 => Wall(Mk2Steel)
    case 3 => Wall(Mk3Composite)
    case 4 => Pylon
    case 5 => DepotStructure
    case 6 => Turret
    case 7 => Fabricator
    case 8 => Generator
    case 9 => Battery
    case 10 => MiningDrill
    case 11 => Refinery
    case _ => ResearchFacility
  }

  lemma StructureCodeInjective(a: StructureKind, b: StructureKind)
    requires StructureCode(a) == StructureCode(b)
    ensures a == b
  {
  }

  // ---------------------------------------------------------------- commands

  /** The fields behind each discriminator; 3 and 6 are retired, the gaps are reserved. */
  function CommandSchema(tag: Byte): Option<seq<Kind>> {
    match tag
    case 1 => Some([Uint(4), Uint(4), Uint(4), Uint(4), Uint(4), Uint(4)])
    case 2 => Some([Code(8), OptId])
    case 4 => Some([Uint(8), Order])
    case 5 => Some([Uint(2), Uint(4)])
    case 7 => Some([Uint(8), Uint(4)])
    case 8 => Some([Code(12), Uint(4), Uint(4), Uint(4), Uint(4)])
    case 9 => Some([Uint(8)])
    case 10 => Some([Uint(8), OptId])
    case 11 => Some([Uint(8), Uint(8), Uint(2), Uint(4)])
    case 12 => Some([Uint(8), Uint(2), Uint(4), Uint(8)])
    case 13 => Some([Uint(8), Uint(8), Uint(8)])
    case 14 => Some([Uint(8), Uint(8)])
    case 15 => Some([Uint(8), Uint(4)])
    case 16 => Some([Uint(8), Uint(8)])
    case 17 => Some([Uint(8), Uint(8), Uint(2), Uint(4), Uint(1)])
    case 18 => Some([Uint(8)])
    case 19 => Some([Uint(8), Uint(8)])
    case 20 => Some([Uint(8), Uint(8)])
    case 21 => Some([Uint(8), Uint(8)])
    case 30 => Some([Uint(4), Uint(8)])
    case 31 => Some([Uint(4), Uint(8)])
    case 32 => Some([Uint(4), Uint(8)])
    case 33 => Some([Uint(4), Uint(8)])
    case 34 => Some([Uint(4), Uint(4), Uint(4), Uint(4)])
    case 100 => Some([Uint(4)])
    case 101 => Some([Uint(8)])
    case 102 => Some([Uint(8), Uint(2)])
    case 160 => Some([Str, Uint(4), Uint(8), Flag])
    case 161 => Some([Uint(8), Uint(1)])
    case 162 => Some([Uint(8), Uint(1)])
    case 163 => Some([Uint(8), Uint(2), Uint(4)])
    case 164 => Some([Uint(8), Uint(1)])
    case _ => None
  }

  function CommandTag(c: Command): Byte {
    match c
    case Move(_, _) => 1
    case Action(_, _) => 2
    case RobotCommand(_, _) => 4
    case RequestResource(_, _) => 5
    case TransferRegion(_, _) => 7
    case BuildStructure(_, _, _) => 8
    case DismantleStructure(_) => 9
    case RepairStructure(_, _) => 10
    case TransferResource(_, _, _, _) => 11
    case ReserveResource(_, _, _, _) => 12
    case CommitTransfer(_, _, _) => 13
    case CancelReservation(_, _) => 14
    case SetProductionRecipe(_, _) => 15
    case SetExtractionTarget(_, _) => 16
    case CreateLogisticsJob(_, _, _, _, _) => 17
    case CancelLogisticsJob(_) => 18
    case ClaimLogisticsJob(_, _) => 19
    case ExecuteLogisticsPickup(_, _) => 20
    case ExecuteLogisticsDropoff(_, _) => 21
    case AssignEscort(_, _) => 30
    case ReleaseEscort(_, _) => 31
    case AssignSquadMember(_, _) => 32
    case RemoveSquadMember(_, _) => 33
    case SquadRegroup(_, _) => 34
    case QueueResearch(_) => 100
    case CancelResearch(_) => 101
    case ReorderResearchQueue(_, _) => 102
    case SubmitClientManifest(_, _, _, _) => 160
    case AdminKickSession(_, _) => 161
    case AdminSetTrustLevel(_, _) => 162
    case AdminGrantResource(_, _, _) => 163
    case AdminSetSessionRole(_, _) => 164
  }

  function CommandValues(c: Command): seq<Value> {
    match c
    case Move(_, _) =>
        [Num(c.position.x), Num(c.position.y), Num(c.position.z), Num(c.velocity.x), Num(c.velocity.y),
            Num(c.velocity.z)]
    case Action(_, _) => [Num(ActionCode(c.actionType)), MaybeId(c.target)]
    case RobotCommand(_, _) => [Num(c.robot), OrderOf(c.order)]
    case RequestResource(_, _) => [Num(c.resource), Num(c.amount)]
    case TransferRegion(_, _) => [Num(c.entity), Num(c.region)]
    case BuildStructure(_, _, _) =>
        [Num(StructureCode(c.kind)), Num(c.position.x), Num(c.position.y), Num(c.position.z), Num(c.rotation)]
    case DismantleStructure(_) => [Num(c.structure)]
    case RepairStructure(_, _) => [Num(c.structure), MaybeId(c.actor)]
    case TransferResource(_, _, _, _) => [Num(c.source), Num(c.dest), Num(c.resource), Num(c.amount)]
    case ReserveResource(_, _, _, _) => [Num(c.entity), Num(c.resource), Num(c.amount), Num(c.reservation)]
    case CommitTransfer(_, _, _) => [Num(c.reservation), Num(c.source), Num(c.dest)]
    case CancelReservation(_, _) => [Num(c.reservation), Num(c.source)]
    case SetProductionRecipe(_, _) => [Num(c.structure), Num(c.recipe)]
    case SetExtractionTarget(_, _) => [Num(c.structure), Num(c.deposit)]
    case CreateLogisticsJob(_, _, _, _, _) =>
        [Num(c.source), Num(c.dest), Num(c.resource), Num(c.amount), Num(c.priority)]
    case CancelLogisticsJob(_) => [Num(c.job)]
    case ClaimLogisticsJob(_, _) => [Num(c.job), Num(c.worker)]
    case ExecuteLogisticsPickup(_, _) => [Num(c.job), Num(c.worker)]
    case ExecuteLogisticsDropoff(_, _) => [Num(c.job), Num(c.worker)]
    case AssignEscort(_, _) => [Num(c.player), Num(c.robot)]
    case ReleaseEscort(_, _) => [Num(c.player), Num(c.robot)]
    case AssignSquadMember(_, _) => [Num(c.squad), Num(c.robot)]
    case RemoveSquadMember(_, _) => [Num(c.squad), Num(c.robot)]
    case SquadRegroup(_, _) => [Num(c.squad), Num(c.rally.x), Num(c.rally.y), Num(c.rally.z)]
    case QueueResearch(_) => [Num(c.tech)]
    case CancelResearch(_) => [Num(c.job)]
    case ReorderResearchQueue(_, _) => [Num(c.job), Num(c.newIndex)]
    case SubmitClientManifest(_, _, _, _) =>
        [TextOf(c.buildId), Num(c.protocolVersion), Num(c.contentHash), Bool(c.official)]
    case AdminKickSession(_, _) => [Num(c.session), Num(c.reason)]
    case AdminSetTrustLevel(_, _) => [Num(c.session), Num(c.trust)]
    case AdminGrantResource(_, _, _) => [Num(c.entity), Num(c.resource), Num(c.amount)]
    case AdminSetSessionRole(_, _) => [Num(c.session), Num(c.role)]
  }

  lemma EarlyCommandShaped(c: Command)
    requires CommandTag(c) < 16
    ensures CommandSchema(CommandTag(c)).Some?
    ensures AllShaped(CommandSchema(CommandTag(c)).value, CommandValues(c))
  {
    Limits();
  }

  lemma MiddleCommandShaped(c: Command)
    requires 16 <= CommandTag(c) < 100
    ensures CommandSchema(CommandTag(c)).Some?
    ensures AllShaped(CommandSchema(CommandTag(c)).value, CommandValues(c))
  {
    Limits();
  }

  lemma LateCommandShaped(c: Command)
    requires CommandTag(c) >= 100
    ensures CommandSchema(CommandTag(c)).Some?
    ensures AllShaped(CommandSchema(CommandTag(c)).value, CommandValues(c))
  {
    Limits();
  }

  lemma CommandShaped(c: Command)
    ensures CommandSchema(CommandTag(c)).Some?
    ensures AllShaped(CommandSchema(CommandTag(c)).value, CommandValues(c))
  {
    if CommandTag(c) < 16 {
      EarlyCommandShaped(c);
    } else if CommandTag(c) < 100 {
      MiddleCommandShaped(c);
    } else {
      LateCommandShaped(c);
    }
  }

  lemma EarlyCommandInjective(c: Command, d: Command)
    requires CommandTag(c) == CommandTag(d) < 16
    requires CommandValues(c) == CommandValues(d)
    ensures c == d
  {
    if c.Action? {
      ActionCodeInjective(c.actionType, d.actionType);
    } else if c.BuildStructure? {
      StructureCodeInjective(c.kind, d.kind);
    }
  }

  lemma MiddleCommandInjective(c: Command, d: Command)
    requires 16 <= CommandTag(c) == CommandTag(d) < 100
    requires CommandValues(c) == CommandValues(d)
    ensures c == d
  {
  }

  lemma LateCommandInjective(c: Command, d: Command)
    requires 100 <= CommandTag(c) == CommandTag(d)
    requires CommandValues(c) == CommandValues(d)
    ensures c == d
  {
  }

  /** Discriminator and field values determine the command. */
  lemma CommandInjective(c: Command, d: Command)
    requires CommandTag(c) == CommandTag(d)
    requires CommandValues(c) == CommandValues(d)
    ensures c == d
  {
    hide CommandTag, CommandValues;
    if CommandTag(c) < 16 {
      EarlyCommandInjective(c, d);
    } else if CommandTag(c) < 100 {
      MiddleCommandInjective(c, d);
    } else {
      LateCommandInjective(c, d);
    }
  }
}
