/** Server-side roles and the permission a privileged command needs. */
module AdminRoles {
  import opened Words
  import opened Wrappers
  import opened Protocol

  datatype Permission =
    | KickSession | BanSession | SetTrustLevel | GrantResources
    | SetSessionRole | InspectSecurityLog | ReloadManifest | ToggleAntiCheat

  datatype Role = Player | Moderator | Host | ServerOwner

  function Permissions(role: Role): set<Permission> {
    match role
    case Player => {}
    case Moderator => {KickSession, InspectSecurityLog}
    case Host =>
      {KickSession, InspectSecurityLog, BanSession, SetTrustLevel, GrantResources, SetSessionRole, ReloadManifest}
    case ServerOwner =>
      {KickSession, InspectSecurityLog, BanSession, SetTrustLevel, GrantResources, SetSessionRole, ReloadManifest,
       ToggleAntiCheat}
  }

  /** The role as the simulation sees it. */
  function RoleCode(role: Role): Byte {
    match role case Player => 0 case Moderator => 1 case Host => 2 case ServerOwner => 3
  }

  function RoleFromCode(code: Byte): Option<Role> {
    match code
    case 0 => Some(Player)
    case 1 => Some(Moderator)
    case 2 => Some(Host)
    case 3 => Some(ServerOwner)
    case _ => None
  }

  function RequiredPermission(c: Command): Option<Permission> {
    if c.AdminKickSession? then Some(KickSession)
    else if c.AdminSetTrustLevel? then Some(SetTrustLevel)
    else if c.AdminGrantResource? then Some(GrantResources)
    else if c.AdminSetSessionRole? then Some(SetSessionRole)
    else None
  }

  /** Sessions without an entry are ordinary players. */
  type RoleTable = map<nat, Role>

  function RoleOf(roles: RoleTable, session: nat): Role {
    if session in roles then roles[session] else Player
  }

  function WithRole(roles: RoleTable, session: nat, role: Role): RoleTable {
    if role == Player then roles - {session} else roles[session := role]
  }

  /** Roles form a containment ladder, and codes are faithful to it. */
  lemma Ladder(a: Role, b: Role)
    ensures RoleCode(a) <= RoleCode(b) <==> Permissions(a) <= Permissions(b)
    ensures RoleFromCode(RoleCode(a)) == Some(a)
    ensures forall p :: p in Permissions(a) <==>
              RoleCode(a) >=
              if p == KickSession || p == InspectSecurityLog then 1 else if p == ToggleAntiCheat then 3 else 2
  {
    match a {
      case Player =>
      case Moderator => assert KickSession in Permissions(a);
      case Host => assert BanSession in Permissions(a);
      case ServerOwner => assert ToggleAntiCheat in Permissions(a);
    }
  }

  /** Every privileged command needs a privileged role, so a player can pass the gate with none of them. */
  lemma PlayersPassNoGate(roles: RoleTable, session: nat, c: Command)
    ensures RoleOf(WithRole(roles, session, Player), session) == Player
    ensures RequiredPermission(c).Some? ==> RequiredPermission(c).value !in Permissions(Player)
  {
  }

  class AdminRegistry {
    var roles: RoleTable
    var granted: nat
    var denied: nat

    constructor ()
      ensures roles == map[] && granted == 0 && denied == 0
    {
      roles, granted, denied := map[], 0, 0;
    }

    method SetRole(session: nat, role: Role)
      modifies this`roles
      ensures roles == WithRole(old(roles), session, role)
      ensures RoleOf(roles, session) == role
    {
      if role == Player {
        roles := roles - {session};
      } else {
        roles := roles[session := role];
      }
    }

    method RemoveSession(session: nat)
      modifies this`roles
      ensures roles == old(roles) - {session}
      ensures RoleOf(roles, session) == Player
    {
      roles := roles - {session};
    }

    /** The single authorization choke point; both outcomes are counted. */
    method Authorize(session: nat, permission: Permission) returns (allowed: bool)
      modifies this`granted, this`denied
      ensures allowed <==> permission in Permissions(RoleOf(roles, session))
      ensures granted == old(granted) + (if allowed then 1 else 0)
      ensures denied == old(denied) + (if allowed then 0 else 1)
    {
      allowed := permission in Permissions(RoleOf(roles, session));
      if allowed {
        granted := granted + 1;
      } else {
        denied := denied + 1;
      }
    }
  }
}
