/** Client build manifests and the three policies a server may validate them under. */
module Manifests {
  import opened Words
  import opened Wrappers
  import opened Bytes

  datatype Manifest = Manifest(buildId: Text, protocolVersion: u32, contentHash: u64, official: bool)

  datatype ServerPolicy = LocalDev | PrivateCustom(accepted: Option<u64>) | Official

  /** What a policy makes of a client's manifest, next to the server's own. */
  predicate Validates(policy: ServerPolicy, server: Manifest, hash: Manifest -> u64, m: Manifest) {
    match policy
    case LocalDev => true
    case PrivateCustom(accepted) =>
      && m.protocolVersion == server.protocolVersion
      && (accepted.Some? ==> accepted.value == hash(m))
    case Official =>
      && m.protocolVersion == server.protocolVersion
      && m.official
      && m.buildId == server.buildId
      && m.contentHash == server.contentHash
  }

  predicate RequiresManifest(policy: ServerPolicy) {
    policy.Official?
  }
}
