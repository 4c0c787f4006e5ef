// Connection lifecycle rules and the API view of a stored connection
// (services/integration/api/entity/connection.go).  Times are integers and
// costs reals; the credential sub-record is reduced to its ID and name.

module IntegrationConnection {
  import opened Common

  const Onboard: string := "ONBOARD"
  const Disabled: string := "DISABLED"
  const Discovered: string := "DISCOVERED"
  const InProgress: string := "IN_PROGRESS"
  const Archived: string := "ARCHIVED"

  /** ConnectionLifecycleState.Validate: None means accepted. */
  function Validate(state: string): (err: Option<string>)
    ensures err.None? <==> state == InProgress || state == Onboard || state == Disabled
    ensures err.Some? ==> err.value == "invalid connection lifecycle state: " + state
  {
    if state == InProgress || state == Onboard || state == Disabled then None
    else Some("invalid connection lifecycle state: " + state)
  }

  /** Validate rejects the two named states it does not list. */
  lemma DiscoveredAndArchivedRejected()
    ensures Validate(Discovered).Some? && Validate(Archived).Some?
  {
    assert Discovered != InProgress && Discovered != Onboard && Discovered != Disabled;
    assert Archived != InProgress && Archived != Onboard && Archived != Disabled;
  }

  /** Raw JSON bytes of the stored metadata column. */
  type Json = seq<bv8>

  /** model.Connection: the stored row. */
  datatype StoredConnection = StoredConnection(
    id: string,
    sourceId: string,
    name: string,
    email: string,
    connectorType: string,
    description: string,
    credentialId: string,
    credentialName: Option<string>,
    createdAt: int,
    healthState: string,
    lifecycleState: string,
    lastHealthCheckTime: int,
    healthReason: Option<string>,
    assetDiscovery: Option<bool>,
    spendDiscovery: Option<bool>,
    metadata: Json)

  /** entity.Connection: the API view. */
  datatype Connection = Connection(
    id: string,
    connectionId: string,
    connectionName: string,
    email: string,
    connector: string,
    description: string,
    credentialId: string,
    credentialName: Option<string>,
    onboardDate: int,
    healthState: string,
    lifecycleState: string,
    lastHealthCheckTime: int,
    healthReason: Option<string>,
    assetDiscovery: Option<bool>,
    spendDiscovery: Option<bool>,
    lastInventory: Option<int>,
    cost: Option<real>,
    resourceCount: Option<int>,
    metadata: map<string, string>)

  predicate IsEnabled(c: Connection)
  {
    c.lifecycleState == Onboard || c.lifecycleState == InProgress
  }

  predicate IsDiscovered(c: Connection)
  {
    c.lifecycleState == Discovered
  }

  /** An enabled connection is in a valid state; a discovered one is neither enabled nor valid. */
  lemma EnabledAndDiscoveredStates(c: Connection)
    ensures IsEnabled(c) ==> Validate(c.lifecycleState).None?
    ensures IsDiscovered(c) ==> !IsEnabled(c) && Validate(c.lifecycleState).Some?
  {
    if IsDiscovered(c) {
      DiscoveredAndArchivedRejected();
    }
  }

  /** Disabled is the one valid state that is not enabled. */
  lemma ValidButNotEnabled(c: Connection)
    requires Validate(c.lifecycleState).None? && !IsEnabled(c)
    ensures c.lifecycleState == Disabled
  {
  }

  /** The API view with the given metadata. */
  function ViewOf(s: StoredConnection, metadata: map<string, string>): (c: Connection)
    ensures c.id == s.id && c.connectionId == s.sourceId && c.connectionName == s.name
    ensures c.lifecycleState == s.lifecycleState && c.healthState == s.healthState
    ensures c.onboardDate == s.createdAt && c.credentialId == s.credentialId
    ensures c.resourceCount.None? && c.cost.None? && c.lastInventory.None?
    ensures c.metadata == metadata
  {
    Connection(s.id, s.sourceId, s.name, s.email, s.connectorType, s.description,
      s.credentialId, s.credentialName, s.createdAt, s.healthState, s.lifecycleState,
      s.lastHealthCheckTime, s.healthReason, s.assetDiscovery, s.spendDiscovery,
      None, None, None, metadata)
  }

  /**
   * NewConnection as written: the length test is made on the map just
   * created, so the stored metadata is never decoded.
   */
  function NewConnectionAsWritten(s: StoredConnection, decode: Json -> Option<map<string, string>>): (c: Connection)
    ensures c == ViewOf(s, map[])
  {
    var metadata: map<string, string> := map[];
    if |metadata| > 0 then
      ViewOf(s, match decode(s.metadata) case Some(m) => m case None => metadata)
    else ViewOf(s, metadata)
  }

  /** NewConnection with the stored metadata decoded when present, as evidently intended. */
  function NewConnection(s: StoredConnection, decode: Json -> Option<map<string, string>>): (c: Connection)
    ensures |s.metadata| > 0 && decode(s.metadata).Some? ==> c.metadata == decode(s.metadata).value
    ensures |s.metadata| == 0 || decode(s.metadata).None? ==> c.metadata == map[]
    ensures c == ViewOf(s, c.metadata)
  {
    if |s.metadata| > 0 then
      ViewOf(s, match decode(s.metadata) case Some(m) => m case None => map[])
    else ViewOf(s, map[])
  }

  /** A stored connection with metadata loses it in the as-written view but keeps it in the corrected one. */
  lemma NewConnectionDropsMetadata(s: StoredConnection, decode: Json -> Option<map<string, string>>)
    requires |s.metadata| > 0 && decode(s.metadata).Some? && decode(s.metadata).value != map[]
    ensures NewConnectionAsWritten(s, decode).metadata == map[]
    ensures NewConnection(s, decode).metadata != map[]
  {
  }
}
