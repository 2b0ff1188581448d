/** The records of the graph package. Times are instants counted from the zero time, 0. */
module GraphTypes {

  type Time = nat

  // Discovery modes are plain strings in the source: an unknown one is possible.
  type DiscoveryMode = string
  const INFER: DiscoveryMode := "infer"
  const EXPLICIT: DiscoveryMode := "explicit"
  const HYBRID: DiscoveryMode := "hybrid"
  const DISABLED: DiscoveryMode := "disabled"

  datatype SecretRef = SecretRef(cluster: string, namespace: string, name: string, key: string)

  datatype WorkloadRef = WorkloadRef(
    cluster: string, namespace: string, apiVersion: string, kind: string, name: string, uid: string)

  /** Where a reference was found. The human-readable path text is not modelled. */
  datatype DependencySource = DependencySource(
    sourceType: string,
    container: string,
    initContainer: string,
    ephemeral: bool,
    volume: string,
    envVar: string,
    annotation: string,
    resourceField: string)

  datatype DependencyEdge = DependencyEdge(
    id: string,
    cluster: string,
    workload: WorkloadRef,
    secret: SecretRef,
    discoveryMode: DiscoveryMode,
    sources: seq<DependencySource>,
    optional: bool,
    resolved: bool,
    ownerTeam: string,
    criticality: string,
    purpose: string,
    firstObservedAt: Time,
    lastObservedAt: Time)

  datatype SecretSummary = SecretSummary(
    ref: SecretRef,
    exists_: bool,
    secretType: string,
    ownerTeam: string,
    criticality: string,
    lastObservedChangeTime: Time,
    observedChangeCount: nat,
    affectedWorkloadCount: nat,
    affectedTeamCount: nat,
    affectedNamespaceCount: nat,
    unresolvedReferenceCount: nat,
    impactScore: nat)

  datatype WorkloadSummary = WorkloadSummary(
    ref: WorkloadRef,
    ownerTeam: string,
    service: string,
    environment: string,
    criticality: string,
    discoveryMode: DiscoveryMode,
    dependencyCount: nat,
    unresolvedCount: nat)

  datatype SecretInput = SecretInput(
    ref: SecretRef,
    secretType: string,
    ownerTeam: string,
    criticality: string,
    resourceVersion: string,
    creationTimestamp: Time)

  datatype WorkloadInput = WorkloadInput(
    ref: WorkloadRef,
    ownerTeam: string,
    service: string,
    environment: string,
    criticality: string,
    discoveryMode: DiscoveryMode,
    edges: seq<DependencyEdge>)

  /** The zero values Go reads from a map at a missing key. */
  const ZERO_SECRET := SecretSummary(
    SecretRef("", "", "", ""), false, "", "", "", 0, 0, 0, 0, 0, 0, 0)
}
