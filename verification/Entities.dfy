/** The typed identities and small enumerations shared by every component. */
module Entities {

  datatype Option<+T> = None | Some(value: T)

  datatype NetnsId = NetnsId(device: nat, inode: nat)

  /** The generation is the lifecycle number issued by the socket table. */
  datatype SocketId = SocketId(netns: NetnsId, cookie: Option<nat>, generation: nat)

  /** The observed name is metadata: the source compares interfaces by ifindex only. */
  datatype InterfaceId = InterfaceId(ifindex: nat, name: string)

  type Address = a: seq<bv8> | |a| == 16 witness seq(16, _ => 0 as bv8)

  const AF_INET := 2
  const AF_INET6 := 10
  const TCP := 6

  datatype Endpoint = Endpoint(family: nat, address: Address, port: nat)

  datatype SocketTuple = SocketTuple(netns: NetnsId, protocol: nat, family: nat, local: Endpoint, remote: Endpoint)

  datatype Validity = Valid | Unavailable | Stale | Partial | Reset

  /** What an incident or a hypothesis is about. */
  datatype Scope = SocketScope(socket: SocketId) | InterfaceScope(ifindex: nat) | NetnsScope(netns: NetnsId)

  datatype RouteStatus = RouteAvailable | RoutePartial | RouteAmbiguous | RouteUnavailable

  /** The source keeps these as bits of one word; here they are members of a set. */
  datatype RouteReason =
    | ExactModeledMatch | MultipathWithoutFlowHash | DiagIfindexAgrees | DiagIfindexConflicts | DiagIfindexUnavailable
    | TopologyNonAuthoritative | TopologyPartial | TopologyDegraded | NoModeledRoute | PolicyRoutingNotModeled
    | AmbiguousCandidate | GatewayEvidence | OnLinkEvidence | LocalRoute | LocalAddressAgrees | LocalAddressConflicts
    | MissingOutputInterface

  datatype EventKind =
    | LinkObservation | AddressObservation | RouteObservation | InterfaceObservation | UplinkObservation
    | ProbeRttMetric | TcpLossMetric | TrafficMetric | WifiRssiMetric | CollectorHealth
    | SocketObservation | TcpInfoObservation | TcpIntervalMetric | SocketRouteObservation
    | IncidentObservation | RootCauseHypothesisObservation | ProbeObservation | WifiObservation

  datatype EventSource =
    | NetlinkCollector | V1InterfaceSnapshot | V1UplinkMonitor | V1RttMonitor | V1TcpLossMonitor
    | V1TrafficMonitor | V1WifiMonitor | Runtime | SocketTracker | IncidentEngine | RootCauseEngine
    | ActiveProbe | WifiCollector

  predicate UsableValidity(v: Validity) {
    v == Valid || v == Validity.Partial
  }

  predicate SupportedFamily(family: nat) {
    family == AF_INET || family == AF_INET6
  }
}
