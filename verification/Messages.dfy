/** What travels between agent and controller (api/health.proto). */
module Messages {
  import opened HealthModel

  datatype WireScope = UnspecifiedScope | EndpointScope | NodeScope

  datatype LocalMsg = LocalMsg(
    attachmentId: Key, podUid: string, namespace: string, podName: string,
    nad: string, interfaceName: string, ip: string, localReady: bool,
    interfaceExists: bool, addressPresent: bool, linkUsable: bool, observedAtUnixNano: int)

  datatype PathMsg = PathMsg(
    scope: WireScope, scopeId: Key, nad: string, target: string, pathReady: bool, observedAtUnixNano: int)

  datatype Payload =
    | SnapshotBegin(beginEpoch: nat, expectedLocal: nat, expectedPath: nat)
    | SnapshotEnd(endEpoch: nat)
    | Local(local: LocalMsg)
    | Path(path: PathMsg)
    | Retired(attachmentId: Key)
    | Empty

  datatype Envelope = Envelope(nodeName: string, agentInstanceId: string, sequence: nat, payload: Payload)

  datatype AckReason = NoReason | NewStream | SnapshotMismatch | UnknownAttachment | UnknownPathKey | Superseded

  datatype Ack = Ack(acceptedSequence: nat, resyncRequired: bool, reason: AckReason)

  /** toLocalPB (internal/agent/grpc_sink.go). */
  function ToLocalPB(r: LocalHealth): LocalMsg {
    LocalMsg(r.attachmentID, r.podUID, r.namespace, r.podName, r.nad, r.iface, r.ip, r.Ready(),
             r.interfaceExists, r.addressPresent, r.linkUsable, r.observedAt)
  }

  /** toPathPB (internal/agent/grpc_sink.go). */
  function ToPathPB(r: PathHealth): PathMsg {
    PathMsg(if r.scope == Node then NodeScope else EndpointScope, r.scopeID, r.nad, r.target, r.pathReady, r.observedAt)
  }
}
