/**
  The values the broker passes around: the strict (kind, kindVersion) routing key, the
  StageTask sent to a worker and the StageComplete it returns, and the identities of
  brokers, worker streams, pending stages and peer clients.
 */
module BrokerTypes {
  /** The strict routing key: there is no wildcard version. */
  datatype KindVersion = KindVersion(kind: string, version: int)

  /** Lease tokens are random UUIDs in the source; here, numbers, with 0 for an unset field. */
  type Token = nat

  const NO_TOKEN: Token := 0

  datatype StageTask = StageTask(leaseToken: Token, kind: string, kindVersion: int, body: string)

  datatype StageComplete = StageComplete(
    leaseToken: Token, errorMessage: string, terminal: bool, failedStage: int, payload: string)

  const REASON_STREAM_DROPPED := "converge: local worker stream dropped before Complete"
  const REASON_PEER_DEPARTED := "converge-mesh: executing peer departed before returning result"

  /** What abandon() sends on behalf of a dropped worker stream. */
  function StreamDropped(tok: Token): StageComplete {
    StageComplete(tok, REASON_STREAM_DROPPED, false, 0, "")
  }

  /** What onPeerGone() sends, and what the peer-context arm returns; it carries no token. */
  function PeerDeparted(): StageComplete {
    StageComplete(NO_TOKEN, REASON_PEER_DEPARTED, false, 0, "")
  }

  function TaskKindVer(task: StageTask): KindVersion {
    KindVersion(task.kind, task.kindVersion)
  }

  /** A pending stage is known by the broker whose executor holds it and by its lease token. */
  datatype StageKey = StageKey(broker: nat, token: Token)

  /** A worker stream: the broker it is connected to and its stable sequence number there. */
  datatype SubKey = SubKey(broker: nat, num: nat)

  /** A peerClient object: the broker that holds it and a number, never reused. */
  datatype PeerKey = PeerKey(broker: nat, num: nat)
}
