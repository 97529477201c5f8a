// Messages, endpoint statuses and ack results.

module Messages {

  // Identifiers are compared for equality only; times are compared by order only.
  type MessageId = int
  type EndpointAddr = int
  type NodeId = int
  type TopicCode = int
  type Time = int

  newtype byte = b: int | 0 <= b < 256
  type Bytes = seq<byte>

  datatype Option<+T> = None | Some(value: T)

  datatype AckExpect = ExpectSent | ExpectReceived | ExpectProcessed

  datatype StatusKind = Sending | Unsent | Sent | Received | Processed | Failed | Unreachable {
    predicate IsReached(level: AckExpect) {
      match level
      case ExpectSent => Sent? || Received? || Processed?
      case ExpectReceived => Received? || Processed?
      case ExpectProcessed => Processed?
    }

    predicate IsFailed() {
      Failed? || Unreachable?
    }

    predicate IsResolved(level: AckExpect) {
      IsFailed() || IsReached(level)
    }

    // The part of a status that every replica agrees on: whether the hosting node has already
    // handed the message over is known to that node only.
    function Norm(): (s: StatusKind)
      ensures forall e :: s.IsResolved(e) == IsResolved(e)
    {
      if Sending? then Unsent else this
    }
  }

  type StatusMap = map<EndpointAddr, StatusKind>

  datatype TargetKind = Durable | Online | Available | Push

  datatype DurableConfig = DurableConfig(expire: Time, maxReceiver: Option<nat>)

  datatype Message = Message(
    id: MessageId,
    ackKind: AckExpect,
    target: TargetKind,
    durability: Option<DurableConfig>,
    subjects: seq<Bytes>,
    payload: Bytes
  ) {
    // The only thing about a message that depends on the clock.
    predicate Expired(now: Time) {
      target.Durable? && durability.Some? && now > durability.value.expire
    }
  }

  datatype AckException = Overflow | NoAvailableTarget

  datatype AckResult =
    | AckOk(status: StatusMap)
    | AckErr(status: StatusMap, exception: Option<AckException>)

  function NormStatus(status: StatusMap): (s: StatusMap)
    ensures s.Keys == status.Keys
  {
    map ep | ep in status :: status[ep].Norm()
  }

  datatype WaitAck = WaitAck(level: AckExpect, status: StatusMap)

  function NewWaitAck(level: AckExpect, eps: set<EndpointAddr>): WaitAck {
    WaitAck(level, map ep | ep in eps :: Unsent)
  }

  // A message as the durable service returns it.
  datatype DurableMessage = DurableMessage(message: Message, status: StatusMap, time: Time)

  datatype DurableCommand =
    | Create(message: Message)
    | UpdateStatus(id: MessageId, acks: StatusMap)
    | Archive(id: MessageId)
}
