// What a proposal asks of the node while it is applied.

module Contexts {
  import opened Messages
  import opened HoldQueue

  // The context of one proposal, with its topic code set. The clock is read once. Dispatches and ack
  // results are recorded in the order of the calls; the endpoints of one send_unsent call are gathered
  // in `sending`.
  class ProposalContext {
    const node: NodeId
    const now: Time
    ghost var sending: set<EndpointAddr>
    ghost var events: seq<Event>
    ghost var commands: seq<DurableCommand>

    // `events` and `commands` are what the topic has emitted on this node before.
    constructor (node: NodeId, now: Time, ghost events: seq<Event>, ghost commands: seq<DurableCommand>)
      ensures this.node == node && this.now == now
      ensures this.events == events && this.commands == commands && sending == {}
    {
      this.node, this.now := node, now;
      this.events, this.commands, sending := events, commands, {};
    }

    method DispatchMessage(ep: EndpointAddr)
      modifies `sending
      ensures sending == old(sending) + {ep}
    {
      sending := sending + {ep};
    }

    method EndDispatch(id: MessageId)
      modifies `sending, `events
      ensures sending == {}
      ensures events == old(events) + (if old(sending) == {} then [] else [Dispatch(id, old(sending))])
    {
      events := events + (if sending == {} then [] else [Dispatch(id, sending)]);
      sending := {};
    }

    method ResolveAck(e: Event)
      requires !e.Dispatch?
      modifies `events
      ensures events == old(events) + [e]
    {
      events := events + [e];
    }

    method PushDurableCommand(command: DurableCommand)
      modifies `commands
      ensures commands == old(commands) + [command]
    {
      commands := commands + [command];
    }
  }
}
