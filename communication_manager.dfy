/** The mailbox of an agent (stateful_agents/communication/communication_manager.py):
    outgoing messages are only built, incoming ones addressed to this agent are queued in a
    bounded FIFO, and reading the queue empties it. */
module Communication {
  import opened Seqs
  import opened Slices
  import opened Messages
  import Fifo

  const DefaultMaxQueueSize: int := 100

  /** Why `receive_message` refused a message. */
  datatype Refusal = WrongReceiver(expected: string, got: string)

  /** The message `send_message` builds for the agent `senderId`; `sentAt` is the clock
      reading that stamps it. */
  function Outgoing(senderId: string, receiverId: string, content: string, messageType: string,
                    metadata: Option<Metadata>, sentAt: real): (m: Message)
    ensures m.senderId == senderId && m.receiverId == receiverId && m.content == content
    ensures m.messageType == messageType && m.timestamp == sentAt
    ensures metadata.None? ==> m.metadata == map[]
    ensures metadata.Some? ==> m.metadata == metadata.value
  {
    Message(content, senderId, receiverId, sentAt, messageType, OrEmpty(metadata))
  }

  class CommunicationManager {
    const agentId: string
    var messageQueue: seq<Message>
    var maxQueueSize: int

    constructor (agentId: string, maxQueueSize: int)
      ensures this.agentId == agentId && messageQueue == [] && this.maxQueueSize == maxQueueSize
    {
      this.agentId := agentId;
      messageQueue := [];
      this.maxQueueSize := maxQueueSize;
    }

    /** Builds a message from this agent to `receiverId`; nothing is queued or delivered. */
    function SendMessage(receiverId: string, content: string, messageType: string,
                         metadata: Option<Metadata>, sentAt: real): (m: Message)
      ensures m.senderId == agentId && m.receiverId == receiverId && m.content == content
      ensures m.messageType == messageType && m.timestamp == sentAt
      ensures m == Outgoing(agentId, receiverId, content, messageType, metadata, sentAt)
    {
      Outgoing(agentId, receiverId, content, messageType, metadata, sentAt)
    }

    /** Queues `m` if it is addressed to this agent, dropping the oldest entries beyond
        `maxQueueSize`; a message for another receiver is refused and nothing changes. */
    method ReceiveMessage(m: Message) returns (r: Option<Refusal>)
      modifies this
      ensures maxQueueSize == old(maxQueueSize)
      ensures m.receiverId != agentId ==>
                r == Some(WrongReceiver(agentId, m.receiverId)) && messageQueue == old(messageQueue)
      ensures m.receiverId == agentId ==>
                && r.None?
                && (maxQueueSize >= 0 ==> HasPendingMessages())
                && messageQueue == Fifo.Push(old(messageQueue), m, maxQueueSize)
                && SuffixOf(messageQueue, old(messageQueue) + [m])
                && (maxQueueSize >= 1 ==> |messageQueue| <= maxQueueSize && messageQueue[|messageQueue| - 1] == m)
    {
      if m.receiverId != agentId {
        return Some(WrongReceiver(agentId, m.receiverId));
      }
      messageQueue := messageQueue + [m];
      if |messageQueue| > maxQueueSize {
        messageQueue := From(messageQueue, -maxQueueSize);
      }
      Fifo.PushDropsOnlyOldest(old(messageQueue), m, maxQueueSize);
      if maxQueueSize >= 1 {
        Fifo.PushKeepsNewest(old(messageQueue), m, maxQueueSize);
      } else if maxQueueSize == 0 {
        Fifo.PushUnboundedAtZero(old(messageQueue), m);
      }
      r := None;
    }

    /** Hands out the queued messages, oldest first, and empties the queue. */
    method GetPendingMessages() returns (pending: seq<Message>)
      modifies this
      ensures pending == old(messageQueue)
      ensures messageQueue == [] && maxQueueSize == old(maxQueueSize)
    {
      pending := messageQueue;
      messageQueue := [];
    }

    function HasPendingMessages(): (r: bool)
      reads this
      ensures r <==> messageQueue != []
    {
      |messageQueue| > 0
    }
  }

  /** A mailbox of the default size that receives 150 messages holds the last 100 of them,
      in arrival order. */
  lemma {:induction false} MailboxKeepsLastHundred(arrivals: seq<Message>)
    requires |arrivals| == 150
    ensures Fifo.PushAll([], arrivals, DefaultMaxQueueSize) == arrivals[50..]
  {
    Fifo.PushAllKeepsNewest([], arrivals, DefaultMaxQueueSize);
    assert [] + arrivals == arrivals;
  }
}
