/** The message record exchanged between agents and users and stored in recall memory and
    in mailboxes (stateful_agents/communication/message.py). */
module Messages {
  import opened Seqs

  /** Free-form metadata; values are kept as text in this model. */
  type Metadata = map<string, string>

  const DefaultMessageType: string := "text"

  datatype Message = Message(
    content: string,
    senderId: string,
    receiverId: string,
    timestamp: real,
    messageType: string,
    metadata: Metadata)

  /** Python's `metadata or {}`: an absent mapping becomes the empty one. */
  function OrEmpty(metadata: Option<Metadata>): Metadata
  {
    match metadata
    case None => map[]
    case Some(m) => m
  }
}
