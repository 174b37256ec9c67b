/** The POST bridge: GPT posts a message in a JSON body and the service
    appends it to an in-memory log without any validation. */
module SimpleBridge {
  import opened Request

  /** An element of the `messages` log. `text` is whatever the body carried,
      absent included. */
  datatype Entry = Entry(id: int, from: string, to: string, timestamp: string,
                         text: Option<string>, priority: string, status: string)

  datatype SendReply = SendReply(success: bool, messageId: int, status: string)

  datatype ListReply = ListReply(count: nat, messages: seq<Entry>)

  const Received: string := "received"
  const ReceivedNotice: string := "Messaggio ricevuto"

  /** Every entry the log can hold goes from GPT to Claude and is received. */
  predicate WellFormed(e: Entry) {
    e.from == Gpt && e.to == Claude && e.status == Received
  }

  class Log {
    var messages: seq<Entry>

    ghost predicate Valid()
      reads this
    {
      forall i :: 0 <= i < |messages| ==> WellFormed(messages[i])
    }

    constructor ()
      ensures Valid() && messages == []
    {
      messages := [];
    }

    /** POST /api/message-claude: always appends exactly one received entry,
        even when the message is missing, and replies with its id. */
    method MessageClaude(message: Option<string>, priority: Option<string>, id: int, timestamp: string)
      returns (reply: SendReply)
      requires Valid()
      modifies this
      ensures Valid()
      ensures messages == old(messages) + [Entry(id, Gpt, Claude, timestamp, message,
                                                 PriorityOrDefault(priority), Received)]
      ensures priority.None? ==> messages[|messages| - 1].priority == DefaultPriority
      ensures reply == SendReply(true, messages[|messages| - 1].id, ReceivedNotice)
    {
      var entry := Entry(id, Gpt, Claude, timestamp, message, PriorityOrDefault(priority), Received);
      messages := messages + [entry];
      reply := SendReply(true, entry.id, ReceivedNotice);
    }

    /** GET /api/messages: every entry in insertion order, with its count. */
    method List() returns (reply: ListReply)
      requires Valid()
      ensures reply.messages == messages && reply.count == |messages|
      ensures forall i :: 0 <= i < |reply.messages| ==> WellFormed(reply.messages[i])
    {
      reply := ListReply(|messages|, messages);
    }
  }
}
