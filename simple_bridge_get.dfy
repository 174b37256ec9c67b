/** The GET bridge: GPT sends a message through the query string, the
    service keeps every received message in an in-memory log that can be
    listed and cleared. */
module SimpleBridgeGet {
  import opened Request

  /** An element of the `messages` log. */
  datatype Entry = Entry(id: int, from: string, to: string, timestamp: string,
                         text: string, priority: string, status: string)

  datatype SendReply =
    | SendFailed(error: string)
    | SendOk(messageId: int, status: string, message: string)

  datatype ListReply = ListReply(count: nat, messages: seq<Entry>)

  datatype ClearReply = ClearReply(success: bool, status: string)

  const MessageRequired: string := "Message required"
  const Received: string := "received"
  const ReceivedNotice: string := "Messaggio ricevuto"
  const ClearedNotice: string := "Messages cleared"

  /** Every entry the log can hold goes from GPT to Claude and is received. */
  predicate WellFormed(e: Entry) {
    e.from == Gpt && e.to == Claude && e.status == Received
  }

  class Log {
    var messages: seq<Entry>

    ghost predicate Valid()
      reads this
    {
      forall i :: 0 <= i < |messages| ==> WellFormed(messages[i])
    }

    constructor ()
      ensures Valid() && messages == []
    {
      messages := [];
    }

    /** GET /api/send: a missing or empty message is refused and the log is
        unchanged; otherwise one received entry is appended, earlier entries
        stay as they were, and the reply echoes its id and text. */
    method Send(message: Option<string>, priority: Option<string>, id: int, timestamp: string)
      returns (reply: SendReply)
      requires Valid()
      modifies this
      ensures Valid()
      ensures !Truthy(message) ==> reply == SendFailed(MessageRequired) && messages == old(messages)
      ensures Truthy(message) ==>
        messages == old(messages) + [Entry(id, Gpt, Claude, timestamp, message.value,
                                           PriorityOrDefault(priority), Received)]
      ensures Truthy(message) ==>
        reply == SendOk(messages[|messages| - 1].id, ReceivedNotice, messages[|messages| - 1].text)
      ensures Truthy(message) && priority.None? ==> messages[|messages| - 1].priority == DefaultPriority
    {
      if !Truthy(message) {
        return SendFailed(MessageRequired);
      }
      var entry := Entry(id, Gpt, Claude, timestamp, message.value, PriorityOrDefault(priority), Received);
      messages := messages + [entry];
      reply := SendOk(entry.id, ReceivedNotice, entry.text);
    }

    /** GET /api/messages: every entry in insertion order, with its count. */
    method List() returns (reply: ListReply)
      requires Valid()
      ensures reply.messages == messages && reply.count == |messages|
      ensures forall i :: 0 <= i < |reply.messages| ==> WellFormed(reply.messages[i])
    {
      reply := ListReply(|messages|, messages);
    }

    /** GET /api/clear: the log is replaced by an empty one. */
    method Clear() returns (reply: ClearReply)
      modifies this
      ensures Valid() && messages == []
      ensures reply == ClearReply(true, ClearedNotice)
    {
      messages := [];
      reply := ClearReply(true, ClearedNotice);
    }
  }
}
