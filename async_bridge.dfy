/** The asynchronous relay: GPT adds messages to a queue, Claude polls the
    queue (which hands every pending message over as `processing`), answers
    a message by id (which marks it `responded` and records the answer), and
    GPT reads the recorded answers and a status summary. */
module AsyncBridge {
  import opened Request

  /** The three values of a queued message's `status` field. */
  datatype Status = Pending | Processing | Responded

  /** An element of the queue. `id` is the `Date.now()` reading taken when it
      was added; nothing makes ids unique. */
  datatype Message = Message(id: int, from: string, text: string, priority: string,
                             timestamp: string, status: Status)

  /** An element of the response log. `response` is stored as the request
      body carried it, absent included. */
  datatype Response = Response(id: int, messageId: int, originalMessage: string,
                               response: Option<string>, timestamp: string)

  datatype AddReply = AddFailed(error: string) | AddOk(messageId: int, queueLength: nat)

  datatype QueueReply = QueueReply(success: bool, messages: seq<Message>, count: nat)

  datatype PollReply = PollReply(messages: seq<Message>, count: nat)

  datatype ResponsesReply = ResponsesReply(responses: seq<Response>, count: nat)

  datatype StatusReply = StatusReply(status: string, version: string, queued: nat,
                                     processing: nat, responded: nat, timestamp: string)

  const MessageRequired: string := "Message required"
  const Online: string := "online"
  const Version: string := "2.0.0"

  /** The messages of `q` whose status is `st`, in queue order
      (`q.filter(m => m.status === st)`). */
  function WithStatus(q: seq<Message>, st: Status): seq<Message> {
    if q == [] then []
    else WithStatus(q[..|q| - 1], st) + (if q[|q| - 1].status == st then [q[|q| - 1]] else [])
  }

  /** What poll does to one message of the queue. */
  function Mark(m: Message): Message {
    if m.status == Pending then m.(status := Processing) else m
  }

  /** The queue after poll: every pending message is now processing. */
  function Marked(q: seq<Message>): seq<Message> {
    seq(|q|, i requires 0 <= i < |q| => Mark(q[i]))
  }

  /** The messages poll hands over, in queue order. They are the very objects
      it marks, so the reply shows them as processing. */
  function Polled(q: seq<Message>): seq<Message> {
    if q == [] then []
    else Polled(q[..|q| - 1]) +
         (if q[|q| - 1].status == Pending then [q[|q| - 1].(status := Processing)] else [])
  }

  /** `m.id === messageId`; an absent or non-numeric `messageId` is `None`
      and equals no id. */
  predicate Matches(m: Message, messageId: Option<int>) {
    messageId == Some(m.id)
  }

  /** The index `gptQueue.find` stops at: the first message whose id matches. */
  function FindFirst(q: seq<Message>, messageId: Option<int>): (r: Option<nat>)
    ensures r.Some? ==> r.value < |q| && Matches(q[r.value], messageId)
    ensures r.Some? ==> forall j :: 0 <= j < r.value ==> !Matches(q[j], messageId)
    ensures r.None? <==> forall j :: 0 <= j < |q| ==> !Matches(q[j], messageId)
  {
    if q == [] then None
    else if Matches(q[0], messageId) then Some(0)
    else match FindFirst(q[1..], messageId)
      case None => None
      case Some(k) => Some(k + 1)
  }

  /** The queue after respond has found the message at index `k`. */
  function SetResponded(q: seq<Message>, k: nat): seq<Message>
    requires k < |q|
  {
    q[k := q[k].(status := Responded)]
  }

  /** Two queues that hold messages with the same ids in the same places. */
  predicate SameIds(q: seq<Message>, q': seq<Message>) {
    |q| == |q'| && forall i :: 0 <= i < |q| ==> q[i].id == q'[i].id
  }

  predicate IdsIncreasing(q: seq<Message>) {
    forall i, j :: 0 <= i < j < |q| ==> q[i].id < q[j].id
  }

  /** The module-level state of the service: `gptQueue` and `claudeResponses`.
      Every handler is synchronous, so each method runs to completion. */
  class Relay {
    var queue: seq<Message>
    var responses: seq<Response>

    constructor ()
      ensures queue == [] && responses == []
    {
      queue := [];
      responses := [];
    }

    /** GET /api/gpt/queue */
    method Queue() returns (reply: QueueReply)
      ensures reply.success && reply.messages == queue && reply.count == |queue|
    {
      reply := QueueReply(true, queue, |queue|);
    }

    /** GET /api/gpt/add: a missing or empty message is refused and nothing
        changes; otherwise exactly one pending message is appended. */
    method Add(message: Option<string>, priority: Option<string>, id: int, timestamp: string)
      returns (reply: AddReply)
      modifies this
      ensures !Truthy(message) ==>
        reply == AddFailed(MessageRequired) && queue == old(queue) && responses == old(responses)
      ensures Truthy(message) ==>
        queue == old(queue) + [Message(id, Gpt, message.value, PriorityOrDefault(priority), timestamp, Pending)]
        && responses == old(responses)
        && reply == AddOk(id, |old(queue)| + 1)
      ensures Truthy(message) && priority.None? ==> queue[|queue| - 1].priority == DefaultPriority
    {
      if !Truthy(message) {
        return AddFailed(MessageRequired);
      }
      var m := Message(id, Gpt, message.value, PriorityOrDefault(priority), timestamp, Pending);
      queue := queue + [m];
      reply := AddOk(m.id, |queue|);
    }

    /** GET /api/claude/poll: hands over every pending message in queue order
        and marks each as processing; nothing else changes. */
    method Poll() returns (reply: PollReply)
      modifies this
      ensures queue == Marked(old(queue))
      ensures responses == old(responses)
      ensures reply.messages == Polled(old(queue))
      ensures reply.count == |reply.messages|
    {
      var pending: seq<Message> := [];
      var i := 0;
      while i < |queue|
        invariant 0 <= i <= |queue| == |old(queue)|
        invariant forall j :: 0 <= j < i ==> queue[j] == Mark(old(queue)[j])
        invariant forall j :: i <= j < |queue| ==> queue[j] == old(queue)[j]
        invariant pending == Polled(old(queue)[..i])
        invariant responses == old(responses)
      {
        assert old(queue)[..i + 1][..i] == old(queue)[..i];
        if queue[i].status == Pending {
          var m := queue[i].(status := Processing);
          queue := queue[i := m];
          pending := pending + [m];
        }
        i := i + 1;
      }
      assert old(queue)[..i] == old(queue);
      reply := PollReply(pending, |pending|);
    }

    /** POST /api/claude/respond: the first message with `messageId` becomes
        responded, whatever its status was, and one response record is
        appended; an unknown id changes nothing. The reply is always success. */
    method Respond(messageId: Option<int>, response: Option<string>, id: int, timestamp: string)
      returns (success: bool)
      modifies this
      ensures success
      ensures FindFirst(old(queue), messageId).None? ==>
        queue == old(queue) && responses == old(responses)
      ensures FindFirst(old(queue), messageId).Some? ==>
        var k := FindFirst(old(queue), messageId).value;
        queue == SetResponded(old(queue), k) &&
        responses == old(responses) + [Response(id, old(queue)[k].id, old(queue)[k].text, response, timestamp)]
    {
      var i := 0;
      while i < |queue| && !Matches(queue[i], messageId)
        invariant 0 <= i <= |queue|
        invariant forall j :: 0 <= j < i ==> !Matches(queue[j], messageId)
      {
        i := i + 1;
      }
      if i < |queue| {
        var original := queue[i];
        queue := queue[i := original.(status := Responded)];
        responses := responses + [Response(id, original.id, original.text, response, timestamp)];
      }
      success := true;
    }

    /** GET /api/gpt/responses */
    method Responses() returns (reply: ResponsesReply)
      ensures reply.responses == responses && reply.count == |responses|
    {
      reply := ResponsesReply(responses, |responses|);
    }

    /** GET /api/status: `queued` and `processing` count messages by status;
        `responded` counts response records, not responded messages. */
    method Status(timestamp: string) returns (reply: StatusReply)
      ensures reply.status == Online && reply.version == Version && reply.timestamp == timestamp
      ensures reply.queued == |WithStatus(queue, Pending)|
      ensures reply.processing == |WithStatus(queue, Processing)|
      ensures reply.responded == |responses|
    {
      reply := StatusReply(Online, Version, |WithStatus(queue, Pending)|,
                           |WithStatus(queue, Processing)|, |responses|, timestamp);
    }
  }

  /** The filter keeps exactly the messages of the queue with that status. */
  lemma {:induction false} WithStatusMembers(q: seq<Message>, st: Status, m: Message)
    ensures m in WithStatus(q, st) <==> m in q && m.status == st
  {
    if q != [] {
      var p := q[..|q| - 1];
      assert q == p + [q[|q| - 1]];
      WithStatusMembers(p, st, m);
    }
  }

  /** Every message has exactly one of the three statuses. */
  lemma {:induction false} StatusPartition(q: seq<Message>)
    ensures |WithStatus(q, Pending)| + |WithStatus(q, Processing)| + |WithStatus(q, Responded)| == |q|
  {
    if q != [] {
      StatusPartition(q[..|q| - 1]);
    }
  }

  /** What poll hands over is the pending part of the queue, in order, each
      message with status processing and every other field as it was. */
  lemma {:induction false} PolledArePending(q: seq<Message>)
    ensures |Polled(q)| == |WithStatus(q, Pending)|
    ensures forall j :: 0 <= j < |Polled(q)| ==>
      Polled(q)[j] == WithStatus(q, Pending)[j].(status := Processing)
  {
    if q != [] {
      PolledArePending(q[..|q| - 1]);
    }
  }

  /** After poll nothing is pending, the processing count has grown by the
      pending count, and responded messages are untouched. */
  lemma {:induction false} MarkedCounts(q: seq<Message>)
    ensures WithStatus(Marked(q), Pending) == []
    ensures |WithStatus(Marked(q), Processing)| == |WithStatus(q, Processing)| + |WithStatus(q, Pending)|
    ensures WithStatus(Marked(q), Responded) == WithStatus(q, Responded)
  {
    if q != [] {
      var p := q[..|q| - 1];
      MarkedCounts(p);
      assert Marked(q)[..|q| - 1] == Marked(p);
    }
  }

  /** Poll only changes pending messages, and only their status. */
  lemma MarkedTouchesOnlyPending(q: seq<Message>, i: nat)
    requires i < |q|
    ensures |Marked(q)| == |q|
    ensures q[i].status == Pending ==> Marked(q)[i] == q[i].(status := Processing)
    ensures q[i].status != Pending ==> Marked(q)[i] == q[i]
  {
  }

  /** A second poll with no add in between hands over nothing. */
  lemma NoPendingPollsEmpty(q: seq<Message>)
    requires WithStatus(q, Pending) == []
    ensures Polled(q) == []
  {
    PolledArePending(q);
  }

  /** respond never makes a message pending again. */
  lemma RespondKeepsNoPending(q: seq<Message>, k: nat)
    requires k < |q| && WithStatus(q, Pending) == []
    ensures WithStatus(SetResponded(q, k), Pending) == []
  {
    var q' := SetResponded(q, k);
    if WithStatus(q', Pending) != [] {
      var m := WithStatus(q', Pending)[0];
      WithStatusMembers(q', Pending, m);
      var i :| 0 <= i < |q'| && q'[i] == m;
      WithStatusMembers(q, Pending, q[i]);
      assert false;
    }
  }

  /** A second poll with no add in between hands over nothing: neither
      directly after the first poll nor after a respond in between (an
      unknown id leaves the queue as it is). */
  lemma SecondPollIsEmpty(q: seq<Message>)
    ensures Polled(Marked(q)) == []
    ensures forall k :: 0 <= k < |q| ==> Polled(SetResponded(Marked(q), k)) == []
  {
    MarkedCounts(q);
    NoPendingPollsEmpty(Marked(q));
    forall k | 0 <= k < |q| ensures Polled(SetResponded(Marked(q), k)) == [] {
      RespondKeepsNoPending(Marked(q), k);
      NoPendingPollsEmpty(SetResponded(Marked(q), k));
    }
  }

  /** find looks only at ids, so a status change does not move it. */
  lemma {:induction false} FindFirstSameIds(q: seq<Message>, q': seq<Message>, messageId: Option<int>)
    requires SameIds(q, q')
    ensures FindFirst(q, messageId) == FindFirst(q', messageId)
  {
    if q != [] {
      assert SameIds(q[1..], q'[1..]) by {
        forall i | 0 <= i < |q| - 1 ensures q[1..][i].id == q'[1..][i].id {
          assert q[i + 1].id == q'[i + 1].id;
        }
      }
      FindFirstSameIds(q[1..], q'[1..], messageId);
    }
  }

  /** respond is not idempotent: a second call with the same id finds the same
      message again, leaves the queue as the first call left it, and so (by
      Relay.Respond) appends a second response record. */
  lemma RespondAgain(q: seq<Message>, messageId: Option<int>)
    requires FindFirst(q, messageId).Some?
    ensures var k := FindFirst(q, messageId).value;
      FindFirst(SetResponded(q, k), messageId) == Some(k) &&
      SetResponded(SetResponded(q, k), k) == SetResponded(q, k)
  {
    var k := FindFirst(q, messageId).value;
    FindFirstSameIds(q, SetResponded(q, k), messageId);
  }

  /** Two responds with the same known id record two responses. */
  method RespondTwice(r: Relay, messageId: int, response: Option<string>,
                      id1: int, id2: int, timestamp: string)
    requires FindFirst(r.queue, Some(messageId)).Some?
    modifies r
    ensures |r.responses| == old(|r.responses|) + 2
    ensures r.responses[|r.responses| - 2].messageId == messageId
    ensures r.responses[|r.responses| - 1].messageId == messageId
  {
    ghost var q0 := r.queue;
    var ok := r.Respond(Some(messageId), response, id1, timestamp);
    RespondAgain(q0, Some(messageId));
    ok := r.Respond(Some(messageId), response, id2, timestamp);
  }

  /** A poll between add and respond does not change which message respond
      finds. */
  lemma PollKeepsFind(q: seq<Message>, messageId: Option<int>)
    ensures FindFirst(Marked(q), messageId) == FindFirst(q, messageId)
  {
    FindFirstSameIds(q, Marked(q), messageId);
  }

  /** With a fresh id larger than every id in the queue, the appended message
      is the one respond finds by that id, and ids stay increasing. */
  lemma FreshIdIsFound(q: seq<Message>, m: Message)
    requires forall i :: 0 <= i < |q| ==> q[i].id < m.id
    ensures FindFirst(q + [m], Some(m.id)) == Some(|q|)
    ensures IdsIncreasing(q) ==> IdsIncreasing(q + [m])
  {
    var r := FindFirst(q + [m], Some(m.id));
    assert Matches((q + [m])[|q|], Some(m.id));
    assert r.Some?;
    assert forall j :: 0 <= j < |q| ==> (q + [m])[j] == q[j];
  }

  /** Ids are not unique: when two messages share an id, respond can only
      ever reach the earlier one. */
  lemma DuplicateIdShadows(q: seq<Message>, i: nat, j: nat)
    requires i < j < |q| && q[i].id == q[j].id
    ensures FindFirst(q, Some(q[j].id)) != Some(j)
  {
  }
}
