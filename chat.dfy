/** The session-correlation and reply-routing logic of the stock-price chat agent.

    An inbound chat message records its sender under the current session, is
    acknowledged, and each of its text items is forwarded as a structured-extraction
    prompt to a fixed AI agent. When the structured output comes back for the same
    session, the stored requester is looked up and receives exactly one reply (or
    none, when the session is unknown or the output does not parse).

    The agent's key-value storage is a map field, the transport's send is an append
    to an outbox sequence, and the external price lookup is a function parameter
    whose outcome is either a returned string or a raised exception.
 */
module Chat {

  datatype Option<T> = None | Some(value: T)

  type Address = string
  /** The transport's session, as the string it is stored under. */
  type SessionId = string
  /** Message ids are fresh uuids at the source; here they are opaque values chosen by the caller. */
  type MsgId = nat

  /** The fixed address of the AI agent that turns free text into structured output. */
  const AiAgentAddress: Address := "agent1q0h70caed8ax769shpemapzkyk65uscw4xwk6dc4t3emvp5jdcvqs9xs32y"

  /** The marker the AI agent puts in its output when it could not extract a request. */
  const Sentinel: string := "<UNKNOWN>"
  /** The price lookup's own soft-failure convention: its summary string mentions this. */
  const ErrorMarker: string := "Error"

  const PriceApology: string := "Sorry, I couldn't process your price request. Please try again later."
  const RequestApology: string := "Sorry, I couldn't process your request. Please try again later."

  /** One item of a chat message's content list. */
  datatype Content =
    | StartSessionContent
    | TextContent(text: string)
    | EndSessionContent
    | OtherContent(kind: string)   // every other content type of the chat protocol

  datatype ChatMessage = ChatMessage(msgId: MsgId, content: seq<Content>)

  /** The schema sent along with every prompt; its generation is library behaviour. */
  datatype Schema = PriceRequestSchema

  /** What the agent sends. */
  datatype Payload =
    | Ack(acknowledgedMsgId: MsgId)
    | Prompt(prompt: string, outputSchema: Schema)
    | Chat(message: ChatMessage)

  datatype Sent = Sent(to: Address, payload: Payload)

  /** A structured price query. */
  datatype PriceRequest = PriceRequest(ticker: string, start: Option<string>, limit: Option<int>)

  /** A structured-output response, seen through the two views the handler takes of its
      output dictionary: its string form, and the result of parsing it as a PriceRequest
      (None where parsing raises). */
  datatype StructuredOutputResponse = StructuredOutputResponse(rendered: string, parsed: Option<PriceRequest>)

  /** What one call of the external price lookup does. */
  datatype LookupOutcome = Returned(s: string) | Raised

  // ---------------------------------------------------------------------------
  // Substring test (Python's `sub in s`)

  ghost predicate OccursAt(sub: string, s: string, i: int)
  {
    0 <= i && i + |sub| <= |s| && s[i..i + |sub|] == sub
  }

  lemma OccursInTail(sub: string, s: string)
    requires |s| > 0 && !OccursAt(sub, s, 0)
    ensures (exists i :: OccursAt(sub, s, i)) <==> (exists j :: OccursAt(sub, s[1..], j))
  {
    if j :| OccursAt(sub, s[1..], j) {
      assert s[1..][j..j + |sub|] == s[j + 1..j + 1 + |sub|];
      assert OccursAt(sub, s, j + 1);
    }
    if i :| OccursAt(sub, s, i) {
      assert i >= 1;
      assert s[1..][i - 1..i - 1 + |sub|] == s[i..i + |sub|];
      assert OccursAt(sub, s[1..], i - 1);
    }
  }

  /** True when sub occurs in s at some position. */
  function Contains(s: string, sub: string): (r: bool)
    ensures r <==> exists i :: OccursAt(sub, s, i)
    decreases |s|
  {
    if |sub| > |s| then
      false
    else if s[..|sub|] == sub then
      assert OccursAt(sub, s, 0);
      true
    else
      OccursInTail(sub, s);
      Contains(s[1..], sub)
  }

  // ---------------------------------------------------------------------------
  // Building messages

  /** A chat message holding the one text item, followed by an end-session item when asked. */
  function CreateTextChat(text: string, endSession: bool, id: MsgId): (m: ChatMessage)
    ensures m.msgId == id
    ensures |m.content| == if endSession then 2 else 1
    ensures m.content[0] == TextContent(text)
    ensures EndSessionContent in m.content <==> endSession
    ensures Texts(m.content) == [text]
  {
    var content := [TextContent(text)];
    ChatMessage(id, if endSession then content + [EndSessionContent] else content)
  }

  /** The texts of the content's text items, in content order. */
  function Texts(content: seq<Content>): (r: seq<string>)
    ensures |r| <= |content|
  {
    if content == [] then []
    else (if content[0].TextContent? then [content[0].text] else []) + Texts(content[1..])
  }

  lemma {:induction false} TextsAppend(a: seq<Content>, b: seq<Content>)
    ensures Texts(a + b) == Texts(a) + Texts(b)
  {
    if a == [] {
      assert a + b == b;
    } else {
      assert (a + b)[1..] == a[1..] + b;
      TextsAppend(a[1..], b);
    }
  }

  lemma {:induction false} TextsMembership(content: seq<Content>, t: string)
    ensures t in Texts(content) <==> TextContent(t) in content
  {
    if content != [] {
      TextsMembership(content[1..], t);
      assert content == [content[0]] + content[1..];
    }
  }

  lemma {:induction false} TextsEmpty(content: seq<Content>)
    ensures Texts(content) == [] <==> forall k :: 0 <= k < |content| ==> !content[k].TextContent?
  {
    if content != [] {
      TextsEmpty(content[1..]);
      assert forall k :: 1 <= k < |content| ==> content[k] == content[1..][k - 1];
    }
  }

  /** The prompt that forwards one text to the AI agent. */
  function Forward(text: string): Sent
  {
    Sent(AiAgentAddress, Prompt(text, PriceRequestSchema))
  }

  function Prompts(texts: seq<string>): seq<Sent>
  {
    seq(|texts|, k requires 0 <= k < |texts| => Forward(texts[k]))
  }

  /** Everything handling one chat message from sender sends, in order. */
  function HandleMessageSends(sender: Address, msg: ChatMessage): (r: seq<Sent>)
    ensures |r| == 1 + |Texts(msg.content)|
    ensures r[0] == Sent(sender, Ack(msg.msgId))
    ensures forall k :: 1 <= k < |r| ==> r[k].to == AiAgentAddress && r[k].payload == Prompt(Texts(msg.content)[k - 1], PriceRequestSchema)
  {
    [Sent(sender, Ack(msg.msgId))] + Prompts(Texts(msg.content))
  }

  // ---------------------------------------------------------------------------
  // Choosing the reply to a structured output

  datatype Reply =
    | Drop                                // no requester is stored for the session
    | ParseFailure                        // the output does not parse as a PriceRequest
    | Deliver(to: Address, text: string)  // one text chat to the requester

  /** What the structured-output handler does: the request it passes to the price lookup,
      if it calls it, and the reply it chooses. */
  datatype Handling = Handling(queried: Option<PriceRequest>, reply: Reply)

  function Respond(stored: Option<Address>, msg: StructuredOutputResponse, lookup: PriceRequest -> LookupOutcome): (h: Handling)
    // no requester: nothing is sent and the lookup is not called
    ensures stored.None? ==> h == Handling(None, Drop)
    // the sentinel: the first apology, and the lookup is not called
    ensures stored.Some? && Contains(msg.rendered, Sentinel) ==> h == Handling(None, Deliver(stored.value, PriceApology))
    // an unparsable output sends nothing
    ensures stored.Some? && !Contains(msg.rendered, Sentinel) && msg.parsed.None? ==> h == Handling(None, ParseFailure)
    // the lookup is called exactly when the output got past the sentinel and parsed
    ensures h.queried.Some? <==> stored.Some? && !Contains(msg.rendered, Sentinel) && msg.parsed.Some?
    ensures h.queried.Some? ==> h.queried == msg.parsed
    // a raised lookup becomes the second apology, without its detail
    ensures h.queried.Some? && lookup(h.queried.value).Raised? ==> h.reply == Deliver(stored.value, RequestApology)
    // a returned string is sent as it is, whether or not it mentions the error marker
    ensures h.queried.Some? && lookup(h.queried.value).Returned? ==> h.reply == Deliver(stored.value, lookup(h.queried.value).s)
    // every reply goes to the stored requester
    ensures h.reply.Deliver? ==> stored == Some(h.reply.to)
  {
    match stored
    case None => Handling(None, Drop)
    case Some(requester) =>
      if Contains(msg.rendered, Sentinel) then
        Handling(None, Deliver(requester, PriceApology))
      else
        match msg.parsed
        case None => Handling(None, ParseFailure)
        case Some(request) =>
          match lookup(request)
          case Raised => Handling(Some(request), Deliver(requester, RequestApology))
          case Returned(info) =>
            if Contains(info, ErrorMarker) then
              Handling(Some(request), Deliver(requester, info))
            else
              Handling(Some(request), Deliver(requester, info))
  }

  function Queried(h: Handling): seq<PriceRequest>
  {
    if h.queried.Some? then [h.queried.value] else []
  }

  function ReplySends(r: Reply, replyId: MsgId): seq<Sent>
  {
    if r.Deliver? then [Sent(r.to, Chat(CreateTextChat(r.text, false, replyId)))] else []
  }

  // ---------------------------------------------------------------------------
  // The agent's state

  /** What may be sent when the store is as given: prompts go to the AI agent, and
      acknowledgements and chats only to an address recorded as some session's requester;
      no chat ends the session. */
  ghost predicate Permitted(s: Sent, store: map<SessionId, Address>)
  {
    match s.payload
    case Prompt(_, _) => s.to == AiAgentAddress
    case Ack(_) => s.to in store.Values
    case Chat(m) => s.to in store.Values && EndSessionContent !in m.content
  }

  class Agent {
    /** The agent's storage: the requester of each session. */
    var storage: map<SessionId, Address>
    /** Everything sent, oldest first. */
    var outbox: seq<Sent>
    /** Every request passed to the price lookup, oldest first. */
    ghost var lookups: seq<PriceRequest>
    /** The storage as it was when each outbox entry was sent. */
    ghost var storeAtSend: seq<map<SessionId, Address>>

    ghost predicate Valid()
      reads this
    {
      |storeAtSend| == |outbox| &&
      forall k :: 0 <= k < |outbox| ==> Permitted(outbox[k], storeAtSend[k])
    }

    constructor ()
      ensures Valid()
      ensures storage == map[] && outbox == [] && lookups == []
    {
      storage := map[];
      outbox := [];
      lookups := [];
      storeAtSend := [];
    }

    /** The requester stored for the session, if any. */
    function Resolve(session: SessionId): (r: Option<Address>)
      reads this
      ensures r.Some? <==> session in storage
      ensures r.Some? ==> storage[session] == r.value
    {
      if session in storage then Some(storage[session]) else None
    }

    /** Stores sender as the session's requester, overwriting any earlier one. */
    method Record(session: SessionId, sender: Address)
      requires Valid()
      modifies this
      ensures Valid()
      ensures storage == old(storage)[session := sender]
      ensures outbox == old(outbox) && storeAtSend == old(storeAtSend) && lookups == old(lookups)
    {
      storage := storage[session := sender];
    }

    method Send(to: Address, payload: Payload)
      requires Valid() && Permitted(Sent(to, payload), storage)
      modifies this
      ensures Valid()
      ensures outbox == old(outbox) + [Sent(to, payload)]
      ensures storeAtSend == old(storeAtSend) + [storage]
      ensures storage == old(storage) && lookups == old(lookups)
    {
      outbox := outbox + [Sent(to, payload)];
      storeAtSend := storeAtSend + [storage];
    }

    /** Handles a chat message from sender in the given session. */
    method HandleMessage(session: SessionId, sender: Address, msg: ChatMessage)
      requires Valid()
      modifies this
      ensures Valid()
      ensures storage == old(storage)[session := sender]
      ensures outbox == old(outbox) + HandleMessageSends(sender, msg)
      ensures lookups == old(lookups)
      ensures |storeAtSend| == |outbox| && storeAtSend[..|old(outbox)|] == old(storeAtSend)
      // record-before-send: at every send the store already maps the session to sender
      ensures forall k :: |old(outbox)| <= k < |outbox| ==> storeAtSend[k] == storage
    {
      Record(session, sender);
      assert storage[session] == sender;
      Send(sender, Ack(msg.msgId));
      for i := 0 to |msg.content|
        invariant Valid()
        invariant storage == old(storage)[session := sender]
        invariant outbox == old(outbox) + [Sent(sender, Ack(msg.msgId))] + Prompts(Texts(msg.content[..i]))
        invariant lookups == old(lookups)
        invariant storeAtSend[..|old(outbox)|] == old(storeAtSend)
        invariant forall k :: |old(outbox)| <= k < |outbox| ==> storeAtSend[k] == storage
      {
        var item := msg.content[i];
        match item {
          case StartSessionContent =>
          case TextContent(text) =>
            Record(session, sender);
            Send(AiAgentAddress, Prompt(text, PriceRequestSchema));
          case _ =>
        }
        assert msg.content[..i + 1] == msg.content[..i] + [item];
        TextsAppend(msg.content[..i], [item]);
        assert Prompts(Texts(msg.content[..i + 1])) == Prompts(Texts(msg.content[..i])) + Prompts(Texts([item]));
      }
      assert msg.content[..|msg.content|] == msg.content;
    }

    /** Handles the structured output for the given session; replyId is the id of the
        chat message it sends, if it sends one. */
    method HandleStructuredOutputResponse(session: SessionId, msg: StructuredOutputResponse,
                                          lookup: PriceRequest -> LookupOutcome, replyId: MsgId)
      returns (r: Reply)
      requires Valid()
      modifies this
      ensures Valid()
      ensures r == Respond(old(Resolve(session)), msg, lookup).reply
      ensures outbox == old(outbox) + ReplySends(r, replyId)
      ensures lookups == old(lookups) + Queried(Respond(old(Resolve(session)), msg, lookup))
      ensures storage == old(storage)
      ensures storeAtSend[..|old(outbox)|] == old(storeAtSend)
    {
      var sessionSender := Resolve(session);
      if sessionSender.None? {
        return Drop;
      }
      var requester := sessionSender.value;
      assert requester in storage.Values by { assert storage[session] == requester; }

      if Contains(msg.rendered, Sentinel) {
        Send(requester, Chat(CreateTextChat(PriceApology, false, replyId)));
        return Deliver(requester, PriceApology);
      }

      if msg.parsed.None? {
        return ParseFailure;
      }
      var request := msg.parsed.value;
      lookups := lookups + [request];
      var outcome := lookup(request);
      if outcome.Raised? {
        Send(requester, Chat(CreateTextChat(RequestApology, false, replyId)));
        return Deliver(requester, RequestApology);
      }

      var priceInfo := outcome.s;
      if Contains(priceInfo, ErrorMarker) {
        Send(requester, Chat(CreateTextChat(priceInfo, false, replyId)));
        return Deliver(requester, priceInfo);
      }

      var chatMessage := CreateTextChat(priceInfo, false, replyId);
      Send(requester, Chat(chatMessage));
      r := Deliver(requester, priceInfo);
    }
  }
}
