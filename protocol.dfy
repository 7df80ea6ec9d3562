/** Runs of the chat agent over several handler calls, each handler one atomic step on
    a fresh agent: what the store holds and what is sent across a conversation. */
module Protocol {
  import opened Chat

  /** Two chat messages on one session: the later sender is the stored requester, and
      any reply to the session's structured output goes to it. */
  method LastWriterWins(session: SessionId, first: Address, second: Address,
                        m1: ChatMessage, m2: ChatMessage, output: StructuredOutputResponse,
                        lookup: PriceRequest -> LookupOutcome, replyId: MsgId)
    returns (stored: Option<Address>, reply: Reply)
    ensures stored == Some(second)
    ensures reply != Drop
    ensures reply.Deliver? ==> reply.to == second
  {
    var agent := new Agent();
    agent.HandleMessage(session, first, m1);
    agent.HandleMessage(session, second, m2);
    stored := agent.Resolve(session);
    reply := agent.HandleStructuredOutputResponse(session, output, lookup, replyId);
  }

  /** Messages on one session leave another session's requester alone. */
  method SessionsIndependent(s: SessionId, t: SessionId, a: Address, b: Address,
                             m1: ChatMessage, m2: ChatMessage)
    returns (atS: Option<Address>, atT: Option<Address>)
    requires s != t
    ensures atS == Some(a) && atT == Some(b)
  {
    var agent := new Agent();
    agent.HandleMessage(s, a, m1);
    agent.HandleMessage(t, b, m2);
    agent.HandleMessage(t, b, m1);
    atS := agent.Resolve(s);
    atT := agent.Resolve(t);
  }

  /** A structured output for a session that no chat message recorded sends nothing and
      does not call the lookup. */
  method ResolveMissIsSilent(recorded: SessionId, requester: Address, chat: ChatMessage,
                             session: SessionId, output: StructuredOutputResponse,
                             lookup: PriceRequest -> LookupOutcome, replyId: MsgId)
    returns (sent: seq<Sent>, reply: Reply)
    requires session != recorded
    ensures reply == Drop
    ensures sent == HandleMessageSends(requester, chat)
  {
    var agent := new Agent();
    agent.HandleMessage(recorded, requester, chat);
    reply := agent.HandleStructuredOutputResponse(session, output, lookup, replyId);
    sent := agent.outbox;
  }

  /** The whole exchange: a chat that opens a session and asks one question, then the
      structured output that parses into a request the lookup answers. The requester
      gets the acknowledgement and then the lookup's answer; the AI agent gets the question. */
  method FullExchange(session: SessionId, requester: Address, question: string, chatId: MsgId,
                      output: StructuredOutputResponse, lookup: PriceRequest -> LookupOutcome,
                      answer: string, replyId: MsgId)
    returns (sent: seq<Sent>)
    requires !Contains(output.rendered, Sentinel) && output.parsed.Some?
    requires lookup(output.parsed.value) == Returned(answer)
    ensures sent == [Sent(requester, Ack(chatId)), Forward(question),
                     Sent(requester, Chat(CreateTextChat(answer, false, replyId)))]
  {
    var agent := new Agent();
    var content := [StartSessionContent, TextContent(question)];
    assert Texts(content) == [question] by { assert content[1..] == [TextContent(question)]; }
    agent.HandleMessage(session, requester, ChatMessage(chatId, content));
    var reply := agent.HandleStructuredOutputResponse(session, output, lookup, replyId);
    sent := agent.outbox;
  }
}
