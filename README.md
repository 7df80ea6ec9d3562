# Session correlation and reply routing of the stock-price chat agent

This project models the chat side of a message-driven stock-price agent. The agent talks
to end users through a chat protocol and to an AI agent that turns free text into a
structured price request. The two exchanges are tied together by the transport's session.

- **Chat message** (`handle_message`). The sender is recorded as the session's requester
  in the agent's storage, and the message is acknowledged to the sender. Each text item
  of the content is then forwarded, in content order, as a structured-extraction prompt to
  the fixed AI agent address; the requester is recorded again before every forward.
  Start-session items and every other kind of item send nothing.
- **Structured output** (`handle_structured_output_response`). The session's requester is
  looked up. With none stored, the output is dropped. Otherwise exactly one text chat goes
  to the requester: a fixed apology when the output's string form contains `<UNKNOWN>`; a
  second fixed apology when the price lookup raises; otherwise the lookup's string as it
  is, whether or not it contains `Error`. An output that does not parse as a price request
  sends nothing.
- **`create_text_chat`** builds a chat message holding one text item, followed by an
  end-session item when asked.

In the model the storage is a `map` field of the class `Chat.Agent`, sending is an append
to its `outbox` sequence, and the price lookup is a function parameter whose outcome is
`Returned(s)` or `Raised`. Two ghost fields record what is otherwise invisible: the
requests passed to the lookup (`lookups`) and the storage as it was at each send
(`storeAtSend`). The agent's invariant `Valid()` says that every prompt went to the AI
agent, every acknowledgement and chat went to an address the store held as a requester at
that moment, and no chat ended the session. `Chat.Respond` is the decision ladder of the
structured-output handler as a pure function; the handler method is proved to follow it.
The module `Protocol` runs several handler calls on a fresh agent, one atomic step each.

## Model

| member | source | states |
|---|---|---|
| `Chat.Contains` | chat.py:82 | `Contains(s, sub)` holds exactly when `sub` occurs in `s` at some position: Python's `sub in s`, used for the sentinel (line 82) and the error marker (line 101) |
| `Chat.CreateTextChat` | chat.py:23-27 | the message has the given id; its first item is the text; it has two items and holds an end-session item exactly when `endSession` is set, one item otherwise; its only text is the given one |
| `Chat.TextsAppend` | chat.py:52-56 | the texts of a concatenated content list are the texts of the first part followed by those of the second, so the forwards keep content order |
| `Chat.TextsMembership` | chat.py:56-65 | a string is among the forwarded texts exactly when the content holds a text item with that string |
| `Chat.TextsEmpty` | chat.py:52-67 | nothing is forwarded exactly when no item is a text item: start-session and other items send nothing |
| `Chat.HandleMessageSends` | chat.py:47-65 | what one chat message causes to be sent: 1 plus the number of text items; first the acknowledgement of `msg.msgId` to the sender, then one prompt per text item, to the AI agent, with the item's text and the price-request schema |
| `Chat.Respond` | chat.py:75-106 | no stored requester: nothing sent, no lookup; sentinel in the output: the first apology, no lookup; unparsable output: nothing sent; the lookup is called exactly when a requester is stored, the sentinel is absent and the output parses, and with the parsed request; a raised lookup gives the second apology; a returned string is sent unchanged; every reply goes to the stored requester |
| `Chat.Agent.Resolve` | chat.py:77-78 | the stored requester of the session, and none exactly when the session has no entry |
| `Chat.Agent.Record` | chat.py:46 | the session now maps to the sender, overwriting any earlier entry; other sessions, the outbox and the lookup log are unchanged |
| `Chat.Agent.Send` | chat.py:47-50 | one message is appended to the outbox, with the storage as it is now; the storage is unchanged |
| `Chat.Agent.HandleMessage` | chat.py:43-67 | the storage is the old one with the session mapped to the sender; the outbox grows by exactly `HandleMessageSends(sender, msg)`; the lookup is not called; at every one of these sends the store already maps the session to the sender; `Valid()` is kept |
| `Chat.Agent.HandleStructuredOutputResponse` | chat.py:75-106 | returns the reply `Respond` chooses for the requester stored at entry; the outbox grows by that reply's one text chat (no end-session item), or by nothing; the lookup log grows by the one request `Respond` queries, or by nothing; the storage is unchanged; `Valid()` is kept |
| `Protocol.LastWriterWins` | chat.py:46-58 | after chat messages from two senders on one session, the later sender is the stored requester, and a reply to the session's structured output is never dropped and goes to that sender |
| `Protocol.SessionsIndependent` | chat.py:46 | chat messages on one session leave another session's stored requester unchanged |
| `Protocol.ResolveMissIsSilent` | chat.py:77-80 | a structured output for a session no chat message recorded is dropped; the only sends the agent has made are those of the chat message |
| `Protocol.FullExchange` | chat.py:43-106 | a chat opening a session with one question, then a parsable output without the sentinel that the lookup answers: the sends are the acknowledgement to the requester, the question to the AI agent, and a text chat of the answer to the requester, in that order |

## Left out

- `handle_ack` (chat.py:70-72) only logs, so it has no counterpart.
- The check that `AI_AGENT_ADDRESS` is not empty (chat.py:19-20) can never fire for the constant it tests; the model has the constant only.
- Logging, timestamps (`datetime.now`) and `uuid4` message ids: ids are values the caller passes in (`replyId`, the chat message's `msgId`), timestamps are not modelled.
- `str(msg.output)` and `PriceRequest.parse_obj(msg.output)` are library behaviour. The structured-output response carries both views of its output: `rendered` (the string form) and `parsed` (`None` where parsing raises). The model does not relate the two.
- A failed parse raises out of the handler at the source; the model returns `ParseFailure` after sending nothing and changing nothing. What the messaging framework then does with the exception is not modelled.
- `PriceRequest.schema()` (chat.py:63) is the single value `PriceRequestSchema`.
- `get_price_data` (price_agent.py), with its market-data client, default start date, upper-cased ticker, `.env` key loading and number formatting, is the `lookup` parameter only. Its own error strings are ordinary `Returned` strings. Within one handler call the lookup is a function of the request; the model does not capture a lookup that answers differently on repeated calls, but each handler calls it at most once.
- agent.py (process start-up, the rate-limited price protocol and the health check) is not part of this model.
- Asynchrony: each handler runs as one atomic step. Interleaving of handlers at their `await` points is not modelled.
- The storage is never cleared: the model adds and overwrites entries and never removes them, as the source does.
