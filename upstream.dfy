/**
 * What the core receives from the services it calls over HTTP or IPC.
 * Every call is replaced by its outcome, supplied by the caller of the model:
 * either the parsed response body or the error the call raised (a transport
 * error, a timeout or a non-2xx status).
 */
module Upstream {
  import opened JsValues

  /** The result of one awaited call: the response data, or the raised error with its HTTP status if it has one. */
  datatype Outcome<+T> = Ok(data: T) | Err(message: string, status: Option<int>)

  /** The body of a trade search response: `{ id, total, result }`; any of them may be missing. */
  datatype TradeSearchData = TradeSearchData(id: Option<string>, total: Option<int>, result: Option<seq<Json>>)

  /** The body of a chat-backend response: `{ text | response, conversationId?, messageId?, model? }`. */
  datatype ChatReply = ChatReply(
    text: Option<string>,
    response: Option<string>,
    conversationId: Option<string>,
    messageId: Option<string>,
    model: Option<string>)

  /** `data.text || data.response`: the reply's text when it is non-empty, else its `response` field. */
  function ReplyText(d: ChatReply): (r: Option<string>)
    ensures TruthyStr(d.text) ==> r == d.text
    ensures !TruthyStr(d.text) ==> r == d.response
  {
    OrStr(d.text, d.response)
  }
}
