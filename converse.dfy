/**
 * The non-streaming reply of the Converse API and how the chat page reads its
 * text (simple_chatbot/main.py:232-244). Every level of the reply may lack the
 * key the page looks for, so each level is an optional field; the call itself
 * either returns such a reply or raises a ClientError.
 */
module Converse {

  import opened Wrappers

  datatype ContentBlock = ContentBlock(text: string)

  /** `response["output"]["message"]`: its `content` list may be absent. */
  datatype ReplyMessage = ReplyMessage(content: Option<seq<ContentBlock>>)

  /** `response["output"]`: its `message` may be absent. */
  datatype Output = Output(message: Option<ReplyMessage>)

  /** The whole reply: its `output` may be absent. */
  datatype ConverseResponse = ConverseResponse(output: Option<Output>)

  /** What a provider call delivers: a value, or a ClientError carrying the provider's diagnostic. */
  datatype CallResult<T> = Returned(value: T) | ClientError(diagnostic: string)

  /** The three outcomes the page tells apart (each failure with its own error notice). */
  datatype Reply = ReplyText(text: string) | UnexpectedStructure | CallFailed(diagnostic: string)

  /** `output`, `output.message` and a non-empty `message.content` are all present. */
  predicate HasContent(r: ConverseResponse)
  {
    r.output.Some? && r.output.value.message.Some? &&
    r.output.value.message.value.content.Some? &&
    |r.output.value.message.value.content.value| > 0
  }

  /** The reply a well-formed response carrying text `t` has. */
  function WellFormed(t: string): (r: ConverseResponse)
    ensures HasContent(r)
  {
    ConverseResponse(Some(Output(Some(ReplyMessage(Some([ContentBlock(t)]))))))
  }

  /** The extraction inside `generate_claude_response`: the text of the first content block, or which failure. */
  function ExtractReply(call: CallResult<ConverseResponse>): Reply
  {
    match call
    case ClientError(diagnostic) => CallFailed(diagnostic)
    case Returned(r) =>
      if HasContent(r) then ReplyText(r.output.value.message.value.content.value[0].text)
      else UnexpectedStructure
  }

  /** What `generate_claude_response` returns: the text, or None for both failures. */
  function ReplyValue(reply: Reply): (v: Option<string>)
    ensures v.Some? <==> reply.ReplyText?
  {
    if reply.ReplyText? then Some(reply.text) else None
  }

  /**
   * Extraction yields text `t` exactly when the output, its message and a
   * non-empty content list are present and the first block's text is `t`.
   */
  lemma ExtractTextIff(call: CallResult<ConverseResponse>, t: string)
    ensures ExtractReply(call) == ReplyText(t) <==>
      call.Returned? && HasContent(call.value) &&
      call.value.output.value.message.value.content.value[0].text == t
  {
  }

  /** A malformed reply is reported as unexpected structure, never as a provider failure. */
  lemma ExtractMalformed(r: ConverseResponse)
    requires !HasContent(r)
    ensures ExtractReply(Returned(r)) == UnexpectedStructure
    ensures ReplyValue(ExtractReply(Returned(r))) == None
  {
  }

  /** A ClientError is reported with its diagnostic and yields no text. */
  lemma ExtractClientError(diagnostic: string)
    ensures ExtractReply(ClientError(diagnostic)) == CallFailed(diagnostic)
    ensures ReplyValue(ExtractReply(ClientError(diagnostic))) == None
  {
  }

  /** Reading back a well-formed reply gives the text it was built with. */
  lemma ExtractWellFormed(t: string)
    ensures ExtractReply(Returned(WellFormed(t))) == ReplyText(t)
    ensures ReplyValue(ExtractReply(Returned(WellFormed(t)))) == Some(t)
  {
  }
}
