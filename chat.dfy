/**
 * The chat page's session state (`st.session_state`) and the transitions the
 * page applies to it: the settings callbacks, clearing the history, and one
 * user turn with its request to the provider (simple_chatbot/main.py:83-139,
 * 204-205, 213-299). Widget values arrive as method parameters; the provider's
 * answer arrives as a `ProviderAnswer` value.
 */
module Chat {

  import opened Wrappers
  import opened Catalog
  import opened Conversation
  import opened Converse
  import opened Streaming

  /** What `converse` / `converse_stream` are called with: model id, messages, system prompt, temperature, top_k. */
  datatype Request = Request(modelId: string, messages: seq<Message>, system: string, temperature: real, topK: int)

  /**
   * The provider's answer to one turn. `Whole` and `WholeRaised` answer
   * `converse`, `Streamed` and `StreamRaised` answer `converse_stream`; which
   * of the two calls is made is the choice of the "Use streaming responses"
   * checkbox. The `...Raised` variants stand for an exception other than
   * ClientError (a connection or read timeout, say), which nothing on the page
   * catches: for a stream, it arrives after the events `received`.
   */
  datatype ProviderAnswer =
    | Whole(call: CallResult<ConverseResponse>)
    | Streamed(stream: EventStream)
    | WholeRaised(diagnostic: string)
    | StreamRaised(received: seq<StreamEvent>, diagnostic: string)
  {
    /** The streaming call was made. */
    predicate IsStreaming()
    {
      Streamed? || StreamRaised?
    }

    /** An uncaught exception ends the script run before the turn completes. */
    predicate Escaped()
    {
      WholeRaised? || StreamRaised?
    }
  }

  /** The settings part of the session state: every field except the message history. */
  datatype Settings = Settings(
    systemPrompt: string,
    lastCustomPrompt: string,
    selectedModel: string,
    temperature: real,
    topK: int,
    promptSelection: string)

  /** `full_response` on the non-streaming path: the reply text when it is truthy, "" otherwise. */
  function ReplyOrEmpty(reply: Reply): (text: string)
    ensures text != "" ==> reply == ReplyText(text)
    ensures reply.ReplyText? ==> text == reply.text
  {
    if reply.ReplyText? then reply.text else ""
  }

  class Session {
    var messages: seq<Message>
    var systemPrompt: string
    var lastCustomPrompt: string
    var selectedModel: string
    /** Compared only for equality; no floating-point behaviour is modelled. */
    var temperature: real
    var topK: int
    /** The value of the preset selectbox (its widget key is a session-state entry). */
    var promptSelection: string

    ghost function Config(): Settings
      reads this
    {
      Settings(systemPrompt, lastCustomPrompt, selectedModel, temperature, topK, promptSelection)
    }

    /**
     * The session invariant: the model and the preset are keys of their tables,
     * and while "Custom" is selected the system prompt is the remembered custom text.
     */
    ghost predicate Valid()
      reads this
    {
      selectedModel in ModelOptions &&
      promptSelection in SystemPrompts &&
      (promptSelection == Custom ==> systemPrompt == lastCustomPrompt)
    }

    /** The first run of the page: every entry at its initial value; the preset selectbox starts at its first entry. */
    constructor ()
      ensures Valid()
      ensures messages == []
      ensures Config() == Settings(PresetText(DefaultAssistant), "", DefaultModel, 0.5, 100, DefaultAssistant)
    {
      systemPrompt := SystemPrompts[DefaultAssistant];
      lastCustomPrompt := "";
      selectedModel := DefaultModel;
      temperature := 0.5;
      topK := 100;
      promptSelection := DefaultAssistant;
      messages := [];
    }

    /** The model selectbox changed; its options are the keys of the model table. */
    method UpdateSelectedModel(newModel: string)
      requires Valid() && newModel in ModelOptions
      modifies this
      ensures Valid() && messages == old(messages)
      ensures Config() == old(Config()).(selectedModel := newModel)
    {
      if newModel != selectedModel {
        selectedModel := newModel;
      }
    }

    /**
     * The system-prompt text area changed. Its callback is attached only while
     * "Custom" is shown, but a pending edit is delivered in the same rerun as a
     * change of the preset selectbox, after the selection is stored, so the
     * model admits any selection. Under "Custom" the new text is also
     * remembered as the custom text; the invariant makes the "only if it
     * differs" guard invisible in the resulting state.
     */
    method UpdateSystemPrompt(newPrompt: string)
      requires Valid()
      modifies this
      ensures Valid() && messages == old(messages)
      ensures Config() == old(Config()).(
        systemPrompt := newPrompt,
        lastCustomPrompt := if promptSelection == Custom then newPrompt else old(lastCustomPrompt))
    {
      if newPrompt != systemPrompt {
        systemPrompt := newPrompt;
        if promptSelection == Custom {
          lastCustomPrompt := newPrompt;
        }
      }
    }

    /**
     * The preset selectbox changed to `selected` (the widget stores it before the
     * callback runs): "Custom" restores the remembered custom text, any other
     * preset installs its own text; the remembered custom text is kept.
     */
    method UpdatePromptSelection(selected: string)
      requires Valid() && selected in SystemPrompts
      modifies this
      ensures Valid() && messages == old(messages)
      ensures Config() == old(Config()).(
        promptSelection := selected,
        systemPrompt := if selected == Custom then old(lastCustomPrompt) else PresetText(selected))
    {
      promptSelection := selected;
      if selected == Custom {
        systemPrompt := lastCustomPrompt;
      } else {
        systemPrompt := SystemPrompts[selected];
      }
    }

    /** The temperature slider changed; the value is stored without any range check. */
    method UpdateTemperature(newTemp: real)
      requires Valid()
      modifies this
      ensures Valid() && messages == old(messages)
      ensures Config() == old(Config()).(temperature := newTemp)
    {
      if newTemp != temperature {
        temperature := newTemp;
      }
    }

    /** The top-k slider changed; the value is stored without any range check. */
    method UpdateTopK(newTopK: int)
      requires Valid()
      modifies this
      ensures Valid() && messages == old(messages)
      ensures Config() == old(Config()).(topK := newTopK)
    {
      if newTopK != topK {
        topK := newTopK;
      }
    }

    /** "Clear Chat History": the history is emptied, every setting kept. */
    method ClearChatHistory()
      requires Valid()
      modifies this
      ensures Valid() && messages == [] && Config() == old(Config())
    {
      messages := [];
    }

    /**
     * `generate_claude_response`: the history is collapsed to alternate roles and
     * sent with the current settings; the reply's text, or None, is returned.
     */
    method GenerateResponse(history: seq<Message>, call: CallResult<ConverseResponse>)
      returns (request: Request, response: Option<string>)
      requires Valid()
      ensures request == Request(ModelId(selectedModel), RunHeads(history), systemPrompt, temperature, topK)
      ensures Alternating(request.messages)
      ensures history != [] ==> request.messages != [] && request.messages[0] == history[0]
      ensures response.Some? <==> call.Returned? && HasContent(call.value)
      ensures response.Some? ==> response.value == call.value.output.value.message.value.content.value[0].text
    {
      var formatted := FormatMessages(history);
      request := Request(ModelId(selectedModel), formatted, systemPrompt, temperature, topK);
      response := ReplyValue(ExtractReply(call));
    }

    /**
     * `generate_claude_streaming_response`: the history is sent as it is, not
     * collapsed; the chunks yielded are the delta texts, then `None` on a ClientError.
     */
    method GenerateStreamingResponse(history: seq<Message>, s: EventStream)
      returns (request: Request, chunks: seq<Option<string>>)
      requires Valid()
      ensures request == Request(ModelId(selectedModel), history, systemPrompt, temperature, topK)
      ensures chunks == Chunks(s)
      ensures Joined(chunks) == DeltaText(s.events)
    {
      request := Request(ModelId(selectedModel), history, systemPrompt, temperature, topK);
      chunks := Chunks(s);
      JoinedChunks(s);
    }

    /**
     * One user turn for a submitted (non-empty) prompt: the user message is
     * appended, the request is sent, the reply is assembled into `full`, and
     * one assistant message with text `full` is appended exactly when `full`
     * is non-empty and no uncaught exception ended the run. On the streaming
     * path the text received before a ClientError is kept, while the text
     * received before any other exception is lost with the run. `frames` are
     * the stream's renderings: the partial buffer with the cursor after each
     * kept chunk, then, once the stream completes, the final buffer alone.
     */
    method SubmitPrompt(prompt: string, answer: ProviderAnswer)
      returns (request: Request, full: string, frames: seq<string>)
      requires Valid() && prompt != ""
      modifies this
      ensures Valid() && Config() == old(Config())
      ensures var sent := old(messages) + [Message(User, prompt)];
        request == Request(ModelId(selectedModel),
                           if answer.IsStreaming() then sent else RunHeads(sent),
                           systemPrompt, temperature, topK)
      ensures answer.Streamed? ==> full == DeltaText(answer.stream.events)
      ensures answer.StreamRaised? ==> full == DeltaText(answer.received)
      ensures answer.Whole? ==> full == ReplyOrEmpty(ExtractReply(answer.call))
      ensures answer.WholeRaised? ==> full == ""
      ensures messages == old(messages) + [Message(User, prompt)] +
        (if answer.Escaped() || full == "" then [] else [Message(Assistant, full)])
      ensures !answer.IsStreaming() ==> frames == []
      ensures answer.Streamed? ==> frames != [] && frames[|frames| - 1] == full
      ensures answer.StreamRaised? ==> (frames == [] <==> full == "")
      ensures answer.StreamRaised? && frames != [] ==> frames[|frames| - 1] == full + [Cursor]
      ensures var partial := if answer.Streamed? then |frames| - 1 else |frames|;
        forall k :: 0 <= k < partial ==> PartialFrame(frames[k], full)
    {
      messages := messages + [Message(User, prompt)];
      var claudeMessages := messages;
      match answer {
        case Streamed(s) =>
          var chunks;
          request, chunks := GenerateStreamingResponse(claudeMessages, s);
          full, frames := ConsumeChunks(chunks);
          frames := frames + [full];
        case StreamRaised(received, _) =>
          var chunks;
          request, chunks := GenerateStreamingResponse(claudeMessages, EventStream(received, None));
          full, frames := ConsumeChunks(chunks);
          return;
        case Whole(call) =>
          var response;
          request, response := GenerateResponse(claudeMessages, call);
          full := if response.Some? && response.value != "" then response.value else "";
          frames := [];
        case WholeRaised(_) =>
          var formatted := FormatMessages(claudeMessages);
          request := Request(ModelId(selectedModel), formatted, systemPrompt, temperature, topK);
          full, frames := "", [];
          return;
      }
      if full != "" {
        messages := messages + [Message(Assistant, full)];
      } else {
        assert messages + [] == messages;
      }
    }
  }
}
