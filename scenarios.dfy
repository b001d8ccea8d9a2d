/**
 * Concrete runs of the session model: the example behaviours of the chat page,
 * each as a method that drives a fresh `Session` and states the outcome.
 */
module Scenarios {

  import opened Wrappers
  import opened Catalog
  import opened Conversation
  import opened Converse
  import opened Streaming
  import opened Chat

  /** Text typed under "Custom" survives a switch to any preset and back. */
  method CustomPromptRoundTrip(s: Session, t: string, preset: string)
    requires s.Valid() && s.promptSelection == Custom && preset in SystemPrompts
    modifies s
    ensures s.Valid() && s.promptSelection == Custom
    ensures s.systemPrompt == t && s.lastCustomPrompt == t
    ensures s.messages == old(s.messages)
  {
    s.UpdateSystemPrompt(t);
    s.UpdatePromptSelection(preset);
    s.UpdatePromptSelection(Custom);
  }

  /** From a new session: select "Custom", type `t`, select "Default Assistant", select "Custom" again. */
  method FreshCustomRoundTrip(t: string) returns (prompt: string, presetShown: string)
    ensures prompt == t
    ensures presetShown == PresetText(DefaultAssistant)
  {
    var s := new Session();
    s.UpdatePromptSelection(Custom);
    s.UpdateSystemPrompt(t);
    s.UpdatePromptSelection(DefaultAssistant);
    presetShown := s.systemPrompt;
    s.UpdatePromptSelection(Custom);
    prompt := s.systemPrompt;
  }

  /** Stream "Hel", "lo", then a non-delta event: one assistant message "Hello" is stored. */
  method StreamedTurn() returns (history: seq<Message>, full: string)
    ensures full == "Hello"
    ensures history == [Message(User, "Hi"), Message(Assistant, "Hello")]
  {
    var s := new Session();
    var deltas := [ContentBlockDelta("Hel"), ContentBlockDelta("lo")];
    var events := deltas + [OtherEvent("messageStop")] + [];
    AssembleExample();
    OtherEventIgnored(deltas, "messageStop", []);
    assert deltas + [] == deltas;
    var request, frames;
    request, full, frames := s.SubmitPrompt("Hi", Streamed(EventStream(events, None)));
    history := s.messages;
  }

  /** Stream "Par", then a ClientError: the partial text is still stored as the assistant's reply. */
  method PartialStreamKept() returns (history: seq<Message>)
    ensures history == [Message(User, "Go"), Message(Assistant, "Par")]
  {
    var s := new Session();
    var events := [ContentBlockDelta("Par")];
    assert events[..0] == [];
    assert DeltaText(events) == "Par";
    var request, full, frames := s.SubmitPrompt("Go", Streamed(EventStream(events, Some("ThrottlingException"))));
    history := s.messages;
  }

  /** A stream that ends with no delta stores no assistant message. */
  method EmptyStreamTurn() returns (history: seq<Message>)
    ensures history == [Message(User, "Hi")]
  {
    var s := new Session();
    var request, full, frames := s.SubmitPrompt("Hi", Streamed(EventStream([OtherEvent("messageStop")], None)));
    history := s.messages;
  }

  /** A well-formed non-streaming reply "Hello" stores exactly one assistant message "Hello". */
  method WholeReplyTurn() returns (history: seq<Message>)
    ensures history == [Message(User, "Hi"), Message(Assistant, "Hello")]
  {
    var s := new Session();
    ExtractWellFormed("Hello");
    var request, full, frames := s.SubmitPrompt("Hi", Whole(Returned(WellFormed("Hello"))));
    history := s.messages;
  }

  /** A reply whose message lacks `content` stores nothing beyond the user message. */
  method MalformedReplyTurn() returns (history: seq<Message>, reply: Reply)
    ensures reply == UnexpectedStructure
    ensures history == [Message(User, "Hi")]
  {
    var s := new Session();
    var malformed := ConverseResponse(Some(Output(Some(ReplyMessage(None)))));
    reply := ExtractReply(Returned(malformed));
    var request, full, frames := s.SubmitPrompt("Hi", Whole(Returned(malformed)));
    history := s.messages;
  }

  /**
   * A streaming turn that fails before any delta leaves the user message
   * unanswered; the next streaming turn then sends two user messages in a row,
   * because the streaming path does not collapse the history.
   */
  method FailedTurnThenStreamingTurn() returns (request: Request)
    ensures request.messages == [Message(User, "q1"), Message(User, "q2")]
    ensures !Alternating(request.messages)
  {
    var s := new Session();
    var r1, f1, fr1 := s.SubmitPrompt("q1", Streamed(EventStream([], Some("AccessDeniedException"))));
    var full, frames;
    request, full, frames := s.SubmitPrompt("q2", Streamed(EventStream([ContentBlockDelta("x")], None)));
    assert request.messages[0].role == request.messages[1].role;
  }

  /**
   * A non-streaming turn that fails with a ClientError leaves the user message
   * unanswered; the next non-streaming request then collapses the two user
   * messages to the first, so the newest prompt is not sent.
   */
  method FailedTurnThenWholeTurn() returns (request: Request)
    ensures request.messages == [Message(User, "q1")]
  {
    var s := new Session();
    var r1, f1, fr1 := s.SubmitPrompt("q1", Whole(ClientError("ThrottlingException")));
    var full, frames;
    request, full, frames := s.SubmitPrompt("q2", Whole(Returned(WellFormed("a"))));
    var sent := [Message(User, "q1"), Message(User, "q2")];
    assert sent[..1] == [Message(User, "q1")];
    assert sent[..1][..0] == [];
    assert RunHeads(sent[..1]) == [Message(User, "q1")];
  }

  /**
   * Stream "Par", then an exception other than ClientError: the run ends
   * inside the loop, so only the user message is stored, though "Par" was shown.
   */
  method StreamAbortedDropsPartial() returns (history: seq<Message>, frames: seq<string>)
    ensures history == [Message(User, "Go")]
    ensures frames != [] && frames[|frames| - 1] == "Par" + [Cursor]
  {
    var s := new Session();
    var events := [ContentBlockDelta("Par")];
    assert events[..0] == [];
    assert DeltaText(events) == "Par";
    var request, full;
    request, full, frames := s.SubmitPrompt("Go", StreamRaised(events, "ReadTimeoutError"));
    history := s.messages;
  }

  /** A `converse` call that raises anything but a ClientError stores only the user message. */
  method WholeAbortedTurn() returns (history: seq<Message>)
    ensures history == [Message(User, "Hi")]
  {
    var s := new Session();
    var request, full, frames := s.SubmitPrompt("Hi", WholeRaised("ConnectTimeoutError"));
    history := s.messages;
  }

  /** The temperature callback stores any value it is given, 1.5 included. */
  method TemperatureNotValidated() returns (stored: real)
    ensures stored == 1.5
  {
    var s := new Session();
    s.UpdateTemperature(1.5);
    stored := s.temperature;
  }
}
