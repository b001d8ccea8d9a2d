/**
 * Streaming replies (simple_chatbot/main.py:257-263, 281-286). The provider
 * delivers a finite sequence of events and then either ends or raises a
 * ClientError. The generator yields the text of each `contentBlockDelta`
 * event and, on a ClientError, one `None`; the page accumulates every
 * non-empty chunk into `full_response`, re-rendering the buffer followed by a
 * cursor glyph after each one.
 */
module Streaming {

  import opened Wrappers

  /** One event of the stream: a text delta, or any other event kind (message start, block stop, metadata, ...). */
  datatype StreamEvent = ContentBlockDelta(text: string) | OtherEvent(kind: string)

  /**
   * What the provider delivers: the events received, in order, then either the
   * end of the stream (`failure == None`) or a ClientError with its diagnostic.
   * A failure of the initial call is a stream with no events.
   */
  datatype EventStream = EventStream(events: seq<StreamEvent>, failure: Option<string>)

  /** The glyph drawn after the partial buffer while the stream is running. */
  const Cursor: char := '▌'

  /** The text an event contributes: its delta text, or nothing. */
  function DeltaOf(e: StreamEvent): string
  {
    match e
    case ContentBlockDelta(t) => t
    case OtherEvent(_) => ""
  }

  /** The in-order concatenation of the delta texts of `events`. */
  function DeltaText(events: seq<StreamEvent>): string
  {
    if events == [] then "" else DeltaText(events[..|events| - 1]) + DeltaOf(events[|events| - 1])
  }

  /** What the generator yields for one event: `Some(text)` for a delta, nothing otherwise. */
  function YieldOf(e: StreamEvent): seq<Option<string>>
  {
    match e
    case ContentBlockDelta(t) => [Some(t)]
    case OtherEvent(_) => []
  }

  /** What the generator yields for `events`, in order. */
  function DeltaChunks(events: seq<StreamEvent>): seq<Option<string>>
  {
    if events == [] then [] else DeltaChunks(events[..|events| - 1]) + YieldOf(events[|events| - 1])
  }

  /** Everything the generator yields: the delta chunks, then one `None` if the stream failed. */
  function Chunks(s: EventStream): seq<Option<string>>
  {
    DeltaChunks(s.events) + (if s.failure.Some? then [None] else [])
  }

  /** The concatenation of the chunks the consumer keeps (`None` and empty chunks add nothing). */
  function Joined(chunks: seq<Option<string>>): string
  {
    if chunks == [] then "" else Joined(chunks[..|chunks| - 1]) + chunks[|chunks| - 1].GetOr("")
  }

  /** `frame` is the page's rendering of a non-empty prefix of `full` followed by the cursor. */
  predicate PartialFrame(frame: string, full: string)
  {
    |frame| > 1 && frame[|frame| - 1] == Cursor && frame[..|frame| - 1] <= full
  }

  /** Delta texts of a split stream are the delta texts of its parts, in order. */
  lemma {:induction false} DeltaTextAppend(a: seq<StreamEvent>, b: seq<StreamEvent>)
    ensures DeltaText(a + b) == DeltaText(a) + DeltaText(b)
  {
    if b != [] {
      var b' := b[..|b| - 1];
      assert (a + b)[..|a + b| - 1] == a + b';
      DeltaTextAppend(a, b');
    } else {
      assert a + b == a;
    }
  }

  /** An event other than a delta, wherever it arrives, contributes nothing. */
  lemma OtherEventIgnored(a: seq<StreamEvent>, kind: string, b: seq<StreamEvent>)
    ensures DeltaText(a + [OtherEvent(kind)] + b) == DeltaText(a + b)
  {
    DeltaTextAppend(a + [OtherEvent(kind)], b);
    DeltaTextAppend(a, [OtherEvent(kind)]);
    DeltaTextAppend(a, b);
    assert [OtherEvent(kind)][..0] == [];
  }

  /** Keeping the generator's chunks rebuilds exactly the delta texts, whether or not the stream failed. */
  lemma {:induction false} JoinedChunks(s: EventStream)
    ensures Joined(Chunks(s)) == DeltaText(s.events)
  {
    JoinedDeltaChunks(s.events);
    if s.failure.Some? {
      var cs := DeltaChunks(s.events);
      assert (cs + [None])[..|cs|] == cs;
    } else {
      assert Chunks(s) == DeltaChunks(s.events);
    }
  }

  lemma {:induction false} JoinedDeltaChunks(events: seq<StreamEvent>)
    ensures Joined(DeltaChunks(events)) == DeltaText(events)
  {
    if events != [] {
      var init := events[..|events| - 1];
      JoinedDeltaChunks(init);
      match events[|events| - 1]
      case ContentBlockDelta(t) =>
        var cs := DeltaChunks(init);
        assert (cs + [Some(t)])[..|cs|] == cs;
      case OtherEvent(_) =>
        assert DeltaChunks(init) + [] == DeltaChunks(init);
        assert DeltaText(init) + "" == DeltaText(init);
    }
  }

  /**
   * The consumer loop: each truthy chunk is appended to the buffer and the
   * buffer is shown with the cursor; `frames` lists these in-loop renders, in
   * order (the closing render of the buffer after the loop belongs to the turn).
   * The final buffer is the concatenation of the kept chunks and every frame
   * shows a prefix of it.
   */
  method ConsumeChunks(chunks: seq<Option<string>>) returns (full: string, frames: seq<string>)
    ensures full == Joined(chunks)
    ensures forall k :: 0 <= k < |frames| ==> PartialFrame(frames[k], full)
    ensures frames != [] ==> frames[|frames| - 1] == full + [Cursor]
    ensures frames == [] <==> full == ""
  {
    full, frames := "", [];
    for i := 0 to |chunks|
      invariant full == Joined(chunks[..i])
      invariant forall k :: 0 <= k < |frames| ==> PartialFrame(frames[k], full)
      invariant frames != [] ==> frames[|frames| - 1] == full + [Cursor]
      invariant frames == [] <==> full == ""
    {
      assert chunks[..i + 1][..i] == chunks[..i];
      match chunks[i]
      case Some(chunk) =>
        if chunk != "" {
          var before := full;
          full := full + chunk;
          assert before <= full;
          frames := frames + [full + [Cursor]];
          assert (full + [Cursor])[..|full + [Cursor]| - 1] == full;
        }
      case None =>
    }
    assert chunks[..|chunks|] == chunks;
  }

  /** Chunks `["Hel", "lo"]` assemble to "Hello". */
  lemma AssembleExample()
    ensures DeltaText([ContentBlockDelta("Hel"), ContentBlockDelta("lo")]) == "Hello"
  {
  }
}
