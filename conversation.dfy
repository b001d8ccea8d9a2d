/**
 * Chat messages and the request-shaping rule of the non-streaming path
 * (simple_chatbot/main.py:216-219): consecutive messages with the same role are
 * collapsed to the first message of each run before the history is sent.
 */
module Conversation {

  datatype Role = User | Assistant

  /** A stored message `{"role": ..., "content": [{"text": ...}]}`: one role, one text block. */
  datatype Message = Message(role: Role, text: string)

  /** No two neighbouring messages share a role. */
  predicate Alternating(ms: seq<Message>)
  {
    forall k :: 0 < k < |ms| ==> ms[k - 1].role != ms[k].role
  }

  /** Message `i` opens a same-role run: it is the first message, or its role differs from its predecessor's. */
  predicate OpensRun(ms: seq<Message>, i: int)
    requires 0 <= i < |ms|
  {
    i == 0 || ms[i - 1].role != ms[i].role
  }

  /** The first message of every same-role run of `ms`, in input order. */
  function RunHeads(ms: seq<Message>): seq<Message>
  {
    if ms == [] then []
    else RunHeads(ms[..|ms| - 1]) + (if OpensRun(ms, |ms| - 1) then [ms[|ms| - 1]] else [])
  }

  /** The positions at which the same-role runs of `ms` begin, ascending. */
  function RunStarts(ms: seq<Message>): seq<nat>
  {
    if ms == [] then []
    else RunStarts(ms[..|ms| - 1]) + (if OpensRun(ms, |ms| - 1) then [|ms| - 1] else [])
  }

  /** The collapse keeps the first message. */
  lemma {:induction false} RunHeadsKeepsFirst(ms: seq<Message>)
    requires ms != []
    ensures RunHeads(ms) != [] && RunHeads(ms)[0] == ms[0]
  {
    if |ms| > 1 {
      RunHeadsKeepsFirst(ms[..|ms| - 1]);
    }
  }

  /** The last kept message has the role of the last input message. */
  lemma {:induction false} RunHeadsLastRole(ms: seq<Message>)
    requires ms != []
    ensures RunHeads(ms) != []
    ensures RunHeads(ms)[|RunHeads(ms)| - 1].role == ms[|ms| - 1].role
  {
    if |ms| > 1 && !OpensRun(ms, |ms| - 1) {
      RunHeadsLastRole(ms[..|ms| - 1]);
    }
  }

  /** The collapse leaves no two adjacent messages with the same role. */
  lemma {:induction false} RunHeadsAlternate(ms: seq<Message>)
    ensures Alternating(RunHeads(ms))
  {
    if ms != [] {
      var init := ms[..|ms| - 1];
      RunHeadsAlternate(init);
      if init != [] {
        RunHeadsLastRole(init);
      }
    }
  }

  /** Run openers of a history are unchanged by appending a message, except that the new message may open a run. */
  lemma OpensRunInPrefix(ms: seq<Message>, i: int)
    requires 0 <= i < |ms| - 1
    ensures OpensRun(ms[..|ms| - 1], i) == OpensRun(ms, i)
  {
  }

  /** The kept messages are the messages at the run-start positions, one for one. */
  lemma {:induction false} RunHeadsAtRunStarts(ms: seq<Message>)
    ensures |RunHeads(ms)| == |RunStarts(ms)|
    ensures forall k :: 0 <= k < |RunStarts(ms)| ==>
      RunStarts(ms)[k] < |ms| && RunHeads(ms)[k] == ms[RunStarts(ms)[k]]
  {
    if ms != [] {
      var init := ms[..|ms| - 1];
      RunHeadsAtRunStarts(init);
    }
  }

  /** The run-start positions are strictly ascending and within the history. */
  lemma {:induction false} RunStartsAscending(ms: seq<Message>)
    ensures forall k :: 0 <= k < |RunStarts(ms)| ==> RunStarts(ms)[k] < |ms|
    ensures forall k, l :: 0 <= k < l < |RunStarts(ms)| ==> RunStarts(ms)[k] < RunStarts(ms)[l]
  {
    if ms != [] {
      var init := ms[..|ms| - 1];
      RunStartsAscending(init);
    }
  }

  /** A position is a run start exactly when the message there opens a run. */
  lemma {:induction false} RunStartsExact(ms: seq<Message>)
    ensures forall i :: i in RunStarts(ms) <==> 0 <= i < |ms| && OpensRun(ms, i)
  {
    if ms != [] {
      var init := ms[..|ms| - 1];
      RunStartsExact(init);
      RunStartsAscending(init);
      forall i | 0 <= i < |init|
        ensures OpensRun(init, i) == OpensRun(ms, i)
      {
        OpensRunInPrefix(ms, i);
      }
    }
  }

  /**
   * The collapse outputs exactly one message per same-role run, the run's first,
   * in input order: the kept messages are those at the ascending positions
   * `RunStarts(ms)`, and those positions are precisely the run openers.
   */
  lemma {:induction false} RunHeadsAreRunOpeners(ms: seq<Message>)
    ensures |RunHeads(ms)| == |RunStarts(ms)|
    ensures forall k :: 0 <= k < |RunStarts(ms)| ==>
      RunStarts(ms)[k] < |ms| && RunHeads(ms)[k] == ms[RunStarts(ms)[k]]
    ensures forall k, l :: 0 <= k < l < |RunStarts(ms)| ==> RunStarts(ms)[k] < RunStarts(ms)[l]
    ensures forall i :: i in RunStarts(ms) <==> 0 <= i < |ms| && OpensRun(ms, i)
  {
    RunHeadsAtRunStarts(ms);
    RunStartsAscending(ms);
    RunStartsExact(ms);
  }

  /** A history that already alternates is sent unchanged. */
  lemma {:induction false} RunHeadsOfAlternating(ms: seq<Message>)
    requires Alternating(ms)
    ensures RunHeads(ms) == ms
  {
    if ms != [] {
      var init := ms[..|ms| - 1];
      assert Alternating(init) by {
        forall k | 0 < k < |init| ensures init[k - 1].role != init[k].role {
          assert init[k - 1] == ms[k - 1] && init[k] == ms[k];
        }
      }
      RunHeadsOfAlternating(init);
      assert ms == init + [ms[|ms| - 1]];
    }
  }

  /** Collapsing twice is collapsing once. */
  lemma RunHeadsIdempotent(ms: seq<Message>)
    ensures RunHeads(RunHeads(ms)) == RunHeads(ms)
  {
    RunHeadsAlternate(ms);
    RunHeadsOfAlternating(RunHeads(ms));
  }

  /** Roles [user, user, assistant, assistant, assistant, user] collapse to [user, assistant, user]. */
  lemma CollapseExample(t1: string, t2: string, t3: string, t4: string, t5: string, t6: string)
    ensures var ms := [Message(User, t1), Message(User, t2), Message(Assistant, t3),
                       Message(Assistant, t4), Message(Assistant, t5), Message(User, t6)];
            RunHeads(ms) == [Message(User, t1), Message(Assistant, t3), Message(User, t6)]
  {
    var ms := [Message(User, t1), Message(User, t2), Message(Assistant, t3),
               Message(Assistant, t4), Message(Assistant, t5), Message(User, t6)];
    var heads := [Message(User, t1)];
    assert ms[..1][..0] == [];
    assert RunHeads(ms[..1]) == heads;
    assert ms[..2][..1] == ms[..1];
    assert RunHeads(ms[..2]) == heads;
    assert ms[..3][..2] == ms[..2];
    heads := heads + [Message(Assistant, t3)];
    assert RunHeads(ms[..3]) == heads;
    assert ms[..4][..3] == ms[..3];
    assert RunHeads(ms[..4]) == heads;
    assert ms[..5][..4] == ms[..4];
    assert RunHeads(ms[..5]) == heads;
    assert ms[..5] == ms[..|ms| - 1];
  }

  /**
   * The loop that builds `formatted_messages`: a message is appended when it is
   * the first or its role differs from the last message appended so far.
   */
  method FormatMessages(messages: seq<Message>) returns (formatted: seq<Message>)
    ensures formatted == RunHeads(messages)
    ensures Alternating(formatted)
    ensures messages != [] ==> formatted != [] && formatted[0] == messages[0]
  {
    formatted := [];
    for i := 0 to |messages|
      invariant formatted == RunHeads(messages[..i])
      invariant i > 0 ==> formatted != [] && formatted[|formatted| - 1].role == messages[i - 1].role
    {
      assert messages[..i + 1][..i] == messages[..i];
      if i == 0 || messages[i].role != formatted[|formatted| - 1].role {
        formatted := formatted + [messages[i]];
      }
    }
    assert messages[..|messages|] == messages;
    RunHeadsAlternate(messages);
    if messages != [] {
      RunHeadsKeepsFirst(messages);
    }
  }
}
