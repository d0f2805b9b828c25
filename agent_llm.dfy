/**
 * `FunctionAgent.llm_node`: it re-yields the language model's chunk stream
 * and, the first time a chunk carries tool calls, says a short "checking"
 * line (before yielding that chunk). The stream is a finite sequence here
 * and what the node does is recorded as a trace of events.
 */
module AgentLlm {
  import opened Wrappers

  /** The `delta` of a chat chunk; an absent `tool_calls` is the empty list. */
  datatype Delta = Delta(content: string, toolCalls: seq<string>)

  /** What the parent `llm_node` yields: a `ChatChunk` (possibly without delta) or some other value. */
  datatype Chunk = ChatChunk(delta: Option<Delta>) | OtherChunk(text: string)

  /** Something the node does: yield a chunk, or say a line through the session. */
  datatype Event = Yield(chunk: Chunk) | Say(text: string)

  const CheckingLine: string := "Sure, I'll check that for you."

  /** `isinstance(chunk, ChatChunk) and chunk.delta and chunk.delta.tool_calls`. */
  predicate HasToolCalls(c: Chunk) {
    c.ChatChunk? && c.delta.Some? && |c.delta.value.toolCalls| > 0
  }

  /** `k` is the position of the first chunk that carries tool calls. */
  predicate FirstToolCall(chunks: seq<Chunk>, k: int) {
    0 <= k < |chunks| && HasToolCalls(chunks[k]) && forall j :: 0 <= j < k ==> !HasToolCalls(chunks[j])
  }

  function Yields(cs: seq<Chunk>): (r: seq<Event>)
    ensures |r| == |cs| && forall i :: 0 <= i < |cs| ==> r[i] == Yield(cs[i])
  {
    seq(|cs|, i requires 0 <= i < |cs| => Yield(cs[i]))
  }

  /** The chunks a trace yields, in order. */
  function ChunksOf(trace: seq<Event>): seq<Chunk> {
    if trace == [] then []
    else (if trace[0].Yield? then [trace[0].chunk] else []) + ChunksOf(trace[1..])
  }

  /** How many lines a trace says. */
  function SayCount(trace: seq<Event>): nat {
    if trace == [] then 0
    else (if trace[0].Say? then 1 else 0) + SayCount(trace[1..])
  }

  lemma {:induction false} TraceAppend(a: seq<Event>, b: seq<Event>)
    ensures ChunksOf(a + b) == ChunksOf(a) + ChunksOf(b)
    ensures SayCount(a + b) == SayCount(a) + SayCount(b)
    decreases |a|
  {
    if a != [] {
      assert (a + b)[1..] == a[1..] + b;
      TraceAppend(a[1..], b);
    } else {
      assert a + b == b;
    }
  }

  lemma {:induction false} YieldsTrace(cs: seq<Chunk>)
    ensures ChunksOf(Yields(cs)) == cs
    ensures SayCount(Yields(cs)) == 0
    decreases |cs|
  {
    if cs != [] {
      assert Yields(cs)[1..] == Yields(cs[1..]);
      YieldsTrace(cs[1..]);
    }
  }

  /** Yielding one more chunk of a range extends its yields by that chunk. */
  lemma YieldsSnoc(cs: seq<Chunk>, lo: nat, i: nat)
    requires lo <= i < |cs|
    ensures Yields(cs[lo..i + 1]) == Yields(cs[lo..i]) + [Yield(cs[i])]
  {
  }

  /** There is at most one first chunk with tool calls. */
  lemma FirstToolCallUnique(chunks: seq<Chunk>, k: int, l: int)
    requires FirstToolCall(chunks, k) && FirstToolCall(chunks, l)
    ensures k == l
  {
  }

  /**
   * The node's loop. Every chunk is yielded, unchanged and in order; the
   * checking line is said once, just before the first chunk with tool calls,
   * and never when no chunk has any.
   */
  method LlmNode(chunks: seq<Chunk>) returns (trace: seq<Event>)
    ensures (forall i :: 0 <= i < |chunks| ==> !HasToolCalls(chunks[i])) ==> trace == Yields(chunks)
    ensures forall k :: FirstToolCall(chunks, k) ==>
      trace == Yields(chunks[..k]) + [Say(CheckingLine)] + Yields(chunks[k..])
    ensures ChunksOf(trace) == chunks
    ensures SayCount(trace) == if exists i :: 0 <= i < |chunks| && HasToolCalls(chunks[i]) then 1 else 0
  {
    trace := [];
    var toolCallDetected := false;
    ghost var first := 0;
    var i := 0;
    while i < |chunks|
      invariant 0 <= first <= i <= |chunks|
      invariant toolCallDetected <==> exists j :: 0 <= j < i && HasToolCalls(chunks[j])
      invariant !toolCallDetected ==> first == 0 && trace == Yields(chunks[first..i])
      invariant toolCallDetected ==> FirstToolCall(chunks, first)
      invariant toolCallDetected ==>
        trace == Yields(chunks[..first]) + [Say(CheckingLine)] + Yields(chunks[first..i])
    {
      if HasToolCalls(chunks[i]) && !toolCallDetected {
        toolCallDetected := true;
        first := i;
        assert Yields(chunks[first..i]) == [] && chunks[..first] == chunks[0..i];
        trace := trace + [Say(CheckingLine)];
      }
      YieldsSnoc(chunks, first, i);
      trace := trace + [Yield(chunks[i])];
      i := i + 1;
    }
    assert chunks[..i] == chunks;
    LlmTrace(chunks, toolCallDetected, first, trace);
  }

  /** The checking line said at `first`, between the chunks before it and the rest. */
  lemma SplitTrace(chunks: seq<Chunk>, first: nat)
    requires first <= |chunks|
    ensures var trace := Yields(chunks[..first]) + [Say(CheckingLine)] + Yields(chunks[first..]);
      ChunksOf(trace) == chunks && SayCount(trace) == 1
  {
    TraceAppend(Yields(chunks[..first]) + [Say(CheckingLine)], Yields(chunks[first..]));
    TraceAppend(Yields(chunks[..first]), [Say(CheckingLine)]);
    YieldsTrace(chunks[..first]);
    YieldsTrace(chunks[first..]);
    assert ChunksOf([Say(CheckingLine)]) == [] && SayCount([Say(CheckingLine)]) == 1;
    assert chunks[..first] + chunks[first..] == chunks;
  }

  /** What the finished loop's trace says: every chunk in order, and the checking line once iff some chunk had tool calls. */
  lemma LlmTrace(chunks: seq<Chunk>, detected: bool, first: nat, trace: seq<Event>)
    requires first <= |chunks|
    requires detected <==> exists j :: 0 <= j < |chunks| && HasToolCalls(chunks[j])
    requires !detected ==> first == 0 && trace == Yields(chunks[first..])
    requires detected ==> FirstToolCall(chunks, first)
    requires detected ==> trace == Yields(chunks[..first]) + [Say(CheckingLine)] + Yields(chunks[first..])
    ensures (forall i :: 0 <= i < |chunks| ==> !HasToolCalls(chunks[i])) ==> trace == Yields(chunks)
    ensures forall k :: FirstToolCall(chunks, k) ==>
      trace == Yields(chunks[..k]) + [Say(CheckingLine)] + Yields(chunks[k..])
    ensures ChunksOf(trace) == chunks
    ensures SayCount(trace) == if exists i :: 0 <= i < |chunks| && HasToolCalls(chunks[i]) then 1 else 0
  {
    if detected {
      forall k | FirstToolCall(chunks, k) ensures k == first {
        FirstToolCallUnique(chunks, k, first);
      }
      SplitTrace(chunks, first);
    } else {
      assert chunks[first..] == chunks;
      YieldsTrace(chunks);
    }
  }
}
