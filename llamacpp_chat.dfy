/**
 * Generation: translating the native binding's chat-completion response into
 * a chat result, and filtering its stream of events into generation chunks
 * with one callback notification per emitted chunk.
 *
 * Responses and stream events are the dicts the binding returns. The message
 * converters that live in another module of the framework are parameters.
 */
module LlamaCppChat {
  import opened PyValues

  // ---------------------------------------------------------------------------
  // Full responses
  // ---------------------------------------------------------------------------

  datatype ChatGeneration<M> = ChatGeneration(message: M, generationInfo: map<string, Value>)

  datatype ChatResult<M> = ChatResult(generations: seq<ChatGeneration<M>>, llmOutput: map<string, Value>)

  /** A dict with a `text` entry, the part of a choice that is indexed. */
  predicate IsChoice(v: Value) {
    v.PyDict? && "text" in v.entries
  }

  /** A response whose `choices` entry is a list of choices. */
  predicate IsResponse(response: map<string, Value>) {
    && "choices" in response
    && response["choices"].PyList?
    && forall i :: 0 <= i < |response["choices"].items| ==> IsChoice(response["choices"].items[i])
  }

  function Choices(response: map<string, Value>): seq<Value>
    requires IsResponse(response)
  {
    response["choices"].items
  }

  /** The generation info of one choice: its finish reason (None when the key
      is absent) and, only when the choice has the key, its logprobs. */
  function ChoiceInfo(choice: map<string, Value>): (info: map<string, Value>)
    ensures "finish_reason" in info && info["finish_reason"] == Get(choice, "finish_reason")
    ensures "logprobs" in info <==> "logprobs" in choice
    ensures "logprobs" in info ==> info["logprobs"] == choice["logprobs"]
    ensures info.Keys <= {"finish_reason", "logprobs"}
  {
    var info := map["finish_reason" := Get(choice, "finish_reason")];
    if "logprobs" in choice then info["logprobs" := choice["logprobs"]] else info
  }

  /** The token usage reported in the result: the response's `usage`, or an
      empty dict when the response has none. */
  function TokenUsage(response: map<string, Value>): (usage: Value)
    ensures "usage" in response ==> usage == response["usage"]
    ensures "usage" !in response ==> usage == PyDict(map[])
  {
    if "usage" in response then response["usage"] else PyDict(map[])
  }

  /** `_create_chat_result`: one generation per choice, in order. */
  method CreateChatResult<M>(response: map<string, Value>, toMessage: Value -> M) returns (result: ChatResult<M>)
    requires IsResponse(response)
    ensures |result.generations| == |Choices(response)|
    ensures forall i :: 0 <= i < |Choices(response)| ==>
      result.generations[i].message == toMessage(Choices(response)[i].entries["text"])
      && result.generations[i].generationInfo == ChoiceInfo(Choices(response)[i].entries)
    ensures result.llmOutput == map["token_usage" := TokenUsage(response)]
  {
    var choices := response["choices"].items;
    var generations: seq<ChatGeneration<M>> := [];
    for i := 0 to |choices|
      invariant |generations| == i
      invariant forall j :: 0 <= j < i ==>
        generations[j] == ChatGeneration(toMessage(choices[j].entries["text"]), ChoiceInfo(choices[j].entries))
    {
      var res := choices[i].entries;
      var message := toMessage(res["text"]);
      var generationInfo := map["finish_reason" := Get(res, "finish_reason")];
      if "logprobs" in res {
        generationInfo := generationInfo["logprobs" := res["logprobs"]];
      }
      generations := generations + [ChatGeneration(message, generationInfo)];
    }
    var tokenUsage := if "usage" in response then response["usage"] else PyDict(map[]);
    result := ChatResult(generations, map["token_usage" := tokenUsage]);
  }

  // ---------------------------------------------------------------------------
  // Streaming
  // ---------------------------------------------------------------------------

  /** The name of a message-chunk class. */
  type ClassName = string

  const AIMessageChunk: ClassName := "AIMessageChunk"

  /** A message chunk as the delta converter returns it: its class, its text
      content and the rest of it. */
  datatype MessageChunk = MessageChunk(cls: ClassName, text: string, rest: Value)

  datatype GenerationChunk = GenerationChunk(message: MessageChunk, generationInfo: Option<map<string, Value>>)

  /** What the stream does, in order: notify the callback handler of a new
      token (text, chunk, logprobs), or yield a chunk to the consumer. */
  datatype StreamEffect =
    | Notified(text: string, chunk: GenerationChunk, logprobs: Value)
    | Yielded(chunk: GenerationChunk)

  /** A stream event: a dict whose `choices` entry is a list, whose first
      choice (when there is one) is a dict with a `delta` entry. */
  predicate IsEvent(e: Value) {
    && e.PyDict?
    && "choices" in e.entries
    && e.entries["choices"].PyList?
    && (|e.entries["choices"].items| > 0 ==>
          e.entries["choices"].items[0].PyDict? && "delta" in e.entries["choices"].items[0].entries)
  }

  predicate AllEvents(events: seq<Value>) {
    forall i :: 0 <= i < |events| ==> IsEvent(events[i])
  }

  /** An event that produces a chunk: a non-empty choice list whose first
      choice has a delta that is not None. */
  predicate Emits(e: Value)
    requires IsEvent(e)
  {
    |e.entries["choices"].items| > 0 && e.entries["choices"].items[0].entries["delta"] != PyNone
  }

  function FirstChoice(e: Value): map<string, Value>
    requires IsEvent(e) && Emits(e)
  {
    e.entries["choices"].items[0].entries
  }

  /** The generation info of a streamed choice: the finish reason and the
      logprobs, each only when truthy; no info at all when neither is. */
  function StreamInfo(choice: map<string, Value>): (info: Option<map<string, Value>>)
    ensures info.Some? <==> Truthy(Get(choice, "finish_reason")) || Truthy(Get(choice, "logprobs"))
    ensures info.Some? ==> info.value.Keys <= {"finish_reason", "logprobs"}
    ensures info.Some? ==> ("finish_reason" in info.value <==> Truthy(Get(choice, "finish_reason")))
    ensures info.Some? ==> ("logprobs" in info.value <==> Truthy(Get(choice, "logprobs")))
    ensures info.Some? && "finish_reason" in info.value ==> info.value["finish_reason"] == Get(choice, "finish_reason")
    ensures info.Some? && "logprobs" in info.value ==> info.value["logprobs"] == Get(choice, "logprobs")
  {
    var finishReason, logprobs := Get(choice, "finish_reason"), Get(choice, "logprobs");
    var withReason: map<string, Value> := if Truthy(finishReason) then map["finish_reason" := finishReason] else map[];
    var info := if Truthy(logprobs) then withReason["logprobs" := logprobs] else withReason;
    assert Truthy(finishReason) ==> "finish_reason" in info;
    assert Truthy(logprobs) ==> "logprobs" in info;
    if info == map[] then None else Some(info)
  }

  /** The chunk emitted for an event, given the default chunk class. */
  function EmitChunk(e: Value, defaultClass: ClassName, convert: (Value, ClassName) -> MessageChunk): GenerationChunk
    requires IsEvent(e) && Emits(e)
  {
    GenerationChunk(convert(FirstChoice(e)["delta"], defaultClass), StreamInfo(FirstChoice(e)))
  }

  /** The effects of streaming `events` from the default class `defaultClass`
      on: skipped events do nothing; an emitting event notifies the callback
      handler (when there is one), then yields its chunk, and passes the
      chunk's class on as the next default. */
  function StreamFrom(events: seq<Value>, defaultClass: ClassName, convert: (Value, ClassName) -> MessageChunk,
                      notify: bool): (trace: seq<StreamEffect>)
    requires AllEvents(events)
    ensures |trace| == (if notify then 2 else 1) * |Kept(events)|
    decreases |events|
  {
    if events == [] then []
    else if !Emits(events[0]) then StreamFrom(events[1..], defaultClass, convert, notify)
    else
      var chunk := EmitChunk(events[0], defaultClass, convert);
      var logprobs := Get(FirstChoice(events[0]), "logprobs");
      (if notify then [Notified(chunk.message.text, chunk, logprobs), Yielded(chunk)] else [Yielded(chunk)])
      + StreamFrom(events[1..], chunk.message.cls, convert, notify)
  }

  /** `_stream`: the loop over the binding's events. `notify` says whether a
      callback handler was given. */
  method Stream(events: seq<Value>, convert: (Value, ClassName) -> MessageChunk, notify: bool)
    returns (effects: seq<StreamEffect>)
    requires AllEvents(events)
    ensures effects == StreamFrom(events, AIMessageChunk, convert, notify)
  {
    var defaultChunkClass := AIMessageChunk;
    effects := [];
    var i := 0;
    while i < |events|
      invariant 0 <= i <= |events|
      invariant effects + StreamFrom(events[i..], defaultChunkClass, convert, notify)
                == StreamFrom(events, AIMessageChunk, convert, notify)
    {
      var event := events[i];
      assert events[i..][1..] == events[i + 1..];
      i := i + 1;
      var choices := event.entries["choices"].items;
      if |choices| == 0 {
        continue;
      }
      var choice := choices[0].entries;
      if choice["delta"] == PyNone {
        continue;
      }
      var message := convert(choice["delta"], defaultChunkClass);
      var generationInfo: map<string, Value> := map[];
      var finishReason := Get(choice, "finish_reason");
      if Truthy(finishReason) {
        generationInfo := generationInfo["finish_reason" := finishReason];
      }
      var logprobs := Get(choice, "logprobs");
      if Truthy(logprobs) {
        generationInfo := generationInfo["logprobs" := logprobs];
      }
      defaultChunkClass := message.cls;
      var chunk := GenerationChunk(message, if generationInfo == map[] then None else Some(generationInfo));
      if notify {
        effects := effects + [Notified(chunk.message.text, chunk, logprobs)];
      }
      effects := effects + [Yielded(chunk)];
    }
  }

  // ---------------------------------------------------------------------------
  // Reference definitions and properties of the stream
  // ---------------------------------------------------------------------------

  /** The events that emit a chunk, in their original order. */
  function Kept(events: seq<Value>): (kept: seq<Value>)
    requires AllEvents(events)
    ensures forall i :: 0 <= i < |kept| ==> IsEvent(kept[i]) && Emits(kept[i])
    decreases |events|
  {
    if events == [] then []
    else if Emits(events[0]) then [events[0]] + Kept(events[1..])
    else Kept(events[1..])
  }

  /** The events that are skipped (empty choice list or None delta). */
  function Skipped(events: seq<Value>): (skipped: seq<Value>)
    requires AllEvents(events)
    ensures forall i :: 0 <= i < |skipped| ==> IsEvent(skipped[i]) && !Emits(skipped[i])
    decreases |events|
  {
    if events == [] then []
    else if Emits(events[0]) then Skipped(events[1..])
    else [events[0]] + Skipped(events[1..])
  }

  /** Every event is either kept or skipped; kept ones are exactly the
      emitting events of the stream. */
  lemma {:induction false} KeptAndSkippedPartition(events: seq<Value>)
    requires AllEvents(events)
    ensures AllEvents(Kept(events)) && AllEvents(Skipped(events))
    ensures |Kept(events)| + |Skipped(events)| == |events|
    ensures forall e :: e in Kept(events) <==> e in events && IsEvent(e) && Emits(e)
    ensures forall e :: e in Skipped(events) <==> e in events && IsEvent(e) && !Emits(e)
  {
    if events != [] {
      KeptAndSkippedPartition(events[1..]);
      assert events == [events[0]] + events[1..];
    }
  }

  /** The chunks produced from a sequence of emitting events, each converted
      with the class of the chunk before it as the default. */
  function ChunksFrom(kept: seq<Value>, defaultClass: ClassName, convert: (Value, ClassName) -> MessageChunk)
    : (chunks: seq<GenerationChunk>)
    requires forall i :: 0 <= i < |kept| ==> IsEvent(kept[i]) && Emits(kept[i])
    ensures |chunks| == |kept|
    decreases |kept|
  {
    if kept == [] then []
    else
      var chunk := EmitChunk(kept[0], defaultClass, convert);
      [chunk] + ChunksFrom(kept[1..], chunk.message.cls, convert)
  }

  /** The default class is threaded through the chunks: the first is converted
      with the initial default, every later one with the class of the chunk
      emitted just before it. */
  lemma {:induction false} ChunksFromThreadsDefaultClass(kept: seq<Value>, defaultClass: ClassName,
                                                         convert: (Value, ClassName) -> MessageChunk)
    requires forall i :: 0 <= i < |kept| ==> IsEvent(kept[i]) && Emits(kept[i])
    ensures forall j :: 0 <= j < |kept| ==>
      ChunksFrom(kept, defaultClass, convert)[j]
      == EmitChunk(kept[j], if j == 0 then defaultClass else ChunksFrom(kept, defaultClass, convert)[j - 1].message.cls, convert)
  {
    if kept != [] {
      var chunk := EmitChunk(kept[0], defaultClass, convert);
      ChunksFromThreadsDefaultClass(kept[1..], chunk.message.cls, convert);
      var rest := ChunksFrom(kept[1..], chunk.message.cls, convert);
      var all := ChunksFrom(kept, defaultClass, convert);
      assert all == [chunk] + rest;
      forall j | 1 <= j < |kept|
        ensures all[j] == EmitChunk(kept[j], all[j - 1].message.cls, convert)
      {
        assert all[j] == rest[j - 1] && kept[j] == kept[1..][j - 1];
        if j > 1 {
          assert all[j - 1] == rest[j - 2];
        }
      }
    }
  }

  /** The trace of a stream with a callback handler, built from the kept
      events and their chunks: each chunk announced, then yielded. */
  function Announced(kept: seq<Value>, chunks: seq<GenerationChunk>): (trace: seq<StreamEffect>)
    requires forall i :: 0 <= i < |kept| ==> IsEvent(kept[i]) && Emits(kept[i])
    requires |chunks| == |kept|
    ensures |trace| == 2 * |kept|
    decreases |kept|
  {
    if kept == [] then []
    else
      [Notified(chunks[0].message.text, chunks[0], Get(FirstChoice(kept[0]), "logprobs")), Yielded(chunks[0])]
      + Announced(kept[1..], chunks[1..])
  }

  /** Element by element: the `j`-th chunk is notified at `2j` and yielded at
      `2j + 1`, and the trace holds nothing else. */
  lemma {:induction false} AnnouncedPairs(kept: seq<Value>, chunks: seq<GenerationChunk>)
    requires forall i :: 0 <= i < |kept| ==> IsEvent(kept[i]) && Emits(kept[i])
    requires |chunks| == |kept|
    ensures |Announced(kept, chunks)| == 2 * |kept|
    ensures forall j :: 0 <= j < |kept| ==>
      && Announced(kept, chunks)[2 * j] == Notified(chunks[j].message.text, chunks[j], Get(FirstChoice(kept[j]), "logprobs"))
      && Announced(kept, chunks)[2 * j + 1] == Yielded(chunks[j])
  {
    if kept != [] {
      AnnouncedPairs(kept[1..], chunks[1..]);
      var t, tail := Announced(kept, chunks), Announced(kept[1..], chunks[1..]);
      forall j | 1 <= j < |kept|
        ensures && t[2 * j] == Notified(chunks[j].message.text, chunks[j], Get(FirstChoice(kept[j]), "logprobs"))
                && t[2 * j + 1] == Yielded(chunks[j])
      {
        var k := j - 1;
        assert t[2 * j] == tail[2 * k] && t[2 * j + 1] == tail[2 * k + 1];
        assert chunks[j] == chunks[1..][k] && kept[j] == kept[1..][k];
      }
    }
  }

  /** The trace of a stream without a callback handler: each chunk yielded. */
  function Yields(chunks: seq<GenerationChunk>): (trace: seq<StreamEffect>)
    ensures |trace| == |chunks|
    ensures forall j :: 0 <= j < |chunks| ==> trace[j] == Yielded(chunks[j])
  {
    seq(|chunks|, j requires 0 <= j < |chunks| => Yielded(chunks[j]))
  }

  /** Without a callback handler the stream is exactly one yield per
      emitting event, in order, carrying the chunks with the threaded default
      class. */
  lemma {:induction false} StreamWithoutHandler(events: seq<Value>, defaultClass: ClassName,
                                                convert: (Value, ClassName) -> MessageChunk)
    requires AllEvents(events)
    ensures StreamFrom(events, defaultClass, convert, false) == Yields(ChunksFrom(Kept(events), defaultClass, convert))
  {
    if events != [] {
      var rest := events[1..];
      if !Emits(events[0]) {
        StreamWithoutHandler(rest, defaultClass, convert);
      } else {
        var chunk := EmitChunk(events[0], defaultClass, convert);
        StreamWithoutHandler(rest, chunk.message.cls, convert);
        assert Kept(events) == [events[0]] + Kept(rest);
        var chunks := ChunksFrom(Kept(events), defaultClass, convert);
        assert chunks == [chunk] + ChunksFrom(Kept(rest), chunk.message.cls, convert);
        assert Yields(chunks) == [Yielded(chunk)] + Yields(chunks[1..]);
      }
    }
  }

  /** With a callback handler every chunk is announced to the handler, with
      its text and the choice's logprobs, immediately before it is yielded;
      nothing else happens. */
  lemma {:induction false} StreamWithHandler(events: seq<Value>, defaultClass: ClassName,
                                             convert: (Value, ClassName) -> MessageChunk)
    requires AllEvents(events)
    ensures StreamFrom(events, defaultClass, convert, true)
            == Announced(Kept(events), ChunksFrom(Kept(events), defaultClass, convert))
  {
    if events != [] {
      var rest := events[1..];
      if !Emits(events[0]) {
        StreamWithHandler(rest, defaultClass, convert);
      } else {
        var chunk := EmitChunk(events[0], defaultClass, convert);
        StreamWithHandler(rest, chunk.message.cls, convert);
        var kept := Kept(events);
        assert kept == [events[0]] + Kept(rest);
        assert kept[1..] == Kept(rest);
        var chunks := ChunksFrom(kept, defaultClass, convert);
        assert chunks == [chunk] + ChunksFrom(Kept(rest), chunk.message.cls, convert);
      }
    }
  }
}
