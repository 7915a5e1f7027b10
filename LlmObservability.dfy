/** The traced streaming chat completion of server/llm-observability.js:
    the provider's stream is consumed chunk by chunk, the time to first token,
    the content fragments and the last usage record are accumulated, and the
    observability span is annotated with the outcome. */
module LlmObservability {
  import opened Wrappers
  import opened ChatTypes

  /** One chunk of the provider's stream: its `choices[0].delta.content`
      (None when the chunk has no choice, no delta or a null content), its
      `usage` record, and the clock reading taken while it is processed. */
  datatype Chunk = Chunk(content: Option<string>, usage: Option<Usage>, arrivalMs: int)

  /** How iteration over the stream ends: normally, or by the provider call
      or the stream raising `error`. A call that fails before it yields a
      stream is a `Broken` stream without chunks. */
  datatype StreamEnd = Finished | Broken(error: string)

  datatype Stream = Stream(chunks: seq<Chunk>, end: StreamEnd)

  /** JavaScript truthiness of `chunk.choices?.[0]?.delta?.content`: a
      missing or empty content is falsy. */
  predicate HasContent(c: Chunk) {
    c.content.Some? && c.content.value != ""
  }

  /** `(now - startTime) / 1000`: elapsed milliseconds as seconds. */
  function Seconds(startMs: int, nowMs: int): real {
    (nowMs - startMs) as real / 1000.0
  }

  /** The loop's three local variables: `timeToFirstToken`, `chunks` and `usage`. */
  datatype Accumulator = Accumulator(timeToFirstToken: Option<real>, fragments: seq<string>, usage: Option<Usage>)

  /** One pass of the loop body on chunk `c`. */
  function Step(acc: Accumulator, c: Chunk, startMs: int): Accumulator {
    Accumulator(
      if acc.timeToFirstToken.None? && HasContent(c) then Some(Seconds(startMs, c.arrivalMs)) else acc.timeToFirstToken,
      if HasContent(c) then acc.fragments + [c.content.value] else acc.fragments,
      if c.usage.Some? then c.usage else acc.usage)
  }

  /** The loop run over `chunks` in arrival order, from the initial state
      (no time to first token, no fragments, no usage). At most one fragment
      is pushed per chunk, and the time to first token is set exactly when
      some fragment has been pushed. */
  function Accumulate(chunks: seq<Chunk>, startMs: int): (acc: Accumulator)
    ensures |acc.fragments| <= |chunks|
    ensures acc.timeToFirstToken.Some? <==> |acc.fragments| > 0
    decreases |chunks|
  {
    if chunks == [] then Accumulator(None, [], None)
    else Step(Accumulate(chunks[..|chunks| - 1], startMs), chunks[|chunks| - 1], startMs)
  }

  /** `parts.join('')`. */
  function Join(parts: seq<string>): string {
    if parts == [] then "" else parts[0] + Join(parts[1..])
  }

  lemma {:induction false} JoinAppend(parts: seq<string>, s: string)
    ensures Join(parts + [s]) == Join(parts) + s
  {
    if parts == [] {
      assert [] + [s] == [s];
      assert Join([s]) == s + Join([]);
    } else {
      assert (parts + [s])[1..] == parts[1..] + [s];
      JoinAppend(parts[1..], s);
    }
  }

  // Reference definitions, read front to back, independent of the loop.

  /** Every chunk's content in arrival order, a missing content read as "". */
  function StreamedText(chunks: seq<Chunk>): string {
    if chunks == [] then "" else chunks[0].content.GetOr("") + StreamedText(chunks[1..])
  }

  /** The non-empty contents in arrival order. */
  function ContentFragments(chunks: seq<Chunk>): seq<string> {
    if chunks == [] then []
    else (if HasContent(chunks[0]) then [chunks[0].content.value] else []) + ContentFragments(chunks[1..])
  }

  lemma {:induction false} StreamedTextAppend(chunks: seq<Chunk>, c: Chunk)
    ensures StreamedText(chunks + [c]) == StreamedText(chunks) + c.content.GetOr("")
  {
    if chunks == [] {
      assert [] + [c] == [c];
      assert StreamedText([c]) == c.content.GetOr("") + StreamedText([]);
    } else {
      assert (chunks + [c])[1..] == chunks[1..] + [c];
      StreamedTextAppend(chunks[1..], c);
    }
  }

  lemma {:induction false} ContentFragmentsAppend(chunks: seq<Chunk>, c: Chunk)
    ensures ContentFragments(chunks + [c])
         == ContentFragments(chunks) + (if HasContent(c) then [c.content.value] else [])
  {
    if chunks == [] {
      assert [] + [c] == [c];
      assert ContentFragments([c]) == (if HasContent(c) then [c.content.value] else []) + ContentFragments([]);
    } else {
      assert (chunks + [c])[1..] == chunks[1..] + [c];
      ContentFragmentsAppend(chunks[1..], c);
    }
  }

  /** Peeling the last chunk off a non-empty stream is one more loop pass. */
  lemma AccumulateLast(chunks: seq<Chunk>, startMs: int)
    requires chunks != []
    ensures var init := chunks[..|chunks| - 1];
      chunks == init + [chunks[|chunks| - 1]]
      && Accumulate(chunks, startMs) == Step(Accumulate(init, startMs), chunks[|chunks| - 1], startMs)
  {
  }

  /** The pushed fragments are exactly the non-empty contents, in arrival
      order: a chunk with missing or empty content adds nothing. */
  lemma {:induction false} FragmentsInArrivalOrder(chunks: seq<Chunk>, startMs: int)
    ensures Accumulate(chunks, startMs).fragments == ContentFragments(chunks)
    decreases |chunks|
  {
    if chunks != [] {
      var init, last := chunks[..|chunks| - 1], chunks[|chunks| - 1];
      AccumulateLast(chunks, startMs);
      FragmentsInArrivalOrder(init, startMs);
      ContentFragmentsAppend(init, last);
    }
  }

  /** The joined response is the whole streamed text in arrival order:
      skipping the empty fragments changes nothing in it. */
  lemma {:induction false} ResponseIsStreamedText(chunks: seq<Chunk>, startMs: int)
    ensures Join(Accumulate(chunks, startMs).fragments) == StreamedText(chunks)
    decreases |chunks|
  {
    if chunks != [] {
      var init, last := chunks[..|chunks| - 1], chunks[|chunks| - 1];
      AccumulateLast(chunks, startMs);
      ResponseIsStreamedText(init, startMs);
      StreamedTextAppend(init, last);
      var frags := Accumulate(init, startMs).fragments;
      if HasContent(last) {
        JoinAppend(frags, last.content.value);
      }
    }
  }

  /** The time to first token stays unset exactly as long as no chunk has
      had content; a stream without content yields "" and no time to first
      token. */
  lemma {:induction false} TimeToFirstTokenUnsetIffNoContent(chunks: seq<Chunk>, startMs: int)
    ensures Accumulate(chunks, startMs).timeToFirstToken.None?
        <==> forall i :: 0 <= i < |chunks| ==> !HasContent(chunks[i])
    ensures Accumulate(chunks, startMs).timeToFirstToken.None?
        ==> Join(Accumulate(chunks, startMs).fragments) == ""
    decreases |chunks|
  {
    if chunks != [] {
      var init, last := chunks[..|chunks| - 1], chunks[|chunks| - 1];
      AccumulateLast(chunks, startMs);
      TimeToFirstTokenUnsetIffNoContent(init, startMs);
      assert forall i :: 0 <= i < |init| ==> init[i] == chunks[i];
    }
  }

  /** Once set, later chunks never change the time to first token. */
  lemma {:induction false} TimeToFirstTokenWriteOnce(prefix: seq<Chunk>, rest: seq<Chunk>, startMs: int)
    requires Accumulate(prefix, startMs).timeToFirstToken.Some?
    ensures Accumulate(prefix + rest, startMs).timeToFirstToken == Accumulate(prefix, startMs).timeToFirstToken
    decreases |rest|
  {
    if rest != [] {
      var init := rest[..|rest| - 1];
      assert (prefix + rest)[..|prefix + rest| - 1] == prefix + init;
      AccumulateLast(prefix + rest, startMs);
      TimeToFirstTokenWriteOnce(prefix, init, startMs);
    } else {
      assert prefix + rest == prefix;
    }
  }

  /** The time to first token is the elapsed time, in seconds, at the first
      chunk with content. */
  lemma {:induction false} TimeToFirstTokenAtFirstContent(chunks: seq<Chunk>, startMs: int, k: nat)
    requires k < |chunks| && HasContent(chunks[k])
    requires forall j :: 0 <= j < k ==> !HasContent(chunks[j])
    ensures Accumulate(chunks, startMs).timeToFirstToken == Some(Seconds(startMs, chunks[k].arrivalMs))
  {
    var before := chunks[..k];
    TimeToFirstTokenUnsetIffNoContent(before, startMs);
    assert chunks[..k + 1][..k] == before;
    AccumulateLast(chunks[..k + 1], startMs);
    assert Accumulate(chunks[..k + 1], startMs).timeToFirstToken == Some(Seconds(startMs, chunks[k].arrivalMs));
    assert chunks[..k + 1] + chunks[k + 1..] == chunks;
    TimeToFirstTokenWriteOnce(chunks[..k + 1], chunks[k + 1..], startMs);
  }

  /** No usage is reported exactly when no chunk carries one. */
  lemma {:induction false} UsageAbsentIffNoneCarried(chunks: seq<Chunk>, startMs: int)
    ensures Accumulate(chunks, startMs).usage.None?
        <==> forall i :: 0 <= i < |chunks| ==> chunks[i].usage.None?
    decreases |chunks|
  {
    if chunks != [] {
      var init := chunks[..|chunks| - 1];
      AccumulateLast(chunks, startMs);
      UsageAbsentIffNoneCarried(init, startMs);
      assert forall i :: 0 <= i < |init| ==> init[i] == chunks[i];
    }
  }

  /** The reported usage is that of the last chunk carrying one. */
  lemma {:induction false} UsageIsLastCarried(chunks: seq<Chunk>, startMs: int, k: nat)
    requires k < |chunks| && chunks[k].usage.Some?
    requires forall j :: k < j < |chunks| ==> chunks[j].usage.None?
    ensures Accumulate(chunks, startMs).usage == chunks[k].usage
    decreases |chunks|
  {
    var init := chunks[..|chunks| - 1];
    AccumulateLast(chunks, startMs);
    if k < |chunks| - 1 {
      UsageIsLastCarried(init, startMs, k);
    }
  }

  /** Fragments "A", "B", "C" with usage on the last chunk. */
  lemma StreamExample()
    ensures var chunks := [Chunk(Some("A"), None, 1250), Chunk(Some("B"), None, 1300),
                           Chunk(Some("C"), Some(Usage(Some(12), Some(3), Some(15))), 1400)];
      var acc := Accumulate(chunks, 1000);
      && Join(acc.fragments) == "ABC"
      && acc.timeToFirstToken == Some(0.25)
      && acc.usage == Some(Usage(Some(12), Some(3), Some(15)))
  {
    var chunks := [Chunk(Some("A"), None, 1250), Chunk(Some("B"), None, 1300),
                   Chunk(Some("C"), Some(Usage(Some(12), Some(3), Some(15))), 1400)];
    ResponseIsStreamedText(chunks, 1000);
    TimeToFirstTokenAtFirstContent(chunks, 1000, 0);
    UsageIsLastCarried(chunks, 1000, 2);
    assert StreamedText(chunks) == "A" + StreamedText(chunks[1..]);
    assert StreamedText(chunks[1..]) == "B" + StreamedText(chunks[2..]);
    assert StreamedText(chunks[2..]) == "C" + StreamedText(chunks[3..]);
  }

  // The span and its annotation.

  const SpanKind := "llm"
  const SpanName := "openai-chat-completion"
  const ModelProvider := "openai"
  const AssistantRole := "assistant"

  datatype Metrics = Metrics(inputTokens: Option<nat>, outputTokens: Option<nat>, totalTokens: Option<nat>,
                             timeToFirstToken: Option<real>)

  datatype Metadata = Metadata(temperature: real, maxTokens: int)

  datatype Annotation = Annotation(inputData: seq<Message>, outputData: seq<Message>, metrics: Metrics,
                                   metadata: Metadata)

  /** The LLM Observability span around one call; `annotation` is None when
      the call raised before the span was annotated. */
  datatype Span = Span(kind: string, name: string, modelName: string, modelProvider: string,
                       annotation: Option<Annotation>)

  /** The value `tracedChatCompletion` returns. */
  datatype Completion = Completion(responseMessage: string, usage: Option<Usage>, durationMs: int)

  /** `({ role: m.role, content: m.content })`: every other property dropped. */
  function Project(m: Message): Message {
    Message(m.role, m.content, map[])
  }

  /** The annotation of a finished call: the sent messages projected to role
      and content, one assistant message holding the response, the token
      counts read through the possibly missing usage record, the time to
      first token, and the passthrough settings. */
  function Annotate(messages: seq<Message>, responseMessage: string, usage: Option<Usage>,
                    timeToFirstToken: Option<real>, temperature: real, maxTokens: int): (a: Annotation)
    ensures |a.inputData| == |messages|
    ensures forall i :: 0 <= i < |messages| ==>
      && a.inputData[i].role == messages[i].role
      && a.inputData[i].content == messages[i].content
      && a.inputData[i].extra == map[]
    ensures a.outputData == [Message(AssistantRole, Some(responseMessage), map[])]
    ensures usage.None? ==>
      a.metrics.inputTokens.None? && a.metrics.outputTokens.None? && a.metrics.totalTokens.None?
    ensures usage.Some? ==>
      && a.metrics.inputTokens == usage.value.promptTokens
      && a.metrics.outputTokens == usage.value.completionTokens
      && a.metrics.totalTokens == usage.value.totalTokens
    ensures a.metrics.timeToFirstToken == timeToFirstToken
    ensures a.metadata == Metadata(temperature, maxTokens)
  {
    var tokens := TokensOf(usage);
    Annotation(
      seq(|messages|, i requires 0 <= i < |messages| => Project(messages[i])),
      [Message(AssistantRole, Some(responseMessage), map[])],
      Metrics(tokens.prompt, tokens.completion, tokens.total, timeToFirstToken),
      Metadata(temperature, maxTokens))
  }

  /** `tracedChatCompletion`: consume the stream, then annotate the span and
      return the joined text, the last usage and the duration. `startMs` and
      `endMs` are the clock readings before the call and after the stream. If
      the call or the stream raises, the error reaches the caller unchanged
      and the span, still closed by the tracer, carries no annotation. */
  method TracedChatCompletion(model: string, maxTokens: int, temperature: real, messages: seq<Message>,
                              stream: Stream, startMs: int, endMs: int)
    returns (result: Result<Completion, string>, span: Span)
    ensures span.kind == SpanKind && span.name == SpanName
    ensures span.modelName == model && span.modelProvider == ModelProvider
    ensures stream.end.Broken? ==> result == Failure(stream.end.error) && span.annotation == None
    ensures stream.end.Finished? ==>
      var acc := Accumulate(stream.chunks, startMs);
      && result == Success(Completion(Join(acc.fragments), acc.usage, endMs - startMs))
      && span.annotation == Some(Annotate(messages, Join(acc.fragments), acc.usage, acc.timeToFirstToken,
                                          temperature, maxTokens))
    ensures result.Success? ==> result.value.responseMessage == StreamedText(stream.chunks)
  {
    var timeToFirstToken: Option<real> := None;
    var chunks: seq<string> := [];
    var usage: Option<Usage> := None;
    for i := 0 to |stream.chunks|
      invariant Accumulator(timeToFirstToken, chunks, usage) == Accumulate(stream.chunks[..i], startMs)
    {
      var chunk := stream.chunks[i];
      if timeToFirstToken.None? && HasContent(chunk) {
        timeToFirstToken := Some(Seconds(startMs, chunk.arrivalMs));
      }
      if HasContent(chunk) {
        chunks := chunks + [chunk.content.value];
      }
      if chunk.usage.Some? {
        usage := chunk.usage;
      }
      assert stream.chunks[..i + 1][..i] == stream.chunks[..i];
    }
    assert stream.chunks[..|stream.chunks|] == stream.chunks;
    // A raising stream leaves the loop by the exception; the locals are lost.
    if stream.end.Broken? {
      return Failure(stream.end.error), Span(SpanKind, SpanName, model, ModelProvider, None);
    }
    var duration := endMs - startMs;
    var responseMessage := Join(chunks);
    ResponseIsStreamedText(stream.chunks, startMs);
    var annotation := Annotate(messages, responseMessage, usage, timeToFirstToken, temperature, maxTokens);
    span := Span(SpanKind, SpanName, model, ModelProvider, Some(annotation));
    result := Success(Completion(responseMessage, usage, duration));
  }
}
