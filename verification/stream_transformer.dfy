/**
 * The stream protocol transformer: a stateful, single-pass stage that turns
 * tagged upstream chunks into chat-completion delta frames and, when the input
 * ends, one terminal frame followed by the `[DONE]` sentinel.
 *
 * Frames are values appended to an output sequence; their JSON serialisation
 * and byte encoding are not modelled. The stream id, the tool-call ids and the
 * clock are inputs: `uuid` strings stand for `crypto.randomUUID()` and
 * `nowMillis` for `Date.now()`.
 */
module StreamTransformer {
  import opened Wrappers
  import opened JsValues

  // ---------------------------------------------------------------------------
  // Input chunks and their shape checks
  // ---------------------------------------------------------------------------

  datatype ChunkType =
    | Text | ThinkingContent | RealThinking | Reasoning | ToolCode | NativeTool | GroundingMetadata | Usage

  /** `{ type, data }`: the payload is an arbitrary value until a guard accepts it. */
  datatype StreamChunk = StreamChunk(kind: ChunkType, data: Json)

  /** `isReasoningData`: an object with `reasoning` or with `toolCode` (either suffices). */
  predicate IsReasoningData(d: Json): (r: bool)
    ensures r <==> d.Obj? && ("reasoning" in d.fields || "toolCode" in d.fields)
  {
    IsObject(d) && (HasKey(d, "reasoning") || HasKey(d, "toolCode"))
  }

  /** `isGeminiFunctionCall`: an object with `name` and `args`. */
  predicate IsGeminiFunctionCall(d: Json): (r: bool)
    ensures r <==> d.Obj? && "name" in d.fields && "args" in d.fields
  {
    IsObject(d) && HasKey(d, "name") && HasKey(d, "args")
  }

  /** `isUsageData`: an object with `inputTokens` and `outputTokens`. */
  predicate IsUsageData(d: Json): (r: bool)
    ensures r <==> d.Obj? && "inputTokens" in d.fields && "outputTokens" in d.fields
  {
    IsObject(d) && HasKey(d, "inputTokens") && HasKey(d, "outputTokens")
  }

  /** `isNativeToolResponse`: an object with `type` and `data`. */
  predicate IsNativeToolResponse(d: Json): (r: bool)
    ensures r <==> d.Obj? && "type" in d.fields && "data" in d.fields
  {
    IsObject(d) && HasKey(d, "type") && HasKey(d, "data")
  }

  /** A chunk whose payload passes its tag's check, so that its delta gets at least one key. */
  predicate Emits(c: StreamChunk): (r: bool)
    ensures r ==> c.kind != Usage
    ensures r ==> !c.data.Undefined? && !c.data.Null?
  {
    match c.kind
    case Text => c.data.Str?
    case ThinkingContent => c.data.Str?
    case RealThinking => c.data.Str?
    case Reasoning => IsReasoningData(c.data)
    case ToolCode => IsGeminiFunctionCall(c.data)
    case NativeTool => IsNativeToolResponse(c.data)
    case GroundingMetadata => Truthy(c.data)
    case Usage => false
  }

  /** A valid tool call: the only chunk that sets `toolCallId`. */
  predicate IsToolCall(c: StreamChunk) {
    c.kind == ToolCode && IsGeminiFunctionCall(c.data)
  }

  /** A chunk that opens the assistant message: string text or thinking, or a valid tool call. */
  predicate OpensMessage(c: StreamChunk) {
    ((c.kind == Text || c.kind == ThinkingContent) && c.data.Str?) || IsToolCall(c)
  }

  /** A usage chunk that is recorded. */
  predicate IsRecordedUsage(c: StreamChunk) {
    c.kind == Usage && IsUsageData(c.data)
  }

  // ---------------------------------------------------------------------------
  // Output frames
  // ---------------------------------------------------------------------------

  /** `content` is a string, or explicitly `null` on a first tool-call delta. */
  datatype Content = ContentText(text: string) | ContentNull

  datatype ToolCall = ToolCall(index: int, id: string, kind: string, name: Json, arguments: Json)

  /** A delta; `Some` marks a key that is present (even when its value is `undefined`). */
  datatype Delta = Delta(
    role: Option<string>,
    content: Option<Content>,
    reasoning: Option<Json>,
    toolCalls: Option<seq<ToolCall>>,
    nativeToolCalls: Option<seq<Json>>,
    grounding: Option<Json>)

  const EmptyDelta := Delta(None, None, None, None, None, None)

  /** `Object.keys(delta).length`. */
  function KeyCount(d: Delta): (r: nat)
    ensures r <= 6
    ensures r == 0 <==> d == EmptyDelta
  {
    (if d.role.Some? then 1 else 0) + (if d.content.Some? then 1 else 0)
    + (if d.reasoning.Some? then 1 else 0) + (if d.toolCalls.Some? then 1 else 0)
    + (if d.nativeToolCalls.Some? then 1 else 0) + (if d.grounding.Some? then 1 else 0)
  }

  datatype Choice = Choice(index: int, delta: Delta, finishReason: Option<string>)

  datatype FinalChoice = FinalChoice(index: int, finishReason: string)

  datatype UsageBlock = UsageBlock(promptTokens: Json, completionTokens: Json, totalTokens: Json)

  /**
   * A delta frame (its `usage` is null), the terminal frame (its delta is `{}`),
   * or the `[DONE]` sentinel.
   */
  datatype Frame =
    | DeltaFrame(id: string, created: int, model: string, choices: seq<Choice>)
    | FinalFrame(id: string, created: int, model: string, finalChoices: seq<FinalChoice>, usage: Option<UsageBlock>)
    | DoneSentinel

  /** A delta frame of this stream: one choice, index 0, no finish reason. */
  predicate IsDeltaFrameOf(f: Frame, id: string, created: int, model: string) {
    && f.DeltaFrame? && f.id == id && f.created == created && f.model == model
    && |f.choices| == 1 && f.choices[0].index == 0 && f.choices[0].finishReason.None?
  }

  predicate HasRole(f: Frame) {
    f.DeltaFrame? && |f.choices| == 1 && f.choices[0].delta.role.Some?
  }

  /** Number of frames whose delta carries `role`. */
  function RoleCount(fs: seq<Frame>): nat {
    if fs == [] then 0 else RoleCount(fs[..|fs| - 1]) + (if HasRole(fs[|fs| - 1]) then 1 else 0)
  }

  /**
   * The delta carries the chunk's payload in the field its tag maps to, and no
   * other key except `role: "assistant"` on a message-opening chunk and
   * `content: null` beside it on a tool call.
   */
  predicate Carries(d: Delta, c: StreamChunk) {
    && (match c.kind
        case Text => c.data.Str? && d.content == Some(ContentText(c.data.s))
        case ThinkingContent => c.data.Str? && d.content == Some(ContentText(c.data.s))
        case RealThinking => d.reasoning == Some(c.data)
        case Reasoning => d.reasoning == Some(Get(c.data, "reasoning"))
        case ToolCode =>
          d.toolCalls.Some? && |d.toolCalls.value| == 1 && d.toolCalls.value[0].index == 0
          && d.toolCalls.value[0].kind == "function"
          && d.toolCalls.value[0].name == Get(c.data, "name")
          && d.toolCalls.value[0].arguments == Get(c.data, "args")
        case NativeTool => d.nativeToolCalls == Some([c.data])
        case GroundingMetadata => d.grounding == Some(c.data)
        case Usage => false)
    && (d.role.Some? ==> OpensMessage(c) && d.role == Some("assistant"))
    && (c.kind == ToolCode && d.content.Some? ==> d.content == Some(ContentNull) && d.role.Some?)
    && KeyCount(d) == 1 + (if d.role.Some? then 1 else 0) + (if c.kind == ToolCode && d.content.Some? then 1 else 0)
  }

  /**
   * The delta `transform` builds for chunk `c`, given whether no message-opening
   * delta has been sent yet and the uuid drawn for a tool call.
   */
  function DeltaFor(c: StreamChunk, first: bool, uuid: string): (d: Delta)
    ensures KeyCount(d) > 0 <==> Emits(c)
    ensures Emits(c) ==> Carries(d, c)
    ensures Emits(c) ==> KeyCount(d) == 1 + (if d.role.Some? then 1 else 0) + (if IsToolCall(c) && first then 1 else 0)
    ensures d.role.Some? <==> first && OpensMessage(c)
    ensures d.role.Some? ==> d.role.value == "assistant"
    ensures IsToolCall(c) ==> d.toolCalls.value[0].id == "call_" + uuid
    ensures IsToolCall(c) ==> (d.content.Some? <==> first) && (first ==> d.content == Some(ContentNull))
    ensures c.kind == Reasoning && Emits(c) && !HasKey(c.data, "reasoning") ==> d.reasoning == Some(Undefined)
  {
    var role := if first then Some("assistant") else None;
    match c.kind
    case Text | ThinkingContent =>
      if c.data.Str? then EmptyDelta.(content := Some(ContentText(c.data.s)), role := role) else EmptyDelta
    case RealThinking =>
      if c.data.Str? then EmptyDelta.(reasoning := Some(c.data)) else EmptyDelta
    case Reasoning =>
      if IsReasoningData(c.data) then EmptyDelta.(reasoning := Some(Get(c.data, "reasoning"))) else EmptyDelta
    case ToolCode =>
      if IsGeminiFunctionCall(c.data) then
        EmptyDelta.(
          toolCalls := Some([ToolCall(0, "call_" + uuid, "function", Get(c.data, "name"), Get(c.data, "args"))]),
          role := role,
          content := if first then Some(ContentNull) else None)
      else EmptyDelta
    case NativeTool =>
      if IsNativeToolResponse(c.data) then EmptyDelta.(nativeToolCalls := Some([c.data])) else EmptyDelta
    case GroundingMetadata =>
      if Truthy(c.data) then EmptyDelta.(grounding := Some(c.data)) else EmptyDelta
    case Usage => EmptyDelta
  }

  // ---------------------------------------------------------------------------
  // What a stream of chunks amounts to
  // ---------------------------------------------------------------------------

  /** The chunks that produced a delta frame, in order. */
  function Emitted(h: seq<StreamChunk>): seq<StreamChunk>
  {
    if h == [] then [] else Emitted(h[..|h| - 1]) + (if Emits(h[|h| - 1]) then [h[|h| - 1]] else [])
  }

  /** At most one frame per chunk, and only chunks that pass their check produce one. */
  lemma {:induction false} EmittedOnlyValid(h: seq<StreamChunk>)
    ensures |Emitted(h)| <= |h|
    ensures forall k :: 0 <= k < |Emitted(h)| ==> Emits(Emitted(h)[k])
  {
    if h != [] {
      EmittedOnlyValid(h[..|h| - 1]);
    }
  }

  /** The payload of the last recorded usage chunk (last one wins). */
  function LastUsage(h: seq<StreamChunk>): (r: Option<Json>)
    ensures r.Some? ==> IsUsageData(r.value)
  {
    if h == [] then None
    else if IsRecordedUsage(h[|h| - 1]) then Some(h[|h| - 1].data)
    else LastUsage(h[..|h| - 1])
  }

  /** Usage is known exactly when some chunk was a valid usage record, and it is the last such record. */
  lemma {:induction false} LastUsageIsLastRecord(h: seq<StreamChunk>)
    ensures LastUsage(h).Some? <==> exists k :: 0 <= k < |h| && IsRecordedUsage(h[k])
    ensures LastUsage(h).Some? ==>
      exists k :: (&& 0 <= k < |h| && IsRecordedUsage(h[k]) && LastUsage(h).value == h[k].data
                   && forall j :: k < j < |h| ==> !IsRecordedUsage(h[j]))
  {
    if h != [] && !IsRecordedUsage(h[|h| - 1]) {
      LastUsageIsLastRecord(h[..|h| - 1]);
      assert forall k :: 0 <= k < |h| - 1 ==> h[..|h| - 1][k] == h[k];
    }
  }

  ghost predicate SawToolCall(h: seq<StreamChunk>) {
    exists k :: 0 <= k < |h| && IsToolCall(h[k])
  }

  ghost predicate SawOpening(h: seq<StreamChunk>) {
    exists k :: 0 <= k < |h| && OpensMessage(h[k])
  }

  /** The finish reason a stream of these chunks ends with. */
  ghost function FinishReasonFor(h: seq<StreamChunk>): string {
    if SawToolCall(h) then "tool_calls" else "stop"
  }

  /** The usage block of the terminal frame: the total is computed, not taken from upstream. */
  function UsageBlockOf(usage: Option<Json>): (r: Option<UsageBlock>)
    ensures r.Some? <==> usage.Some?
    ensures r.Some? ==>
      && r.value.promptTokens == Get(usage.value, "inputTokens")
      && r.value.completionTokens == Get(usage.value, "outputTokens")
      && r.value.totalTokens == Plus(r.value.promptTokens, r.value.completionTokens)
  {
    match usage
    case None => None
    case Some(u) =>
      Some(UsageBlock(Get(u, "inputTokens"), Get(u, "outputTokens"), Plus(Get(u, "inputTokens"), Get(u, "outputTokens"))))
  }

  lemma SawToolCallAppend(h: seq<StreamChunk>, c: StreamChunk)
    ensures SawToolCall(h + [c]) <==> SawToolCall(h) || IsToolCall(c)
  {
    if IsToolCall(c) { assert (h + [c])[|h|] == c; }
    if SawToolCall(h) {
      var k :| 0 <= k < |h| && IsToolCall(h[k]);
      assert (h + [c])[k] == h[k];
    }
  }

  lemma SawOpeningAppend(h: seq<StreamChunk>, c: StreamChunk)
    ensures SawOpening(h + [c]) <==> SawOpening(h) || OpensMessage(c)
  {
    if OpensMessage(c) { assert (h + [c])[|h|] == c; }
    if SawOpening(h) {
      var k :| 0 <= k < |h| && OpensMessage(h[k]);
      assert (h + [c])[k] == h[k];
    }
  }

  lemma HistoryAppend(h: seq<StreamChunk>, c: StreamChunk)
    ensures Emitted(h + [c]) == Emitted(h) + (if Emits(c) then [c] else [])
    ensures LastUsage(h + [c]) == if IsRecordedUsage(c) then Some(c.data) else LastUsage(h)
  {
    assert (h + [c])[..|h|] == h;
  }

  /** Frame `k` is a delta frame of this stream that carries chunk `k`, for every `k`. */
  ghost predicate FramesCarry(fs: seq<Frame>, cs: seq<StreamChunk>, id: string, created: int, model: string) {
    && |fs| == |cs|
    && forall k :: 0 <= k < |cs| ==>
         IsDeltaFrameOf(fs[k], id, created, model) && Carries(fs[k].choices[0].delta, cs[k])
  }

  lemma FramesCarryAppend(fs: seq<Frame>, cs: seq<StreamChunk>, f: Frame, c: StreamChunk,
                          id: string, created: int, model: string)
    requires FramesCarry(fs, cs, id, created, model)
    requires IsDeltaFrameOf(f, id, created, model) && Carries(f.choices[0].delta, c)
    ensures FramesCarry(fs + [f], cs + [c], id, created, model)
  {
    forall k | 0 <= k < |cs| + 1
      ensures IsDeltaFrameOf((fs + [f])[k], id, created, model) && Carries((fs + [f])[k].choices[0].delta, (cs + [c])[k])
    {
      if k < |cs| {
        assert (fs + [f])[k] == fs[k] && (cs + [c])[k] == cs[k];
      }
    }
  }

  lemma RoleCountAppend(fs: seq<Frame>, f: Frame)
    ensures RoleCount(fs + [f]) == RoleCount(fs) + (if HasRole(f) then 1 else 0)
  {
    assert (fs + [f])[..|fs|] == fs;
  }

  // ---------------------------------------------------------------------------
  // The transformer
  // ---------------------------------------------------------------------------

  /** The state `createOpenAIStreamTransformer` captures, and the frames it has enqueued. */
  class OpenAIStreamTransformer {
    const model: string
    const chatId: string
    const creationTime: int
    var firstChunk: bool
    var toolCallId: Option<string>
    var toolCallName: Option<Json>
    var usageData: Option<Json>
    /** The frames enqueued so far, in order. */
    var output: seq<Frame>
    /** The chunks transformed so far. */
    ghost var history: seq<StreamChunk>
    /** Whether `flush` has run. */
    ghost var closed: bool

    /** The session state agrees with the chunks seen so far. */
    ghost predicate StateValid()
      reads this
    {
      && (toolCallId.Some? <==> SawToolCall(history))
      && (toolCallId.Some? ==> |toolCallId.value| >= 5 && toolCallId.value[..5] == "call_")
      && (firstChunk <==> !SawOpening(history))
      && usageData == LastUsage(history)
    }

    /** The output holds one delta frame per emitting chunk, in order, then the closing pair once closed. */
    ghost predicate OutputValid()
      reads this
    {
      && |output| == |Emitted(history)| + (if closed then 2 else 0)
      && FramesCarry(output[..|Emitted(history)|], Emitted(history), chatId, creationTime, model)
      && RoleCount(output[..|Emitted(history)|]) == (if SawOpening(history) then 1 else 0)
    }

    ghost predicate Valid()
      reads this
    {
      StateValid() && OutputValid()
    }

    /** A fresh transformer for one stream: `chatcmpl-<uuid>`, creation time in whole seconds. */
    constructor (model: string, uuid: string, nowMillis: int)
      ensures Valid() && !closed
      ensures this.model == model && chatId == "chatcmpl-" + uuid && creationTime == nowMillis / 1000
      ensures history == [] && output == []
    {
      this.model := model;
      chatId := "chatcmpl-" + uuid;
      creationTime := nowMillis / 1000;
      firstChunk := true;
      toolCallId := None;
      toolCallName := None;
      usageData := None;
      output := [];
      history := [];
      closed := false;
    }

    /**
     * The `switch` of `transform`: fills the delta key by key and updates the
     * session state. A usage chunk only records its payload.
     */
    method FillDelta(chunk: StreamChunk, uuid: string) returns (delta: Delta)
      modifies this`firstChunk, this`toolCallId, this`toolCallName, this`usageData
      ensures delta == DeltaFor(chunk, old(firstChunk), uuid)
      ensures firstChunk == (old(firstChunk) && !OpensMessage(chunk))
      ensures toolCallId == if IsToolCall(chunk) then Some("call_" + uuid) else old(toolCallId)
      ensures toolCallName == if IsToolCall(chunk) then Some(Get(chunk.data, "name")) else old(toolCallName)
      ensures usageData == if IsRecordedUsage(chunk) then Some(chunk.data) else old(usageData)
    {
      delta := EmptyDelta;
      match chunk.kind {
        case Text | ThinkingContent =>
          if chunk.data.Str? {
            delta := delta.(content := Some(ContentText(chunk.data.s)));
            if firstChunk {
              delta := delta.(role := Some("assistant"));
              firstChunk := false;
            }
          }
        case RealThinking =>
          if chunk.data.Str? {
            delta := delta.(reasoning := Some(chunk.data));
          }
        case Reasoning =>
          if IsReasoningData(chunk.data) {
            delta := delta.(reasoning := Some(Get(chunk.data, "reasoning")));
          }
        case ToolCode =>
          if IsGeminiFunctionCall(chunk.data) {
            toolCallName := Some(Get(chunk.data, "name"));
            toolCallId := Some("call_" + uuid);
            delta := delta.(toolCalls := Some([ToolCall(0, toolCallId.value, "function", toolCallName.value, Get(chunk.data, "args"))]));
            if firstChunk {
              delta := delta.(role := Some("assistant"), content := Some(ContentNull));
              firstChunk := false;
            }
          }
        case NativeTool =>
          if IsNativeToolResponse(chunk.data) {
            delta := delta.(nativeToolCalls := Some([chunk.data]));
          }
        case GroundingMetadata =>
          if Truthy(chunk.data) {
            delta := delta.(grounding := Some(chunk.data));
          }
        case Usage =>
          if IsUsageData(chunk.data) {
            usageData := Some(chunk.data);
          }
      }
    }

    /**
     * `transform`: emits at most one delta frame for the chunk and updates the
     * session state; a usage chunk is recorded and never emits (the source
     * returns before enqueueing).
     */
    method Transform(chunk: StreamChunk, uuid: string)
      requires Valid() && !closed
      modifies this
      ensures Valid() && !closed
      ensures history == old(history) + [chunk]
      ensures output == old(output) +
        (if Emits(chunk)
         then [DeltaFrame(chatId, creationTime, model, [Choice(0, DeltaFor(chunk, old(firstChunk), uuid), None)])]
         else [])
      ensures firstChunk == (old(firstChunk) && !OpensMessage(chunk))
      ensures toolCallId == if IsToolCall(chunk) then Some("call_" + uuid) else old(toolCallId)
      ensures toolCallName == if IsToolCall(chunk) then Some(Get(chunk.data, "name")) else old(toolCallName)
      ensures usageData == if IsRecordedUsage(chunk) then Some(chunk.data) else old(usageData)
    {
      assert output[..|Emitted(history)|] == output;
      ghost var first := firstChunk;
      var delta := FillDelta(chunk, uuid);
      if chunk.kind != Usage && KeyCount(delta) > 0 {
        output := output + [DeltaFrame(chatId, creationTime, model, [Choice(0, delta, None)])];
      }
      history := history + [chunk];
      StateValidAfterStep(old(history), chunk, uuid, first, old(toolCallId), old(usageData));
      OutputValidAfterStep(old(history), old(output), chunk, first, uuid);
    }

    /** Restores `StateValid()` after one step, from the old history and state. */
    lemma StateValidAfterStep(h: seq<StreamChunk>, chunk: StreamChunk, uuid: string,
                              first: bool, callId: Option<string>, usage: Option<Json>)
      requires history == h + [chunk]
      requires callId.Some? <==> SawToolCall(h)
      requires callId.Some? ==> |callId.value| >= 5 && callId.value[..5] == "call_"
      requires first <==> !SawOpening(h)
      requires usage == LastUsage(h)
      requires firstChunk == (first && !OpensMessage(chunk))
      requires toolCallId == if IsToolCall(chunk) then Some("call_" + uuid) else callId
      requires usageData == if IsRecordedUsage(chunk) then Some(chunk.data) else usage
      ensures StateValid()
    {
      HistoryAppend(h, chunk);
      SawToolCallAppend(h, chunk);
      SawOpeningAppend(h, chunk);
      assert ("call_" + uuid)[..5] == "call_";
    }

    /** Restores `OutputValid()` after one step, from the old history and output. */
    lemma OutputValidAfterStep(h: seq<StreamChunk>, out: seq<Frame>, chunk: StreamChunk, first: bool, uuid: string)
      requires history == h + [chunk] && !closed
      requires FramesCarry(out, Emitted(h), chatId, creationTime, model)
      requires RoleCount(out) == (if SawOpening(h) then 1 else 0)
      requires first <==> !SawOpening(h)
      requires output == out + (if Emits(chunk)
         then [DeltaFrame(chatId, creationTime, model, [Choice(0, DeltaFor(chunk, first, uuid), None)])] else [])
      ensures OutputValid()
    {
      HistoryAppend(h, chunk);
      SawOpeningAppend(h, chunk);
      if Emits(chunk) {
        var f := DeltaFrame(chatId, creationTime, model, [Choice(0, DeltaFor(chunk, first, uuid), None)]);
        FramesCarryAppend(out, Emitted(h), f, chunk, chatId, creationTime, model);
        RoleCountAppend(out, f);
      }
      assert output[..|Emitted(history)|] == output;
    }

    /**
     * `flush`: the terminal frame (empty delta, finish reason, usage if one was
     * recorded), then the `[DONE]` sentinel; nothing can follow.
     */
    method Flush()
      requires Valid() && !closed
      modifies this
      ensures Valid() && closed
      ensures history == old(history) && firstChunk == old(firstChunk)
      ensures toolCallId == old(toolCallId) && toolCallName == old(toolCallName) && usageData == old(usageData)
      ensures output == old(output) + [
        FinalFrame(chatId, creationTime, model, [FinalChoice(0, FinishReasonFor(history))], UsageBlockOf(LastUsage(history))),
        DoneSentinel]
    {
      assert output[..|Emitted(history)|] == output;
      var finishReason := if toolCallId.Some? && toolCallId.value != "" then "tool_calls" else "stop";
      assert finishReason == FinishReasonFor(history) by {
        if toolCallId.Some? {
          assert toolCallId.value[..5] == "call_";
        }
      }
      var usage := UsageBlockOf(usageData);
      output, closed := output + [FinalFrame(chatId, creationTime, model, [FinalChoice(0, finishReason)], usage), DoneSentinel], true;
      assert output[..|Emitted(history)|] == old(output);
    }
  }

  /** Every chunk of `chunks` through `transform`, in order, on a transformer that has seen nothing yet. */
  method FeedAll(t: OpenAIStreamTransformer, chunks: seq<StreamChunk>, callUuids: seq<string>)
    requires |callUuids| == |chunks|
    requires t.Valid() && !t.closed && t.history == []
    modifies t
    ensures t.Valid() && !t.closed && t.history == chunks
  {
    var i := 0;
    while i < |chunks|
      invariant 0 <= i <= |chunks|
      invariant t.Valid() && !t.closed && t.history == chunks[..i]
    {
      t.Transform(chunks[i], callUuids[i]);
      assert chunks[..i + 1] == chunks[..i] + [chunks[i]];
      i := i + 1;
    }
    assert chunks[..i] == chunks;
  }

  /**
   * A whole stream: every chunk through `transform` in order, then `flush`.
   * `callUuids[k]` is the uuid drawn if chunk `k` is a tool call.
   */
  method TransformStream(model: string, uuid: string, nowMillis: int, chunks: seq<StreamChunk>, callUuids: seq<string>)
    returns (frames: seq<Frame>)
    requires |callUuids| == |chunks|
    ensures |frames| == |Emitted(chunks)| + 2
    ensures FramesCarry(frames[..|frames| - 2], Emitted(chunks), "chatcmpl-" + uuid, nowMillis / 1000, model)
    ensures frames[|frames| - 2] == FinalFrame("chatcmpl-" + uuid, nowMillis / 1000, model,
      [FinalChoice(0, FinishReasonFor(chunks))], UsageBlockOf(LastUsage(chunks)))
    ensures frames[|frames| - 1] == DoneSentinel
    ensures RoleCount(frames[..|frames| - 2]) == if SawOpening(chunks) then 1 else 0
  {
    var t := new OpenAIStreamTransformer(model, uuid, nowMillis);
    FeedAll(t, chunks, callUuids);
    var deltas := t.output;
    assert deltas[..|Emitted(chunks)|] == deltas;
    t.Flush();
    frames := t.output;
    assert frames[..|frames| - 2] == deltas;
  }
}
