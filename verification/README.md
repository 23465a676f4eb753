# Gemini-to-OpenAI proxy core: citations, streaming, native-tool policy

This project is a Dafny model of three parts of a proxy. The proxy serves
Gemini models behind an OpenAI-compatible chat-completions API.

- **Citations processor** (`src/helpers/citations-processor.ts`). When inline
  citations are switched on, it takes a text chunk and the grounding metadata
  Gemini returned with it. Each grounding support names a segment end and some
  chunk indices. For each one it inserts Markdown links such as
  `[1](https://…), [3](https://…)` at a "safe" point: the first whitespace or
  punctuation character at or after the segment end. Supports are handled in
  ascending `startIndex` order, and a running `offset` accounts for text
  already inserted. Read-only views give the search queries, the numbered
  source list, the search entry point and a summary.
  Model: `CitationsProcessor` in `citations_processor.dfy`, with worked
  examples in `CitationsExamples`.
- **Stream transformer** (`src/stream-transformer.ts`). It turns Gemini's
  typed stream chunks into OpenAI `chat.completion.chunk` frames. It keeps
  four pieces of per-stream state:
  - whether the `assistant` role was already sent;
  - the id of the last tool call;
  - the name of the last tool call;
  - the last valid usage record.

  The stream ends with a final frame (`stop` or `tool_calls`, plus usage when
  known) and a `[DONE]` sentinel.
  Model: the class `StreamTransformer.OpenAIStreamTransformer`, whose fields
  are the closure's variables plus the frames enqueued so far. The method
  `StreamTransformer.TransformStream` drives a whole stream.
- **Native-tools manager** (`src/helpers/native-tools-manager.ts`). For each
  request it chooses between Google's own tools (Google Search, URL context)
  and the caller's custom function tools. The inputs are the environment
  settings, the per-request overrides and the model id.
  Model: `NativeToolsManager` in `native_tools_manager.dfy`. Its record types
  are in `NativeToolsTypes`.

Supporting modules:
- `Wrappers`: an `Option` type.
- `Strings`: decimal rendering of a natural number and `Array.prototype.join`.
- `JsValues`: JSON-like values with JavaScript truthiness and the `in` operator.

Both manager classes hold only configuration fixed at construction, so they
are modelled as functions that take that configuration as a parameter. The
citations processor takes its `enableInlineCitations` flag; the manager takes
a `NativeToolsEnvSettings` value. The stream transformer's state changes on
every chunk, so it is modelled as a class.

Randomness and the clock are parameters:
- `crypto.randomUUID()` becomes a `uuid` string argument;
- `Date.now()` becomes `nowMillis`;
- the creation time is `nowMillis / 1000`, rounded down.

The model follows the code in these places, including where the code
differs from the documented intent:
- **No safe break after the index.** `findSafeInsertionPoint` returns the raw
  index, not the end of the text, so the citation splits the word
  (`CitationsExamples.NoBreakFallsBackToRawIndex`).
- **Negative segment end.** The guard accepts a negative `endIndex`. The
  scan for a safe point starts at `endIndex + offset`, where `offset` is the
  length of the citations already inserted into this chunk.
  - While that sum is negative (always, for the chunk's first insertion),
    `charAt` matches nothing before position 0, so the scan in effect starts
    at the beginning of the text. If the text has a break character, the
    marker goes at the first one: `"a b"` with end −1 gets it at 1
    (`CitationsExamples.NegativeEndFindsFirstBreak`). Only a text without any
    break character lets the negative index reach `slice`, which counts it
    from the end (`CitationsExamples.NegativeEndCountsFromTheEnd`, on `"ab"`).
  - Once earlier citations make the sum non-negative, the support is placed
    like any other, from that shifted position. In `"a b c"`, a support ending
    at 5 and then one ending at −1 give `"a b c[2](v)[1](u)"`: the second scan
    starts at 5, inside the first reference, finds no break and falls back to
    5 (`CitationsExamples.OffsetLiftsNegativeEnd`).
- **`reasoning` payload without a `reasoning` key.** A payload that has only
  `toolCode` still produces a frame; its delta's `reasoning` is `undefined`.
- **Usage records.** The last valid usage record wins. A usage chunk never
  produces a frame.
- **Missing grounding chunks.** `extractSourceList`, and so
  `createGroundingSummary`, throws when `groundingChunks` is missing or a
  chunk has no `web` entry. This is modelled as `None`. As a result the
  `|| 0` fallback for `sourceCount` is unreachable.

## Model

| member | source | states |
|---|---|---|
| CitationsProcessor.FirstBreakFrom | src/helpers/citations-processor.ts:31-37 | the forward scan returns the first whitespace/punctuation position at or after the start, or none when no later character is a break |
| CitationsProcessor.SafeInsertionPoint | src/helpers/citations-processor.ts:19-41 | an index at or past the end gives the text length; otherwise the first break at or after the index, or the raw index when none exists; a non-negative index gives a position within the text |
| CitationsProcessor.FindSafeInsertionPoint | src/helpers/citations-processor.ts:19-41 | the early-return loop computes exactly `SafeInsertionPoint` and stays within the text for a non-negative index |
| CitationsProcessor.SlicePos | src/helpers/citations-processor.ts:88-89 | JavaScript `slice` bound: a negative index counts from the end, the result is clamped to the string |
| CitationsProcessor.Splice | src/helpers/citations-processor.ts:88-89 | splicing a string in adds exactly its length |
| CitationsProcessor.SpliceKeepsContext | src/helpers/citations-processor.ts:88-89 | the text before the splice point and after it is kept intact around the inserted string |
| CitationsProcessor.ChunkUri | src/helpers/citations-processor.ts:73-74 | a URI is produced iff the index is in range and its chunk has a non-empty `web.uri`, and it is that URI |
| CitationsProcessor.Link | src/helpers/citations-processor.ts:75 | the marker is at least five characters long and opens with `[` |
| CitationsProcessor.LinkReadBack | src/helpers/citations-processor.ts:75 | the marker reads back as `[`, a run of decimal digits whose value is the 1-based index, `](`, exactly the URI, and `)` |
| CitationsProcessor.CitationLinks | src/helpers/citations-processor.ts:71-79 | map-then-filter keeps at most one non-empty link per index, and yields nothing exactly when no index has a usable URI |
| CitationsProcessor.CitationLinksAppend | src/helpers/citations-processor.ts:71-79 | the links of a concatenation of index lists are the concatenated links (order preserved) |
| CitationsProcessor.CitationLinksSingle | src/helpers/citations-processor.ts:71-79 | one index with a URI yields exactly its marker; one without yields nothing |
| CitationsProcessor.AcceptedSpan | src/helpers/citations-processor.ts:57-69 | a support is processed iff start and end are present, there is at least one chunk index, start is non-negative and end is at most the chunk length |
| CitationsProcessor.InsertedEmptyIff | src/helpers/citations-processor.ts:71-82 | nothing is inserted iff the support is skipped or none of its indices has a URI; otherwise the joined links are non-empty |
| CitationsProcessor.SortByStart | src/helpers/citations-processor.ts:52-54 | the sorted copy has exactly as many supports as the input (order, permutation and stability: `SortByStartCorrect`) |
| CitationsProcessor.InsertByStartPermutes | src/helpers/citations-processor.ts:52-54 | inserting one support keeps the multiset of supports |
| CitationsProcessor.InsertByStartSorted | src/helpers/citations-processor.ts:52-54 | inserting into a list sorted by start (missing start = 0) keeps it sorted |
| CitationsProcessor.InsertByStartStable | src/helpers/citations-processor.ts:52-54 | inserting keeps the relative order of supports with equal start keys |
| CitationsProcessor.SortByStartCorrect | src/helpers/citations-processor.ts:52-54 | the sorted copy is ordered by start key, is a permutation of the supports, and keeps equal keys in their original order (stable sort) |
| CitationsProcessor.ApplySupport | src/helpers/citations-processor.ts:57-92 | one iteration grows the text and the offset by the same non-negative amount, and any change to the text strictly grows the offset |
| CitationsProcessor.ApplySupportSplices | src/helpers/citations-processor.ts:81-92 | one step splices the support's citation string at the safe point computed from `endIndex + offset` and grows the offset by its length, leaving the rest of the text unchanged |
| CitationsProcessor.OffsetIsInsertedLength | src/helpers/citations-processor.ts:84-91 | after any prefix of supports, `offset` is the total length of the strings inserted so far, and the text is the original length plus `offset` |
| CitationsProcessor.NothingInsertedKeepsText | src/helpers/citations-processor.ts:56-93 | when every support is skipped or has no usable URI, the text comes back unchanged |
| CitationsProcessor.Annotate | src/helpers/citations-processor.ts:43-95 | citations off, missing metadata, missing supports or missing chunks return the chunk unchanged |
| CitationsProcessor.AnnotateLength | src/helpers/citations-processor.ts:48-95 | with citations on and data present, the result is exactly as long as the chunk plus every citation string inserted for the sorted supports |
| CitationsProcessor.CiteSupport | src/helpers/citations-processor.ts:57-92 | the loop body for one support computes exactly one step of the specification: skip, or splice the joined links at the safe point and grow the offset |
| CitationsProcessor.ProcessChunk | src/helpers/citations-processor.ts:43-96 | the loop over the sorted supports computes exactly `Annotate`; disabled citations return the chunk |
| CitationsProcessor.ExtractSearchQueries | src/helpers/citations-processor.ts:101-103 | the queries when present, otherwise the empty list |
| CitationsProcessor.SourcesFrom | src/helpers/citations-processor.ts:108-114 | numbering chunks from a first id gives consecutive ids with each chunk's title and URI |
| CitationsProcessor.ExtractSourceList | src/helpers/citations-processor.ts:108-114 | defined iff the chunks exist and each has `web`; then one source per chunk, source k has id k+1 and chunk k's title and URI |
| CitationsProcessor.GetSearchEntryPoint | src/helpers/citations-processor.ts:119-121 | the rendered content when present and non-empty, otherwise null |
| CitationsProcessor.CreateGroundingSummary | src/helpers/citations-processor.ts:126-140 | defined exactly when the source list is; counts equal the lengths of queries, chunks and supports (0 when absent) and the lists are the extracted ones |
| CitationsExamples.OneLinkStep | src/helpers/citations-processor.ts:71-91 | a support naming one chunk with a URI splices exactly that chunk's reference at the safe point and grows the offset by its length |
| CitationsExamples.OneReference | src/helpers/citations-processor.ts:43-95 | a chunk with a single such support comes back with that one reference spliced in |
| CitationsExamples.SpanAtEndOfText | src/helpers/citations-processor.ts:20-23 | a support ending at the text end appends the marker after the last character |
| CitationsExamples.TwoSpansFirstStep | src/helpers/citations-processor.ts:84-91 | the first of two supports inserts its marker before the space and sets the offset to the marker length |
| CitationsExamples.TwoSpansSecondStep | src/helpers/citations-processor.ts:84-91 | the second support's end is shifted by the offset, so its marker lands at the end of the shifted text |
| CitationsExamples.TwoSpansAccumulateOffset | src/helpers/citations-processor.ts:84-91 | two supports on "ab cd" give "ab[1](u) cd[2](v)" |
| CitationsExamples.NoBreakFallsBackToRawIndex | src/helpers/citations-processor.ts:39-40 | with no break after the index the marker is inserted mid-word at the raw index |
| CitationsExamples.NegativeEndCountsFromTheEnd | src/helpers/citations-processor.ts:61-66 | on the chunk's first insertion (offset 0) in a text without any break character, a negative end index passes the guard and is placed by `slice` counted from the end |
| CitationsExamples.OffsetLiftsNegativeEndFirstStep | src/helpers/citations-processor.ts:84-91 | a first support ending at the text end appends its marker and sets the offset to its length |
| CitationsExamples.OffsetLiftsNegativeEndSecondStep | src/helpers/citations-processor.ts:84-91 | a support ending at −1 after a 6-character insertion is searched from position 5; with no break after it the raw index is used, so its marker precedes the first one |
| CitationsExamples.OffsetLiftsNegativeEnd | src/helpers/citations-processor.ts:84-91 | "a b c" with supports ending at 5 and at −1 becomes "a b c[2](v)[1](u)": the offset, not the start of the text, decides where a negative end lands after an insertion |
| CitationsExamples.NegativeEndFindsFirstBreak | src/helpers/citations-processor.ts:31-36 | on the chunk's first insertion (offset 0), a negative end index in a text with a break character puts the marker at the text's first break ("a b" becomes "a[1](u) b") |
| CitationsExamples.OutOfRangeIndexInsertsNothing | src/helpers/citations-processor.ts:73-81 | a chunk index past the chunk list yields no link and the text is unchanged |
| Strings.NatToDecimal | src/helpers/citations-processor.ts:75 | the decimal rendering of the index is non-empty, all digits, with no leading zero |
| Strings.DecimalRoundTrip | src/helpers/citations-processor.ts:75 | reading back the decimal rendering gives the number |
| Strings.JoinLength | src/helpers/citations-processor.ts:82 | `join(", ")` has the parts' total length plus one separator between each pair |
| Strings.JoinEmptyIff | src/helpers/citations-processor.ts:81-82 | joining non-empty parts is empty iff there are no parts |
| StreamTransformer.IsReasoningData | src/stream-transformer.ts:65-67 | true iff the payload is a plain object owning `reasoning` or `toolCode` (a key counts even when its value is undefined); null, primitives and arrays fail |
| StreamTransformer.IsGeminiFunctionCall | src/stream-transformer.ts:69-71 | true iff the payload is a plain object owning both `name` and `args` |
| StreamTransformer.IsUsageData | src/stream-transformer.ts:73-75 | true iff the payload is a plain object owning both `inputTokens` and `outputTokens` |
| StreamTransformer.IsNativeToolResponse | src/stream-transformer.ts:76-78 | true iff the payload is a plain object owning both `type` and `data` |
| StreamTransformer.Emits | src/stream-transformer.ts:152-159 | a usage chunk never produces a frame, nor does an undefined or null payload |
| StreamTransformer.KeyCount | src/stream-transformer.ts:159 | `Object.keys(delta).length` is at most six and is zero exactly for the empty delta |
| StreamTransformer.DeltaFor | src/stream-transformer.ts:95-157 | the delta has a key iff the chunk passes its type's guard; it carries the payload in its tag's field and has no other key except `role` on the first text/thinking/tool chunk and `content: null` beside it on a first tool call; a tool call has id `call_`+uuid; a `reasoning` payload's value is copied even when undefined |
| StreamTransformer.LastUsage | src/stream-transformer.ts:152-156 | a recorded usage payload always passes `isUsageData` |
| StreamTransformer.LastUsageIsLastRecord | src/stream-transformer.ts:152-156 | usage is known iff some chunk was a valid usage record, and then it is the payload of the last such chunk (last one wins) |
| StreamTransformer.EmittedOnlyValid | src/stream-transformer.ts:98-159 | at most one frame per chunk, and only chunks whose payload passes their guard produce one |
| StreamTransformer.UsageBlockOf | src/stream-transformer.ts:189-195 | usage is reported only when recorded; prompt and completion copy the input/output tokens and the total is their sum |
| StreamTransformer.HistoryAppend | src/stream-transformer.ts:152-177 | one more chunk adds a frame exactly when it emits, and replaces the usage exactly when it is a valid usage record |
| StreamTransformer.OpenAIStreamTransformer.constructor | src/stream-transformer.ts:84-91 | id `chatcmpl-`+uuid, creation time in whole seconds, first chunk pending, no tool call, no usage, no frames |
| StreamTransformer.OpenAIStreamTransformer.FillDelta | src/stream-transformer.ts:98-157 | the switch builds `DeltaFor` of the chunk and updates first-chunk flag, tool-call id/name and usage as each case does |
| StreamTransformer.OpenAIStreamTransformer.Transform | src/stream-transformer.ts:94-178 | a frame with the stream id, time, model and the delta is enqueued iff the delta is non-empty and the chunk is not usage; the state invariant (role sent at most once, tool id shape, last usage) is preserved |
| StreamTransformer.OpenAIStreamTransformer.StateValidAfterStep | src/stream-transformer.ts:98-157 | the per-chunk field updates keep tool-call id, first-chunk flag and usage in step with the chunks seen |
| StreamTransformer.OpenAIStreamTransformer.OutputValidAfterStep | src/stream-transformer.ts:159-177 | appending a frame for an emitting chunk keeps every frame well formed and the role in at most one frame |
| StreamTransformer.OpenAIStreamTransformer.Flush | src/stream-transformer.ts:179-199 | appends the final frame (finish reason `tool_calls` iff a tool call was seen, else `stop`; usage iff recorded) and then the `[DONE]` sentinel |
| StreamTransformer.TransformStream | src/stream-transformer.ts:84-200 | a whole stream yields one delta frame per emitting chunk, in order, each a frame of this stream (`chatcmpl-`+uuid, creation time, model) carrying its chunk's payload and no key beyond the role and a tool call's null content, then the final frame and `[DONE]`; the role appears in exactly one frame iff some text/thinking/tool chunk was valid |
| NativeToolsManager.ContainsIff | src/helpers/native-tools-manager.ts:131-133 | `includes` holds iff the substring occurs at some position |
| NativeToolsManager.IsLegacyModel | src/helpers/native-tools-manager.ts:131-133 | legacy iff `gemini-1.5` occurs somewhere in the model id |
| NativeToolsManager.ShouldEnableGoogleSearch | src/helpers/native-tools-manager.ts:119-123 | an explicit request value wins, otherwise the environment default |
| NativeToolsManager.ShouldEnableUrlContext | src/helpers/native-tools-manager.ts:125-129 | an explicit request value wins, otherwise the environment default |
| NativeToolsManager.CreateNativeToolsArray | src/helpers/native-tools-manager.ts:55-70 | at most one tool; Google Search iff enabled and not legacy; URL context iff enabled and search not enabled |
| NativeToolsManager.CreateCustomOnlyConfig | src/helpers/native-tools-manager.ts:108-117 | custom tools only, no native tools, custom priority, custom-only type |
| NativeToolsManager.CreateSearchAndUrlConfig | src/helpers/native-tools-manager.ts:79-106 | custom-only iff the environment is custom-first, there are custom tools and the request does not ask for native; otherwise the native tool array with native priority |
| NativeToolsManager.DetermineToolConfiguration | src/helpers/native-tools-manager.ts:30-50 | exactly one of native/custom is used; native tools off or nothing requested gives custom-only; otherwise the search-and-URL decision; at most one native tool |
| NativeToolsManager.LegacySearchOnlyGetsNoTools | src/helpers/native-tools-manager.ts:59-63 | in a native-first environment (`priority` is `native_first`), a legacy model asking only for search still resolves to native tools, with an empty tool list |
| NativeToolsManager.ProcessCitationsInText | src/helpers/native-tools-manager.ts:75-77 | delegates to the citation rewriter with the environment's citation switch; off returns the text unchanged |

## Left out

- `parseEnvironmentSettings` (src/helpers/native-tools-manager.ts:135-149) is not modelled; the settings are an input. Its priority default comes from `NATIVE_TOOLS_DEFAULTS`, which is not part of this model.
- The environment priority is cast from a string without checking; a value other than the three named ones behaves like `user_choice` in the code and cannot be expressed in the model's three-valued type.
- `src/helpers/native-tools-response-processor.ts` is not part of this model.
- `crypto.randomUUID`, `Date.now`: replaced by parameters (`uuid`, `nowMillis`); the model does not say they are unique or monotone.
- Serialisation: `JSON.stringify`, `TextEncoder` and the `data: …\n\n` framing are not modelled; frames are values appended to a sequence, a tool call's `arguments` holds the value that would be serialised, and keys whose value is `undefined` (dropped by `JSON.stringify`) are kept in the value.
- The constant envelope fields `object` (from a constants module that is not part of this model), `logprobs`, `matched_stop` and `usage: null` of delta frames, and the empty `delta` of the final frame, are not represented.
- `TransformStream` plumbing (back-pressure, cancellation, errors raised by the controller) is not modelled; `TransformStream` the method feeds all chunks then flushes.
- A stream chunk whose `type` is none of the eight tags is not modelled (the switch would fall through with an empty delta).
- Numbers are integers: fractional or non-finite `startIndex`/`endIndex`, chunk indices and token counts are not modelled.
- Strings are sequences of characters; JavaScript's UTF-16 code units (surrogate pairs counted twice by `length` and `charAt`) are not modelled.
- StreamTransformer.UsageBlockOf: the total is the sum only when both token counts are numbers; JavaScript `+` on other values (string concatenation, `NaN`) is modelled as `undefined`.
- JavaScript arrays are objects, but the type guards are modelled as answering no for arrays (an array has none of the guarded keys as own keys); inherited prototype keys are not modelled.
- `Tool` (the caller's function tool type) comes from a types module that is not part of this model; it is a type parameter.
