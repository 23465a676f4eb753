/**
 * The records the native-tools code exchanges: grounding metadata returned with
 * a search-grounded answer, the citation sources derived from it, and the
 * settings, request parameters and resolved configuration of native tools.
 * Fields the code reads with `?.` (or that may be missing at run time) are
 * `Option`s.
 */
module NativeToolsTypes {
  import opened Wrappers
  import opened JsValues

  /** A web source a grounded answer relies on. */
  datatype WebSource = WebSource(uri: Option<string>, title: string)

  /** One grounding chunk; its `web` part may be missing. */
  datatype GroundingChunk = GroundingChunk(web: Option<WebSource>)

  /** A character range of the answer text, in the coordinates of the original text. */
  datatype Segment = Segment(startIndex: Option<int>, endIndex: Option<int>, text: string)

  /** A supported range and the indices of the chunks that support it. */
  datatype GroundingSupport = GroundingSupport(segment: Option<Segment>, groundingChunkIndices: Option<seq<int>>)

  datatype SearchEntryPoint = SearchEntryPoint(renderedContent: string)

  datatype GroundingMetadata = GroundingMetadata(
    webSearchQueries: Option<seq<string>>,
    searchEntryPoint: Option<SearchEntryPoint>,
    groundingChunks: Option<seq<GroundingChunk>>,
    groundingSupports: Option<seq<GroundingSupport>>)

  /** A numbered source; `uri` is copied as found, so it may be missing. */
  datatype CitationSource = CitationSource(id: nat, title: string, uri: Option<string>)

  /** `{ google_search: {} }` or `{ url_context: {} }`. */
  datatype NativeTool = GoogleSearch | UrlContext

  datatype ConfigPriority = NativePriority | CustomPriority

  datatype ToolType = SearchAndUrl | CustomOnly

  /** The resolved tool configuration; `Tool` is the caller's custom tool type. */
  datatype NativeToolsConfiguration<Tool> = NativeToolsConfiguration(
    useNativeTools: bool,
    useCustomTools: bool,
    nativeTools: seq<NativeTool>,
    customTools: Option<seq<Tool>>,
    priority: ConfigPriority,
    toolType: ToolType)

  /** `nativeToolsPriority` of a request: `"native"`, `"custom"` or `"mixed"`. */
  datatype RequestPriority = RequestNative | RequestCustom | RequestMixed

  datatype NativeToolsRequestParams = NativeToolsRequestParams(
    enableSearch: Option<bool>,
    enableUrlContext: Option<bool>,
    enableNativeTools: Option<bool>,
    nativeToolsPriority: Option<RequestPriority>)

  /** `priority` of the environment: `"native_first"`, `"custom_first"` or `"user_choice"`. */
  datatype EnvPriority = NativeFirst | CustomFirst | UserChoice

  datatype NativeToolsEnvSettings = NativeToolsEnvSettings(
    enableNativeTools: bool,
    enableGoogleSearch: bool,
    enableUrlContext: bool,
    priority: EnvPriority,
    defaultToNativeTools: bool,
    allowRequestControl: bool,
    enableInlineCitations: bool,
    includeGroundingMetadata: bool,
    includeSearchEntryPoint: bool)

  datatype NativeToolKind = SearchResult | UrlContextResult

  /** The result of a provider-side tool call, passed through to the client. */
  datatype NativeToolResponse = NativeToolResponse(kind: NativeToolKind, data: Json, metadata: Option<Json>)
}
