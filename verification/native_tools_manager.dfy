/**
 * The native-tools policy: given the environment's settings (fixed when the
 * manager is built), a request's overrides, the caller's custom tools and the
 * model id, it decides between provider-side search/URL-context tools and the
 * caller's own tools. The result is always one or the other, never both.
 */
module NativeToolsManager {
  import opened Wrappers
  import opened NativeToolsTypes
  import CitationsProcessor

  /** `s.includes(sub)`. */
  predicate Contains(s: string, sub: string)
    decreases |s|
  {
    |sub| <= |s| && (s[..|sub|] == sub || Contains(s[1..], sub))
  }

  /** `sub` occurs in `s` starting at position `i`. */
  predicate OccursAt(s: string, sub: string, i: int) {
    0 <= i <= |s| - |sub| && s[i..i + |sub|] == sub
  }

  /** `includes` finds `sub` exactly when it occurs at some position. */
  lemma {:induction false} ContainsIff(s: string, sub: string)
    ensures Contains(s, sub) <==> exists i :: OccursAt(s, sub, i)
    decreases |s|
  {
    if |sub| <= |s| {
      if s[..|sub|] == sub {
        assert OccursAt(s, sub, 0);
      } else {
        ContainsIff(s[1..], sub);
        if exists i :: OccursAt(s, sub, i) {
          var i :| OccursAt(s, sub, i);
          assert i != 0;
          assert s[1..][i - 1..i - 1 + |sub|] == s[i..i + |sub|];
          assert OccursAt(s[1..], sub, i - 1);
        }
        if Contains(s[1..], sub) {
          var i :| OccursAt(s[1..], sub, i);
          assert s[1..][i..i + |sub|] == s[i + 1..i + 1 + |sub|];
          assert OccursAt(s, sub, i + 1);
        }
      }
    }
  }

  const LegacyFamily := "gemini-1.5"

  /** `isLegacyModel`: the model id mentions `gemini-1.5` anywhere. */
  function IsLegacyModel(modelId: string): (r: bool)
    ensures r <==> exists i :: OccursAt(modelId, LegacyFamily, i)
  {
    ContainsIff(modelId, LegacyFamily);
    Contains(modelId, LegacyFamily)
  }

  /** `shouldEnableGoogleSearch`: an explicit request value wins, else the environment default. */
  function ShouldEnableGoogleSearch(env: NativeToolsEnvSettings, params: NativeToolsRequestParams): (r: bool)
    ensures params.enableSearch.Some? ==> r == params.enableSearch.value
    ensures params.enableSearch.None? ==> r == env.enableGoogleSearch
  {
    if params.enableSearch == Some(false) then false
    else if params.enableSearch == Some(true) then true
    else env.enableGoogleSearch
  }

  /** `shouldEnableUrlContext`: an explicit request value wins, else the environment default. */
  function ShouldEnableUrlContext(env: NativeToolsEnvSettings, params: NativeToolsRequestParams): (r: bool)
    ensures params.enableUrlContext.Some? ==> r == params.enableUrlContext.value
    ensures params.enableUrlContext.None? ==> r == env.enableUrlContext
  {
    if params.enableUrlContext == Some(false) then false
    else if params.enableUrlContext == Some(true) then true
    else env.enableUrlContext
  }

  /**
   * `createNativeToolsArray`: at most one tool. Search is added when enabled and
   * the model is not legacy; URL context only when search is not enabled, so a
   * legacy model asking for search gets neither.
   */
  function CreateNativeToolsArray(env: NativeToolsEnvSettings, params: NativeToolsRequestParams, modelId: string)
    : (tools: seq<NativeTool>)
    ensures |tools| <= 1
    ensures GoogleSearch in tools <==> ShouldEnableGoogleSearch(env, params) && !IsLegacyModel(modelId)
    ensures UrlContext in tools <==> ShouldEnableUrlContext(env, params) && !ShouldEnableGoogleSearch(env, params)
  {
    var tools := [];
    var tools := if ShouldEnableGoogleSearch(env, params) && !IsLegacyModel(modelId) then tools + [GoogleSearch] else tools;
    var tools := if ShouldEnableUrlContext(env, params) && !ShouldEnableGoogleSearch(env, params) then tools + [UrlContext] else tools;
    tools
  }

  /** `createCustomOnlyConfig`: the caller's tools only. */
  function CreateCustomOnlyConfig<Tool>(customTools: seq<Tool>): (r: NativeToolsConfiguration<Tool>)
    ensures r.useCustomTools && !r.useNativeTools
    ensures r.nativeTools == [] && r.customTools == Some(customTools)
    ensures r.priority == CustomPriority && r.toolType == CustomOnly
  {
    NativeToolsConfiguration(false, true, [], Some(customTools), CustomPriority, CustomOnly)
  }

  /**
   * `createSearchAndUrlConfig`: the native tools, unless the environment puts
   * custom tools first, there are some, and the request does not ask for native.
   */
  function CreateSearchAndUrlConfig<Tool>(env: NativeToolsEnvSettings, params: NativeToolsRequestParams,
                                          customTools: seq<Tool>, modelId: string)
    : (r: NativeToolsConfiguration<Tool>)
    ensures r.useCustomTools <==>
      (env.priority == CustomFirst && |customTools| > 0 && params.nativeToolsPriority != Some(RequestNative))
    ensures r.useCustomTools ==> r == CreateCustomOnlyConfig(customTools)
    ensures !r.useCustomTools ==>
      && r.useNativeTools && r.nativeTools == CreateNativeToolsArray(env, params, modelId)
      && r.customTools.None? && r.priority == NativePriority && r.toolType == SearchAndUrl
  {
    var nativeTools := CreateNativeToolsArray(env, params, modelId);
    if env.priority == NativeFirst || params.nativeToolsPriority == Some(RequestNative) then
      NativeToolsConfiguration(true, false, nativeTools, None, NativePriority, SearchAndUrl)
    else if env.priority == CustomFirst && |customTools| > 0 then
      CreateCustomOnlyConfig(customTools)
    else
      NativeToolsConfiguration(true, false, nativeTools, None, NativePriority, SearchAndUrl)
  }

  /** Search or URL context is wanted by this request. */
  predicate SearchOrUrlRequested(env: NativeToolsEnvSettings, params: NativeToolsRequestParams) {
    ShouldEnableGoogleSearch(env, params) || ShouldEnableUrlContext(env, params)
  }

  /**
   * `determineToolConfiguration`: custom-only when native tools are off or
   * nothing native is requested; otherwise the search-and-URL decision. The
   * result uses exactly one kind of tool and at most one native tool.
   */
  function DetermineToolConfiguration<Tool>(env: NativeToolsEnvSettings, customTools: seq<Tool>,
                                            params: NativeToolsRequestParams, modelId: string)
    : (r: NativeToolsConfiguration<Tool>)
    ensures r.useNativeTools == !r.useCustomTools
    ensures |r.nativeTools| <= 1
    ensures !env.enableNativeTools ==> r == CreateCustomOnlyConfig(customTools)
    ensures !SearchOrUrlRequested(env, params) ==> r == CreateCustomOnlyConfig(customTools)
    ensures env.enableNativeTools && SearchOrUrlRequested(env, params) ==>
      (r.useCustomTools <==>
        env.priority == CustomFirst && |customTools| > 0 && params.nativeToolsPriority != Some(RequestNative))
    ensures r.useCustomTools ==>
      r.nativeTools == [] && r.priority == CustomPriority && r.customTools == Some(customTools) && r.toolType == CustomOnly
    ensures r.useNativeTools ==>
      r.nativeTools == CreateNativeToolsArray(env, params, modelId) && r.priority == NativePriority && r.toolType == SearchAndUrl
  {
    if !env.enableNativeTools then CreateCustomOnlyConfig(customTools)
    else if SearchOrUrlRequested(env, params) then CreateSearchAndUrlConfig(env, params, customTools, modelId)
    else CreateCustomOnlyConfig(customTools)
  }

  /**
   * In a native-first environment, a legacy model that asks only for search
   * still resolves to native tools, with no tool at all.
   */
  lemma LegacySearchOnlyGetsNoTools<Tool>(env: NativeToolsEnvSettings, customTools: seq<Tool>,
                                          params: NativeToolsRequestParams, modelId: string)
    requires env.enableNativeTools && env.priority == NativeFirst
    requires params.enableSearch == Some(true) && params.enableUrlContext == Some(false)
    requires IsLegacyModel(modelId)
    ensures DetermineToolConfiguration(env, customTools, params, modelId).useNativeTools
    ensures DetermineToolConfiguration(env, customTools, params, modelId).nativeTools == []
  {
  }

  /** `processCitationsInText`: hands the text to the citation rewriter with the environment's switch. */
  method ProcessCitationsInText(env: NativeToolsEnvSettings, text: string, groundingMetadata: Option<GroundingMetadata>)
    returns (r: string)
    ensures r == CitationsProcessor.Annotate(env.enableInlineCitations, text, groundingMetadata)
    ensures !env.enableInlineCitations ==> r == text
  {
    r := CitationsProcessor.ProcessChunk(env.enableInlineCitations, text, groundingMetadata);
  }
}
