/** The application configuration (electron/ConfigManager.ts): defaults, the
    merge of a saved file over them, the provider and screenshot sections and
    the setters that merge partial updates into the stored configuration.

    Object spreads `{...base, ...patch}` are modelled with patches whose
    fields are `Keep` (key absent from the patch) or `Put(v)` (key present,
    `v` possibly `undefined`). */
module ConfigManager {
  import opened Outcomes
  import opened ModelProvider

  /** `selectedMonitor`: `undefined`, `null` (as JSON can store it), an
      integer, or `NaN`, which the settings store when the chosen monitor id
      does not start with a digit (an X11 output name such as
      `DisplayPort-1`). */
  datatype Monitor = NoMonitor | NullMonitor | MonitorIndex(index: int) | NotANumber

  datatype ScreenshotConfig = ScreenshotConfig(selectedMonitor: Monitor)

  datatype AppConfig = AppConfig(modelProvider: ModelProviderConfig, screenshot: ScreenshotConfig)

  /** One key of a partial object: absent, or present with a value. */
  datatype Slot<T> = Keep | Put(value: T)

  function Over<T>(base: T, slot: Slot<T>): T {
    match slot
    case Keep => base
    case Put(v) => v
  }

  /** A `Partial<ModelProviderConfig>`. */
  datatype ProviderPatch = ProviderPatch(
    provider: Slot<string>,
    apiKey: Slot<Option<string>>,
    baseUrl: Slot<Option<string>>,
    modelName: Slot<Option<string>>)

  /** A `Partial<ScreenshotConfig>`. */
  datatype ScreenshotPatch = ScreenshotPatch(selectedMonitor: Slot<Monitor>)

  const NoProviderChange := ProviderPatch(Keep, Keep, Keep, Keep)
  const NoScreenshotChange := ScreenshotPatch(Keep)

  /** `{...base, ...patch}` on a provider configuration. */
  function MergeProvider(base: ModelProviderConfig, patch: ProviderPatch): ModelProviderConfig {
    ModelProviderConfig(
      Over(base.provider, patch.provider),
      Over(base.apiKey, patch.apiKey),
      Over(base.baseUrl, patch.baseUrl),
      Over(base.modelName, patch.modelName))
  }

  /** `{...base, ...patch}` on a screenshot configuration. */
  function MergeScreenshot(base: ScreenshotConfig, patch: ScreenshotPatch): ScreenshotConfig {
    ScreenshotConfig(Over(base.selectedMonitor, patch.selectedMonitor))
  }

  /** The keys of `later` win over those of `earlier`: applying one after the
      other is applying this single patch. */
  function ThenProvider(earlier: ProviderPatch, later: ProviderPatch): ProviderPatch {
    ProviderPatch(
      if later.provider.Put? then later.provider else earlier.provider,
      if later.apiKey.Put? then later.apiKey else earlier.apiKey,
      if later.baseUrl.Put? then later.baseUrl else earlier.baseUrl,
      if later.modelName.Put? then later.modelName else earlier.modelName)
  }

  /** A spread overrides exactly the keys present in the patch and keeps the rest. */
  lemma MergeProviderOverrides(base: ModelProviderConfig, patch: ProviderPatch)
    ensures var r := MergeProvider(base, patch);
      && (patch.provider.Put? ==> r.provider == patch.provider.value)
      && (patch.provider.Keep? ==> r.provider == base.provider)
      && (patch.apiKey.Put? ==> r.apiKey == patch.apiKey.value)
      && (patch.apiKey.Keep? ==> r.apiKey == base.apiKey)
      && (patch.baseUrl.Put? ==> r.baseUrl == patch.baseUrl.value)
      && (patch.baseUrl.Keep? ==> r.baseUrl == base.baseUrl)
      && (patch.modelName.Put? ==> r.modelName == patch.modelName.value)
      && (patch.modelName.Keep? ==> r.modelName == base.modelName)
  {
  }

  /** An empty patch changes nothing, and applying a patch twice is applying it once. */
  lemma MergeProviderNeutralIdempotent(base: ModelProviderConfig, patch: ProviderPatch)
    ensures MergeProvider(base, NoProviderChange) == base
    ensures MergeProvider(MergeProvider(base, patch), patch) == MergeProvider(base, patch)
  {
  }

  /** Two successive updates compose into one. */
  lemma MergeProviderCompose(base: ModelProviderConfig, p: ProviderPatch, q: ProviderPatch)
    ensures MergeProvider(MergeProvider(base, p), q) == MergeProvider(base, ThenProvider(p, q))
  {
  }

  /** The same laws for the screenshot section. */
  lemma MergeScreenshotLaws(base: ScreenshotConfig, p: ScreenshotPatch, q: ScreenshotPatch)
    ensures MergeScreenshot(base, NoScreenshotChange) == base
    ensures p.selectedMonitor.Put? ==> MergeScreenshot(base, p).selectedMonitor == p.selectedMonitor.value
    ensures MergeScreenshot(MergeScreenshot(base, p), q)
         == (if q.selectedMonitor.Put? then MergeScreenshot(base, q) else MergeScreenshot(base, p))
  {
  }

  /** The two environment variables the configuration reads. */
  datatype Env = Env(geminiApiKey: Option<string>, redhatApiKey: Option<string>)

  /** `getDefaultConfig`: Gemini with `gemini-2.0-flash`, the key from
      `GEMINI_API_KEY || ''`, and no selected monitor. */
  function DefaultConfig(env: Env): (c: AppConfig)
    ensures c.modelProvider.provider == "gemini"
    ensures c.modelProvider.modelName == Some("gemini-2.0-flash")
    ensures c.modelProvider.baseUrl.None?
    ensures c.modelProvider.apiKey == Some(if Truthy(env.geminiApiKey) then env.geminiApiKey.value else "")
    ensures c.screenshot.selectedMonitor == NoMonitor
  {
    AppConfig(
      ModelProviderConfig("gemini", Some(if Truthy(env.geminiApiKey) then env.geminiApiKey.value else ""), None, Some("gemini-2.0-flash")),
      ScreenshotConfig(NoMonitor))
  }

  /** What reading `config.json` gives: no file, a file that cannot be read
      or parsed, or the two sections it holds (a missing section is an empty
      patch, since spreading `undefined` adds nothing). */
  datatype SavedFile = Missing | Unreadable | Saved(modelProvider: ProviderPatch, screenshot: ScreenshotPatch)

  /** `loadConfig`: the saved sections merged field by field over the defaults;
      the defaults alone when there is no usable file. */
  function LoadConfig(file: SavedFile, env: Env): (c: AppConfig)
    ensures !file.Saved? ==> c == DefaultConfig(env)
    ensures file.Saved? ==>
      && c.modelProvider == MergeProvider(DefaultConfig(env).modelProvider, file.modelProvider)
      && c.screenshot == MergeScreenshot(DefaultConfig(env).screenshot, file.screenshot)
  {
    match file
    case Saved(provider, screenshot) =>
      var defaults := DefaultConfig(env);
      AppConfig(MergeProvider(defaults.modelProvider, provider), MergeScreenshot(defaults.screenshot, screenshot))
    case _ => DefaultConfig(env)
  }

  /** A saved file that sets nothing loads as the defaults; a saved file that
      sets every provider field loads exactly those values. */
  lemma LoadConfigMerges(env: Env, provider: string, apiKey: Option<string>, baseUrl: Option<string>, modelName: Option<string>)
    ensures LoadConfig(Saved(NoProviderChange, NoScreenshotChange), env) == DefaultConfig(env)
    ensures LoadConfig(Saved(ProviderPatch(Put(provider), Put(apiKey), Put(baseUrl), Put(modelName)), NoScreenshotChange), env).modelProvider
         == ModelProviderConfig(provider, apiKey, baseUrl, modelName)
  {
  }

  /** `getModelProviderConfig`: a copy of the provider section whose falsy
      `apiKey` is replaced from the environment variable for the provider
      (`GEMINI_API_KEY`, `REDHAT_API_KEY`; none for Ollama). */
  function ResolveApiKey(c: ModelProviderConfig, env: Env): (r: ModelProviderConfig)
    ensures r.provider == c.provider && r.baseUrl == c.baseUrl && r.modelName == c.modelName
    ensures Truthy(c.apiKey) ==> r == c
    ensures !Truthy(c.apiKey) && c.provider == "gemini" ==> r.apiKey == env.geminiApiKey
    ensures !Truthy(c.apiKey) && c.provider == "redhat" ==> r.apiKey == env.redhatApiKey
    ensures c.provider != "gemini" && c.provider != "redhat" ==> r == c
  {
    if Truthy(c.apiKey) then c
    else if c.provider == "gemini" then c.(apiKey := env.geminiApiKey)
    else if c.provider == "redhat" then c.(apiKey := env.redhatApiKey)
    else c
  }

  /** Filling the key in a second time changes nothing more. */
  lemma ResolveApiKeyIdempotent(c: ModelProviderConfig, env: Env)
    ensures ResolveApiKey(ResolveApiKey(c, env), env) == ResolveApiKey(c, env)
  {
  }

  /** The stored configuration of the application. */
  class ConfigManager {
    var config: AppConfig

    /** The constructor loads the saved file over the defaults. */
    constructor (file: SavedFile, env: Env)
      ensures config == LoadConfig(file, env)
    {
      config := LoadConfig(file, env);
    }

    /** `getConfig`: a copy of the whole configuration. */
    method GetConfig() returns (c: AppConfig)
      ensures c == config
    {
      c := config;
    }

    /** `getModelProviderConfig`: reads the stored provider section and
        changes nothing. */
    method GetModelProviderConfig(env: Env) returns (c: ModelProviderConfig)
      ensures c == ResolveApiKey(config.modelProvider, env)
    {
      c := ResolveApiKey(config.modelProvider, env);
    }

    /** `setModelProviderConfig`: merge a partial provider section into the stored one. */
    method SetModelProviderConfig(patch: ProviderPatch)
      modifies this
      ensures config.modelProvider == MergeProvider(old(config.modelProvider), patch)
      ensures config.screenshot == old(config.screenshot)
    {
      config := config.(modelProvider := MergeProvider(config.modelProvider, patch));
    }

    /** `updateApiKey`: set the key only when `provider` is the current provider. */
    method UpdateApiKey(provider: string, apiKey: string)
      modifies this
      ensures old(config.modelProvider.provider) == provider ==>
        config == old(config).(modelProvider := old(config.modelProvider).(apiKey := Some(apiKey)))
      ensures old(config.modelProvider.provider) != provider ==> config == old(config)
    {
      if config.modelProvider.provider == provider {
        config := config.(modelProvider := config.modelProvider.(apiKey := Some(apiKey)));
      }
    }

    /** `getScreenshotConfig`: a copy of the screenshot section. */
    method GetScreenshotConfig() returns (c: ScreenshotConfig)
      ensures c == config.screenshot
    {
      c := config.screenshot;
    }

    /** `setScreenshotConfig`: merge a partial screenshot section into the stored one. */
    method SetScreenshotConfig(patch: ScreenshotPatch)
      modifies this
      ensures config.screenshot == MergeScreenshot(old(config.screenshot), patch)
      ensures config.modelProvider == old(config.modelProvider)
    {
      config := config.(screenshot := MergeScreenshot(config.screenshot, patch));
    }
  }
}
