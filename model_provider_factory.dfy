/** The provider factory (electron/ModelProviderFactory.ts): key validation
    per provider, the unsupported-provider error and the fixed tables of
    providers and model names. */
module ModelProviderFactory {
  import opened Outcomes
  import opened ModelProvider
  import ConfigManager

  /** Which provider class `createProvider` constructs. */
  datatype ProviderKind = Gemini | RedHat | Ollama

  /** `createProvider`: Gemini and Red Hat need a truthy API key, Ollama
      needs none, any other provider name is refused. */
  function CreateProvider(config: ModelProviderConfig): (r: Result<ProviderKind>)
    ensures r.Ok? <==> (config.provider == "ollama"
                        || (config.provider in {"gemini", "redhat"} && Truthy(config.apiKey)))
    ensures r == Ok(Gemini) <==> config.provider == "gemini" && Truthy(config.apiKey)
    ensures r == Ok(RedHat) <==> config.provider == "redhat" && Truthy(config.apiKey)
    ensures r == Ok(Ollama) <==> config.provider == "ollama"
    ensures config.provider == "gemini" && !Truthy(config.apiKey) ==>
              r == Err("API key is required for Gemini provider")
    ensures config.provider == "redhat" && !Truthy(config.apiKey) ==>
              r == Err("API key is required for Red Hat Model as a Service")
    ensures config.provider !in {"gemini", "redhat", "ollama"} ==>
              r == Err("Unsupported provider: " + config.provider)
  {
    match config.provider
    case "gemini" =>
      if !Truthy(config.apiKey) then Err("API key is required for Gemini provider") else Ok(Gemini)
    case "redhat" =>
      if !Truthy(config.apiKey) then Err("API key is required for Red Hat Model as a Service") else Ok(RedHat)
    case "ollama" => Ok(Ollama)
    case _ => Err("Unsupported provider: " + config.provider)
  }

  /** `getDefaultConfig` of the factory. */
  function DefaultConfig(): (c: ModelProviderConfig)
    ensures c.provider == "gemini" && c.modelName == Some("gemini-2.0-flash")
    ensures c.apiKey.None? && c.baseUrl.None?
  {
    ModelProviderConfig("gemini", None, None, Some("gemini-2.0-flash"))
  }

  /** One entry of the provider menu. */
  datatype ProviderOption = ProviderOption(value: string, displayLabel: string, requiresApiKey: bool)

  /** `getAvailableProviders`. */
  function AvailableProviders(): (r: seq<ProviderOption>)
    ensures |r| == 3
  {
    [ ProviderOption("gemini", "Google Gemini", true),
      ProviderOption("redhat", "Red Hat Model as a Service", true),
      ProviderOption("ollama", "Ollama (Local)", false) ]
  }

  /** `getModelOptions`: the fixed model names of a provider, none for an
      unknown one. */
  function ModelOptions(provider: string): (r: seq<string>)
    ensures provider in {"gemini", "redhat", "ollama"} <==> r != []
  {
    match provider
    case "gemini" => ["gemini-2.0-flash", "gemini-1.5-pro", "gemini-1.5-flash"]
    case "redhat" =>
      [ "meta-llama/Llama-3.1-8B-Instruct",
        "meta-llama/Llama-3.1-70B-Instruct",
        "mistralai/Mistral-7B-Instruct-v0.3",
        "microsoft/Phi-3-mini-4k-instruct" ]
    case "ollama" => ["llama3.1", "llama3.1:70b", "llama3.2", "mistral", "codellama", "phi3"]
    case _ => []
  }

  /** The menu offers exactly the providers `createProvider` accepts, and a
      provider is marked as needing a key exactly when `createProvider`
      refuses it without one. */
  lemma ProviderMenuAgreesWithFactory(c: ModelProviderConfig)
    ensures (exists o :: o in AvailableProviders() && o.value == c.provider)
        <==> !(CreateProvider(c).Err? && CreateProvider(c).error == "Unsupported provider: " + c.provider)
    ensures forall o :: o in AvailableProviders() ==>
              (o.requiresApiKey <==> CreateProvider(c.(provider := o.value, apiKey := None)).Err?)
  {
    var menu := AvailableProviders();
    if c.provider in {"gemini", "redhat", "ollama"} {
      var i := if c.provider == "gemini" then 0 else if c.provider == "redhat" then 1 else 2;
      assert menu[i].value == c.provider;
    }
  }

  /** Every provider on the menu has models to choose from. */
  lemma MenuProvidersHaveModels()
    ensures forall o :: o in AvailableProviders() ==> ModelOptions(o.value) != []
  {
  }

  /** Both default configurations name Gemini and its first listed model. */
  lemma DefaultModelIsFirstOption(env: ConfigManager.Env)
    ensures ModelOptions(DefaultConfig().provider)[0] == DefaultConfig().modelName.value
    ensures ConfigManager.DefaultConfig(env).modelProvider.provider == DefaultConfig().provider
    ensures ConfigManager.DefaultConfig(env).modelProvider.modelName == DefaultConfig().modelName
  {
  }

  /** A configuration whose key was filled from the environment is accepted
      by the factory exactly when the stored key or the provider's variable
      is truthy (or the provider is Ollama). */
  lemma ResolvedConfigAccepted(c: ModelProviderConfig, env: ConfigManager.Env)
    ensures c.provider == "gemini" ==>
      (CreateProvider(ConfigManager.ResolveApiKey(c, env)).Ok? <==> Truthy(c.apiKey) || Truthy(env.geminiApiKey))
    ensures c.provider == "redhat" ==>
      (CreateProvider(ConfigManager.ResolveApiKey(c, env)).Ok? <==> Truthy(c.apiKey) || Truthy(env.redhatApiKey))
    ensures c.provider == "ollama" ==> CreateProvider(ConfigManager.ResolveApiKey(c, env)) == Ok(Ollama)
  {
  }
}
