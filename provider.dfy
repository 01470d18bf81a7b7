/**
 * Provider configuration: resolving the API key and environment from the provider block and
 * the `PADDLE_API_KEY` / `PADDLE_ENVIRONMENT` environment variables, validating them, and
 * choosing the client constructor. The environment variables and the constructor's failure
 * are parameters; the constructed client is represented by its kind and key.
 */
module Provider {
  import opened Values

  /** `paddleProviderModel`. */
  datatype ProviderConfig = ProviderConfig(apiKey: Cfg<string>, environment: Cfg<string>)

  /** `paddle.NewSandbox` or `paddle.New`. */
  datatype ClientKind = SandboxClient | LiveClient

  datatype Client = Client(kind: ClientKind, apiKey: string)

  /** A configured provider hands the same client to resources and data sources. */
  datatype ConfigureResult =
    | Configured(resourceData: Client, dataSourceData: Client)
    | NotConfigured(diags: seq<Diagnostic>)

  const Sandbox := "sandbox"
  const Production := "production"

  const ApiKeyPath := "api_key"
  const EnvironmentPath := "environment"

  // ---------------------------------------------------------------------------------------
  // Resolution, stated declaratively

  /** The errors for configured values that are not yet known. */
  function UnknownDiagnostics(config: ProviderConfig): (diags: seq<Diagnostic>)
    ensures diags == [] <==> !config.apiKey.Unknown? && !config.environment.Unknown?
    ensures config.apiKey.Unknown? ==> AttributeError(ApiKeyPath, "Unknown Paddle API Key") in diags
    ensures config.environment.Unknown? ==> AttributeError(EnvironmentPath, "Unknown Paddle Environment") in diags
  {
    (if config.apiKey.Unknown? then [AttributeError(ApiKeyPath, "Unknown Paddle API Key")] else [])
    + (if config.environment.Unknown? then [AttributeError(EnvironmentPath, "Unknown Paddle Environment")] else [])
  }

  /** A non-null configured value takes precedence over the environment variable. */
  function Resolve(configured: Cfg<string>, fromEnvironment: string): (v: string)
    ensures configured.Known? ==> v == configured.value
    ensures configured.Null? ==> v == fromEnvironment
  {
    if !configured.Null? then ValueString(configured) else fromEnvironment
  }

  /** The environment after resolution, with the empty string defaulting to sandbox. */
  function EffectiveEnvironment(config: ProviderConfig, envEnvironment: string): (e: string)
    ensures e != ""
    ensures Resolve(config.environment, envEnvironment) == "" ==> e == Sandbox
    ensures Resolve(config.environment, envEnvironment) != "" ==> e == Resolve(config.environment, envEnvironment)
  {
    var environment := Resolve(config.environment, envEnvironment);
    if environment == "" then Sandbox else environment
  }

  /** The errors for a resolved key and environment: a missing key, an environment outside the two allowed. */
  function ValidationDiagnostics(apiKey: string, environment: string): (diags: seq<Diagnostic>)
    ensures diags == [] <==> apiKey != "" && (environment == Sandbox || environment == Production)
    ensures apiKey == "" ==> AttributeError(ApiKeyPath, "Missing Paddle API Key") in diags
    ensures environment != Sandbox && environment != Production ==>
      AttributeError(EnvironmentPath, "Invalid Paddle Environment") in diags
  {
    (if apiKey == "" then [AttributeError(ApiKeyPath, "Missing Paddle API Key")] else [])
    + (if environment != Sandbox && environment != Production then [AttributeError(EnvironmentPath, "Invalid Paddle Environment")] else [])
  }

  /** The outcome of `Configure` for a configuration, environment variables and constructor result. */
  function ConfigureOutcome(config: ProviderConfig, envApiKey: string, envEnvironment: string,
                            clientError: Option<string>): ConfigureResult
  {
    if UnknownDiagnostics(config) != [] then NotConfigured(UnknownDiagnostics(config))
    else
      var apiKey := Resolve(config.apiKey, envApiKey);
      var environment := EffectiveEnvironment(config, envEnvironment);
      if ValidationDiagnostics(apiKey, environment) != [] then NotConfigured(ValidationDiagnostics(apiKey, environment))
      else if clientError.Some? then NotConfigured([GeneralError("Unable to Create Paddle API Client")])
      else
        var client := Client(if environment == Sandbox then SandboxClient else LiveClient, apiKey);
        Configured(client, client)
  }

  // ---------------------------------------------------------------------------------------
  // Configure, step by step

  /**
   * `Configure`: the unknown checks, an early return, the environment variables overridden by
   * non-null configuration, the default, the validation, a second early return, and the
   * constructor choice.
   */
  method Configure(config: ProviderConfig, envApiKey: string, envEnvironment: string, clientError: Option<string>)
    returns (r: ConfigureResult)
    ensures r == ConfigureOutcome(config, envApiKey, envEnvironment, clientError)
  {
    var diags: seq<Diagnostic> := [];
    if config.apiKey.Unknown? {
      diags := diags + [AttributeError(ApiKeyPath, "Unknown Paddle API Key")];
    }
    if config.environment.Unknown? {
      diags := diags + [AttributeError(EnvironmentPath, "Unknown Paddle Environment")];
    }
    if diags != [] {
      return NotConfigured(diags);
    }

    var apiKey := envApiKey;
    var environment := envEnvironment;
    if !config.apiKey.Null? {
      apiKey := ValueString(config.apiKey);
    }
    if !config.environment.Null? {
      environment := ValueString(config.environment);
    }

    if apiKey == "" {
      diags := diags + [AttributeError(ApiKeyPath, "Missing Paddle API Key")];
    }
    if environment == "" {
      environment := Sandbox;
    }
    if environment != Sandbox && environment != Production {
      diags := diags + [AttributeError(EnvironmentPath, "Invalid Paddle Environment")];
    }
    if diags != [] {
      return NotConfigured(diags);
    }

    var kind: ClientKind;
    if environment == Sandbox {
      kind := SandboxClient;
    } else {
      kind := LiveClient;
    }
    if clientError.Some? {
      return NotConfigured([GeneralError("Unable to Create Paddle API Client")]);
    }
    var client := Client(kind, apiKey);
    return Configured(client, client);
  }

  // ---------------------------------------------------------------------------------------
  // Properties

  /**
   * An unknown api_key or environment stops configuration with the unknown-value errors, before
   * the environment variables or the constructor play any part.
   */
  lemma UnknownStopsBeforeEnvironment(config: ProviderConfig, envApiKey1: string, envEnvironment1: string,
                                      clientError1: Option<string>, envApiKey2: string, envEnvironment2: string,
                                      clientError2: Option<string>)
    requires config.apiKey.Unknown? || config.environment.Unknown?
    ensures ConfigureOutcome(config, envApiKey1, envEnvironment1, clientError1)
         == ConfigureOutcome(config, envApiKey2, envEnvironment2, clientError2)
    ensures ConfigureOutcome(config, envApiKey1, envEnvironment1, clientError1) == NotConfigured(UnknownDiagnostics(config))
  {
  }

  /** An empty resolved key is reported as missing and no client is built. */
  lemma EmptyKeyIsMissing(config: ProviderConfig, envApiKey: string, envEnvironment: string, clientError: Option<string>)
    requires !config.apiKey.Unknown? && !config.environment.Unknown?
    requires Resolve(config.apiKey, envApiKey) == ""
    ensures var r := ConfigureOutcome(config, envApiKey, envEnvironment, clientError);
      r.NotConfigured? && AttributeError(ApiKeyPath, "Missing Paddle API Key") in r.diags
  {
  }

  /** A resolved environment other than sandbox, production or empty is reported and no client is built. */
  lemma InvalidEnvironmentIsReported(config: ProviderConfig, envApiKey: string, envEnvironment: string,
                                     clientError: Option<string>)
    requires !config.apiKey.Unknown? && !config.environment.Unknown?
    requires var e := Resolve(config.environment, envEnvironment); e != "" && e != Sandbox && e != Production
    ensures var r := ConfigureOutcome(config, envApiKey, envEnvironment, clientError);
      r.NotConfigured? && AttributeError(EnvironmentPath, "Invalid Paddle Environment") in r.diags
  {
  }

  /**
   * Configuration succeeds exactly when nothing is unknown, the resolved key is non-empty, the
   * effective environment is sandbox or production and the constructor succeeds; the client
   * then carries the resolved key, is a sandbox client exactly for sandbox (the default when
   * nothing is set), and is handed to resources and data sources alike.
   */
  lemma ConfiguredExactlyWhenValid(config: ProviderConfig, envApiKey: string, envEnvironment: string,
                                   clientError: Option<string>)
    ensures var r := ConfigureOutcome(config, envApiKey, envEnvironment, clientError);
      var apiKey := Resolve(config.apiKey, envApiKey);
      var environment := EffectiveEnvironment(config, envEnvironment);
      && (r.Configured? <==>
            !config.apiKey.Unknown? && !config.environment.Unknown? && apiKey != ""
            && (environment == Sandbox || environment == Production) && clientError.None?)
      && (r.Configured? ==>
            r.resourceData == r.dataSourceData
            && r.resourceData.apiKey == apiKey
            && (r.resourceData.kind == SandboxClient <==> environment == Sandbox))
  {
  }

  /** With neither the block nor the variable setting an environment, a valid key yields a sandbox client. */
  lemma DefaultsToSandbox(apiKey: string)
    requires apiKey != ""
    ensures ConfigureOutcome(ProviderConfig(Known(apiKey), Null), "", "", None)
         == Configured(Client(SandboxClient, apiKey), Client(SandboxClient, apiKey))
  {
  }

  /** A configured key wins over the environment variable; a null one falls back to it. */
  lemma ConfiguredKeyTakesPrecedence(key: string, envApiKey: string)
    requires key != "" && envApiKey != ""
    ensures ConfigureOutcome(ProviderConfig(Known(key), Known(Production)), envApiKey, "", None)
         == Configured(Client(LiveClient, key), Client(LiveClient, key))
    ensures ConfigureOutcome(ProviderConfig(Null, Known(Production)), envApiKey, "", None)
         == Configured(Client(LiveClient, envApiKey), Client(LiveClient, envApiKey))
  {
  }
}
