/**
 * PrivacyManager of the AI engine: routes a privacy mode ("secure" for the
 * on-premise Llama 3 model, anything else for hosted GPT-4) to a model
 * configuration, falling back to the other backend when the requested one is
 * disabled.
 */
module PrivacyToggle {
  import opened Values

  /** The settings values the manager copies; where they come from is not modelled. */
  datatype ModelSettings = ModelSettings(
    openaiModel: string,
    openaiApiKey: string,
    localModelName: string,
    localModelPath: string)

  /** A manager after `__init__`: the two flags are fixed once and only read afterwards. */
  datatype PrivacyManager = PrivacyManager(
    cloudEnabled: bool,
    localEnabled: bool,
    models: ModelSettings)

  /** How the configuration reaches its model: an API key (cloud) or a file path (local). */
  datatype ModelAccess = ApiKey(key: string) | ModelPath(path: string)

  datatype Capabilities = Capabilities(
    complexReasoning: bool,
    multiModal: bool,
    contextWindow: nat)

  /** The configuration dictionary the manager hands to the agents. */
  datatype LlmConfig = LlmConfig(
    provider: string,
    model: string,
    access: ModelAccess,
    temperature: real,
    maxTokens: nat,
    privacyLevel: string,
    dataResidency: string,
    capabilities: Capabilities)

  datatype Backend = Cloud | Local

  datatype ConfigError = NoBackendEnabled

  /** The hosted GPT-4 configuration. */
  function CloudProfile(models: ModelSettings): LlmConfig {
    LlmConfig("openai", models.openaiModel, ApiKey(models.openaiApiKey), 0.7, 4096,
              "standard", "cloud", Capabilities(true, true, 128000))
  }

  /** The on-premise Llama 3 configuration. */
  function LocalProfile(models: ModelSettings): LlmConfig {
    LlmConfig("local", models.localModelName, ModelPath(models.localModelPath), 0.7, 2048,
              "hipaa_compliant", "on_premise", Capabilities(true, false, 8192))
  }

  function Profile(pm: PrivacyManager, b: Backend): LlmConfig {
    match b
    case Cloud => CloudProfile(pm.models)
    case Local => LocalProfile(pm.models)
  }

  function Enabled(pm: PrivacyManager, b: Backend): bool {
    match b
    case Cloud => pm.cloudEnabled
    case Local => pm.localEnabled
  }

  function Other(b: Backend): Backend {
    match b
    case Cloud => Local
    case Local => Cloud
  }

  /** The backend a mode string asks for: only the exact string "secure" asks for local. */
  function RequestedBackend(mode: string): Backend {
    if mode == "secure" then Local else Cloud
  }

  /** `_get_cloud_config`: the cloud profile, or the local configuration when cloud is off. */
  function CloudConfig(pm: PrivacyManager): (c: LlmConfig)
    requires pm.cloudEnabled || pm.localEnabled
    ensures c == Profile(pm, if pm.cloudEnabled then Cloud else Local)
    decreases if pm.cloudEnabled then 0 else 1
  {
    if !pm.cloudEnabled then LocalConfig(pm) else CloudProfile(pm.models)
  }

  /** `_get_local_config`: the local profile, or the cloud configuration when local is off. */
  function LocalConfig(pm: PrivacyManager): (c: LlmConfig)
    requires pm.cloudEnabled || pm.localEnabled
    ensures c == Profile(pm, if pm.localEnabled then Local else Cloud)
    decreases if pm.localEnabled then 0 else 1
  {
    if !pm.localEnabled then CloudConfig(pm) else LocalProfile(pm.models)
  }

  /** `get_llm_config`: the requested backend's profile when it is enabled, the other
      backend's profile otherwise. Needs one backend enabled (see ResolveConfig). */
  function GetLlmConfig(pm: PrivacyManager, mode: string): (c: LlmConfig)
    requires pm.cloudEnabled || pm.localEnabled
    ensures var want := RequestedBackend(mode);
            c == Profile(pm, if Enabled(pm, want) then want else Other(want))
  {
    if mode == "secure" then LocalConfig(pm) else CloudConfig(pm)
  }

  /** `validate_mode`: only "secure" and "cloud" are modes, each available when its flag is on. */
  function ValidateMode(pm: PrivacyManager, mode: string): (ok: bool)
    ensures ok ==> mode in {"secure", "cloud"} && Enabled(pm, RequestedBackend(mode))
    ensures mode in {"secure", "cloud"} && Enabled(pm, RequestedBackend(mode)) ==> ok
  {
    if mode == "secure" then pm.localEnabled
    else if mode == "cloud" then pm.cloudEnabled
    else false
  }

  /** `get_available_modes`: one entry per mode, agreeing with ValidateMode. */
  function GetAvailableModes(pm: PrivacyManager): (modes: map<string, bool>)
    ensures modes.Keys == {"cloud", "secure"}
    ensures forall mode :: mode in modes ==> modes[mode] == ValidateMode(pm, mode)
  {
    map["cloud" := pm.cloudEnabled, "secure" := pm.localEnabled]
  }

  // ---------------------------------------------------------------------------
  // Properties of the router
  // ---------------------------------------------------------------------------

  /** With both backends on, "secure" is served on premise by the local model. */
  lemma SecureWithBothEnabled(pm: PrivacyManager)
    requires pm.cloudEnabled && pm.localEnabled
    ensures var c := GetLlmConfig(pm, "secure");
            && c.provider == "local" && c.dataResidency == "on_premise"
            && c.privacyLevel == "hipaa_compliant" && c.maxTokens == 2048
            && !c.capabilities.multiModal && c.capabilities.contextWindow == 8192
            && c.model == pm.models.localModelName
            && c.access == ModelPath(pm.models.localModelPath)
  {
  }

  /** With both backends on, "cloud" is served by OpenAI. */
  lemma CloudWithBothEnabled(pm: PrivacyManager)
    requires pm.cloudEnabled && pm.localEnabled
    ensures var c := GetLlmConfig(pm, "cloud");
            && c.provider == "openai" && c.dataResidency == "cloud"
            && c.privacyLevel == "standard" && c.maxTokens == 4096
            && c.capabilities.multiModal && c.capabilities.contextWindow == 128000
            && c.model == pm.models.openaiModel
            && c.access == ApiKey(pm.models.openaiApiKey)
  {
  }

  /** Every string other than "secure" -- "cloud", "Secure", "", anything -- takes the cloud path. */
  lemma NonSecureModesTakeCloudPath(pm: PrivacyManager, mode: string)
    requires pm.cloudEnabled || pm.localEnabled
    requires mode != "secure"
    ensures GetLlmConfig(pm, mode) == GetLlmConfig(pm, "cloud")
  {
  }

  /** A cloud request with cloud disabled and local enabled gets the local configuration. */
  lemma CloudFallsBackToLocal(pm: PrivacyManager, mode: string)
    requires !pm.cloudEnabled && pm.localEnabled
    ensures GetLlmConfig(pm, mode) == LocalProfile(pm.models)
  {
  }

  /** A "secure" request with local disabled gets the OpenAI configuration: secure mode
      does not by itself guarantee on-premise residency. */
  lemma SecureFallsBackToCloud(pm: PrivacyManager)
    requires pm.cloudEnabled && !pm.localEnabled
    ensures GetLlmConfig(pm, "secure") == CloudProfile(pm.models)
    ensures GetLlmConfig(pm, "secure").dataResidency == "cloud"
  {
  }

  /** "secure" stays on premise exactly when the local backend is enabled. */
  lemma SecureStaysOnPremiseIff(pm: PrivacyManager)
    requires pm.cloudEnabled || pm.localEnabled
    ensures GetLlmConfig(pm, "secure").dataResidency == "on_premise" <==> pm.localEnabled
  {
  }

  /** A mode that validates is served by the backend it names, with no fallback. */
  lemma ValidatedModeServedDirectly(pm: PrivacyManager, mode: string)
    requires ValidateMode(pm, mode)
    ensures pm.cloudEnabled || pm.localEnabled
    ensures GetLlmConfig(pm, mode) == Profile(pm, RequestedBackend(mode))
  {
  }

  /** An unknown mode never validates, yet is still served (by the cloud path). */
  lemma UnknownModeRejectedButServed(pm: PrivacyManager, mode: string)
    requires mode !in {"secure", "cloud"}
    requires pm.cloudEnabled || pm.localEnabled
    ensures !ValidateMode(pm, mode)
    ensures GetLlmConfig(pm, mode) == GetLlmConfig(pm, "cloud")
  {
  }

  // ---------------------------------------------------------------------------
  // The two private methods as written, with Python's call stack made explicit
  // ---------------------------------------------------------------------------

  /** `_get_cloud_config` as written, given `depth` remaining stack frames;
      None is the RecursionError raised when the frames run out. */
  function CloudConfigAsWritten(pm: PrivacyManager, depth: nat): (c: Option<LlmConfig>)
    ensures c.Some? ==> c.value == Profile(pm, if pm.cloudEnabled then Cloud else Local)
    ensures c.None? ==> depth == 0 || (!pm.cloudEnabled && (depth == 1 || !pm.localEnabled))
    decreases depth, 1
  {
    if depth == 0 then None
    else if !pm.cloudEnabled then LocalConfigAsWritten(pm, depth - 1)
    else Some(CloudProfile(pm.models))
  }

  /** `_get_local_config` as written, given `depth` remaining stack frames. */
  function LocalConfigAsWritten(pm: PrivacyManager, depth: nat): (c: Option<LlmConfig>)
    ensures c.Some? ==> c.value == Profile(pm, if pm.localEnabled then Local else Cloud)
    ensures c.None? ==> depth == 0 || (!pm.localEnabled && (depth == 1 || !pm.cloudEnabled))
    decreases depth, 1
  {
    if depth == 0 then None
    else if !pm.localEnabled then CloudConfigAsWritten(pm, depth - 1)
    else Some(LocalProfile(pm.models))
  }

  /** `get_llm_config` as written, given `depth` remaining stack frames. */
  function GetLlmConfigAsWritten(pm: PrivacyManager, mode: string, depth: nat): (c: Option<LlmConfig>)
    ensures c.Some? ==> (pm.cloudEnabled || pm.localEnabled) && c.value == GetLlmConfig(pm, mode)
    ensures c.None? ==> depth <= 2 || (!pm.cloudEnabled && !pm.localEnabled)
  {
    if depth == 0 then None
    else if mode == "secure" then LocalConfigAsWritten(pm, depth - 1)
    else CloudConfigAsWritten(pm, depth - 1)
  }

  /** With one backend enabled, three frames always suffice (at most one fallback hop),
      and the result is GetLlmConfig's. */
  lemma {:induction false} AtMostOneFallbackHop(pm: PrivacyManager, mode: string, depth: nat)
    requires pm.cloudEnabled || pm.localEnabled
    requires depth >= 3
    ensures GetLlmConfigAsWritten(pm, mode, depth) == Some(GetLlmConfig(pm, mode))
  {
    assert CloudConfigAsWritten(pm, depth - 1) == Some(CloudConfig(pm)) by {
      if !pm.cloudEnabled { assert LocalConfigAsWritten(pm, depth - 2) == Some(LocalProfile(pm.models)); }
    }
    assert LocalConfigAsWritten(pm, depth - 1) == Some(LocalConfig(pm)) by {
      if !pm.localEnabled { assert CloudConfigAsWritten(pm, depth - 2) == Some(CloudProfile(pm.models)); }
    }
  }

  /** With both backends disabled the private methods call each other until the
      stack is exhausted, whatever its depth: get_llm_config never returns. */
  lemma {:induction false} BothDisabledRecursesForever(pm: PrivacyManager, depth: nat)
    requires !pm.cloudEnabled && !pm.localEnabled
    ensures CloudConfigAsWritten(pm, depth) == None
    ensures LocalConfigAsWritten(pm, depth) == None
  {
    if depth > 0 {
      BothDisabledRecursesForever(pm, depth - 1);
    }
  }

  /** Corollary for the public entry point, for every mode. */
  lemma BothDisabledNeverReturns(pm: PrivacyManager, mode: string, depth: nat)
    requires !pm.cloudEnabled && !pm.localEnabled
    ensures GetLlmConfigAsWritten(pm, mode, depth) == None
  {
    if depth > 0 { BothDisabledRecursesForever(pm, depth - 1); }
  }

  /** Corrected entry point: reports that no backend is enabled instead of recursing,
      and otherwise agrees with get_llm_config. */
  function ResolveConfig(pm: PrivacyManager, mode: string): (r: Result<LlmConfig, ConfigError>)
    ensures r.Err? <==> !pm.cloudEnabled && !pm.localEnabled
    ensures r.Ok? ==> (pm.cloudEnabled || pm.localEnabled) && r.value == GetLlmConfig(pm, mode)
    ensures r.Ok? ==> r.value.provider in {"openai", "local"}
    ensures r.Ok? && Enabled(pm, RequestedBackend(mode)) ==> r.value == Profile(pm, RequestedBackend(mode))
    ensures r.Ok? && ValidateMode(pm, mode) ==> r.value == Profile(pm, RequestedBackend(mode))
    ensures r.Ok? && !Enabled(pm, RequestedBackend(mode)) ==> r.value == Profile(pm, Other(RequestedBackend(mode)))
  {
    if !pm.cloudEnabled && !pm.localEnabled then Err(NoBackendEnabled)
    else Ok(GetLlmConfig(pm, mode))
  }
}
