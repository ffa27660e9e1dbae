/**
 Which AI provider, model and credentials serve a feature of an organisation: the lookup of
 packages/ai/src/resolve.ts over the rows it is given, and the operator defaults that
 apps/api/src/config/ai.ts reads from the environment. A field that is null or absent is None.
 */
module AiResolver {
  import opened Wrappers

  datatype Provider = OpenAI | Anthropic | Bedrock | OpenRouter | LiteLLM

  /** The credential fields an organisation row shares with the operator defaults. */
  datatype Fields = Fields(
    apiKey: Option<string>, region: Option<string>, accessKeyId: Option<string>, secretAccessKey: Option<string>,
    baseUrl: Option<string>)

  datatype FieldName = ApiKey | Region | AccessKeyId | SecretAccessKey | BaseUrl

  function Get(f: Fields, name: FieldName): Option<string> {
    match name
    case ApiKey => f.apiKey
    case Region => f.region
    case AccessKeyId => f.accessKeyId
    case SecretAccessKey => f.secretAccessKey
    case BaseUrl => f.baseUrl
  }

  datatype Reason = InvalidEnv | OperatorOff | Missing(provider: Provider)

  datatype Operator = Operator(
    provider: Option<Provider>, model: Option<string>, fields: Fields, useDefaultChain: Option<bool>,
    enabled: bool, disabledReason: Option<Reason>)

  datatype ProviderRow = ProviderRow(provider: Provider, fields: Fields, isEnabled: bool)

  datatype FeatureRow = FeatureRow(feature: string, provider: Provider, model: string, isEnabled: bool)

  datatype Source = FromOperator | FromOrg | FromFeature | FromManaged

  datatype Credentials = Credentials(provider: Provider, fields: Fields, useDefaultChain: Option<bool>)

  datatype Resolved = Resolved(provider: Provider, model: string, credentials: Credentials, source: Source)

  datatype NotConfigured = NotConfigured(reason: Option<Reason>)

  datatype LoadFailure = LoadFailure

  const NO_FIELDS := Fields(None, None, None, None, None)

  function Truthy(s: Option<string>): bool { s.Some? && s.value != "" }

  function OrElse<T>(a: Option<T>, b: Option<T>): Option<T> { if a.Some? then a else b }

  function ValueOr<T>(a: Option<T>, d: T): T { if a.Some? then a.value else d }

  function DefaultModel(p: Provider): string {
    match p
    case OpenAI => "gpt-4o-mini"
    case Anthropic => "claude-3-5-sonnet-20241022"
    case Bedrock => "anthropic.claude-3-5-sonnet-20241022-v2:0"
    case OpenRouter => "openai/gpt-4o-mini"
    case LiteLLM => "trustalo-default"
  }

  // ---------------------------------------------------------------- operator defaults

  datatype Env = Env(
    aiProvider: Option<string>, defaultModel: Option<string>,
    openaiKey: Option<string>, openaiUrl: Option<string>,
    anthropicKey: Option<string>, anthropicUrl: Option<string>,
    bedrockRegion: Option<string>, bedrockAccessKeyId: Option<string>, bedrockSecretAccessKey: Option<string>,
    awsRegion: Option<string>,
    openrouterKey: Option<string>, openrouterUrl: Option<string>,
    litellmUrl: Option<string>, litellmKey: Option<string>)

  function NamedProvider(name: string): Option<Provider> {
    match name
    case "openai" => Some(OpenAI)
    case "anthropic" => Some(Anthropic)
    case "bedrock" => Some(Bedrock)
    case "openrouter" => Some(OpenRouter)
    case "litellm" => Some(LiteLLM)
    case _ => None
  }

  function Disabled(reason: Reason): Operator {
    Operator(None, None, NO_FIELDS, None, false, Some(reason))
  }

  function KeyedOperator(p: Provider, key: Option<string>, url: Option<string>, usable: bool, env: Env): Operator {
    if !usable then Disabled(Missing(p))
    else Operator(Some(p), env.defaultModel, Fields(key, None, None, None, url), None, true, None)
  }

  /** What each provider cannot do without. */
  predicate HasWhatItNeeds(p: Provider, f: Fields) {
    match p
    case Bedrock => true
    case LiteLLM => Truthy(f.apiKey) && Truthy(f.baseUrl)
    case _ => Truthy(f.apiKey)
  }

  /** Fail closed: the operator defaults name no other provider than the one asked for, and are enabled
      only with what that provider needs; the default chain is off exactly when both static keys are there. */
  function ComputeFromEnv(env: Env): (op: Operator)
    ensures (op.enabled <==> op.provider.Some?) && (op.enabled <==> op.disabledReason.None?)
    ensures op.enabled ==>
              && env.aiProvider.Some? && op.provider == NamedProvider(env.aiProvider.value)
              && HasWhatItNeeds(op.provider.value, op.fields)
    ensures !op.enabled ==> op.fields == NO_FIELDS && op.model.None?
    ensures op.useDefaultChain ==
              if op.provider == Some(Bedrock)
              then Some(!(Truthy(op.fields.accessKeyId) && Truthy(op.fields.secretAccessKey)))
              else None
  {
    var name := ValueOr(env.aiProvider, "none");
    if name == "none" then Disabled(OperatorOff)
    else
      match NamedProvider(name)
      case None => Disabled(InvalidEnv)
      case Some(OpenAI) => KeyedOperator(OpenAI, env.openaiKey, env.openaiUrl, Truthy(env.openaiKey), env)
      case Some(Anthropic) =>
        KeyedOperator(Anthropic, env.anthropicKey, env.anthropicUrl, Truthy(env.anthropicKey), env)
      case Some(OpenRouter) =>
        KeyedOperator(OpenRouter, env.openrouterKey, env.openrouterUrl, Truthy(env.openrouterKey), env)
      case Some(LiteLLM) =>
        KeyedOperator(LiteLLM, env.litellmKey, env.litellmUrl, Truthy(env.litellmUrl) && Truthy(env.litellmKey), env)
      case Some(Bedrock) =>
        Operator(Some(Bedrock), env.defaultModel,
                 Fields(None, OrElse(env.bedrockRegion, env.awsRegion), env.bedrockAccessKeyId,
                     env.bedrockSecretAccessKey, None),
                 Some(!(Truthy(env.bedrockAccessKeyId) && Truthy(env.bedrockSecretAccessKey))), true, None)
  }

  predicate IsSet(v: Option<string>) { v.Some? && |v.value| > 0 }

  /** An operator that runs p with these fields. */
  predicate Runs(op: Operator, p: Provider, model: Option<string>, fields: Fields) {
    op.enabled && op.provider == Some(p) && op.model == model && op.fields == fields && op.disabledReason == None
  }

  /** An operator that runs nothing, for this reason. */
  predicate RunsNothing(op: Operator, reason: Reason) {
    && !op.enabled && op.provider == None && op.model == None && op.useDefaultChain == None
    && op.fields == Fields(None, None, None, None, None) && op.disabledReason == Some(reason)
  }

  /** Each provider runs exactly when its own variables are there, on those variables and no others. */
  lemma OperatorRunsOnItsOwnVariables(env: Env)
    ensures var op := ComputeFromEnv(env);
            && (env.aiProvider == Some("openai") ==>
                  if IsSet(env.openaiKey)
                  then Runs(op, OpenAI, env.defaultModel, Fields(env.openaiKey, None, None, None, env.openaiUrl))
                  else RunsNothing(op, Missing(OpenAI)))
            && (env.aiProvider == Some("anthropic") ==>
                  if IsSet(env.anthropicKey)
                  then Runs(op, Anthropic, env.defaultModel,
                            Fields(env.anthropicKey, None, None, None, env.anthropicUrl))
                  else RunsNothing(op, Missing(Anthropic)))
            && (env.aiProvider == Some("openrouter") ==>
                  if IsSet(env.openrouterKey)
                  then Runs(op, OpenRouter, env.defaultModel,
                            Fields(env.openrouterKey, None, None, None, env.openrouterUrl))
                  else RunsNothing(op, Missing(OpenRouter)))
            && (env.aiProvider == Some("litellm") ==>
                  if IsSet(env.litellmUrl) && IsSet(env.litellmKey)
                  then Runs(op, LiteLLM, env.defaultModel, Fields(env.litellmKey, None, None, None, env.litellmUrl))
                  else RunsNothing(op, Missing(LiteLLM)))
            && (env.aiProvider == Some("bedrock") ==>
                  var region := if env.bedrockRegion.Some? then env.bedrockRegion else env.awsRegion;
                  var staticKeys := IsSet(env.bedrockAccessKeyId) && IsSet(env.bedrockSecretAccessKey);
                  && Runs(op, Bedrock, env.defaultModel,
                          Fields(None, region, env.bedrockAccessKeyId, env.bedrockSecretAccessKey, None))
                  && op.useDefaultChain == Some(!staticKeys))
            && (op.enabled && env.aiProvider != Some("bedrock") ==> op.useDefaultChain == None)
  {
    EmptyOrNot();
  }

  lemma EmptyOrNot()
    ensures forall v: Option<string> :: IsSet(v) <==> Truthy(v)
  {
  }

  /** No provider, or "none", runs nothing, and neither does a name that is not one of the five. */
  lemma OtherNamesRunNothing(env: Env)
    ensures env.aiProvider == None || env.aiProvider == Some("none") ==> RunsNothing(ComputeFromEnv(env), OperatorOff)
    ensures env.aiProvider.Some?
            && env.aiProvider.value !in ["openai", "anthropic", "bedrock", "openrouter", "litellm", "none"] ==>
              RunsNothing(ComputeFromEnv(env), InvalidEnv)
  {
  }

  /** PROVIDER_DEFAULT_MODEL. */
  lemma DefaultModels()
    ensures DefaultModel(OpenAI) == "gpt-4o-mini" && DefaultModel(Anthropic) == "claude-3-5-sonnet-20241022"
    ensures DefaultModel(Bedrock) == "anthropic.claude-3-5-sonnet-20241022-v2:0"
    ensures DefaultModel(OpenRouter) == "openai/gpt-4o-mini" && DefaultModel(LiteLLM) == "trustalo-default"
  {
  }

  // ---------------------------------------------------------------- resolution

  function FirstEnabled(rows: seq<ProviderRow>): Option<ProviderRow> {
    if rows == [] then None else if rows[0].isEnabled then Some(rows[0]) else FirstEnabled(rows[1..])
  }

  function FirstEnabledOf(rows: seq<ProviderRow>, p: Provider): (r: Option<ProviderRow>)
    ensures r.Some? ==> r.value in rows && r.value.isEnabled && r.value.provider == p
  {
    if rows == [] then None
    else if rows[0].provider == p && rows[0].isEnabled then Some(rows[0])
    else FirstEnabledOf(rows[1..], p)
  }

  function FirstEnabledFor(rows: seq<FeatureRow>, feature: string): Option<FeatureRow> {
    if rows == [] then None
    else if rows[0].feature == feature && rows[0].isEnabled then Some(rows[0])
    else FirstEnabledFor(rows[1..], feature)
  }

  function MergeFields(f: Fields, g: Fields): Fields {
    Fields(OrElse(f.apiKey, g.apiKey), OrElse(f.region, g.region), OrElse(f.accessKeyId, g.accessKeyId),
           OrElse(f.secretAccessKey, g.secretAccessKey), OrElse(f.baseUrl, g.baseUrl))
  }

  function MergeCredentials(op: Operator, org: ProviderRow, p: Provider): Credentials {
    var same := op.provider == Some(p);
    var opFields := if same then op.fields else NO_FIELDS;
    var opChain := if same then op.useDefaultChain else None;
    Credentials(p, MergeFields(org.fields, opFields),
      if p == Bedrock
      then Some(!(Truthy(org.fields.accessKeyId) && Truthy(org.fields.secretAccessKey)) && ValueOr(opChain, true))
      else None)
  }

  function OperatorCredentials(op: Operator, p: Provider): Credentials {
    Credentials(p, op.fields, if p == Bedrock then Some(ValueOr(op.useDefaultChain, true)) else None)
  }

  /** A loader that fails counts as one that found no row. */
  function Loaded<R>(rows: Result<seq<R>, LoadFailure>): seq<R> {
    if rows.Ok? then rows.value else []
  }

  function ResolveOrg(op: Operator, ps: seq<ProviderRow>): Result<Resolved, NotConfigured> {
    match FirstEnabled(ps)
    case Some(row) =>
      Ok(Resolved(row.provider, ValueOr(op.model, DefaultModel(row.provider)),
          MergeCredentials(op, row, row.provider), FromOrg))
    case None =>
      if op.enabled && op.provider.Some?
      then Ok(Resolved(op.provider.value, ValueOr(op.model, DefaultModel(op.provider.value)),
                       OperatorCredentials(op, op.provider.value), FromOperator))
      else Err(NotConfigured(op.disabledReason))
  }

  function ResolveRows(op: Operator, feature: string, ps: seq<ProviderRow>, fs: seq<FeatureRow>)
    : Result<Resolved, NotConfigured>
  {
    match FirstEnabledFor(fs, feature)
    case None => ResolveOrg(op, ps)
    case Some(f) =>
      match FirstEnabledOf(ps, f.provider)
      case Some(row) => Ok(Resolved(f.provider, f.model, MergeCredentials(op, row, f.provider), FromFeature))
      case None =>
        if op.provider == Some(f.provider) && op.enabled
        then Ok(Resolved(f.provider, f.model, OperatorCredentials(op, f.provider), FromFeature))
        else ResolveOrg(op, ps)
  }

  function Resolve(managed: Option<Resolved>, op: Operator, feature: string,
                   ps: Result<seq<ProviderRow>, LoadFailure>, fs: Result<seq<FeatureRow>, LoadFailure>)
    : Result<Resolved, NotConfigured>
  {
    if managed.Some? then Ok(managed.value) else ResolveRows(op, feature, Loaded(ps), Loaded(fs))
  }

  // ---------------------------------------------------------------- what resolution promises

  /** r is the first row that fits, or None when no row does. */
  ghost predicate IsFirst<R>(rows: seq<R>, r: Option<R>, fits: R -> bool) {
    match r
    case None => forall row <- rows :: !fits(row)
    case Some(row) =>
      fits(row) && exists i :: 0 <= i < |rows| && rows[i] == row && forall j :: 0 <= j < i ==> !fits(rows[j])
  }

  lemma FirstOfTheRest<R>(rows: seq<R>, r: Option<R>, fits: R -> bool)
    requires rows != [] && !fits(rows[0]) && IsFirst(rows[1..], r, fits)
    ensures IsFirst(rows, r, fits)
  {
    if r.Some? {
      var i :| 0 <= i < |rows[1..]| && rows[1..][i] == r.value && forall j :: 0 <= j < i ==> !fits(rows[1..][j]);
      forall j | 0 <= j < i + 1 ensures !fits(rows[j]) { if j > 0 { assert rows[1..][j - 1] == rows[j]; } }
      assert rows[i + 1] == r.value;
    }
  }

  /** The three lookups take the first enabled row: of all, of a provider, for a feature. */
  lemma {:induction false} ProviderLookupsTakeTheFirst(ps: seq<ProviderRow>, p: Provider)
    ensures IsFirst(ps, FirstEnabled(ps), (row: ProviderRow) => row.isEnabled)
    ensures IsFirst(ps, FirstEnabledOf(ps, p), (row: ProviderRow) => row.provider == p && row.isEnabled)
    decreases |ps|
  {
    var enabled := (row: ProviderRow) => row.isEnabled;
    var enabledOf := (row: ProviderRow) => row.provider == p && row.isEnabled;
    if ps != [] {
      ProviderLookupsTakeTheFirst(ps[1..], p);
      if !enabled(ps[0]) { FirstOfTheRest(ps, FirstEnabled(ps), enabled); }
      if !enabledOf(ps[0]) { FirstOfTheRest(ps, FirstEnabledOf(ps, p), enabledOf); }
    }
  }

  lemma {:induction false} FeatureLookupTakesTheFirst(fs: seq<FeatureRow>, feature: string)
    ensures IsFirst(fs, FirstEnabledFor(fs, feature), (row: FeatureRow) => row.feature == feature && row.isEnabled)
    decreases |fs|
  {
    var enabledFor := (row: FeatureRow) => row.feature == feature && row.isEnabled;
    if fs != [] {
      FeatureLookupTakesTheFirst(fs[1..], feature);
      if !enabledFor(fs[0]) { FirstOfTheRest(fs, FirstEnabledFor(fs, feature), enabledFor); }
    }
  }

  /** Merging takes each field from the organisation's layer, and from the operator's only where that is blank. */
  lemma MergeIsFieldByField(org: Fields, own: Fields, name: FieldName)
    ensures Get(MergeFields(org, own), name) == if Get(org, name).Some? then Get(org, name) else Get(own, name)
  {
  }

  /** Something can be used for the provider: an enabled row of the organisation, or the operator defaults. */
  ghost predicate Usable(op: Operator, ps: seq<ProviderRow>, p: Provider) {
    (exists row <- ps :: row.isEnabled && row.provider == p) || (op.enabled && op.provider == Some(p))
  }

  lemma {:induction false} FirstEnabledIsComplete(ps: seq<ProviderRow>, p: Provider)
    ensures FirstEnabledOf(ps, p).Some? <==> exists row <- ps :: row.isEnabled && row.provider == p
    decreases |ps|
  {
    if ps != [] {
      FirstEnabledIsComplete(ps[1..], p);
      assert forall row <- ps :: row == ps[0] || row in ps[1..];
      assert forall row <- ps[1..] :: row in ps;
    }
  }

  lemma {:induction false} FirstEnabledIsFirstOfItsProvider(ps: seq<ProviderRow>)
    ensures var row := FirstEnabled(ps);
            if row.Some? then FirstEnabledOf(ps, row.value.provider) == row
            else forall p :: FirstEnabledOf(ps, p).None?
    decreases |ps|
  {
    if ps != [] { FirstEnabledIsFirstOfItsProvider(ps[1..]); }
  }

  /** The operator layer for a provider: nothing, unless the operator runs that provider. */
  function OperatorLayer(op: Operator, p: Provider): Fields {
    if op.provider == Some(p) then op.fields else NO_FIELDS
  }

  function OrgLayer(ps: seq<ProviderRow>, p: Provider): Fields {
    var row := FirstEnabledOf(ps, p);
    if row.Some? then row.value.fields else NO_FIELDS
  }

  /** Resolution picks a usable provider, and the credentials follow from that provider alone, whichever
      layer picked it: field by field the first enabled row of that provider, then the operator running
      that provider. A key never travels to another provider. */
  lemma CredentialsFollowTheProvider(op: Operator, feature: string, ps: seq<ProviderRow>, fs: seq<FeatureRow>)
    requires ResolveRows(op, feature, ps, fs).Ok?
    ensures var r := ResolveRows(op, feature, ps, fs).value;
            var org, own := OrgLayer(ps, r.provider), OperatorLayer(op, r.provider);
            && Usable(op, ps, r.provider)
            && r.credentials.provider == r.provider
            && (forall name ::
                  Get(r.credentials.fields, name) == if Get(org, name).Some? then Get(org, name) else Get(own, name))
            && (r.provider != Bedrock ==> r.credentials.useDefaultChain.None?)
            && (r.provider == Bedrock ==>
                  r.credentials.useDefaultChain == Some(
                    && !(Truthy(org.accessKeyId) && Truthy(org.secretAccessKey))
                    && (op.provider == Some(Bedrock) && op.useDefaultChain.Some? ==> op.useDefaultChain.value)))
  {
    hide ResolveRows, Get, OrgLayer, OperatorLayer, Usable;
    CredentialsByLayers(op, feature, ps, fs);
    var r := ResolveRows(op, feature, ps, fs).value;
    forall name { MergeIsFieldByField(OrgLayer(ps, r.provider), OperatorLayer(op, r.provider), name); }
  }

  lemma CredentialsByLayers(op: Operator, feature: string, ps: seq<ProviderRow>, fs: seq<FeatureRow>)
    requires ResolveRows(op, feature, ps, fs).Ok?
    ensures var r := ResolveRows(op, feature, ps, fs).value;
            var org, own := OrgLayer(ps, r.provider), OperatorLayer(op, r.provider);
            && Usable(op, ps, r.provider)
            && r.credentials.provider == r.provider
            && r.credentials.fields == MergeFields(org, own)
            && (r.provider != Bedrock ==> r.credentials.useDefaultChain.None?)
            && (r.provider == Bedrock ==>
                  r.credentials.useDefaultChain == Some(
                    && !(Truthy(org.accessKeyId) && Truthy(org.secretAccessKey))
                    && (op.provider == Some(Bedrock) && op.useDefaultChain.Some? ==> op.useDefaultChain.value)))
  {
    var r := ResolveRows(op, feature, ps, fs).value;
    FirstEnabledIsFirstOfItsProvider(ps);
    FirstEnabledIsComplete(ps, r.provider);
    assert MergeFields(NO_FIELDS, op.fields) == op.fields;
  }

  /** Resolution fails exactly when no row is enabled and the operator has nothing to offer. */
  lemma FailsOnlyWithNothingToUse(managed: Option<Resolved>, op: Operator, feature: string,
                                  ps: Result<seq<ProviderRow>, LoadFailure>, fs: Result<seq<FeatureRow>, LoadFailure>)
    ensures Resolve(managed, op, feature, ps, fs).Err? <==> managed.None? && forall p :: !Usable(op, Loaded(ps), p)
    ensures managed.Some? ==> Resolve(managed, op, feature, ps, fs) == Ok(managed.value)
    ensures Resolve(managed, op, feature, ps, fs).Err? ==>
              Resolve(managed, op, feature, ps, fs).error == NotConfigured(op.disabledReason)
  {
    var rows := Loaded(ps);
    FirstEnabledIsFirstOfItsProvider(rows);
    forall p ensures FirstEnabledOf(rows, p).Some? ==> Usable(op, rows, p) { FirstEnabledIsComplete(rows, p); }
    var first := FirstEnabled(rows);
    if first.Some? {
      assert Usable(op, rows, first.value.provider);
    } else {
      forall p ensures Usable(op, rows, p) ==> op.enabled && op.provider == Some(p) { FirstEnabledIsComplete(rows, p); }
      if op.enabled && op.provider.Some? { assert Usable(op, rows, op.provider.value); }
    }
  }

  /** The layers in order of precedence: the feature row when its provider is usable, then the first
      enabled row, then the operator. */
  lemma LayersInOrder(op: Operator, feature: string, ps: seq<ProviderRow>, fs: seq<FeatureRow>)
    ensures var f := FirstEnabledFor(fs, feature);
            var r := ResolveRows(op, feature, ps, fs);
            if f.Some? && Usable(op, ps, f.value.provider)
            then
              && r.Ok? && r.value.source == FromFeature
              && r.value.provider == f.value.provider && r.value.model == f.value.model
            else
              && (r.Ok? ==> r.value.source != FromFeature && r.value.source != FromManaged)
              && (r.Ok? ==> (r.value.source == FromOrg <==> exists row <- ps :: row.isEnabled))
              && (r.Ok? && r.value.source == FromOrg ==>
                    FirstEnabled(ps).Some? && r.value.provider == FirstEnabled(ps).value.provider)
              && (r.Ok? && r.value.source == FromOperator ==> op.enabled && op.provider == Some(r.value.provider))
              && (r.Ok? ==>
                    r.value.model == if op.model.Some? then op.model.value else DefaultModel(r.value.provider))
  {
    var f := FirstEnabledFor(fs, feature);
    if f.Some? { FirstEnabledIsComplete(ps, f.value.provider); }
    FirstEnabledIsFirstOfItsProvider(ps);
    var first := FirstEnabled(ps);
    if first.None? {
      forall row <- ps ensures !row.isEnabled { FirstEnabledIsComplete(ps, row.provider); }
    } else {
      FirstEnabledIsComplete(ps, first.value.provider);
    }
  }

  function EnabledProviders(ps: seq<ProviderRow>): seq<ProviderRow> {
    if ps == [] then [] else if ps[0].isEnabled then [ps[0]] + EnabledProviders(ps[1..]) else EnabledProviders(ps[1..])
  }

  function EnabledFeatures(fs: seq<FeatureRow>): seq<FeatureRow> {
    if fs == [] then [] else if fs[0].isEnabled then [fs[0]] + EnabledFeatures(fs[1..]) else EnabledFeatures(fs[1..])
  }

  /** Disabled rows might as well be deleted. */
  lemma DisabledRowsDoNotMatter(op: Operator, feature: string, ps: seq<ProviderRow>, fs: seq<FeatureRow>)
    ensures ResolveRows(op, feature, EnabledProviders(ps), EnabledFeatures(fs)) == ResolveRows(op, feature, ps, fs)
  {
    SameFirstFor(fs, feature);
    SameFirst(ps);
    var f := FirstEnabledFor(fs, feature);
    if f.Some? { SameFirstOf(ps, f.value.provider); }
  }

  lemma {:induction false} SameFirst(ps: seq<ProviderRow>)
    ensures FirstEnabled(EnabledProviders(ps)) == FirstEnabled(ps)
    decreases |ps|
  {
    if ps != [] { SameFirst(ps[1..]); }
  }

  lemma {:induction false} SameFirstOf(ps: seq<ProviderRow>, p: Provider)
    ensures FirstEnabledOf(EnabledProviders(ps), p) == FirstEnabledOf(ps, p)
    decreases |ps|
  {
    if ps != [] {
      SameFirstOf(ps[1..], p);
      if ps[0].isEnabled { assert EnabledProviders(ps)[1..] == EnabledProviders(ps[1..]); }
    }
  }

  lemma {:induction false} SameFirstFor(fs: seq<FeatureRow>, feature: string)
    ensures FirstEnabledFor(EnabledFeatures(fs), feature) == FirstEnabledFor(fs, feature)
    decreases |fs|
  {
    if fs != [] {
      SameFirstFor(fs[1..], feature);
      if fs[0].isEnabled { assert EnabledFeatures(fs)[1..] == EnabledFeatures(fs[1..]); }
    }
  }

  // ---------------------------------------------------------------- static keys for Bedrock

  /** What the Bedrock client demands: without the default chain, both static keys. */
  predicate BedrockCanSign(c: Credentials) {
    c.useDefaultChain == Some(false) ==> Truthy(c.fields.accessKeyId) && Truthy(c.fields.secretAccessKey)
  }

  /** With operator defaults from the environment, Bedrock credentials can sign except in one case: the operator
      has static keys and the organisation's row blanks one of them with an empty string. */
  lemma BedrockCanSignIff(env: Env, feature: string, ps: seq<ProviderRow>, fs: seq<FeatureRow>)
    requires ResolveRows(ComputeFromEnv(env), feature, ps, fs).Ok?
    requires ResolveRows(ComputeFromEnv(env), feature, ps, fs).value.provider == Bedrock
    ensures var op, row := ComputeFromEnv(env), OrgLayer(ps, Bedrock);
            BedrockCanSign(ResolveRows(op, feature, ps, fs).value.credentials) <==>
              !(op.useDefaultChain == Some(false) && (row.accessKeyId == Some("") || row.secretAccessKey == Some("")))
  {
    hide ComputeFromEnv, ResolveRows;
    CredentialsByLayers(ComputeFromEnv(env), feature, ps, fs);
  }

  /** The case exists: an empty access key in the row, static keys at the operator. */
  lemma EmptyKeyBreaksBedrock()
    ensures exists env: Env, row: ProviderRow ::
              var r := ResolveRows(ComputeFromEnv(env), "risk_analysis", [row], []);
              row.provider == Bedrock && row.isEnabled && r.Ok? && !BedrockCanSign(r.value.credentials)
  {
    var env := Env(Some("bedrock"), None, None, None, None, None, None, Some("AKIA"), Some("secret"), None, None,
        None, None, None);
    var row := ProviderRow(Bedrock, NO_FIELDS.(accessKeyId := Some("")), true);
    var r := ResolveRows(ComputeFromEnv(env), "risk_analysis", [row], []);
    assert r.Ok? && !BedrockCanSign(r.value.credentials);
  }
}
