/**
 * Provider selection for the browser app: which AI provider to call, with
 * which key and which model, decided from the Vite environment alone.
 */
module ProviderConfig {
  import opened Wrappers
  import opened JsText

  /**
   * The three provider ids. VITE_PROVIDER is cast to an id without any check,
   * so a value that names none of them travels on as `Unlisted`.
   */
  datatype ProviderId = Gemini | OpenAI | Anthropic | Unlisted(name: string)

  /** The environment: variable name to value (an absent key is undefined). */
  type Env = map<string, string>

  function ProviderName(p: ProviderId): string {
    match p
    case Gemini => "gemini"
    case OpenAI => "openai"
    case Anthropic => "anthropic"
    case Unlisted(n) => n
  }

  predicate Listed(p: ProviderId) {
    !p.Unlisted?
  }

  /** The unchecked cast of a VITE_PROVIDER value to a provider id. */
  function ParseProviderId(s: string): (p: ProviderId)
    ensures ProviderName(p) == s
    ensures p.Unlisted? <==> s !in {"gemini", "openai", "anthropic"}
  {
    if s == "gemini" then Gemini
    else if s == "openai" then OpenAI
    else if s == "anthropic" then Anthropic
    else Unlisted(s)
  }

  /** Reading an id back from its name gives the same id. */
  lemma ParseProviderName(p: ProviderId)
    requires p.Unlisted? ==> p.name !in {"gemini", "openai", "anthropic"}
    ensures ParseProviderId(ProviderName(p)) == p
  {
  }

  /** DEFAULT_MODELS; an unlisted id has no entry (undefined). */
  function DefaultModel(p: ProviderId): (m: Option<string>)
    ensures m.Some? <==> Listed(p)
  {
    match p
    case Gemini => Some("gemini-3-flash-preview")
    case OpenAI => Some("gpt-4o")
    case Anthropic => Some("claude-sonnet-4-5-20250929")
    case Unlisted(_) => None
  }

  /** KEY_ENV_VARS; an unlisted id has no entry (undefined). */
  function KeyEnvVar(p: ProviderId): (v: Option<string>)
    ensures v.Some? <==> Listed(p)
  {
    match p
    case Gemini => Some("VITE_GOOGLE_API_KEY")
    case OpenAI => Some("VITE_OPENAI_API_KEY")
    case Anthropic => Some("VITE_ANTHROPIC_API_KEY")
    case Unlisted(_) => None
  }

  /**
   * The environment variable `env[KEY_ENV_VARS[p]]` reads: an undefined
   * property key is coerced to the string "undefined".
   */
  function KeyVarRead(p: ProviderId): (v: string)
    ensures Listed(p) ==> Some(v) == KeyEnvVar(p)
    ensures !Listed(p) ==> v == "undefined"
  {
    KeyEnvVar(p).GetOr("undefined")
  }

  /** The three key variables are distinct, so each provider has its own key. */
  lemma KeyEnvVarsDistinct(p: ProviderId, q: ProviderId)
    requires Listed(p) && Listed(q) && p != q
    ensures KeyEnvVar(p) != KeyEnvVar(q)
  {
  }

  /** A variable holds a truthy value: it is defined and not the empty string. */
  predicate Truthy(env: Env, name: string) {
    name in env && env[name] != ""
  }

  /** The order auto-detection tries the providers in. */
  const AutoOrder: seq<ProviderId> := [Gemini, OpenAI, Anthropic]

  /** The provider chosen and the key that will be sent with every request. */
  datatype Detected = Detected(providerId: ProviderId, apiKey: string)

  /** A truthy VITE_PROVIDER, cast to an id. */
  function Explicit(env: Env): (r: Option<ProviderId>)
    ensures r.Some? <==> Truthy(env, "VITE_PROVIDER")
    ensures r.Some? ==> ProviderName(r.value) == env["VITE_PROVIDER"]
  {
    if Truthy(env, "VITE_PROVIDER") then Some(ParseProviderId(env["VITE_PROVIDER"])) else None
  }

  /** The fixed-order search from position i of AutoOrder: the first provider with a truthy key. */
  function AutoDetectFrom(env: Env, i: nat): (r: Option<Detected>)
    requires i <= |AutoOrder|
    decreases |AutoOrder| - i
    ensures r.Some? <==> exists k :: i <= k < |AutoOrder| && Truthy(env, KeyVarRead(AutoOrder[k]))
    ensures r.Some? ==>
      exists k :: (&& i <= k < |AutoOrder|
                   && r.value.providerId == AutoOrder[k]
                   && Truthy(env, KeyVarRead(AutoOrder[k]))
                   && (forall j :: i <= j < k ==> !Truthy(env, KeyVarRead(AutoOrder[j]))))
    ensures r.Some? ==> r.value.apiKey == env[KeyVarRead(r.value.providerId)]
  {
    if i == |AutoOrder| then None
    else
      var name := KeyVarRead(AutoOrder[i]);
      if Truthy(env, name) then Some(Detected(AutoOrder[i], env[name]))
      else AutoDetectFrom(env, i + 1)
  }

  /** The first line of the error thrown when no key variable is set. */
  const NoKeyHeader: string := "No API key found. Add at least one to your .env:\n"

  /** The lines listing the three key variables, after the header. */
  const NoKeyLines: seq<string> := [
    "  ", "VITE_GOOGLE_API_KEY", "=...\n",
    "  ", "VITE_OPENAI_API_KEY", "=...\n",
    "  ", "VITE_ANTHROPIC_API_KEY", "=..."]

  const NoKeyMessage: string := NoKeyHeader + Concat(NoKeyLines)

  /** The failure message names each of the three key variables. */
  lemma NoKeyMessageNamesKeys()
    ensures forall p :: p in AutoOrder ==> Contains(NoKeyMessage, KeyVarRead(p))
  {
    PartInConcat(NoKeyLines, 1);
    PartInConcat(NoKeyLines, 4);
    PartInConcat(NoKeyLines, 7);
    ContainsAfter(NoKeyHeader, Concat(NoKeyLines), NoKeyLines[1]);
    ContainsAfter(NoKeyHeader, Concat(NoKeyLines), NoKeyLines[4]);
    ContainsAfter(NoKeyHeader, Concat(NoKeyLines), NoKeyLines[7]);
  }

  lemma FirstOfAppend(a: string, b: string)
    requires a != []
    ensures (a + b)[0] == a[0]
  {
  }

  /** The message begins with the letter N of "No API key found". */
  lemma NoKeyMessageStart()
    ensures |NoKeyMessage| > 0 && NoKeyMessage[0] == 'N'
  {
    var head := "No API key";
    assert NoKeyHeader == head + " found. Add at least one to your .env:\n";
    assert NoKeyHeader[0] == 'N';
    FirstOfAppend(NoKeyHeader, Concat(NoKeyLines));
  }

  /** detectProvider: explicit choice with a usable key, else auto-detection, else an error. */
  function DetectProvider(env: Env): (r: Result<Detected, string>)
    ensures r.Success? ==> Truthy(env, KeyVarRead(r.value.providerId))
    ensures r.Success? ==> r.value.apiKey == env[KeyVarRead(r.value.providerId)]
    ensures r.Failure? ==> r.error == NoKeyMessage
  {
    match Explicit(env)
    case Some(p) =>
      if Truthy(env, KeyVarRead(p)) then Success(Detected(p, env[KeyVarRead(p)]))
      else Auto(env)
    case None => Auto(env)
  }

  function Auto(env: Env): (r: Result<Detected, string>)
    ensures r.Success? ==> Truthy(env, KeyVarRead(r.value.providerId))
    ensures r.Success? ==> r.value.apiKey == env[KeyVarRead(r.value.providerId)]
    ensures r.Failure? <==> forall p :: p in AutoOrder ==> !Truthy(env, KeyVarRead(p))
    ensures r.Failure? ==> r.error == NoKeyMessage
  {
    match AutoDetectFrom(env, 0)
    case Some(d) => Success(d)
    case None => Failure(NoKeyMessage)
  }

  /** An explicit provider whose key variable is truthy is chosen, with that key. */
  lemma DetectExplicitWithKey(env: Env, p: ProviderId)
    requires Truthy(env, "VITE_PROVIDER") && ParseProviderId(env["VITE_PROVIDER"]) == p
    requires Truthy(env, KeyVarRead(p))
    ensures DetectProvider(env) == Success(Detected(p, env[KeyVarRead(p)]))
  {
  }

  /**
   * An explicit provider without a usable key does not fail: the result is
   * exactly what it would be with VITE_PROVIDER removed.
   */
  lemma DetectExplicitFallsThrough(env: Env)
    requires Truthy(env, "VITE_PROVIDER")
    requires !Truthy(env, KeyVarRead(ParseProviderId(env["VITE_PROVIDER"])))
    ensures DetectProvider(env) == DetectProvider(env - {"VITE_PROVIDER"})
  {
    var e := env - {"VITE_PROVIDER"};
    AutoIgnoresProviderVar(env);
    assert Explicit(e).None?;
  }

  /** Auto-detection never looks at VITE_PROVIDER. */
  lemma AutoIgnoresProviderVar(env: Env)
    ensures Auto(env) == Auto(env - {"VITE_PROVIDER"})
  {
    AutoDetectSameKeys(env, env - {"VITE_PROVIDER"}, 0);
  }

  /** Without an explicit choice the first of Gemini, OpenAI, Anthropic with a truthy key wins. */
  lemma AutoPriority(env: Env)
    requires !Truthy(env, "VITE_PROVIDER")
    ensures Truthy(env, "VITE_GOOGLE_API_KEY") ==>
      DetectProvider(env) == Success(Detected(Gemini, env["VITE_GOOGLE_API_KEY"]))
    ensures !Truthy(env, "VITE_GOOGLE_API_KEY") && Truthy(env, "VITE_OPENAI_API_KEY") ==>
      DetectProvider(env) == Success(Detected(OpenAI, env["VITE_OPENAI_API_KEY"]))
    ensures (!Truthy(env, "VITE_GOOGLE_API_KEY") && !Truthy(env, "VITE_OPENAI_API_KEY")
             && Truthy(env, "VITE_ANTHROPIC_API_KEY")) ==>
      DetectProvider(env) == Success(Detected(Anthropic, env["VITE_ANTHROPIC_API_KEY"]))
  {
  }

  /** With no usable key anywhere, detection fails with the message naming all three variables. */
  lemma DetectFailsOnlyWithoutKeys(env: Env)
    ensures DetectProvider(env).Failure? <==>
      && (forall p :: p in AutoOrder ==> !Truthy(env, KeyVarRead(p)))
      && (Truthy(env, "VITE_PROVIDER") ==> !Truthy(env, KeyVarRead(ParseProviderId(env["VITE_PROVIDER"]))))
    ensures DetectProvider(env).Failure? ==>
      forall p :: p in AutoOrder ==> Contains(DetectProvider(env).error, KeyVarRead(p))
  {
    NoKeyMessageNamesKeys();
  }

  /** An empty value is treated exactly like a missing variable, whichever variable it is. */
  lemma EmptyIsAbsent(env: Env, name: string)
    ensures DetectProvider(env[name := ""]) == DetectProvider(env - {name})
  {
    var a := env[name := ""];
    var b := env - {name};
    assert forall n :: Truthy(a, n) <==> Truthy(b, n);
    assert forall n :: Truthy(a, n) ==> a[n] == b[n];
    assert Explicit(a) == Explicit(b);
    AutoDetectSameKeys(a, b, 0);
  }

  /** Two environments agree on the three key variables, as far as truthiness and value go. */
  predicate SameKeys(a: Env, b: Env) {
    forall k :: 0 <= k < |AutoOrder| ==>
      && (Truthy(a, KeyVarRead(AutoOrder[k])) <==> Truthy(b, KeyVarRead(AutoOrder[k])))
      && (Truthy(a, KeyVarRead(AutoOrder[k])) ==> a[KeyVarRead(AutoOrder[k])] == b[KeyVarRead(AutoOrder[k])])
  }

  /** Auto-detection reads nothing but the three key variables. */
  lemma {:induction false} AutoDetectSameKeys(a: Env, b: Env, i: nat)
    requires i <= |AutoOrder|
    requires SameKeys(a, b)
    ensures AutoDetectFrom(a, i) == AutoDetectFrom(b, i)
    decreases |AutoOrder| - i
  {
    if i < |AutoOrder| {
      AutoDetectSameKeys(a, b, i + 1);
    }
  }

  /** ProviderConfig; `model` is undefined only for an unlisted id without VITE_MODEL. */
  datatype Config = Config(providerId: ProviderId, model: Option<string>, apiKey: string)

  /** `env.VITE_MODEL ?? DEFAULT_MODELS[p]`: a defined VITE_MODEL wins even when empty. */
  function ModelFor(env: Env, p: ProviderId): (m: Option<string>)
    ensures "VITE_MODEL" in env ==> m == Some(env["VITE_MODEL"])
    ensures "VITE_MODEL" !in env ==> m == DefaultModel(p)
  {
    if "VITE_MODEL" in env then Some(env["VITE_MODEL"]) else DefaultModel(p)
  }

  /** resolveConfig over the environment; the thrown error becomes a Failure. */
  function ResolveConfig(env: Env): (r: Result<Config, string>)
    ensures r.Failure? <==> DetectProvider(env).Failure?
    ensures r.Failure? ==> r.error == NoKeyMessage
    ensures r.Success? ==>
      && r.value.providerId == DetectProvider(env).value.providerId
      && r.value.apiKey == env[KeyVarRead(r.value.providerId)]
      && r.value.apiKey != ""
      && r.value.model == ModelFor(env, r.value.providerId)
  {
    match DetectProvider(env)
    case Success(d) => Success(Config(d.providerId, ModelFor(env, d.providerId), d.apiKey))
    case Failure(e) => Failure(e)
  }

  /** A listed provider always gets a model: VITE_MODEL, or its default. */
  lemma ResolvedModelDefined(env: Env)
    requires ResolveConfig(env).Success?
    requires Listed(ResolveConfig(env).value.providerId)
    ensures ResolveConfig(env).value.model.Some?
    ensures "VITE_MODEL" !in env ==>
      ResolveConfig(env).value.model == DefaultModel(ResolveConfig(env).value.providerId)
  {
  }
}
