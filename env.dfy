/**
 * env.js: the client's configuration rules, as functions of the environment
 * variables (`None` when a variable is unset). `new URL(base, location)` is a
 * browser API and is taken as the parameter `normalize`, `None` where it throws.
 */
module Env {
  import opened Wrappers
  import opened Text

  /** The variables the modelled rules read. */
  datatype EnvVars = EnvVars(
    apiBase: Option<string>,
    backendUrl: Option<string>,
    healthcheckPath: Option<string>,
    featureFlags: Option<string>,
    telemetryDisabled: Option<string>)

  /** A string is truthy in JavaScript when it is not empty. */
  predicate Truthy(s: Option<string>) {
    s.Some? && s.value != []
  }

  /** `v?.trim()`, as a value `||` can test. */
  function Trimmed(v: Option<string>): (r: Option<string>)
    ensures Truthy(r) <==> v.Some? && !Blank(v.value)
    ensures r.Some? <==> v.Some?
    ensures v.Some? ==> r == Some(Trim(v.value))
  {
    if v.None? then None
    else
      TrimSpec(v.value);
      Some(Trim(v.value))
  }

  /** The `base` string of `getBackendBaseUrl`: `API_BASE` when it is not blank,
      else `BACKEND_URL` when that is not blank, else the empty string. */
  function BaseCandidate(env: EnvVars): (r: string)
    ensures Truthy(Trimmed(env.apiBase)) ==> r == Trim(env.apiBase.value)
    ensures !Truthy(Trimmed(env.apiBase)) && Truthy(Trimmed(env.backendUrl)) ==> r == Trim(env.backendUrl.value)
    ensures r == [] <==> !Truthy(Trimmed(env.apiBase)) && !Truthy(Trimmed(env.backendUrl))
  {
    var a := Trimmed(env.apiBase);
    var b := Trimmed(env.backendUrl);
    if Truthy(a) then a.value else if Truthy(b) then b.value else ""
  }

  /** `getBackendBaseUrl()`: `null` for a blank base or when normalisation
      throws; otherwise the normalised URL with every trailing `/` removed. */
  function BackendBaseUrl(env: EnvVars, normalize: string -> Option<string>): (r: Option<string>)
    ensures BaseCandidate(env) == [] ==> r == None
    ensures BaseCandidate(env) != [] ==> (r.None? <==> normalize(BaseCandidate(env)).None?)
    ensures r.Some? ==> r.value == [] || r.value[|r.value| - 1] != '/'
    ensures r.Some? ==>
      var u := normalize(BaseCandidate(env)).value;
      |r.value| <= |u| && r.value == u[..|r.value|] && forall i :: |r.value| <= i < |u| ==> u[i] == '/'
  {
    var base := BaseCandidate(env);
    if base == [] then None
    else match normalize(base)
      case None => None
      case Some(u) => Some(StripTrailingSlashes(u))
  }

  /** `backendEnabled()`: the flags only widen `allowApi`, which is then
      conjoined with the base being present, so only the base decides. */
  function BackendEnabled(env: EnvVars, normalize: string -> Option<string>): (r: bool)
    ensures r <==> Truthy(BackendBaseUrl(env, normalize))
  {
    var base := BackendBaseUrl(env, normalize);
    var flags := ToLower(if env.featureFlags.Some? then env.featureFlags.value else "");
    var allowApi := Contains(flags, "use_api") || Truthy(base);
    Truthy(base) && allowApi
  }

  /** `FEATURE_FLAGS` cannot switch the backend on or off. */
  lemma FlagsIrrelevant(env: EnvVars, flags: Option<string>, normalize: string -> Option<string>)
    ensures BackendEnabled(env.(featureFlags := flags), normalize) == BackendEnabled(env, normalize)
  {
    assert BaseCandidate(env.(featureFlags := flags)) == BaseCandidate(env);
  }

  /** `env.HEALTHCHECK_PATH`, which defaults to `/health` when unset or empty. */
  function HealthcheckPath(env: EnvVars): (r: string)
    ensures r != []
    ensures Truthy(env.healthcheckPath) ==> r == env.healthcheckPath.value
    ensures !Truthy(env.healthcheckPath) ==> r == "/health"
  {
    if Truthy(env.healthcheckPath) then env.healthcheckPath.value else "/health"
  }

  /** `${base}/${path.replace(/^\/?/, "")}`. */
  function JoinPath(base: string, path: string): (r: string)
    ensures |base| < |r| && r[..|base| + 1] == base + "/"
    ensures path == r[|base| + 1..] || path == "/" + r[|base| + 1..]
    ensures r == base + "/" + DropLeadingSlash(path)
    ensures path != [] && path[0] == '/' ==> r == base + "/" + path[1..]
    ensures (path == [] || path[0] != '/') ==> r == base + "/" + path
  {
    var rest := DropLeadingSlash(path);
    assert (base + "/" + rest)[|base| + 1..] == rest;
    base + "/" + rest
  }

  /** `getHealthcheckUrl()`: `null` without a base; otherwise the base, one `/`,
      and the path with at most one leading `/` removed. */
  function HealthcheckUrl(env: EnvVars, normalize: string -> Option<string>): (r: Option<string>)
    ensures r.None? <==> !Truthy(BackendBaseUrl(env, normalize))
    ensures r.Some? ==> r.value == JoinPath(BackendBaseUrl(env, normalize).value, HealthcheckPath(env))
  {
    var base := BackendBaseUrl(env, normalize);
    if !Truthy(base) then None else Some(JoinPath(base.value, HealthcheckPath(env)))
  }

  /** Without the variable the health URL is the base followed by `/health`. */
  lemma DefaultHealthcheckUrl(env: EnvVars, normalize: string -> Option<string>)
    requires env.healthcheckPath.None?
    requires Truthy(BackendBaseUrl(env, normalize))
    ensures HealthcheckUrl(env, normalize) == Some(BackendBaseUrl(env, normalize).value + "/health")
  {
    var base := BackendBaseUrl(env, normalize).value;
    assert HealthcheckPath(env) == "/health";
    assert DropLeadingSlash("/health") == "health" by {
      assert "/health"[1..] == "health";
    }
    assert base + "/" + "health" == base + "/health";
  }

  /** `telemetryDisabled()`: an unset or empty variable reads as `"1"`, so
      telemetry is enabled only by the exact string `"0"`. */
  function TelemetryDisabled(env: EnvVars): (r: bool)
    ensures !r <==> env.telemetryDisabled == Some("0")
  {
    var raw := if Truthy(env.telemetryDisabled) then env.telemetryDisabled.value else "1";
    raw != "0"
  }
}
