/**
 * The backend address: the base URL chosen from the build environment, the
 * joining of a base and an endpoint path, and the fixed endpoint paths.
 */
module ApiConfig {
  import opened Wrappers
  import opened Strings

  /** The three build-environment inputs: the DEV and PROD flags and VITE_BACKEND_URL. */
  datatype Env = Env(dev: bool, prod: bool, backendUrl: Option<string>)

  const LocalUrl: string := "http://localhost:5000"
  const RenderUrl: string := "https://hillbackend.onrender.com"

  /** `DEV || !PROD`. */
  predicate IsDevelopment(env: Env) {
    env.dev || !env.prod
  }

  /** Whether VITE_BACKEND_URL is set to a non-empty text (the only truthy strings). */
  predicate HasOverride(env: Env) {
    env.backendUrl.Some? && env.backendUrl.value != ""
  }

  /**
   * `getApiBaseUrl`: a non-empty override wins whatever the mode; otherwise
   * the local server in development and the hosted one in production.
   */
  function ApiBaseUrl(env: Env): (url: string)
    ensures url != ""
    ensures HasOverride(env) ==> url == env.backendUrl.value
    ensures !HasOverride(env) ==> (url == LocalUrl <==> IsDevelopment(env))
    ensures !HasOverride(env) ==> (url == RenderUrl <==> !IsDevelopment(env))
  {
    if HasOverride(env) then env.backendUrl.value
    else if IsDevelopment(env) then LocalUrl
    else RenderUrl
  }

  /** The mode flags matter only without an override. */
  lemma OverrideIgnoresMode(url: string, dev1: bool, prod1: bool, dev2: bool, prod2: bool)
    requires url != ""
    ensures ApiBaseUrl(Env(dev1, prod1, Some(url))) == ApiBaseUrl(Env(dev2, prod2, Some(url)))
  {
  }

  /** An empty override counts as none. */
  lemma EmptyOverrideIsNone(dev: bool, prod: bool)
    ensures ApiBaseUrl(Env(dev, prod, Some(""))) == ApiBaseUrl(Env(dev, prod, None))
  {
  }

  /** `getApiUrl`: the base URL followed directly by the endpoint path. */
  function ApiUrl(env: Env, endpoint: string): (url: string)
    ensures StartsWith(url, ApiBaseUrl(env))
    ensures url[|ApiBaseUrl(env)|..] == endpoint
  {
    var base := ApiBaseUrl(env);
    assert (base + endpoint)[..|base|] == base;
    base + endpoint
  }

  /** Different endpoints give different URLs. */
  lemma ApiUrlInjective(env: Env, e1: string, e2: string)
    requires ApiUrl(env, e1) == ApiUrl(env, e2)
    ensures e1 == e2
  {
  }

  const Tractors: string := "/api/tractors"
  const RegisterTractor: string := "/api/tractors/register"
  const ConfirmRental: string := "/api/tractors/confirm-rental"

  /** `endpoints.getTractor`: the tractors path, a slash and the id. */
  function GetTractor(id: string): (path: string)
    ensures StartsWith(path, Tractors + "/")
    ensures path[|Tractors| + 1..] == id
  {
    var prefix := Tractors + "/";
    assert (prefix + id)[..|prefix|] == prefix;
    prefix + id
  }

  /**
   * The fixed endpoints share the shape of a tractor path: they are the paths
   * of the ids "register" and "confirm-rental", so the path alone does not
   * tell them from the tractors with those ids.
   */
  lemma FixedPathsAreTractorPaths()
    ensures RegisterTractor == GetTractor("register")
    ensures ConfirmRental == GetTractor("confirm-rental")
  {
    FixedPathsSpelledOut();
  }

  /** The fixed paths as the tractors path, a slash and a word. */
  lemma FixedPathsSpelledOut()
    ensures RegisterTractor == Tractors + "/" + "register"
    ensures ConfirmRental == Tractors + "/" + "confirm-rental"
  {
  }

  /** Different ids give different paths. */
  lemma GetTractorInjective(id1: string, id2: string)
    requires GetTractor(id1) == GetTractor(id2)
    ensures id1 == id2
  {
  }

  /**
   * In development without an override, the configured URLs are the
   * `http://localhost:5000` addresses the listing and rental pages write out
   * literally.
   */
  lemma DevelopmentUrls(env: Env, id: string)
    requires IsDevelopment(env) && !HasOverride(env)
    ensures ApiUrl(env, Tractors) == "http://localhost:5000/api/tractors"
    ensures ApiUrl(env, ConfirmRental) == "http://localhost:5000/api/tractors/confirm-rental"
    ensures ApiUrl(env, GetTractor(id)) == "http://localhost:5000/api/tractors/" + id
  {
    assert ApiBaseUrl(env) == LocalUrl;
    LocalPaths();
    assert GetTractor(id) == Tractors + "/" + id;
    assert LocalUrl + (Tractors + "/" + id) == LocalUrl + Tractors + "/" + id;
  }

  /** The local server's address followed by the fixed paths, written out. */
  lemma LocalPaths()
    ensures LocalUrl + Tractors == "http://localhost:5000/api/tractors"
    ensures LocalUrl + ConfirmRental == "http://localhost:5000/api/tractors/confirm-rental"
  {
    assert LocalUrl + Tractors == "http://localhost:5000/api/tractors";
  }
}
