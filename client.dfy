/** Environment-variable defaults for the CLI's client settings (pkg/cli/cc/client.go).
    The process environment is a parameter: a map from variable name to value, where
    a missing variable reads as "" exactly as os.Getenv reports it. */
module Client {

  import opened Base

  type Env = map<string, string>

  const DefaultDirectorySvc := "localhost:9292"
  const DefaultAuthorizerSvc := "localhost:8282"

  /** os.Getenv: the value of `key`, or "" when it is not set. */
  function Getenv(env: Env, key: string): string {
    if key in env then env[key] else ""
  }

  /** The getters' common shape: the variable's value when it is non-empty, else `default`. */
  function EnvOr(env: Env, key: string, default: string): (r: string)
    ensures r == Getenv(env, key) || r == default
    ensures Getenv(env, key) != "" ==> r == Getenv(env, key)
    ensures Getenv(env, key) == "" ==> r == default
  {
    var v := Getenv(env, key);
    if v != "" then v else default
  }

  function DirectorySvc(env: Env): (r: string)
    ensures r != ""
    ensures Getenv(env, "TOPAZ_DIRECTORY_SVC") != "" ==> r == Getenv(env, "TOPAZ_DIRECTORY_SVC")
    ensures Getenv(env, "TOPAZ_DIRECTORY_SVC") == "" ==> r == "localhost:9292"
  {
    EnvOr(env, "TOPAZ_DIRECTORY_SVC", DefaultDirectorySvc)
  }

  /** The default is "", so the key is exactly the variable's value. */
  function DirectoryKey(env: Env): (r: string)
    ensures r == Getenv(env, "TOPAZ_DIRECTORY_KEY")
  {
    EnvOr(env, "TOPAZ_DIRECTORY_KEY", "")
  }

  function DirectoryToken(env: Env): (r: string)
    ensures r == Getenv(env, "TOPAZ_DIRECTORY_TOKEN")
  {
    EnvOr(env, "TOPAZ_DIRECTORY_TOKEN", "")
  }

  function AuthorizerSvc(env: Env): (r: string)
    ensures r != ""
    ensures Getenv(env, "TOPAZ_AUTHORIZER_SVC") != "" ==> r == Getenv(env, "TOPAZ_AUTHORIZER_SVC")
    ensures Getenv(env, "TOPAZ_AUTHORIZER_SVC") == "" ==> r == "localhost:8282"
  {
    EnvOr(env, "TOPAZ_AUTHORIZER_SVC", DefaultAuthorizerSvc)
  }

  function AuthorizerKey(env: Env): (r: string)
    ensures r == Getenv(env, "TOPAZ_AUTHORIZER_KEY")
  {
    EnvOr(env, "TOPAZ_AUTHORIZER_KEY", "")
  }

  function AuthorizerToken(env: Env): (r: string)
    ensures r == Getenv(env, "TOPAZ_AUTHORIZER_TOKEN")
  {
    EnvOr(env, "TOPAZ_AUTHORIZER_TOKEN", "")
  }

  function TenantID(env: Env): (r: string)
    ensures r == Getenv(env, "ASERTO_TENANT_ID")
  {
    EnvOr(env, "ASERTO_TENANT_ID", "")
  }

  /** The spellings strconv.ParseBool accepts. */
  const TrueSpellings: set<string> := {"1", "t", "T", "TRUE", "true", "True"}
  const FalseSpellings: set<string> := {"0", "f", "F", "FALSE", "false", "False"}

  /** strconv.ParseBool: None stands for its syntax error. */
  function ParseBool(s: string): (r: Option<bool>)
    ensures r.Some? <==> s in TrueSpellings + FalseSpellings
    ensures r.Some? ==> (r.value <==> s in TrueSpellings)
  {
    if s in TrueSpellings then Some(true)
    else if s in FalseSpellings then Some(false)
    else None
  }

  /** strconv.FormatBool, the inverse of ParseBool on its canonical spellings. */
  function FormatBool(b: bool): string {
    if b then "true" else "false"
  }

  lemma ParseFormatRoundTrip(b: bool)
    ensures ParseBool(FormatBool(b)) == Some(b)
  {
  }

  /** The getters' bool shape: the parsed value when the variable is set and parses,
      else `false` (the default of both bool getters). */
  function EnvBool(env: Env, key: string): (r: bool)
    ensures r <==> Getenv(env, key) in TrueSpellings
  {
    var v := Getenv(env, key);
    if v != "" then
      match ParseBool(v)
      case Some(b) => b
      case None => false
    else false
  }

  function Insecure(env: Env): (r: bool)
    ensures r <==> Getenv(env, "TOPAZ_INSECURE") in TrueSpellings
    ensures Getenv(env, "TOPAZ_INSECURE") !in TrueSpellings + FalseSpellings ==> !r
  {
    EnvBool(env, "TOPAZ_INSECURE")
  }

  function NoCheck(env: Env): (r: bool)
    ensures r <==> Getenv(env, "TOPAZ_NO_CHECK") in TrueSpellings
    ensures Getenv(env, "TOPAZ_NO_CHECK") !in TrueSpellings + FalseSpellings ==> !r
  {
    EnvBool(env, "TOPAZ_NO_CHECK")
  }

  /** Each getter reads its own variable only: setting any other variable leaves
      every getter's result as it was. */
  lemma GettersReadOnlyTheirVariable(env: Env, other: string, v: string)
    ensures other != "TOPAZ_DIRECTORY_SVC" ==> DirectorySvc(env[other := v]) == DirectorySvc(env)
    ensures other != "TOPAZ_DIRECTORY_KEY" ==> DirectoryKey(env[other := v]) == DirectoryKey(env)
    ensures other != "TOPAZ_DIRECTORY_TOKEN" ==> DirectoryToken(env[other := v]) == DirectoryToken(env)
    ensures other != "TOPAZ_AUTHORIZER_SVC" ==> AuthorizerSvc(env[other := v]) == AuthorizerSvc(env)
    ensures other != "TOPAZ_AUTHORIZER_KEY" ==> AuthorizerKey(env[other := v]) == AuthorizerKey(env)
    ensures other != "TOPAZ_AUTHORIZER_TOKEN" ==> AuthorizerToken(env[other := v]) == AuthorizerToken(env)
    ensures other != "ASERTO_TENANT_ID" ==> TenantID(env[other := v]) == TenantID(env)
    ensures other != "TOPAZ_INSECURE" ==> Insecure(env[other := v]) == Insecure(env)
    ensures other != "TOPAZ_NO_CHECK" ==> NoCheck(env[other := v]) == NoCheck(env)
  {
  }
}
