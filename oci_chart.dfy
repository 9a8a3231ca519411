// Fetching a chart from an OCI registry: the credentials read from a
// Kubernetes secret, the login that follows, and the pull.  The Kubernetes,
// registry and file-system calls are inputs to the model (their outcomes);
// what is modelled is the order of the steps, the messages of the errors and
// which credentials reach the login.
module OciChart {
  import opened Wrappers
  import opened Strings
  import opened OciReference

  /** A secret reference: name and namespace of a Kubernetes secret. */
  datatype SecretRef = SecretRef(name: string, namespace: string)

  /** The credential triple returned by `getSecretCredentials`. */
  datatype Credentials = Credentials(username: string, password: string, token: string)

  const ErrCredentialKeys := "secret must contain either 'token' or both 'username' and 'password' keys"

  /**
   * `getSecretCredentials`: `secret` is the outcome of reading the secret (its
   * data map on success).  A present, non-empty `token` wins; otherwise both
   * `username` and `password` must be present.
   */
  function GetSecretCredentials(secret: Result<map<string, string>>): (r: Result<Credentials>)
  {
    match secret
    case Err(e) => Err("failed to get secret: " + e)
    case Ok(data) =>
      if "token" in data && |data["token"]| > 0 then Ok(Credentials("", "", data["token"]))
      else if "username" in data && "password" in data then Ok(Credentials(data["username"], data["password"], ""))
      else Err(ErrCredentialKeys)
  }

  /** A non-empty token is chosen over any username and password in the same secret. */
  lemma TokenWins(data: map<string, string>)
    requires "token" in data && data["token"] != ""
    ensures GetSecretCredentials(Ok(data)) == Ok(Credentials("", "", data["token"]))
  {
  }

  /** Without a usable token, the username and password pair is used and the token is empty. */
  lemma UsernamePasswordFallback(data: map<string, string>)
    requires "token" !in data || data["token"] == ""
    ensures GetSecretCredentials(Ok(data)).Ok? <==> "username" in data && "password" in data
    ensures GetSecretCredentials(Ok(data)).Ok? ==>
              GetSecretCredentials(Ok(data)).value == Credentials(data["username"], data["password"], "")
  {
  }

  /** Every other combination of keys is an error, and so is a failed read. */
  lemma CredentialErrors(secret: Result<map<string, string>>)
    ensures GetSecretCredentials(secret).Err? <==>
      secret.Err? ||
      (!("token" in secret.value && secret.value["token"] != "") &&
       !("username" in secret.value && "password" in secret.value))
    ensures secret.Err? ==> HasPrefix(GetSecretCredentials(secret).error, "failed to get secret: ")
  {
  }

  /** At most one of the token and the username is non-empty. */
  lemma CredentialsExclusive(secret: Result<map<string, string>>)
    requires GetSecretCredentials(secret).Ok?
    ensures var c := GetSecretCredentials(secret).value;
      c.token == "" || (c.username == "" && c.password == "")
  {
  }

  // ---------------------------------------------------------------------
  // Login and pull

  /** A registry login with basic-auth credentials. */
  datatype Login = Login(host: string, username: string, password: string)

  /** The basic-auth pair handed to the registry: an empty user name with the token, or the pair. */
  function LoginFor(host: string, c: Credentials): (l: Login)
    ensures c.token != "" ==> l == Login(host, "", c.token)
    ensures c.token == "" ==> l == Login(host, c.username, c.password)
  {
    if c.token != "" then Login(host, "", c.token) else Login(host, c.username, c.password)
  }

  /** Outcomes of the calls a chart fetch makes, in the order it makes them. */
  datatype RegistryEnv = RegistryEnv(
    client: Outcome,                       // creating the registry client
    secret: Result<map<string, string>>,   // reading the credentials secret
    login: Outcome,                        // the registry login
    tempDir: Outcome,                      // creating the download directory
    pull: Result<string>)                  // pulling the chart: the downloaded path

  /** What a fetch did: the login it attempted (if any) and its result. */
  datatype PullTrace = PullTrace(login: Option<Login>, result: Result<string>)

  /**
   * The shared flow of `ChartSource.GetChart` and `Source.LocateChart`:
   * parse the reference, create the client, authenticate when a secret is
   * configured, create the download directory and pull.
   */
  function FetchChart(ref: string, auth: Option<SecretRef>, env: RegistryEnv): (t: PullTrace)
    ensures ParseOciReference(ref).Err? ==>
              t == PullTrace(None, Err("invalid OCI reference: " + ParseOciReference(ref).error))
    ensures auth.None? ==> t.login.None?
    ensures t.login.Some? ==>
              auth.Some? && env.client.Pass? && ParseOciReference(ref).Ok? &&
              GetSecretCredentials(env.secret).Ok? &&
              t.login.value == LoginFor(ParseOciReference(ref).value.registry, GetSecretCredentials(env.secret).value)
    ensures t.result.Ok? ==>
              ParseOciReference(ref).Ok? && env.client.Pass? && env.tempDir.Pass? &&
              (auth.Some? ==> t.login.Some? && env.login.Pass?) && t.result == env.pull
  {
    match ParseOciReference(ref)
    case Err(e) => PullTrace(None, Err("invalid OCI reference: " + e))
    case Ok(parsed) =>
      if env.client.Fail? then PullTrace(None, Err("failed to create registry client: " + env.client.error))
      else
        var authStep := Authenticate(parsed.registry, auth, env);
        if authStep.result.Err? then PullTrace(authStep.login, Err(authStep.result.error))
        else if env.tempDir.Fail? then PullTrace(authStep.login, Err("failed to create temp directory: " + env.tempDir.error))
        else match env.pull
          case Err(e) => PullTrace(authStep.login, Err("failed to pull chart from OCI registry: " + e))
          case Ok(path) => PullTrace(authStep.login, Ok(path))
  }

  /** The authentication branch: skipped without a secret reference. */
  function Authenticate(host: string, auth: Option<SecretRef>, env: RegistryEnv): (t: PullTrace)
    ensures auth.None? ==> t == PullTrace(None, Ok(""))
    ensures t.login.Some? ==>
              auth.Some? && GetSecretCredentials(env.secret).Ok? &&
              t.login.value == LoginFor(host, GetSecretCredentials(env.secret).value)
    ensures t.result.Ok? && auth.Some? ==> t.login.Some? && env.login.Pass?
  {
    match auth
    case None => PullTrace(None, Ok(""))
    case Some(ref) =>
      match GetSecretCredentials(env.secret)
      case Err(e) =>
        PullTrace(None, Err("failed to resolve credentials: failed to get credentials from secret "
                            + ref.namespace + "/" + ref.name + ": " + e))
      case Ok(c) =>
        var l := LoginFor(host, c);
        if env.login.Pass? then PullTrace(Some(l), Ok(""))
        else if c.token != "" then PullTrace(Some(l), Err("failed to authenticate with token: " + env.login.error))
        else PullTrace(Some(l), Err("failed to authenticate with credentials: " + env.login.error))
  }

  /** A token login always uses an empty user name and the token as password. */
  lemma TokenLogin(ref: string, auth: SecretRef, env: RegistryEnv)
    requires ParseOciReference(ref).Ok? && env.client.Pass?
    requires env.secret.Ok? && "token" in env.secret.value && env.secret.value["token"] != ""
    ensures FetchChart(ref, Some(auth), env).login ==
              Some(Login(ParseOciReference(ref).value.registry, "", env.secret.value["token"]))
  {
  }

  /** A failed login stops the fetch; its message says which kind of login failed. */
  lemma LoginFailureStops(ref: string, auth: SecretRef, env: RegistryEnv)
    requires ParseOciReference(ref).Ok? && env.client.Pass?
    requires GetSecretCredentials(env.secret).Ok? && env.login.Fail?
    ensures var t := FetchChart(ref, Some(auth), env);
      t.result.Err? &&
      (GetSecretCredentials(env.secret).value.token != "" ==>
         t.result.error == "failed to authenticate with token: " + env.login.error) &&
      (GetSecretCredentials(env.secret).value.token == "" ==>
         t.result.error == "failed to authenticate with credentials: " + env.login.error)
  {
  }

  /** A loaded chart's identity. */
  datatype Chart = Chart(name: string, version: string)

  /** The chart source built by `NewChartSource`: a reference and an optional secret. */
  class ChartSource {
    const chartRef: string
    const secretRef: Option<SecretRef>

    /** `NewChartSource` keeps the reference and the secret reference as given. */
    constructor (chartRef: string, secretRef: Option<SecretRef>)
      ensures this.chartRef == chartRef && this.secretRef == secretRef
    {
      this.chartRef := chartRef;
      this.secretRef := secretRef;
    }

    /**
     * `GetChart`: fetch, then load the downloaded archive (`load` is the
     * outcome of loading it).  Returns the login attempted, if any.
     */
    function GetChart(env: RegistryEnv, load: Result<Chart>): (r: (Option<Login>, Result<Chart>))
      ensures r.0 == FetchChart(chartRef, secretRef, env).login
      ensures secretRef.None? ==> r.0.None?
      ensures r.1.Ok? ==> FetchChart(chartRef, secretRef, env).result.Ok? && r.1 == load
      ensures FetchChart(chartRef, secretRef, env).result.Err? ==>
                r.1 == Err(FetchChart(chartRef, secretRef, env).result.error)
    {
      var t := FetchChart(chartRef, secretRef, env);
      match t.result
      case Err(e) => (t.login, Err(e))
      case Ok(path) =>
        match load
        case Err(e) => (t.login, Err("failed to load chart from " + path + ": " + e))
        case Ok(c) => (t.login, Ok(c))
    }
  }
}
