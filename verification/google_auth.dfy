/** The credential store (`GoogleAuthManager`): lazily builds one OAuth2
    client from a client-secret file and a token file, memoises it, and
    persists refreshed tokens merged over the tokens it loaded. File reads and
    environment lookups are parameters; `JSON.parse` is folded into the file
    content given. */
module GoogleAuth {
  import opened Wrappers
  import opened Values

  const CredentialsPathVariable := "GOOGLE_CREDENTIALS_PATH"
  const TokenPathVariable := "GOOGLE_TOKEN_PATH"
  const DefaultRedirectUri := "http://localhost"
  const CredentialsFile := "credentials.json"
  const TokenFile := "token.json"

  const InvalidFormatMessage :=
    "Invalid credentials.json format. \"installed\" or \"web\" property is required."

  /** The message thrown when the token file cannot be read or parsed. */
  function TokenNotFoundMessage(tokenPath: string): string {
    "Authentication token not found at " + tokenPath + ".\n"
    + "Please run the local auth script first and mount the resulting token.json to the Docker container."
  }

  /** A file as `fs.readFile` followed by `JSON.parse` sees it. A path that is
      not in the file system cannot be read. */
  datatype FileContent = Json(value: Value) | NotJson(syntaxError: string)

  type FileSystem = map<string, FileContent>

  /** Why `getAuth` threw. */
  datatype AuthError =
    | CredentialsUnreadable(path: string)      // readFile rejected
    | CredentialsNotJson(syntaxError: string)  // JSON.parse threw
    | CredentialsNull                          // `keys.installed` on `null`
    | InvalidFormat                            // neither `installed` nor `web`
    | TokenNotFound(tokenPath: string)         // token file unreadable or not JSON

  /** The OAuth2 client handle. `loadedTokens` are the tokens read at
      construction, which the refresh listener keeps for every later merge. */
  datatype OAuthClient = OAuthClient(
    clientId: Value,
    clientSecret: Value,
    redirectUri: Value,
    loadedTokens: Value,
    tokenPath: string)

  /** The manager: its memoised client and the two file paths. */
  datatype AuthManager = AuthManager(cached: Option<OAuthClient>, credentialsPath: string, tokenPath: string)

  /** `path.join(dir, name)` for a directory without a trailing separator. */
  function JoinPath(dir: string, name: string): string {
    dir + "/" + name
  }

  /** The constructor: paths from the environment, else fixed names in the working directory. */
  function NewAuthManager(env: map<string, string>, cwd: string): (r: AuthManager)
    ensures r.cached == None
    ensures CredentialsPathVariable in env ==> r.credentialsPath == env[CredentialsPathVariable]
    ensures CredentialsPathVariable !in env ==> r.credentialsPath == cwd + "/" + CredentialsFile
    ensures TokenPathVariable in env ==> r.tokenPath == env[TokenPathVariable]
    ensures TokenPathVariable !in env ==> r.tokenPath == cwd + "/" + TokenFile
  {
    AuthManager(
      None,
      if CredentialsPathVariable in env then env[CredentialsPathVariable] else JoinPath(cwd, CredentialsFile),
      if TokenPathVariable in env then env[TokenPathVariable] else JoinPath(cwd, TokenFile))
  }

  /** `keys.installed ?? keys.web`, rejected when the choice is falsy. */
  function SelectConfig(keys: Value): (r: Result<Value, AuthError>)
    ensures Nullish(keys) ==> r == Err(CredentialsNull)
    ensures !Nullish(keys) && !Nullish(Field(keys, "installed")) ==>
              r == (if Truthy(Field(keys, "installed")) then Ok(Field(keys, "installed")) else Err(InvalidFormat))
    ensures !Nullish(keys) && Nullish(Field(keys, "installed")) ==>
              r == (if Truthy(Field(keys, "web")) then Ok(Field(keys, "web")) else Err(InvalidFormat))
    ensures r.Ok? ==> Truthy(r.value)
  {
    if Nullish(keys) then Err(CredentialsNull)
    else
      var installed := Field(keys, "installed");
      var config := if Nullish(installed) then Field(keys, "web") else installed;
      if !Truthy(config) then Err(InvalidFormat) else Ok(config)
  }

  /** `config.redirect_uris?.[0] ?? 'http://localhost'`. */
  function RedirectUri(config: Value): (r: Value)
    requires !Nullish(config)
    ensures var uris := Field(config, "redirect_uris");
            uris.Array? && |uris.items| > 0 && !Nullish(uris.items[0]) ==> r == uris.items[0]
    ensures var uris := Field(config, "redirect_uris");
            Nullish(uris) || (uris.Array? && |uris.items| == 0) ==> r == Str(DefaultRedirectUri)
    ensures !Nullish(r)
  {
    var uris := Field(config, "redirect_uris");
    var first := if Nullish(uris) then Undefined else First(uris);
    if Nullish(first) then Str(DefaultRedirectUri) else first
  }

  /** The client built from a parsed credentials document and token document. */
  function BuildClient(keys: Value, tokens: Option<FileContent>, tokenPath: string): (r: Result<OAuthClient, AuthError>)
    ensures r.Ok? ==> SelectConfig(keys).Ok? && tokens.Some? && tokens.value.Json?
    ensures r.Ok? ==> r.value.loadedTokens == tokens.value.value && r.value.tokenPath == tokenPath
    ensures SelectConfig(keys).Err? ==> r == Err(SelectConfig(keys).error)
    ensures SelectConfig(keys).Ok? && (tokens.None? || tokens.value.NotJson?) ==> r == Err(TokenNotFound(tokenPath))
    ensures SelectConfig(keys).Ok? && tokens.Some? && tokens.value.Json? ==>
              var config := SelectConfig(keys).value;
              && r.Ok?
              && r.value.clientId == Field(config, "client_id")
              && r.value.clientSecret == Field(config, "client_secret")
              && r.value.redirectUri == RedirectUri(config)
  {
    match SelectConfig(keys)
    case Err(e) => Err(e)
    case Ok(config) =>
      match tokens
      case Some(Json(t)) =>
        Ok(OAuthClient(Field(config, "client_id"), Field(config, "client_secret"), RedirectUri(config), t, tokenPath))
      case _ => Err(TokenNotFound(tokenPath))
  }

  /** `getAuth()`: the memoised client, or a fresh one built from the two files.
      Returns the manager after the call and the client or the thrown error. */
  function GetAuth(m: AuthManager, fs: FileSystem): (r: (AuthManager, Result<OAuthClient, AuthError>))
    ensures m.cached.Some? ==> r == (m, Ok(m.cached.value))
    ensures r.1.Err? ==> r.0 == m
    ensures r.1.Ok? ==> r.0 == m.(cached := Some(r.1.value))
    ensures m.cached.None? && r.1.Ok? ==> r.1.value.tokenPath == m.tokenPath
    ensures m.cached.None? && m.credentialsPath !in fs ==> r.1 == Err(CredentialsUnreadable(m.credentialsPath))
    ensures m.cached.None? && r.1.Ok? ==> m.credentialsPath in fs && m.tokenPath in fs && fs[m.tokenPath].Json?
    ensures m.cached.None? && m.credentialsPath in fs && fs[m.credentialsPath].NotJson? ==>
              r.1 == Err(CredentialsNotJson(fs[m.credentialsPath].syntaxError))
    ensures m.cached.None? && m.credentialsPath in fs && fs[m.credentialsPath].Json? ==>
              r.1 == BuildClient(fs[m.credentialsPath].value,
                                 if m.tokenPath in fs then Some(fs[m.tokenPath]) else None, m.tokenPath)
  {
    if m.cached.Some? then (m, Ok(m.cached.value))
    else if m.credentialsPath !in fs then (m, Err(CredentialsUnreadable(m.credentialsPath)))
    else match fs[m.credentialsPath]
      case NotJson(e) => (m, Err(CredentialsNotJson(e)))
      case Json(keys) =>
        var tokens := if m.tokenPath in fs then Some(fs[m.tokenPath]) else None;
        match BuildClient(keys, tokens, m.tokenPath)
        case Err(e) => (m, Err(e))
        case Ok(client) => (m.(cached := Some(client)), Ok(client))
  }

  /** Once a call has succeeded, every later call returns the same client
      whatever the files now hold. */
  lemma GetAuthMemoised(m: AuthManager, fs: FileSystem, later: FileSystem)
    requires GetAuth(m, fs).1.Ok?
    ensures GetAuth(GetAuth(m, fs).0, later) == GetAuth(m, fs)
  {
  }

  /** With readable credentials naming neither a usable `installed` nor a
      usable `web` configuration, the call fails with the invalid-format
      error, whatever the token file holds. */
  lemma GetAuthInvalidFormat(m: AuthManager, fs: FileSystem)
    requires m.cached.None? && m.credentialsPath in fs && fs[m.credentialsPath].Json?
    requires var keys := fs[m.credentialsPath].value;
             && !Nullish(keys)
             && !Truthy(if Nullish(Field(keys, "installed")) then Field(keys, "web") else Field(keys, "installed"))
    ensures GetAuth(m, fs) == (m, Err(InvalidFormat))
  {
  }

  /** With readable credentials holding a usable configuration and a readable
      token file, the call succeeds with a client built from that
      configuration and those tokens, and caches it. */
  lemma GetAuthBuildsClient(m: AuthManager, fs: FileSystem, config: Value)
    requires m.cached.None? && m.credentialsPath in fs && fs[m.credentialsPath].Json?
    requires SelectConfig(fs[m.credentialsPath].value) == Ok(config)
    requires m.tokenPath in fs && fs[m.tokenPath].Json?
    ensures var client := OAuthClient(Field(config, "client_id"), Field(config, "client_secret"), RedirectUri(config),
                                      fs[m.tokenPath].value, m.tokenPath);
            GetAuth(m, fs) == (m.(cached := Some(client)), Ok(client))
  {
  }

  /** A failed call leaves the cache empty, so the next call reads the files again. */
  lemma GetAuthRetriesAfterFailure(m: AuthManager, fs: FileSystem, later: FileSystem)
    requires m.cached.None?
    requires GetAuth(m, fs).1.Err?
    ensures GetAuth(GetAuth(m, fs).0, later) == GetAuth(m, later)
  {
  }

  /** The own enumerable fields `{...v}` copies: those of an object; nothing
      from `null`, `undefined`, booleans or numbers. */
  function SpreadFields(v: Value): map<string, Value> {
    if v.Object? then v.fields else map[]
  }

  /** The document the `tokens` listener writes: `{...tokens, ...newTokens}`,
      where `tokens` are the ones loaded when the client was built. */
  function MergedTokens(client: OAuthClient, newTokens: map<string, Value>): (r: map<string, Value>)
    ensures r.Keys == SpreadFields(client.loadedTokens).Keys + newTokens.Keys
    ensures forall k :: k in newTokens ==> r[k] == newTokens[k]
    ensures forall k :: k in SpreadFields(client.loadedTokens) && k !in newTokens ==>
              r[k] == SpreadFields(client.loadedTokens)[k]
  {
    SpreadFields(client.loadedTokens) + newTokens
  }

  /** The file writes a sequence of refresh events triggers, in order: each one
      to the token path, each one merged against the tokens loaded at startup. */
  function PersistRefreshes(client: OAuthClient, refreshes: seq<map<string, Value>>): (r: seq<(string, Value)>)
    ensures |r| == |refreshes|
    ensures forall i :: 0 <= i < |r| ==> r[i].0 == client.tokenPath
  {
    if |refreshes| == 0 then []
    else [(client.tokenPath, Object(MergedTokens(client, refreshes[0])))] + PersistRefreshes(client, refreshes[1..])
  }

  /** The i-th write depends only on the loaded tokens and the i-th refresh, never
      on earlier refreshes: a field an earlier refresh set and this one omits
      reverts to its loaded value. */
  lemma {:induction false} PersistIgnoresEarlierRefreshes(client: OAuthClient, refreshes: seq<map<string, Value>>, i: nat)
    requires i < |refreshes|
    ensures PersistRefreshes(client, refreshes)[i] == (client.tokenPath, Object(MergedTokens(client, refreshes[i])))
  {
    if i > 0 {
      PersistIgnoresEarlierRefreshes(client, refreshes[1..], i - 1);
    }
  }
}
