/** The identity provider the validator binds: the common provider data and
    the settings specific to each provider type. */
module Providers {
  import opened Wrappers
  import opened Environment
  import opened Messages

  /** The settings every provider shares. A URL that did not parse is None. */
  datatype ProviderData = ProviderData(
    scope: string, clientID: string, clientSecret: string, clientSecretFile: string,
    prompt: string, approvalPrompt: string, acrValues: string,
    loginURL: Option<URL>, redeemURL: Option<URL>, profileURL: Option<URL>,
    validateURL: Option<URL>, protectedResource: Option<URL>)

  /** A Google group restriction: the groups, the admin to impersonate and
      the service-account credentials file. */
  datatype GroupRestriction = GroupRestriction(groups: seq<string>, adminEmail: string, credentialsFile: string)

  /** The settings specific to each provider type. */
  datatype ProviderSettings =
    | AzureSettings(tenant: string)
    | GitHubSettings(org: string, team: string)
    | KeycloakSettings(group: string)
    | GoogleGroupSettings(restriction: Option<GroupRestriction>)
    | BitbucketSettings(team: string, repository: string)
    | OIDCSettings(allowUnverifiedEmail: bool, userIDClaim: string, verifier: Option<Verifier>)
    | GitLabSettings(allowUnverifiedEmail: bool, group: string, emailDomains: seq<string>, verifier: Option<Verifier>)
    | LoginGovSettings(pubJWKURL: Option<URL>, jwtKey: Option<RSAKey>)
    | NoSettings

  datatype Provider = Provider(kind: ProviderKind, data: ProviderData, settings: ProviderSettings)

  /** The issuer of the default GitLab verifier. */
  const GitLabIssuer: string := "https://gitlab.com"

  /** The login.gov signing key: given either inline or as a file, never
      both and never neither. A key file that cannot be read is treated as
      empty key data, which holds no PEM block and so never parses: that
      case reports the read failure and the parse failure. */
  function LoginGovSigningKey(env: Env, jwtKey: string, jwtKeyFile: string): (r: (Option<RSAKey>, seq<Msg>))
    ensures r.0.Some? <==> r.1 == []
    ensures |r.1| <= 2 && Filed(r.1, {ProviderSettings})
    ensures jwtKey != "" && jwtKeyFile != "" ==> r.1 == [BothJWTKeys]
    ensures jwtKey == "" && jwtKeyFile == "" ==> r.1 == [MissingJWTKey]
    ensures jwtKey != "" && jwtKeyFile == "" ==>
      r.0 == env.parsePEM(jwtKey) && (r.0.None? ==> r.1 == [UnparsableJWTKey])
    ensures jwtKey == "" && jwtKeyFile != "" && env.readFile(jwtKeyFile).Err? ==>
      r.1 == [UnreadableJWTKeyFile(jwtKeyFile), UnparsableJWTKeyFile(jwtKeyFile)]
    ensures jwtKey == "" && jwtKeyFile != "" && env.readFile(jwtKeyFile).Ok? ==>
      r.0 == env.parsePEM(env.readFile(jwtKeyFile).value) && (r.0.None? ==> r.1 == [UnparsableJWTKeyFile(jwtKeyFile)])
  {
    if jwtKey != "" && jwtKeyFile != "" then (None, [BothJWTKeys])
    else if jwtKey == "" && jwtKeyFile == "" then (None, [MissingJWTKey])
    else if jwtKey != "" then
      match env.parsePEM(jwtKey)
      case Some(k) => (Some(k), [])
      case None => (None, [UnparsableJWTKey])
    else
      match env.readFile(jwtKeyFile)
      case Err(_) =>
        var r := [UnreadableJWTKeyFile(jwtKeyFile), UnparsableJWTKeyFile(jwtKeyFile)];
        FiledMembers(r, {ProviderSettings});
        (None, r)
      case Ok(keyData) =>
        match env.parsePEM(keyData)
        case Some(k) => (Some(k), [])
        case None => (None, [UnparsableJWTKeyFile(jwtKeyFile)])
  }
}
