/** The outside world as the validator sees it. Every library call, file
    access and network request the validator makes is a field of `Env`: a
    given function from the call's arguments to its outcome. The validator
    is then a function of its settings and of one `Env`, and every property
    below holds for every `Env`. */
module Environment {
  import opened Wrappers

  /** A parsed URL; only the path is ever changed by the validator. */
  datatype URL = URL(scheme: string, host: string, path: string)

  /** A compiled regular expression. */
  datatype Regex = Regex(source: string)

  /** The endpoints an OpenID Connect discovery document names; an entry
      the document lacks reads as "". */
  datatype DiscoveryDocument = DiscoveryDocument(
    authorizationEndpoint: string, tokenEndpoint: string,
    jwksURI: string, userinfoEndpoint: string)

  /** The endpoints of a provider found by discovery. */
  datatype Endpoints = Endpoints(authURL: string, tokenURL: string)

  /** An ID token verifier: one built from a discovered provider, or one
      built by hand from an issuer and the URL of its key set. */
  datatype Verifier =
    | DiscoveredVerifier(issuer: string, clientID: string, skipIssuerCheck: bool)
    | KeySetVerifier(issuer: string, jwksURL: string, clientID: string, skipIssuerCheck: bool)

  /** The concrete provider type the provider factory returns for a name. */
  datatype ProviderKind = Azure | GitHub | Keycloak | Google | Bitbucket | OIDC | GitLab | LoginGov | OtherKind

  datatype RSAKey = RSAKey(pem: string)
  datatype Cipher = Cipher(key: string)
  datatype SessionStore = SessionStore(kind: string)

  /** The cookie settings handed to the session store. Durations are
      nanoseconds. */
  datatype CookieOptions = CookieOptions(
    name: string, secret: string, domains: seq<string>,
    expire: int, refresh: int, sameSite: string)

  datatype Env = Env(
    /** url.Parse: the parsed URL or the parser's error text. */
    parseURL: string -> Result<URL, string>,
    /** regexp.Compile. */
    compileRegex: string -> Result<Regex, string>,
    /** ioutil.ReadFile: the file's contents or an error. */
    readFile: string -> Result<string, string>,
    /** whether os.Open succeeds on a path. */
    canOpen: string -> bool,
    /** GET of a discovery URL and decoding of its JSON body; None when
        building the request, the request or the decoding fails. */
    fetchDiscovery: string -> Option<DiscoveryDocument>,
    /** oidc.NewProvider for an issuer URL. */
    newProvider: string -> Result<Endpoints, string>,
    /** the error http.NewRequest reports for a GET of a URL, if any. */
    requestError: string -> Option<string>,
    /** providers.New: the provider type chosen for a provider name. */
    providerKind: string -> ProviderKind,
    /** hmacauth.DigestNameToCryptoHash: the hash identifier for a name. */
    digest: string -> Option<nat>,
    /** jwt.ParseRSAPrivateKeyFromPEM. */
    parsePEM: string -> Option<RSAKey>,
    /** encryption.NewCipher on the secret bytes. */
    newCipher: string -> Result<Cipher, string>,
    /** sessions.NewSessionStore on the session cipher and cookie settings. */
    newSessionStore: (Option<Cipher>, CookieOptions) -> Result<SessionStore, string>,
    /** http.Cookie{Name: name}.String(). */
    cookieString: string -> string,
    /** time.Duration.String. */
    durationString: int -> string,
    /** whether opening a log file for writing fails with a permission error. */
    logPermissionDenied: string -> bool)
}
