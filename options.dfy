/** The proxy's settings and their validation. `Options.Validate` checks the
    settings, derives the values the proxy runs with (parsed URLs, compiled
    patterns, verifiers, the bound provider, the session cipher and store)
    and reports every defect it finds in one error. */
module ProxyOptions {
  import opened Wrappers
  import opened GoStrings
  import opened Base64Url
  import opened CookieSecret
  import opened Environment
  import opened Messages
  import opened Parsing
  import opened CookieDomains
  import opened Providers

  /** The hash and key requests are signed with. */
  datatype SignatureData = SignatureData(hash: nat, key: string)

  /** The settings the OpenID Connect set-up may change, as they stand at
      some point of validation: whether discovery is off, the endpoint
      URLs, the scope and the issuer's verifier. */
  datatype OIDCState = OIDCState(skipDiscovery: bool, loginURL: string, redeemURL: string,
                                 jwksURL: string, profileURL: string, scope: string,
                                 verifier: Option<Verifier>)

  /** The fields parsing the request settings derives: the bearer-token
      verifiers, the redirect URL, the upstream URLs, the compiled skip-auth
      patterns and headers, and the provider. */
  datatype RequestFields = RequestFields(bearerVerifiers: seq<Option<Verifier>>, redirect: Option<URL>,
                                         proxyURLs: seq<URL>, skipAuthRegex: seq<Regex>,
                                         skipAuthHeader: seq<Regex>, provider: Option<Provider>)

  /** The fields configuring the session derives: the session cipher and
      store, the cookie domains and the signature data. */
  datatype SessionFields = SessionFields(cipher: Option<Cipher>, store: Option<SessionStore>,
                                         cookieDomains: seq<string>, signature: Option<SignatureData>)

  /** One hour, in the nanoseconds durations are counted in. */
  const Hour: int := 3600 * 1000000000

  /** The scope requested from an OpenID Connect issuer when none is set. */
  const DefaultOIDCScope: string := "openid email profile"

  /** The discovery document URL of an issuer: one trailing '/' of the
      issuer is dropped before the well-known path. */
  function DiscoveryURL(issuer: string): (r: string)
    ensures |issuer| > 0 && issuer[|issuer| - 1] == '/' ==>
      r == issuer[..|issuer| - 1] + "/.well-known/openid-configuration"
    ensures (|issuer| == 0 || issuer[|issuer| - 1] != '/') ==> r == issuer + "/.well-known/openid-configuration"
  {
    TrimSuffix(issuer, "/") + "/.well-known/openid-configuration"
  }

  /** Splits a `hash:key` signature spec; the spec must hold exactly one ':'. */
  function SplitSignatureSpec(spec: string): (r: Option<(string, string)>)
    ensures r.Some? <==> Count(spec, ':') == 1
    ensures r.Some? ==> spec == r.value.0 + ":" + r.value.1 && ':' !in r.value.0 && ':' !in r.value.1
  {
    var parts := Split(spec, ':');
    if |parts| != 2 then None
    else
      SplitAtFirst(spec, ':');
      assert parts[1..] == [parts[1]];
      Some((parts[0], parts[1]))
  }

  /** Any spec written as hash ':' key with no ':' in either part splits into
      exactly that hash and key. */
  lemma SplitSignatureSpecOf(hash: string, key: string)
    requires ':' !in hash && ':' !in key
    ensures SplitSignatureSpec(hash + ":" + key) == Some((hash, key))
  {
    var spec := hash + ":" + key;
    assert spec[|hash|] == ':';
    CountOfCut(hash, key, ':');
    var r := SplitSignatureSpec(spec).value;
    CutUnique(spec, ':', r.0, r.1, hash, key);
  }

  lemma {:induction false} CountOfCut(h: string, t: string, c: char)
    requires c !in h && c !in t
    ensures Count(h + [c] + t, c) == 1
    decreases |h|
  {
    if h == [] {
      assert h + [c] + t == [c] + t;
      assert ([c] + t)[1..] == t;
    } else {
      assert (h + [c] + t)[1..] == h[1..] + [c] + t;
      CountOfCut(h[1..], t, c);
    }
  }

  /** Whether a size is one an AES key may have. */
  method IsValidKeySize(n: nat) returns (valid: bool)
    ensures valid <==> ValidAESKeySize(n)
  {
    var sizes := [16, 24, 32];
    valid := false;
    var i := 0;
    while i < |sizes|
      invariant 0 <= i <= |sizes|
      invariant valid <==> exists k | 0 <= k < i :: sizes[k] == n
    {
      if n == sizes[i] {
        valid := true;
      }
      i := i + 1;
    }
    assert sizes[0] == 16 && sizes[1] == 24 && sizes[2] == 32;
  }

  /** The verifier an extra JWT issuer contributes; None when it could not
      be built. */
  function VerifierOf(env: Env, j: JwtIssuer): (r: Option<Verifier>)
    ensures r.Some? <==> NewVerifierFromJwtIssuer(env, j).Ok?
    ensures r.Some? ==> r.value == NewVerifierFromJwtIssuer(env, j).value
  {
    match NewVerifierFromJwtIssuer(env, j)
    case Ok(v) => Some(v)
    case Err(_) => None
  }

  /** One verifier slot per issuer, in order; a slot is empty exactly when
      the issuer's verifier could not be built. */
  function Verifiers(env: Env, issuers: seq<JwtIssuer>): (r: seq<Option<Verifier>>)
    ensures |r| == |issuers|
    ensures forall i | 0 <= i < |issuers| :: r[i].None? <==> BuildOutcome(env, issuers[i]).Reject?
    decreases |issuers|
  {
    if issuers == [] then []
    else Verifiers(env, issuers[..|issuers| - 1]) + [VerifierOf(env, issuers[|issuers| - 1])]
  }

  /** A filled slot holds the verifier built from that very issuer. */
  lemma {:induction false} VerifiersBuilt(env: Env, issuers: seq<JwtIssuer>)
    ensures var r := Verifiers(env, issuers);
      forall i | 0 <= i < |issuers| :: r[i].Some? ==> NewVerifierFromJwtIssuer(env, issuers[i]) == Ok(r[i].value)
    decreases |issuers|
  {
    if issuers != [] {
      var init := issuers[..|issuers| - 1];
      VerifiersBuilt(env, init);
      var r := Verifiers(env, issuers);
      forall i | 0 <= i < |issuers| && r[i].Some?
        ensures NewVerifierFromJwtIssuer(env, issuers[i]) == Ok(r[i].value)
      {
        if i < |init| {
          assert r[i] == Verifiers(env, init)[i] && issuers[i] == init[i];
        }
      }
    }
  }

  function BuildOutcome(env: Env, j: JwtIssuer): (r: Outcome<Verifier>)
    ensures r.Reject? <==> NewVerifierFromJwtIssuer(env, j).Err?
    ensures r.Reject? ==> r.msg == VerifierBuildFailure(NewVerifierFromJwtIssuer(env, j).error)
  {
    match NewVerifierFromJwtIssuer(env, j)
    case Ok(v) => Accept(v)
    case Err(e) => Reject(VerifierBuildFailure(e))
  }

  function Build(env: Env): JwtIssuer -> Outcome<Verifier>
  {
    j => BuildOutcome(env, j)
  }

  function Upstream(env: Env): string -> Outcome<URL>
  {
    u => UpstreamOutcome(env, u)
  }

  function Pattern(env: Env): string -> Outcome<Regex>
  {
    p => PatternOutcome(env, p)
  }

  /** The loop over the extra JWT issuers: every issuer contributes one
      verifier slot, None when its verifier could not be built, and each
      failure appends one message. */
  method BuildVerifiers(env: Env, issuers: seq<JwtIssuer>, msgs: seq<Msg>)
    returns (verifiers: seq<Option<Verifier>>, out: seq<Msg>)
    ensures verifiers == Verifiers(env, issuers)
    ensures out == msgs + Rejected(issuers, Build(env))
  {
    verifiers, out := [], msgs;
    var i := 0;
    while i < |issuers|
      invariant 0 <= i <= |issuers|
      invariant verifiers == Verifiers(env, issuers[..i])
      invariant out == msgs + Rejected(issuers[..i], Build(env))
    {
      var r := NewVerifierFromJwtIssuer(env, issuers[i]);
      BuildStep(env, issuers, i, msgs, verifiers, out);
      if r.Err? {
        out := Append(out, VerifierBuildFailure(r.error));
      }
      verifiers := verifiers + [if r.Ok? then Some(r.value) else None];
      i := i + 1;
    }
    assert issuers[..i] == issuers;
  }

  /** One more issuer adds its slot to the verifiers and, when its verifier
      cannot be built, its failure to the messages. */
  lemma BuildStep(env: Env, issuers: seq<JwtIssuer>, i: nat, msgs: seq<Msg>,
                  verifiers: seq<Option<Verifier>>, out: seq<Msg>)
    requires i < |issuers|
    requires verifiers == Verifiers(env, issuers[..i])
    requires out == msgs + Rejected(issuers[..i], Build(env))
    ensures var r := NewVerifierFromJwtIssuer(env, issuers[i]);
      verifiers + [if r.Ok? then Some(r.value) else None] == Verifiers(env, issuers[..i + 1]) &&
      (if r.Err? then Append(out, VerifierBuildFailure(r.error)) else out) ==
        msgs + Rejected(issuers[..i + 1], Build(env))
  {
    assert issuers[..i + 1][..i] == issuers[..i];
    RejectedStep(issuers, i, Build(env));
    assert Build(env)(issuers[i]) == BuildOutcome(env, issuers[i]);
  }

  /** A failure to build a verifier is filed under the JWT issuers. */
  lemma BuildFailuresFiled(env: Env, parsed: seq<JwtIssuer>)
    ensures Filed(Rejected(parsed, Build(env)), {JwtIssuers})
  {
    forall j | j in parsed
      ensures Build(env)(j).Reject? ==> RuleOf(Build(env)(j).msg) == JwtIssuers
    {
      assert Build(env)(j) == BuildOutcome(env, j);
    }
    RejectedRule(parsed, Build(env), JwtIssuers);
  }

  /** What the extra JWT issuers report: first the entries that are not
      `issuer=audience` specs, then the parsed issuers whose verifier could
      not be built. */
  function JwtIssuerDefects(env: Env, issuers: seq<string>): (r: seq<Msg>)
    ensures Filed(r, {JwtIssuers})
  {
    JwtIssuerMessagesFiled(env, issuers);
    Rejected(issuers, IssuerOutcome) + Rejected(Accepted(issuers, IssuerOutcome), Build(env))
  }

  /** Both the parse and the build messages are filed under the JWT issuers. */
  lemma JwtIssuerMessagesFiled(env: Env, issuers: seq<string>)
    ensures Filed(Rejected(issuers, IssuerOutcome) + Rejected(Accepted(issuers, IssuerOutcome), Build(env)), {JwtIssuers})
  {
    var parsed := Accepted(issuers, IssuerOutcome);
    RejectedRule(issuers, IssuerOutcome, JwtIssuers);
    BuildFailuresFiled(env, parsed);
    FiledAppend(Rejected(issuers, IssuerOutcome), Rejected(parsed, Build(env)), {JwtIssuers});
  }

  /** The extra JWT issuers report nothing exactly when every entry holds
      an '=' and a verifier can be built for every issuer parsed. */
  lemma NoJwtIssuerDefects(env: Env, issuers: seq<string>)
    ensures JwtIssuerDefects(env, issuers) == [] <==>
      (forall e | e in issuers :: '=' in e) &&
      (forall j | j in Accepted(issuers, IssuerOutcome) :: NewVerifierFromJwtIssuer(env, j).Ok?)
  {
    var parsed := Accepted(issuers, IssuerOutcome);
    NothingRejected(issuers, IssuerOutcome);
    assert (forall e | e in issuers :: '=' in e) <==> forall i | 0 <= i < |issuers| :: IssuerOutcome(issuers[i]).Accept?;
    NoBuildFailures(env, parsed);
    assert JwtIssuerDefects(env, issuers) == Rejected(issuers, IssuerOutcome) + Rejected(parsed, Build(env));
  }

  /** No verifier fails to build exactly when every parsed issuer gets
      one. */
  lemma NoBuildFailures(env: Env, parsed: seq<JwtIssuer>)
    ensures Rejected(parsed, Build(env)) == [] <==> forall j | j in parsed :: NewVerifierFromJwtIssuer(env, j).Ok?
  {
    NothingRejected(parsed, Build(env));
    assert forall j | j in parsed :: Build(env)(j) == BuildOutcome(env, j);
    assert (forall j | j in parsed :: NewVerifierFromJwtIssuer(env, j).Ok?) <==>
           forall i | 0 <= i < |parsed| :: Build(env)(parsed[i]).Accept?;
  }

  /** The extra JWT issuers' part of the bearer verifiers: the issuers are
      parsed, then each parsed issuer gets a verifier slot. */
  method ExtraIssuerVerifiers(env: Env, issuers: seq<string>, msgs: seq<Msg>)
    returns (verifiers: seq<Option<Verifier>>, out: seq<Msg>)
    ensures verifiers == Verifiers(env, Accepted(issuers, IssuerOutcome))
    ensures out == msgs + JwtIssuerDefects(env, issuers)
  {
    var parsed, mid := ParseJwtIssuers(issuers, msgs);
    verifiers, out := BuildVerifiers(env, parsed, mid);
    Concat3(msgs, Rejected(issuers, IssuerOutcome), Rejected(parsed, Build(env)));
  }

  /** What the session store reports when it cannot be built on the cipher
      and cookie settings it is given. */
  function SessionStoreDefects(env: Env, cipher: Option<Cipher>, cookie: CookieOptions): (r: seq<Msg>)
    ensures r == [] <==> env.newSessionStore(cipher, cookie).Ok?
    ensures r != [] ==> r == [SessionStoreFailure(env.newSessionStore(cipher, cookie).error)]
    ensures Filed(r, {SessionStorage})
  {
    match env.newSessionStore(cipher, cookie)
    case Ok(_) => []
    case Err(e) => [SessionStoreFailure(e)]
  }

  /** validateCookieName: a name the cookie serialiser refuses (it then
      writes nothing) is reported, quoted. */
  function CookieNameDefects(env: Env, name: string): (r: seq<Msg>)
    ensures r != [] <==> env.cookieString(name) == ""
    ensures r == [] || r == [InvalidCookieName(name)]
    ensures Filed(r, {CookieName})
  {
    if env.cookieString(name) == "" then [InvalidCookieName(name)] else []
  }

  /** The SameSite values a cookie may carry; the empty value leaves the
      attribute out. */
  predicate KnownSameSite(value: string)
  {
    value in {"", "none", "lax", "strict"}
  }

  /** The checks of each phase of validation. */
  const SettingsRules: set<Rule> := {RequiredSettings, EmailValidation, AuthHeaders}
  const RequestRules: set<Rule> := {PreferEmail, JwtIssuers, RedirectURL, Upstreams, SkipAuthPatterns, ProviderSettings}
  const SessionRules: set<Rule> :=
    {CookieSecret, SessionStorage, CookieLifetime, GoogleSettings, SameSite, SignatureKey, CookieName, LogFile}

  /** The settings checks' messages, reported one check after another, are
      filed under the settings checks, each check's own in order. */
  lemma SettingsParts(a: seq<Msg>, b: seq<Msg>, c: seq<Msg>)
    requires Filed(a, {RequiredSettings})
    requires Filed(b, {EmailValidation})
    requires Filed(c, {AuthHeaders})
    ensures Filed(a + b + c, SettingsRules)
    ensures Of(a + b + c, RequiredSettings) == a
    ensures Of(a + b + c, EmailValidation) == b
    ensures Of(a + b + c, AuthHeaders) == c
  {
    FiledOf(a, RequiredSettings);
    FiledOf(b, EmailValidation);
    FiledOf(c, AuthHeaders);
    OfPhases(a, b, {RequiredSettings}, {EmailValidation});
    OfPhases(a + b, c, {RequiredSettings} + {EmailValidation}, {AuthHeaders});
    assert SettingsRules == {RequiredSettings} + {EmailValidation} + {AuthHeaders};
  }

  /** The request checks' messages, reported one check after another, are
      filed under the request checks, each check's own in order. */
  lemma RequestParts(a: seq<Msg>, b: seq<Msg>, c: seq<Msg>, d: seq<Msg>, e: seq<Msg>, f: seq<Msg>)
    requires Filed(a, {PreferEmail})
    requires Filed(b, {JwtIssuers})
    requires Filed(c, {RedirectURL})
    requires Filed(d, {Upstreams})
    requires Filed(e, {SkipAuthPatterns})
    requires Filed(f, {ProviderSettings})
    ensures Filed(a + b + c + d + e + f, RequestRules)
    ensures Of(a + b + c + d + e + f, PreferEmail) == a
    ensures Of(a + b + c + d + e + f, JwtIssuers) == b
    ensures Of(a + b + c + d + e + f, RedirectURL) == c
    ensures Of(a + b + c + d + e + f, Upstreams) == d
    ensures Of(a + b + c + d + e + f, SkipAuthPatterns) == e
    ensures Of(a + b + c + d + e + f, ProviderSettings) == f
  {
    FiledOf(a, PreferEmail);
    FiledOf(b, JwtIssuers);
    FiledOf(c, RedirectURL);
    FiledOf(d, Upstreams);
    FiledOf(e, SkipAuthPatterns);
    FiledOf(f, ProviderSettings);
    OfPhases(a, b, {PreferEmail}, {JwtIssuers});
    OfPhases(a + b, c, {PreferEmail} + {JwtIssuers}, {RedirectURL});
    OfPhases(a + b + c, d, {PreferEmail} + {JwtIssuers} + {RedirectURL}, {Upstreams});
    OfPhases(a + b + c + d, e, {PreferEmail} + {JwtIssuers} + {RedirectURL} + {Upstreams}, {SkipAuthPatterns});
    OfPhases(a + b + c + d + e, f, {PreferEmail} + {JwtIssuers} + {RedirectURL} + {Upstreams} + {SkipAuthPatterns}, {ProviderSettings});
    assert RequestRules == {PreferEmail} + {JwtIssuers} + {RedirectURL} + {Upstreams} + {SkipAuthPatterns} + {ProviderSettings};
  }

  /** The session checks' messages, reported one check after another, are
      filed under the session checks, each check's own in order. */
  lemma SessionParts(a: seq<Msg>, b: seq<Msg>, c: seq<Msg>, d: seq<Msg>, e: seq<Msg>, f: seq<Msg>, g: seq<Msg>, h: seq<Msg>)
    requires Filed(a, {CookieSecret})
    requires Filed(b, {SessionStorage})
    requires Filed(c, {CookieLifetime})
    requires Filed(d, {GoogleSettings})
    requires Filed(e, {SameSite})
    requires Filed(f, {SignatureKey})
    requires Filed(g, {CookieName})
    requires Filed(h, {LogFile})
    ensures Filed(a + b + c + d + e + f + g + h, SessionRules)
    ensures Of(a + b + c + d + e + f + g + h, CookieSecret) == a
    ensures Of(a + b + c + d + e + f + g + h, SessionStorage) == b
    ensures Of(a + b + c + d + e + f + g + h, CookieLifetime) == c
    ensures Of(a + b + c + d + e + f + g + h, GoogleSettings) == d
    ensures Of(a + b + c + d + e + f + g + h, SameSite) == e
    ensures Of(a + b + c + d + e + f + g + h, SignatureKey) == f
    ensures Of(a + b + c + d + e + f + g + h, CookieName) == g
    ensures Of(a + b + c + d + e + f + g + h, LogFile) == h
  {
    FiledOf(a, CookieSecret);
    FiledOf(b, SessionStorage);
    FiledOf(c, CookieLifetime);
    FiledOf(d, GoogleSettings);
    FiledOf(e, SameSite);
    FiledOf(f, SignatureKey);
    FiledOf(g, CookieName);
    FiledOf(h, LogFile);
    OfPhases(a, b, {CookieSecret}, {SessionStorage});
    OfPhases(a + b, c, {CookieSecret} + {SessionStorage}, {CookieLifetime});
    OfPhases(a + b + c, d, {CookieSecret} + {SessionStorage} + {CookieLifetime}, {GoogleSettings});
    OfPhases(a + b + c + d, e, {CookieSecret} + {SessionStorage} + {CookieLifetime} + {GoogleSettings}, {SameSite});
    OfPhases(a + b + c + d + e, f, {CookieSecret} + {SessionStorage} + {CookieLifetime} + {GoogleSettings} + {SameSite}, {SignatureKey});
    OfPhases(a + b + c + d + e + f, g, {CookieSecret} + {SessionStorage} + {CookieLifetime} + {GoogleSettings} + {SameSite} + {SignatureKey}, {CookieName});
    OfPhases(a + b + c + d + e + f + g, h, {CookieSecret} + {SessionStorage} + {CookieLifetime} + {GoogleSettings} + {SameSite} + {SignatureKey} + {CookieName}, {LogFile});
    assert SessionRules == {CookieSecret} + {SessionStorage} + {CookieLifetime} + {GoogleSettings} + {SameSite} + {SignatureKey} + {CookieName} + {LogFile};
  }

  /** The messages `Validate` reports are the four phases' messages in
      order, and each check's messages are exactly what its own phase
      reported for it. */
  lemma ReportAttribution(settings: seq<Msg>, oidc: seq<Msg>, request: seq<Msg>, session: seq<Msg>)
    requires Filed(settings, SettingsRules) && Filed(oidc, {OIDCEndpoints})
    requires Filed(request, RequestRules) && Filed(session, SessionRules)
    ensures forall rule | rule in SettingsRules :: Of(settings + oidc + request + session, rule) == Of(settings, rule)
    ensures Of(settings + oidc + request + session, OIDCEndpoints) == Of(oidc, OIDCEndpoints)
    ensures forall rule | rule in RequestRules :: Of(settings + oidc + request + session, rule) == Of(request, rule)
    ensures forall rule | rule in SessionRules :: Of(settings + oidc + request + session, rule) == Of(session, rule)
  {
    OfPhases(settings, oidc, SettingsRules, {OIDCEndpoints});
    OfPhases(settings + oidc, request, SettingsRules + {OIDCEndpoints}, RequestRules);
    OfPhases(settings + oidc + request, session, SettingsRules + {OIDCEndpoints} + RequestRules, SessionRules);
  }

  /** The settings as loaded from flags and the configuration file, before
      validation. */
  datatype Settings = Settings(
    cookie: CookieOptions,
    clientID: string,
    clientSecret: string,
    clientSecretFile: string,
    providerName: string,
    authenticatedEmailsFile: string,
    htpasswdFile: string,
    emailDomains: seq<string>,
    setBasicAuth: bool,
    setAuthorization: bool,
    passBasicAuth: bool,
    passUserHeaders: bool,
    preferEmailToUser: bool,
    passAccessToken: bool,
    passAuthorization: bool,
    oidcIssuerURL: string,
    insecureOIDCSkipIssuerVerification: bool,
    insecureOIDCAllowUnverifiedEmail: bool,
    skipOIDCDiscovery: bool,
    loginURL: string,
    redeemURL: string,
    oidcJwksURL: string,
    profileURL: string,
    validateURL: string,
    protectedResource: string,
    scope: string,
    prompt: string,
    approvalPrompt: string,
    acrValues: string,
    userIDClaim: string,
    skipJwtBearerTokens: bool,
    extraJwtIssuers: seq<string>,
    redirectURL: string,
    upstreams: seq<string>,
    skipAuthRegex: seq<string>,
    skipAuthHeader: seq<string>,
    googleGroups: seq<string>,
    googleAdminEmail: string,
    googleServiceAccountJSON: string,
    azureTenant: string,
    gitHubOrg: string,
    gitHubTeam: string,
    keycloakGroup: string,
    bitbucketTeam: string,
    bitbucketRepository: string,
    gitLabGroup: string,
    pubJWKURL: string,
    jwtKey: string,
    jwtKeyFile: string,
    signatureKey: string,
    loggingFilename: string)

  /** NewOptions: the defaults every setting starts from. */
  function NewOptions(): (s: Settings)
    ensures s.cookie == CookieOptions("_oauth2_proxy", "", [], 168 * Hour, 0, "")
    ensures s.passBasicAuth && s.passUserHeaders && s.approvalPrompt == "force" && s.userIDClaim == "email"
    ensures !s.setBasicAuth && !s.setAuthorization && !s.passAccessToken && !s.passAuthorization
    ensures !s.preferEmailToUser && !s.insecureOIDCAllowUnverifiedEmail && !s.skipOIDCDiscovery
    ensures s.prompt == "" && s.loggingFilename == "" && s.clientID == "" && s.clientSecret == ""
    ensures s.providerName == "" && s.oidcIssuerURL == ""
  {
    Settings(
      cookie := CookieOptions("_oauth2_proxy", "", [], 168 * Hour, 0, ""),
      clientID := "",
      clientSecret := "",
      clientSecretFile := "",
      providerName := "",
      authenticatedEmailsFile := "",
      htpasswdFile := "",
      emailDomains := [],
      setBasicAuth := false,
      setAuthorization := false,
      passBasicAuth := true,
      passUserHeaders := true,
      preferEmailToUser := false,
      passAccessToken := false,
      passAuthorization := false,
      oidcIssuerURL := "",
      insecureOIDCSkipIssuerVerification := false,
      insecureOIDCAllowUnverifiedEmail := false,
      skipOIDCDiscovery := false,
      loginURL := "",
      redeemURL := "",
      oidcJwksURL := "",
      profileURL := "",
      validateURL := "",
      protectedResource := "",
      scope := "",
      prompt := "",
      approvalPrompt := "force",
      acrValues := "",
      userIDClaim := "email",
      skipJwtBearerTokens := false,
      extraJwtIssuers := [],
      redirectURL := "",
      upstreams := [],
      skipAuthRegex := [],
      skipAuthHeader := [],
      googleGroups := [],
      googleAdminEmail := "",
      googleServiceAccountJSON := "",
      azureTenant := "",
      gitHubOrg := "",
      gitHubTeam := "",
      keycloakGroup := "",
      bitbucketTeam := "",
      bitbucketRepository := "",
      gitLabGroup := "",
      pubJWKURL := "",
      jwtKey := "",
      jwtKeyFile := "",
      signatureKey := "",
      loggingFilename := "")
  }

  class Options {
    const cookie: CookieOptions
    /** The cookie domains, in the order they are tried; sorted by validation. */
    var cookieDomains: seq<string>
    const clientID: string
    const clientSecret: string
    const clientSecretFile: string
    /** The provider's name, as configured. */
    const providerName: string
    const authenticatedEmailsFile: string
    const htpasswdFile: string
    const emailDomains: seq<string>
    const setBasicAuth: bool
    const setAuthorization: bool
    const passBasicAuth: bool
    const passUserHeaders: bool
    const preferEmailToUser: bool
    const passAccessToken: bool
    const passAuthorization: bool
    const oidcIssuerURL: string
    const insecureOIDCSkipIssuerVerification: bool
    const insecureOIDCAllowUnverifiedEmail: bool
    var skipOIDCDiscovery: bool
    var loginURL: string
    var redeemURL: string
    var oidcJwksURL: string
    var profileURL: string
    const validateURL: string
    const protectedResource: string
    var scope: string
    const prompt: string
    const approvalPrompt: string
    const acrValues: string
    const userIDClaim: string
    const skipJwtBearerTokens: bool
    const extraJwtIssuers: seq<string>
    const redirectURL: string
    const upstreams: seq<string>
    const skipAuthRegex: seq<string>
    const skipAuthHeader: seq<string>
    const googleGroups: seq<string>
    const googleAdminEmail: string
    const googleServiceAccountJSON: string
    const azureTenant: string
    const gitHubOrg: string
    const gitHubTeam: string
    const keycloakGroup: string
    const bitbucketTeam: string
    const bitbucketRepository: string
    const gitLabGroup: string
    const pubJWKURL: string
    const jwtKey: string
    const jwtKeyFile: string
    const signatureKey: string
    const loggingFilename: string

    // What validation derives.
    var parsedRedirectURL: Option<URL>
    var proxyURLs: seq<URL>
    var compiledRegex: seq<Regex>
    var compiledHeader: seq<Regex>
    var provider: Option<Provider>
    var sessionCipher: Option<Cipher>
    var sessionStore: Option<SessionStore>
    var signatureData: Option<SignatureData>
    var oidcVerifier: Option<Verifier>
    var jwtBearerVerifiers: seq<Option<Verifier>>

    /** The options as loaded: every setting as given, nothing derived yet. */
    constructor (s: Settings)
      ensures cookie == s.cookie && cookieDomains == s.cookie.domains && clientID == s.clientID && clientSecret == s.clientSecret &&
        clientSecretFile == s.clientSecretFile && providerName == s.providerName &&
        authenticatedEmailsFile == s.authenticatedEmailsFile && htpasswdFile == s.htpasswdFile &&
        emailDomains == s.emailDomains && setBasicAuth == s.setBasicAuth && setAuthorization == s.setAuthorization &&
        passBasicAuth == s.passBasicAuth && passUserHeaders == s.passUserHeaders &&
        preferEmailToUser == s.preferEmailToUser && passAccessToken == s.passAccessToken &&
        passAuthorization == s.passAuthorization && oidcIssuerURL == s.oidcIssuerURL &&
        insecureOIDCSkipIssuerVerification == s.insecureOIDCSkipIssuerVerification &&
        insecureOIDCAllowUnverifiedEmail == s.insecureOIDCAllowUnverifiedEmail &&
        skipOIDCDiscovery == s.skipOIDCDiscovery && loginURL == s.loginURL && redeemURL == s.redeemURL &&
        oidcJwksURL == s.oidcJwksURL && profileURL == s.profileURL && validateURL == s.validateURL &&
        protectedResource == s.protectedResource && scope == s.scope && prompt == s.prompt &&
        approvalPrompt == s.approvalPrompt && acrValues == s.acrValues && userIDClaim == s.userIDClaim &&
        skipJwtBearerTokens == s.skipJwtBearerTokens && extraJwtIssuers == s.extraJwtIssuers &&
        redirectURL == s.redirectURL && upstreams == s.upstreams && skipAuthRegex == s.skipAuthRegex &&
        skipAuthHeader == s.skipAuthHeader && googleGroups == s.googleGroups &&
        googleAdminEmail == s.googleAdminEmail && googleServiceAccountJSON == s.googleServiceAccountJSON &&
        azureTenant == s.azureTenant && gitHubOrg == s.gitHubOrg && gitHubTeam == s.gitHubTeam &&
        keycloakGroup == s.keycloakGroup && bitbucketTeam == s.bitbucketTeam &&
        bitbucketRepository == s.bitbucketRepository && gitLabGroup == s.gitLabGroup && pubJWKURL == s.pubJWKURL &&
        jwtKey == s.jwtKey && jwtKeyFile == s.jwtKeyFile && signatureKey == s.signatureKey &&
        loggingFilename == s.loggingFilename
      ensures parsedRedirectURL == None && proxyURLs == [] && compiledRegex == [] && compiledHeader == []
      ensures provider == None && sessionCipher == None && sessionStore == None && signatureData == None
      ensures oidcVerifier == None && jwtBearerVerifiers == []
    {
      cookie := s.cookie;
      cookieDomains := s.cookie.domains;
      clientID := s.clientID;
      clientSecret := s.clientSecret;
      clientSecretFile := s.clientSecretFile;
      providerName := s.providerName;
      authenticatedEmailsFile := s.authenticatedEmailsFile;
      htpasswdFile := s.htpasswdFile;
      emailDomains := s.emailDomains;
      setBasicAuth := s.setBasicAuth;
      setAuthorization := s.setAuthorization;
      passBasicAuth := s.passBasicAuth;
      passUserHeaders := s.passUserHeaders;
      preferEmailToUser := s.preferEmailToUser;
      passAccessToken := s.passAccessToken;
      passAuthorization := s.passAuthorization;
      oidcIssuerURL := s.oidcIssuerURL;
      insecureOIDCSkipIssuerVerification := s.insecureOIDCSkipIssuerVerification;
      insecureOIDCAllowUnverifiedEmail := s.insecureOIDCAllowUnverifiedEmail;
      skipOIDCDiscovery := s.skipOIDCDiscovery;
      loginURL := s.loginURL;
      redeemURL := s.redeemURL;
      oidcJwksURL := s.oidcJwksURL;
      profileURL := s.profileURL;
      validateURL := s.validateURL;
      protectedResource := s.protectedResource;
      scope := s.scope;
      prompt := s.prompt;
      approvalPrompt := s.approvalPrompt;
      acrValues := s.acrValues;
      userIDClaim := s.userIDClaim;
      skipJwtBearerTokens := s.skipJwtBearerTokens;
      extraJwtIssuers := s.extraJwtIssuers;
      redirectURL := s.redirectURL;
      upstreams := s.upstreams;
      skipAuthRegex := s.skipAuthRegex;
      skipAuthHeader := s.skipAuthHeader;
      googleGroups := s.googleGroups;
      googleAdminEmail := s.googleAdminEmail;
      googleServiceAccountJSON := s.googleServiceAccountJSON;
      azureTenant := s.azureTenant;
      gitHubOrg := s.gitHubOrg;
      gitHubTeam := s.gitHubTeam;
      keycloakGroup := s.keycloakGroup;
      bitbucketTeam := s.bitbucketTeam;
      bitbucketRepository := s.bitbucketRepository;
      gitLabGroup := s.gitLabGroup;
      pubJWKURL := s.pubJWKURL;
      jwtKey := s.jwtKey;
      jwtKeyFile := s.jwtKeyFile;
      signatureKey := s.signatureKey;
      loggingFilename := s.loggingFilename;
      parsedRedirectURL, proxyURLs, compiledRegex, compiledHeader := None, [], [], [];
      provider, sessionCipher, sessionStore, signatureData := None, None, None, None;
      oidcVerifier, jwtBearerVerifiers := None, [];
    }

    /** Whether the session needs a cipher: some token is kept in the
        session, or sessions are refreshed. */
    predicate CipherNeeded()
    {
      passAccessToken || setAuthorization || passAuthorization || cookie.refresh != 0
    }

    // ---------------------------------------------------------------
    // The checks on plain settings that open validation.

    /** The cookie secret, the client id and (except for login.gov, which
        signs a JWT instead) a readable client secret are required. */
    function RequiredSettingsDefects(env: Env): (r: seq<Msg>)
      ensures |r| <= 4 && Filed(r, {RequiredSettings})
    {
      var r :=
        (if cookie.secret == "" then [MissingCookieSecret] else []) +
        (if clientID == "" then [MissingClientID] else []) +
        (if providerName == "login.gov" then []
         else
           (if clientSecret == "" && clientSecretFile == "" then [MissingClientSecret] else []) +
           (if clientSecret == "" && clientSecretFile != "" && env.readFile(clientSecretFile).Err?
            then [UnreadableClientSecretFile(clientSecretFile)] else []));
      FiledMembers(r, {RequiredSettings});
      r
    }

    /** Which required settings are reported missing: each message stands
        for exactly its own missing setting. */
    lemma RequiredSettingsMessages(env: Env)
      ensures var r := RequiredSettingsDefects(env);
        (MissingCookieSecret in r <==> cookie.secret == "") &&
        (MissingClientID in r <==> clientID == "") &&
        (MissingClientSecret in r <==>
           providerName != "login.gov" && clientSecret == "" && clientSecretFile == "") &&
        (UnreadableClientSecretFile(clientSecretFile) in r <==>
           providerName != "login.gov" && clientSecret == "" && clientSecretFile != "" &&
           env.readFile(clientSecretFile).Err?)
    {
      var secret := if cookie.secret == "" then [MissingCookieSecret] else [];
      var id := if clientID == "" then [MissingClientID] else [];
      var missing := if clientSecret == "" && clientSecretFile == "" then [MissingClientSecret] else [];
      var unreadable :=
        if clientSecret == "" && clientSecretFile != "" && env.readFile(clientSecretFile).Err?
        then [UnreadableClientSecretFile(clientSecretFile)] else [];
      var client := if providerName == "login.gov" then [] else missing + unreadable;
      assert RequiredSettingsDefects(env) == secret + id + client;
    }

    /** The required-settings check reports nothing but those four
        messages. */
    lemma OnlyRequiredSettingsMessages(env: Env)
      ensures forall m | m in RequiredSettingsDefects(env) ::
        m in [MissingCookieSecret, MissingClientID, MissingClientSecret, UnreadableClientSecretFile(clientSecretFile)]
    {
      var secret := if cookie.secret == "" then [MissingCookieSecret] else [];
      var id := if clientID == "" then [MissingClientID] else [];
      var missing := if clientSecret == "" && clientSecretFile == "" then [MissingClientSecret] else [];
      var unreadable :=
        if clientSecret == "" && clientSecretFile != "" && env.readFile(clientSecretFile).Err?
        then [UnreadableClientSecretFile(clientSecretFile)] else [];
      var client := if providerName == "login.gov" then [] else missing + unreadable;
      var r := RequiredSettingsDefects(env);
      assert r == secret + id + client;
      forall m | m in r
        ensures m in [MissingCookieSecret, MissingClientID, MissingClientSecret, UnreadableClientSecretFile(clientSecretFile)]
      {
        assert m in secret || m in id || m in missing || m in unreadable;
      }
    }

    /** Users must be authorised somehow: by email domain, by a list of
        emails, or by an htpasswd file. */
    function EmailValidationDefects(): (r: seq<Msg>)
      ensures r != [] <==> authenticatedEmailsFile == "" && |emailDomains| == 0 && htpasswdFile == ""
      ensures r == [] || r == [MissingEmailValidation]
      ensures Filed(r, {EmailValidation})
    {
      if authenticatedEmailsFile == "" && |emailDomains| == 0 && htpasswdFile == "" then [MissingEmailValidation] else []
    }

    /** Basic auth and the Authorization header cannot both be set. */
    function AuthHeaderDefects(): (r: seq<Msg>)
      ensures r != [] <==> setBasicAuth && setAuthorization
      ensures r == [] || r == [ExclusiveAuthHeaders]
      ensures Filed(r, {AuthHeaders})
    {
      if setBasicAuth && setAuthorization then [ExclusiveAuthHeaders] else []
    }

    /** What the opening checks report, in order. */
    function SettingsDefects(env: Env): seq<Msg>
    {
      RequiredSettingsDefects(env) + EmailValidationDefects() + AuthHeaderDefects()
    }

    /** Each opening check's messages in what they report together are
        exactly its own. */
    lemma SettingsAttribution(env: Env)
      ensures Filed(SettingsDefects(env), SettingsRules)
      ensures Of(SettingsDefects(env), RequiredSettings) == RequiredSettingsDefects(env)
      ensures Of(SettingsDefects(env), EmailValidation) == EmailValidationDefects()
      ensures Of(SettingsDefects(env), AuthHeaders) == AuthHeaderDefects()
    {
      var a, b, c := RequiredSettingsDefects(env), EmailValidationDefects(), AuthHeaderDefects();
      FiledOf(a, RequiredSettings);
      FiledOf(b, EmailValidation);
      FiledOf(c, AuthHeaders);
      assert SettingsDefects(env) == a + b + c;
      SettingsParts(a, b, c);
    }

    // ---------------------------------------------------------------
    // OpenID Connect set-up.

    /** The settings the OpenID Connect set-up may change, as they stand. */
    function CurrentOIDC(): OIDCState
      reads this`skipOIDCDiscovery, this`loginURL, this`redeemURL, this`oidcJwksURL,
        this`profileURL, this`scope, this`oidcVerifier
    {
      OIDCState(skipOIDCDiscovery, loginURL, redeemURL, oidcJwksURL, profileURL, scope, oidcVerifier)
    }

    /** The discovery document the validator fetches itself: only for an
        issuer whose issuer check is skipped while discovery is still on. */
    function Discovered(env: Env, st: OIDCState): Option<DiscoveryDocument>
    {
      if oidcIssuerURL != "" && insecureOIDCSkipIssuerVerification && !st.skipDiscovery
      then env.fetchDiscovery(DiscoveryURL(oidcIssuerURL))
      else None
    }

    /** The validator's own discovery: a fetched document fills in only
        the endpoints left empty, so configured endpoints take precedence,
        and switches discovery off; without one nothing changes. */
    function AfterDiscovery(env: Env, st: OIDCState): (r: OIDCState)
      ensures Discovered(env, st).None? ==> r == st
      ensures Discovered(env, st).Some? ==>
        var doc := Discovered(env, st).value;
        r.skipDiscovery && r.scope == st.scope && r.verifier == st.verifier &&
        r.loginURL == (if st.loginURL == "" then doc.authorizationEndpoint else st.loginURL) &&
        r.redeemURL == (if st.redeemURL == "" then doc.tokenEndpoint else st.redeemURL) &&
        r.jwksURL == (if st.jwksURL == "" then doc.jwksURI else st.jwksURL) &&
        r.profileURL == (if st.profileURL == "" then doc.userinfoEndpoint else st.profileURL)
    {
      match Discovered(env, st)
      case None => st
      case Some(doc) =>
        st.(skipDiscovery := true,
            loginURL := if st.loginURL == "" then doc.authorizationEndpoint else st.loginURL,
            redeemURL := if st.redeemURL == "" then doc.tokenEndpoint else st.redeemURL,
            jwksURL := if st.jwksURL == "" then doc.jwksURI else st.jwksURL,
            profileURL := if st.profileURL == "" then doc.userinfoEndpoint else st.profileURL)
    }

    /** The discovery the validator performs itself, in place. */
    method ApplyDiscovery(env: Env)
      modifies this`loginURL, this`redeemURL, this`oidcJwksURL, this`profileURL, this`skipOIDCDiscovery
      ensures CurrentOIDC() == AfterDiscovery(env, old(CurrentOIDC()))
    {
      if oidcIssuerURL != "" && insecureOIDCSkipIssuerVerification && !skipOIDCDiscovery {
        match env.fetchDiscovery(DiscoveryURL(oidcIssuerURL)) {
          case Some(doc) =>
            if loginURL == "" {
              loginURL := doc.authorizationEndpoint;
            }
            if redeemURL == "" {
              redeemURL := doc.tokenEndpoint;
            }
            if oidcJwksURL == "" {
              oidcJwksURL := doc.jwksURI;
            }
            if profileURL == "" {
              profileURL := doc.userinfoEndpoint;
            }
            skipOIDCDiscovery := true;
          case None =>
        }
      }
    }

    /** Without discovery the login, redeem and JWKS URLs must be set. */
    function OIDCEndpointDefects(st: OIDCState): (r: seq<Msg>)
      ensures |r| <= 3 && Filed(r, {OIDCEndpoints})
      ensures r == [] <==> st.loginURL != "" && st.redeemURL != "" && st.jwksURL != ""
    {
      var r :=
        (if st.loginURL == "" then [MissingLoginURL] else []) +
        (if st.redeemURL == "" then [MissingRedeemURL] else []) +
        (if st.jwksURL == "" then [MissingJwksURL] else []);
      FiledMembers(r, {OIDCEndpoints});
      r
    }

    /** Each missing endpoint is reported by its own message. */
    lemma OIDCEndpointMessages(st: OIDCState)
      ensures var r := OIDCEndpointDefects(st);
        (MissingLoginURL in r <==> st.loginURL == "") &&
        (MissingRedeemURL in r <==> st.redeemURL == "") &&
        (MissingJwksURL in r <==> st.jwksURL == "")
    {
    }

    /** What the OpenID Connect set-up reports: the endpoint checks, made
        only for an issuer whose discovery is off. */
    function OIDCDefects(st: OIDCState): (r: seq<Msg>)
      ensures Filed(r, {OIDCEndpoints})
    {
      if oidcIssuerURL != "" && st.skipDiscovery then OIDCEndpointDefects(st) else []
    }

    /** Whether validation stops at once: the issuer is set, discovery is
        on (and is not switched off by the validator's own discovery) and
        the provider cannot be discovered. */
    predicate DiscoveryFails(env: Env, st: OIDCState)
      ensures DiscoveryFails(env, st) ==> AfterDiscovery(env, st) == st
    {
      oidcIssuerURL != "" && !st.skipDiscovery && Discovered(env, st).None? && env.newProvider(oidcIssuerURL).Err?
    }

    /** What the OpenID Connect set-up leaves, when it does not fail. With
        discovery off (possibly switched off by the validator's own
        discovery) the verifier is built from the JWKS URL; with discovery
        on the provider is discovered and its endpoints overwrite the login
        and redeem URLs. Either way an empty scope becomes the default. */
    function ConfiguredOIDC(env: Env, st: OIDCState): (r: OIDCState)
      ensures oidcIssuerURL == "" || DiscoveryFails(env, st) ==> r == st
      ensures oidcIssuerURL != "" && !DiscoveryFails(env, st) ==>
        r.skipDiscovery == (st.skipDiscovery || Discovered(env, st).Some?) &&
        r.scope == (if st.scope == "" then DefaultOIDCScope else st.scope)
      ensures oidcIssuerURL != "" && r.skipDiscovery ==>
        r.verifier == Some(KeySetVerifier(oidcIssuerURL, r.jwksURL, clientID, insecureOIDCSkipIssuerVerification))
      ensures oidcIssuerURL != "" && !DiscoveryFails(env, st) && r.skipDiscovery ==>
        var found := AfterDiscovery(env, st);
        r.loginURL == found.loginURL && r.redeemURL == found.redeemURL &&
        r.jwksURL == found.jwksURL && r.profileURL == found.profileURL
      ensures oidcIssuerURL != "" && !DiscoveryFails(env, st) && !r.skipDiscovery ==>
        r.jwksURL == st.jwksURL && r.profileURL == st.profileURL
      ensures oidcIssuerURL != "" && !DiscoveryFails(env, st) && !r.skipDiscovery ==>
        r.verifier == Some(DiscoveredVerifier(oidcIssuerURL, clientID, insecureOIDCSkipIssuerVerification)) &&
        r.loginURL == env.newProvider(oidcIssuerURL).value.authURL &&
        r.redeemURL == env.newProvider(oidcIssuerURL).value.tokenURL
    {
      if oidcIssuerURL == "" then st
      else
        var found := AfterDiscovery(env, st);
        var scope := if found.scope == "" then DefaultOIDCScope else found.scope;
        if found.skipDiscovery then
          found.(verifier := Some(KeySetVerifier(oidcIssuerURL, found.jwksURL, clientID, insecureOIDCSkipIssuerVerification)),
                 scope := scope)
        else
          match env.newProvider(oidcIssuerURL)
          case Err(_) => st
          case Ok(endpoints) =>
            found.(verifier := Some(DiscoveredVerifier(oidcIssuerURL, clientID, insecureOIDCSkipIssuerVerification)),
                   loginURL := endpoints.authURL, redeemURL := endpoints.tokenURL, scope := scope)
    }

    /** OpenID Connect set-up, in place: a discovery failure is fatal and
        changes nothing; otherwise the settings become what
        `ConfiguredOIDC` gives and the endpoint checks report. */
    method ConfigureOIDC(env: Env, msgs: seq<Msg>) returns (out: seq<Msg>, fatal: Option<string>)
      modifies this`loginURL, this`redeemURL, this`oidcJwksURL, this`profileURL,
        this`skipOIDCDiscovery, this`oidcVerifier, this`scope
      ensures fatal.Some? <==> old(DiscoveryFails(env, CurrentOIDC()))
      ensures fatal.Some? ==> fatal.value == env.newProvider(oidcIssuerURL).error && unchanged(this)
      ensures fatal.None? ==>
        CurrentOIDC() == ConfiguredOIDC(env, old(CurrentOIDC())) && out == msgs + OIDCDefects(CurrentOIDC())
    {
      out, fatal := msgs, None;
      if oidcIssuerURL == "" {
        return;
      }
      ApplyDiscovery(env);
      if skipOIDCDiscovery {
        out := msgs + OIDCEndpointDefects(CurrentOIDC());
        oidcVerifier := Some(KeySetVerifier(oidcIssuerURL, oidcJwksURL, clientID, insecureOIDCSkipIssuerVerification));
      } else {
        match env.newProvider(oidcIssuerURL) {
          case Err(e) =>
            fatal := Some(e);
            return;
          case Ok(endpoints) =>
            oidcVerifier := Some(DiscoveredVerifier(oidcIssuerURL, clientID, insecureOIDCSkipIssuerVerification));
            loginURL := endpoints.authURL;
            redeemURL := endpoints.tokenURL;
        }
      }
      if scope == "" {
        scope := DefaultOIDCScope;
      }
    }

    // ---------------------------------------------------------------
    // The settings of requests: user name, bearer tokens, redirect URL,
    // upstreams, skip-auth patterns and the provider.

    /** Preferring the email as user name needs the user to be passed on. */
    function PreferEmailDefects(): (r: seq<Msg>)
      ensures r != [] <==> preferEmailToUser && !passBasicAuth && !passUserHeaders
      ensures r == [] || r == [PreferEmailWithoutHeaders]
      ensures Filed(r, {PreferEmail})
    {
      if preferEmailToUser && !passBasicAuth && !passUserHeaders then [PreferEmailWithoutHeaders] else []
    }

    /** What the extra JWT issuers report; nothing unless bearer tokens
        are accepted. */
    function BearerDefects(env: Env): (r: seq<Msg>)
      ensures !skipJwtBearerTokens ==> r == []
      ensures skipJwtBearerTokens && extraJwtIssuers == [] ==> r == []
      ensures Filed(r, {JwtIssuers})
    {
      if skipJwtBearerTokens then JwtIssuerDefects(env, extraJwtIssuers) else []
    }

    /** Bearer-token verifiers: the OpenID Connect verifier, if any, then one
        slot per well-formed extra issuer, holding None when its verifier
        could not be built. */
    method ConfigureBearerVerifiers(env: Env, msgs: seq<Msg>) returns (out: seq<Msg>)
      modifies this`jwtBearerVerifiers
      ensures out == msgs + BearerDefects(env)
      ensures !skipJwtBearerTokens ==> jwtBearerVerifiers == old(jwtBearerVerifiers)
      ensures skipJwtBearerTokens ==>
        jwtBearerVerifiers == old(jwtBearerVerifiers) + (if oidcVerifier.Some? then [oidcVerifier] else []) +
          Verifiers(env, Accepted(extraJwtIssuers, IssuerOutcome))
    {
      out := msgs;
      if !skipJwtBearerTokens {
        return;
      }
      if oidcVerifier.Some? {
        jwtBearerVerifiers := jwtBearerVerifiers + [oidcVerifier];
      }
      var verifiers := [];
      if |extraJwtIssuers| > 0 {
        verifiers, out := ExtraIssuerVerifiers(env, extraJwtIssuers, msgs);
      }
      jwtBearerVerifiers := jwtBearerVerifiers + verifiers;
    }

    /** The redirect URL; a parse failure is reported under its own name. */
    method ParseRedirectURL(env: Env, msgs: seq<Msg>) returns (out: seq<Msg>)
      modifies this`parsedRedirectURL
      ensures out == msgs + URLFailure(env, redirectURL, RedirectType)
      ensures parsedRedirectURL.Some? <==> env.parseURL(redirectURL).Ok?
      ensures parsedRedirectURL.Some? ==> parsedRedirectURL.value == env.parseURL(redirectURL).value
    {
      parsedRedirectURL, out := ParseURL(env, redirectURL, RedirectType, msgs).0, ParseURL(env, redirectURL, RedirectType, msgs).1;
    }

    /** What parsing the upstreams reports: one message per upstream that
        does not parse, in order. */
    function UpstreamDefects(env: Env): (r: seq<Msg>)
      ensures Filed(r, {Upstreams})
    {
      assert forall x :: Upstream(env)(x) == UpstreamOutcome(env, x);
      RejectedRule(upstreams, Upstream(env), Upstreams);
      Rejected(upstreams, Upstream(env))
    }

    /** The upstreams, each with an empty path defaulted to "/". */
    method ParseUpstreams(env: Env, msgs: seq<Msg>) returns (out: seq<Msg>)
      modifies this`proxyURLs
      ensures proxyURLs == old(proxyURLs) + Accepted(upstreams, Upstream(env))
      ensures out == msgs + UpstreamDefects(env)
      ensures forall i | |old(proxyURLs)| <= i < |proxyURLs| :: proxyURLs[i].path != ""
    {
      var urls;
      urls, out := Collect(upstreams, Upstream(env), msgs);
      proxyURLs := proxyURLs + urls;
      AcceptedFromInput(upstreams, Upstream(env));
      forall i | |old(proxyURLs)| <= i < |proxyURLs| ensures proxyURLs[i].path != "" {
        var u := proxyURLs[i];
        assert u in urls;
        var x :| x in upstreams && Upstream(env)(x) == Accept(u);
        assert UpstreamOutcome(env, x) == Accept(u);
      }
    }

    /** What compiling the skip-auth path and header patterns reports, in
        that order. */
    function SkipAuthDefects(env: Env): (r: seq<Msg>)
      ensures Filed(r, {SkipAuthPatterns})
    {
      assert forall x :: Pattern(env)(x) == PatternOutcome(env, x);
      RejectedRule(skipAuthRegex, Pattern(env), SkipAuthPatterns);
      RejectedRule(skipAuthHeader, Pattern(env), SkipAuthPatterns);
      FiledAppend(Rejected(skipAuthRegex, Pattern(env)), Rejected(skipAuthHeader, Pattern(env)), {SkipAuthPatterns});
      Rejected(skipAuthRegex, Pattern(env)) + Rejected(skipAuthHeader, Pattern(env))
    }

    /** The skip-auth path and header patterns, compiled. */
    method CompileSkipAuthPatterns(env: Env, msgs: seq<Msg>) returns (out: seq<Msg>)
      modifies this`compiledRegex, this`compiledHeader
      ensures compiledRegex == old(compiledRegex) + Accepted(skipAuthRegex, Pattern(env))
      ensures compiledHeader == old(compiledHeader) + Accepted(skipAuthHeader, Pattern(env))
      ensures out == msgs + SkipAuthDefects(env)
    {
      var regexes, headers, mid;
      regexes, mid := Collect(skipAuthRegex, Pattern(env), msgs);
      compiledRegex := compiledRegex + regexes;
      headers, out := Collect(skipAuthHeader, Pattern(env), mid);
      compiledHeader := compiledHeader + headers;
      Concat3(msgs, Rejected(skipAuthRegex, Pattern(env)), Rejected(skipAuthHeader, Pattern(env)));
    }
    /** What parsing the five endpoint URLs reports, in order. */
    function EndpointFailures(env: Env, st: OIDCState): (r: seq<Msg>)
      ensures |r| <= 5 && Filed(r, {ProviderSettings})
      ensures r == [] <==>
                (env.parseURL(st.loginURL).Ok? && env.parseURL(st.redeemURL).Ok? &&
                 env.parseURL(st.profileURL).Ok? && env.parseURL(validateURL).Ok? &&
                 env.parseURL(protectedResource).Ok?)
    {
      var login, redeem, profile := URLFailure(env, st.loginURL, LoginType), URLFailure(env, st.redeemURL, RedeemType),
        URLFailure(env, st.profileURL, ProfileType);
      var validate, resource := URLFailure(env, validateURL, ValidateType), URLFailure(env, protectedResource, ResourceType);
      FiledAppend(login, redeem, {ProviderSettings});
      FiledAppend(login + redeem, profile, {ProviderSettings});
      FiledAppend(login + redeem + profile, validate, {ProviderSettings});
      FiledAppend(login + redeem + profile + validate, resource, {ProviderSettings});
      login + redeem + profile + validate + resource
    }

    /** Threading the messages through the five parses appends exactly the
        five parses' own failures. */
    lemma EndpointChain(env: Env, st: OIDCState, msgs: seq<Msg>)
      ensures
        var m1 := ParseURL(env, st.loginURL, LoginType, msgs).1;
        var m2 := ParseURL(env, st.redeemURL, RedeemType, m1).1;
        var m3 := ParseURL(env, st.profileURL, ProfileType, m2).1;
        var m4 := ParseURL(env, validateURL, ValidateType, m3).1;
        ParseURL(env, protectedResource, ResourceType, m4).1 == msgs + EndpointFailures(env, st)
    {
      var a1, a2, a3 := URLFailure(env, st.loginURL, LoginType), URLFailure(env, st.redeemURL, RedeemType),
        URLFailure(env, st.profileURL, ProfileType);
      var a4, a5 := URLFailure(env, validateURL, ValidateType), URLFailure(env, protectedResource, ResourceType);
      var m1 := ParseURL(env, st.loginURL, LoginType, msgs).1;
      var m2 := ParseURL(env, st.redeemURL, RedeemType, m1).1;
      var m3 := ParseURL(env, st.profileURL, ProfileType, m2).1;
      var m4 := ParseURL(env, validateURL, ValidateType, m3).1;
      assert m2 == msgs + (a1 + a2);
      assert m3 == msgs + (a1 + a2 + a3);
      assert m4 == msgs + (a1 + a2 + a3 + a4);
    }

    /** The provider data built from the settings: the common fields, and
        the five endpoint URLs, each present exactly when it parses. */
    function EndpointData(env: Env, st: OIDCState): (r: ProviderData)
      ensures r.scope == st.scope && r.clientID == clientID && r.clientSecret == clientSecret
      ensures r.clientSecretFile == clientSecretFile && r.prompt == prompt && r.approvalPrompt == approvalPrompt &&
        r.acrValues == acrValues
      ensures r.loginURL.Some? <==> env.parseURL(st.loginURL).Ok?
      ensures r.redeemURL.Some? <==> env.parseURL(st.redeemURL).Ok?
      ensures r.profileURL.Some? <==> env.parseURL(st.profileURL).Ok?
      ensures r.validateURL.Some? <==> env.parseURL(validateURL).Ok?
      ensures r.protectedResource.Some? <==> env.parseURL(protectedResource).Ok?
      ensures r.loginURL.Some? ==> r.loginURL.value == env.parseURL(st.loginURL).value
      ensures r.redeemURL.Some? ==> r.redeemURL.value == env.parseURL(st.redeemURL).value
      ensures r.profileURL.Some? ==> r.profileURL.value == env.parseURL(st.profileURL).value
      ensures r.validateURL.Some? ==> r.validateURL.value == env.parseURL(validateURL).value
      ensures r.protectedResource.Some? ==> r.protectedResource.value == env.parseURL(protectedResource).value
    {
      ProviderData(st.scope, clientID, clientSecret, clientSecretFile, prompt, approvalPrompt, acrValues,
        ParseURL(env, st.loginURL, LoginType, []).0, ParseURL(env, st.redeemURL, RedeemType, []).0,
        ParseURL(env, st.profileURL, ProfileType, []).0, ParseURL(env, validateURL, ValidateType, []).0,
        ParseURL(env, protectedResource, ResourceType, []).0)
    }

    /** The type switch of parseProviderInfo, its settings: those of the
        chosen provider type, and the provider data, which only GitLab's
        fallback to its public issuer changes. */
    function BindSettings(env: Env, kind: ProviderKind, data: ProviderData, verifier: Option<Verifier>):
      (r: (ProviderSettings, ProviderData))
      ensures kind != GitLab ==> r.1 == data
    {
      match kind
      case Azure => (AzureSettings(azureTenant), data)
      case GitHub => (GitHubSettings(gitHubOrg, gitHubTeam), data)
      case Keycloak => (KeycloakSettings(keycloakGroup), data)
      case Google =>
        if googleServiceAccountJSON != "" && env.canOpen(googleServiceAccountJSON) then
          (GoogleGroupSettings(Some(GroupRestriction(googleGroups, googleAdminEmail, googleServiceAccountJSON))), data)
        else (GoogleGroupSettings(None), data)
      case Bitbucket => (BitbucketSettings(bitbucketTeam, bitbucketRepository), data)
      case OIDC => (OIDCSettings(insecureOIDCAllowUnverifiedEmail, userIDClaim, verifier), data)
      case GitLab =>
        if verifier.Some? then
          (GitLabSettings(insecureOIDCAllowUnverifiedEmail, gitLabGroup, emailDomains, verifier), data)
        else
          (match env.newProvider(GitLabIssuer)
           case Err(_) => (GitLabSettings(insecureOIDCAllowUnverifiedEmail, gitLabGroup, emailDomains, None), data)
           case Ok(endpoints) =>
             (GitLabSettings(insecureOIDCAllowUnverifiedEmail, gitLabGroup, emailDomains,
                             Some(DiscoveredVerifier(GitLabIssuer, clientID, false))),
              data.(loginURL := ParseURL(env, endpoints.authURL, LoginType, []).0,
                    redeemURL := ParseURL(env, endpoints.tokenURL, RedeemType, []).0)))
      case LoginGov =>
        (LoginGovSettings(ParseURL(env, pubJWKURL, PubJWKType, []).0, LoginGovSigningKey(env, jwtKey, jwtKeyFile).0), data)
      case OtherKind => (NoSettings, data)
    }

    /** The type switch of parseProviderInfo, its messages: what the chosen
        provider type's own checks report. */
    function BindingDefects(env: Env, kind: ProviderKind, verifier: Option<Verifier>): (r: seq<Msg>)
      ensures Filed(r, {ProviderSettings})
    {
      match kind
      case Google =>
        if googleServiceAccountJSON != "" && !env.canOpen(googleServiceAccountJSON)
        then [GoogleCredentialsUnreadable(googleServiceAccountJSON)] else []
      case OIDC => if verifier.None? then [OIDCProviderNeedsIssuer] else []
      case GitLab =>
        if verifier.Some? then []
        else
          (match env.newProvider(GitLabIssuer)
           case Err(_) => [GitLabProviderInitFailure]
           case Ok(endpoints) =>
             var login, redeem := URLFailure(env, endpoints.authURL, LoginType), URLFailure(env, endpoints.tokenURL, RedeemType);
             FiledAppend(login, redeem, {ProviderSettings});
             login + redeem)
      case LoginGov =>
        var pubJWK, key := URLFailure(env, pubJWKURL, PubJWKType), LoginGovSigningKey(env, jwtKey, jwtKeyFile).1;
        FiledAppend(pubJWK, key, {ProviderSettings});
        pubJWK + key
      case _ => []
    }

    /** What each provider type binds: the types without checks of their
        own report nothing; Google's group restriction needs a readable
        credentials file; an OIDC provider needs the verifier of an issuer;
        GitLab falls back to discovering its public issuer, whose endpoints
        then replace the login and redeem URLs; login.gov parses its public
        JWK URL and takes exactly one of the inline key and the key file. */
    lemma BindSettingsCases(env: Env, kind: ProviderKind, data: ProviderData, verifier: Option<Verifier>)
      ensures kind in {Azure, GitHub, Keycloak, Bitbucket, OtherKind} ==> BindingDefects(env, kind, verifier) == []
      ensures var r := BindSettings(env, kind, data, verifier);
        kind == Azure ==> r.0 == AzureSettings(azureTenant)
      ensures var r := BindSettings(env, kind, data, verifier);
        kind == GitHub ==> r.0 == GitHubSettings(gitHubOrg, gitHubTeam)
      ensures var r := BindSettings(env, kind, data, verifier);
        kind == Keycloak ==> r.0 == KeycloakSettings(keycloakGroup)
      ensures var r := BindSettings(env, kind, data, verifier);
        kind == Bitbucket ==> r.0 == BitbucketSettings(bitbucketTeam, bitbucketRepository)
      ensures var r, m := BindSettings(env, kind, data, verifier), BindingDefects(env, kind, verifier);
        kind == Google ==>
        r.0.GoogleGroupSettings? &&
        (m != [] <==> googleServiceAccountJSON != "" && !env.canOpen(googleServiceAccountJSON)) &&
        (m != [] ==> m == [GoogleCredentialsUnreadable(googleServiceAccountJSON)]) &&
        (r.0.restriction.Some? <==> googleServiceAccountJSON != "" && env.canOpen(googleServiceAccountJSON)) &&
        (r.0.restriction.Some? ==>
           r.0.restriction.value == GroupRestriction(googleGroups, googleAdminEmail, googleServiceAccountJSON))
      ensures var r, m := BindSettings(env, kind, data, verifier), BindingDefects(env, kind, verifier);
        kind == OIDC ==>
        r.0 == OIDCSettings(insecureOIDCAllowUnverifiedEmail, userIDClaim, verifier) &&
        (m != [] <==> verifier.None?) && (m != [] ==> m == [OIDCProviderNeedsIssuer])
      ensures var r, m := BindSettings(env, kind, data, verifier), BindingDefects(env, kind, verifier);
        kind == GitLab ==>
        r.0.GitLabSettings? && r.0.allowUnverifiedEmail == insecureOIDCAllowUnverifiedEmail &&
        r.0.group == gitLabGroup && r.0.emailDomains == emailDomains &&
        (verifier.Some? ==> r.0.verifier == verifier && r.1 == data && m == []) &&
        (verifier.None? && env.newProvider(GitLabIssuer).Err? ==>
           r.0.verifier == None && r.1 == data && m == [GitLabProviderInitFailure]) &&
        (verifier.None? && env.newProvider(GitLabIssuer).Ok? ==>
           var endpoints := env.newProvider(GitLabIssuer).value;
           r.0.verifier == Some(DiscoveredVerifier(GitLabIssuer, clientID, false)) &&
           r.1 == data.(loginURL := ParseURL(env, endpoints.authURL, LoginType, []).0,
                        redeemURL := ParseURL(env, endpoints.tokenURL, RedeemType, []).0) &&
           m == URLFailure(env, endpoints.authURL, LoginType) + URLFailure(env, endpoints.tokenURL, RedeemType))
      ensures var r, m := BindSettings(env, kind, data, verifier), BindingDefects(env, kind, verifier);
        kind == LoginGov ==>
        var key := LoginGovSigningKey(env, jwtKey, jwtKeyFile);
        r.0 == LoginGovSettings(ParseURL(env, pubJWKURL, PubJWKType, []).0, key.0) &&
        m == URLFailure(env, pubJWKURL, PubJWKType) + key.1 &&
        (r.0.jwtKey.Some? ==> (jwtKey == "") != (jwtKeyFile == ""))
    {
    }


    /** parseProviderInfo: the endpoint URLs are parsed in turn, each failure
        adding its own message, then the provider the factory chooses for
        the provider name is bound with the common data and its type's own
        settings. */
    method ParseProviderInfo(env: Env, msgs: seq<Msg>) returns (out: seq<Msg>)
      modifies this`provider
      ensures
        var kind := env.providerKind(providerName);
        var st := old(CurrentOIDC());
        var bound := BindSettings(env, kind, EndpointData(env, st), st.verifier);
        provider == Some(Provider(kind, bound.1, bound.0))
      ensures out == msgs + ProviderDefects(env, old(CurrentOIDC()))
    {
      var login := ParseURL(env, loginURL, LoginType, msgs);
      var redeem := ParseURL(env, redeemURL, RedeemType, login.1);
      var profile := ParseURL(env, profileURL, ProfileType, redeem.1);
      var validate := ParseURL(env, validateURL, ValidateType, profile.1);
      var resource := ParseURL(env, protectedResource, ResourceType, validate.1);
      var data := ProviderData(scope, clientID, clientSecret, clientSecretFile, prompt, approvalPrompt, acrValues,
                               login.0, redeem.0, profile.0, validate.0, resource.0);
      EndpointChain(env, CurrentOIDC(), msgs);
      assert data == EndpointData(env, CurrentOIDC());
      var kind := env.providerKind(providerName);
      var bound := BindSettings(env, kind, data, oidcVerifier);
      provider := Some(Provider(kind, bound.1, bound.0));
      out := resource.1 + BindingDefects(env, kind, oidcVerifier);
    }

    /** What binding the provider reports: the endpoint URLs that do not
        parse, then the provider type's own checks. */
    function ProviderDefects(env: Env, st: OIDCState): (r: seq<Msg>)
      ensures Filed(r, {ProviderSettings})
    {
      var bound := BindingDefects(env, env.providerKind(providerName), st.verifier);
      FiledAppend(EndpointFailures(env, st), bound, {ProviderSettings});
      EndpointFailures(env, st) + bound
    }

    /** What the request settings report, in order. */
    function RequestDefects(env: Env, st: OIDCState): seq<Msg>
    {
      PreferEmailDefects() +
      BearerDefects(env) +
      RoutingDefects(env, st)
    }

    /** What the redirect URL, the upstreams, the skip-auth patterns and the
        provider report, in that order. */
    function RoutingDefects(env: Env, st: OIDCState): seq<Msg>
    {
      ProxyTargetDefects(env) + ProviderDefects(env, st)
    }

    /** What the request settings report is filed under the request
        checks. */
    lemma RequestFiled(env: Env, st: OIDCState)
      ensures Filed(RequestDefects(env, st), RequestRules)
    {
      var a := PreferEmailDefects();
      var b := BearerDefects(env);
      var c := URLFailure(env, redirectURL, RedirectType);
      var d := UpstreamDefects(env);
      var e, f := SkipAuthDefects(env), ProviderDefects(env, st);
      FiledOf(a, PreferEmail);
      FiledOf(b, JwtIssuers);
      FiledOf(c, RedirectURL);
      FiledOf(d, Upstreams);
      FiledOf(e, SkipAuthPatterns);
      FiledOf(f, ProviderSettings);
      assert RoutingDefects(env, st) == c + d + e + f;
      Concat3(a + b, c + d + e, f);
      Concat3(a + b, c + d, e);
      Concat3(a + b, c, d);
      assert RequestDefects(env, st) == a + b + c + d + e + f;
      RequestParts(a, b, c, d, e, f);
    }

    /** Each request check's messages in what they report together are
        exactly its own. */
    lemma RequestAttribution(env: Env, st: OIDCState)
      ensures Of(RequestDefects(env, st), PreferEmail) == PreferEmailDefects()
      ensures Of(RequestDefects(env, st), JwtIssuers) == BearerDefects(env)
      ensures Of(RequestDefects(env, st), RedirectURL) == URLFailure(env, redirectURL, RedirectType)
      ensures Of(RequestDefects(env, st), Upstreams) == UpstreamDefects(env)
      ensures Of(RequestDefects(env, st), SkipAuthPatterns) == SkipAuthDefects(env)
      ensures Of(RequestDefects(env, st), ProviderSettings) == ProviderDefects(env, st)
    {
      var a := PreferEmailDefects();
      var b := BearerDefects(env);
      var c := URLFailure(env, redirectURL, RedirectType);
      var d := UpstreamDefects(env);
      var e, f := SkipAuthDefects(env), ProviderDefects(env, st);
      FiledOf(a, PreferEmail);
      FiledOf(b, JwtIssuers);
      FiledOf(c, RedirectURL);
      FiledOf(d, Upstreams);
      FiledOf(e, SkipAuthPatterns);
      FiledOf(f, ProviderSettings);
      assert RoutingDefects(env, st) == c + d + e + f;
      Concat3(a + b, c + d + e, f);
      Concat3(a + b, c + d, e);
      Concat3(a + b, c, d);
      assert RequestDefects(env, st) == a + b + c + d + e + f;
      RequestParts(a, b, c, d, e, f);
    }

    /** What the redirect URL, the upstreams and the skip-auth patterns
        report, in that order. */
    function ProxyTargetDefects(env: Env): seq<Msg>
    {
      URLFailure(env, redirectURL, RedirectType) + UpstreamDefects(env) + SkipAuthDefects(env)
    }

    /** Where requests go and which skip authentication: the redirect URL,
        the upstreams and the skip-auth patterns, in that order. */
    method ParseProxyTargets(env: Env, msgs: seq<Msg>) returns (out: seq<Msg>)
      modifies this`parsedRedirectURL, this`proxyURLs, this`compiledRegex, this`compiledHeader
      ensures out == msgs + ProxyTargetDefects(env)
      ensures parsedRedirectURL.Some? <==> env.parseURL(redirectURL).Ok?
      ensures parsedRedirectURL.Some? ==> parsedRedirectURL.value == env.parseURL(redirectURL).value
      ensures proxyURLs == old(proxyURLs) + Accepted(upstreams, Upstream(env))
      ensures compiledRegex == old(compiledRegex) + Accepted(skipAuthRegex, Pattern(env))
      ensures compiledHeader == old(compiledHeader) + Accepted(skipAuthHeader, Pattern(env))
    {
      var c, d, e := URLFailure(env, redirectURL, RedirectType), UpstreamDefects(env), SkipAuthDefects(env);
      out := ParseRedirectURL(env, msgs);
      out := ParseUpstreams(env, out);
      Concat3(msgs, c, d);
      out := CompileSkipAuthPatterns(env, out);
      Concat3(msgs, c + d, e);
    }

    /** Where requests go, then the provider: the redirect URL, the
        upstreams, the skip-auth patterns and the provider, in that order. */
    method ParseTargetsAndProvider(env: Env, msgs: seq<Msg>) returns (out: seq<Msg>)
      modifies this`parsedRedirectURL, this`proxyURLs, this`compiledRegex, this`compiledHeader, this`provider
      ensures out == msgs + RoutingDefects(env, old(CurrentOIDC()))
      ensures parsedRedirectURL.Some? <==> env.parseURL(redirectURL).Ok?
      ensures parsedRedirectURL.Some? ==> parsedRedirectURL.value == env.parseURL(redirectURL).value
      ensures proxyURLs == old(proxyURLs) + Accepted(upstreams, Upstream(env))
      ensures compiledRegex == old(compiledRegex) + Accepted(skipAuthRegex, Pattern(env))
      ensures compiledHeader == old(compiledHeader) + Accepted(skipAuthHeader, Pattern(env))
      ensures
        var kind := env.providerKind(providerName);
        var st := old(CurrentOIDC());
        var bound := BindSettings(env, kind, EndpointData(env, st), st.verifier);
        provider == Some(Provider(kind, bound.1, bound.0))
    {
      ghost var st := CurrentOIDC();
      out := ParseProxyTargets(env, msgs);
      ghost var urls, regexes, headers, redirect := proxyURLs, compiledRegex, compiledHeader, parsedRedirectURL;
      assert CurrentOIDC() == st;
      out := ParseProviderInfo(env, out);
      Concat3(msgs, ProxyTargetDefects(env), ProviderDefects(env, st));
      assert parsedRedirectURL == redirect && proxyURLs == urls && compiledRegex == regexes && compiledHeader == headers;
    }

    /** The fields parsing the request settings derives, as they stand. */
    function RequestFieldsNow(): RequestFields
      reads this`jwtBearerVerifiers, this`parsedRedirectURL, this`proxyURLs,
        this`compiledRegex, this`compiledHeader, this`provider
    {
      RequestFields(jwtBearerVerifiers, parsedRedirectURL, proxyURLs, compiledRegex, compiledHeader, provider)
    }

    /** What parsing the request settings leaves in its fields, from what
        they held `before` and the OpenID Connect settings `st`: the bearer
        verifiers grow, by the issuer's verifier when there is one and one
        slot per extra issuer, only when bearer tokens are accepted; the
        redirect URL is there exactly when it parses; the upstreams and the
        skip-auth patterns that parse are added in order; the provider is
        bound to the endpoints of `st`. */
    function ParsedRequests(env: Env, st: OIDCState, before: RequestFields): RequestFields {
      var kind := env.providerKind(providerName);
      var bound := BindSettings(env, kind, EndpointData(env, st), st.verifier);
      RequestFields(
        if skipJwtBearerTokens then
          before.bearerVerifiers + (if st.verifier.Some? then [st.verifier] else []) +
            Verifiers(env, Accepted(extraJwtIssuers, IssuerOutcome))
        else before.bearerVerifiers,
        if env.parseURL(redirectURL).Ok? then Some(env.parseURL(redirectURL).value) else None,
        before.proxyURLs + Accepted(upstreams, Upstream(env)),
        before.skipAuthRegex + Accepted(skipAuthRegex, Pattern(env)),
        before.skipAuthHeader + Accepted(skipAuthHeader, Pattern(env)),
        Some(Provider(kind, bound.1, bound.0)))
    }

    /** What follows the OpenID Connect set-up: the user-name check, the
        bearer-token verifiers, the redirect URL, the upstreams, the
        skip-auth patterns and the provider. */
    method ParseRequestSettings(env: Env, msgs: seq<Msg>) returns (out: seq<Msg>)
      modifies this`jwtBearerVerifiers, this`parsedRedirectURL, this`proxyURLs,
        this`compiledRegex, this`compiledHeader, this`provider
      ensures out == msgs + RequestDefects(env, old(CurrentOIDC()))
      ensures RequestFieldsNow() == ParsedRequests(env, old(CurrentOIDC()), old(RequestFieldsNow()))
    {
      var a := PreferEmailDefects();
      var b := BearerDefects(env);
      ghost var st := CurrentOIDC();
      out := msgs + a;
      out := ConfigureBearerVerifiers(env, out);
      ghost var bearer := jwtBearerVerifiers;
      assert CurrentOIDC() == st;
      out := ParseTargetsAndProvider(env, out);
      Concat3(msgs, a, b);
      Concat3(msgs, a + b, RoutingDefects(env, st));
      assert jwtBearerVerifiers == bearer;
    }

    // ---------------------------------------------------------------
    // Sessions, cookies, the signature key and the log file.

    /** The session cipher and what checking the cookie secret reports. A
        cipher is built only when one is needed and the effective secret
        has an AES key size; the size message reports the effective length
        and, when the secret was base64 decoded, the secret it came from. */
    function SessionCipherOutcome(env: Env): (r: (Option<Cipher>, seq<Msg>))
      ensures !CipherNeeded() ==> r == (None, [])
      ensures |r.1| <= 1 && Filed(r.1, {CookieSecret})
      ensures r.1 == [] <==> !CipherNeeded() || r.0.Some?
      ensures
        var key := SecretBytes(cookie.secret);
        (CookieSecretSize(|key|, if key != cookie.secret then Some(cookie.secret) else None) in r.1 <==>
           CipherNeeded() && !ValidAESKeySize(|key|)) &&
        (r.0.Some? ==> ValidAESKeySize(|key|) && env.newCipher(key) == Ok(r.0.value)) &&
        (CipherNeeded() && ValidAESKeySize(|key|) && env.newCipher(key).Err? ==>
           r.1 == [CipherFailure(env.newCipher(key).error)])
    {
      if !CipherNeeded() then (None, [])
      else
        var key := SecretBytes(cookie.secret);
        if !ValidAESKeySize(|key|) then
          (None, [CookieSecretSize(|key|, if key != cookie.secret then Some(cookie.secret) else None)])
        else
          match env.newCipher(key)
          case Ok(c) => (Some(c), [])
          case Err(e) => (None, [CipherFailure(e)])
    }

    /** The cipher gate: the key size is checked against each AES size in
        turn. */
    method SessionCipher(env: Env, msgs: seq<Msg>) returns (cipher: Option<Cipher>, out: seq<Msg>)
      ensures cipher == SessionCipherOutcome(env).0
      ensures out == msgs + SessionCipherOutcome(env).1
    {
      cipher, out := None, msgs;
      if CipherNeeded() {
        var key := SecretBytes(cookie.secret);
        var validCookieSecretSize := IsValidKeySize(|key|);
        var decoded := key != cookie.secret;
        if !validCookieSecretSize {
          out := Append(msgs, CookieSecretSize(|key|, if decoded then Some(cookie.secret) else None));
        } else {
          match env.newCipher(key) {
            case Ok(c) => cipher := Some(c);
            case Err(e) => out := Append(msgs, CipherFailure(e));
          }
        }
      }
    }

    /** The session store, built on the session cipher and the cookie
        settings; kept unchanged when it cannot be built. */
    method InitSessionStore(env: Env, msgs: seq<Msg>) returns (out: seq<Msg>)
      modifies this`sessionStore
      ensures out == msgs + SessionStoreDefects(env, sessionCipher, cookie)
      ensures sessionStore ==
        if env.newSessionStore(sessionCipher, cookie).Ok? then Some(env.newSessionStore(sessionCipher, cookie).value)
        else old(sessionStore)
    {
      out := msgs;
      match env.newSessionStore(sessionCipher, cookie) {
        case Ok(store) =>
          sessionStore := Some(store);
        case Err(e) =>
          out := Append(msgs, SessionStoreFailure(e));
      }
    }

    /** A cookie must be refreshed before it expires. */
    function CookieLifetimeDefects(env: Env): (r: seq<Msg>)
      ensures r != [] <==> cookie.refresh >= cookie.expire
      ensures r == [] || r == [RefreshNotBelowExpire(env.durationString(cookie.refresh), env.durationString(cookie.expire))]
      ensures Filed(r, {CookieLifetime})
    {
      if cookie.refresh >= cookie.expire
      then [RefreshNotBelowExpire(env.durationString(cookie.refresh), env.durationString(cookie.expire))]
      else []
    }

    /** The Google group settings go together: once any is set, the groups,
        the admin email and the service-account file are all required. */
    function GoogleSettingsDefects(): (r: seq<Msg>)
      ensures |r| <= 3 && Filed(r, {GoogleSettings})
    {
      if |googleGroups| > 0 || googleAdminEmail != "" || googleServiceAccountJSON != "" then
        var r :=
          (if |googleGroups| < 1 then [MissingGoogleGroup] else []) +
          (if googleAdminEmail == "" then [MissingGoogleAdminEmail] else []) +
          (if googleServiceAccountJSON == "" then [MissingGoogleServiceAccountJSON] else []);
        FiledMembers(r, {GoogleSettings});
        r
      else []
    }

    /** Once one Google group setting is given, each of the others that is
        missing is reported by its own message; nothing else is reported. */
    lemma GoogleSettingsMessages()
      ensures var r := GoogleSettingsDefects();
        (MissingGoogleGroup in r <==>
           |googleGroups| == 0 && (googleAdminEmail != "" || googleServiceAccountJSON != "")) &&
        (MissingGoogleAdminEmail in r <==>
           googleAdminEmail == "" && (|googleGroups| > 0 || googleServiceAccountJSON != "")) &&
        (MissingGoogleServiceAccountJSON in r <==>
           googleServiceAccountJSON == "" && (|googleGroups| > 0 || googleAdminEmail != "")) &&
        forall m | m in r :: m in [MissingGoogleGroup, MissingGoogleAdminEmail, MissingGoogleServiceAccountJSON]
    {
      if |googleGroups| > 0 || googleAdminEmail != "" || googleServiceAccountJSON != "" {
        var group := if |googleGroups| < 1 then [MissingGoogleGroup] else [];
        var admin := if googleAdminEmail == "" then [MissingGoogleAdminEmail] else [];
        var account := if googleServiceAccountJSON == "" then [MissingGoogleServiceAccountJSON] else [];
        assert GoogleSettingsDefects() == group + admin + account;
        InConcat3(group, admin, account);
      }
    }

    /** The SameSite attribute must be one of the values browsers know. */
    function SameSiteDefects(): (r: seq<Msg>)
      ensures r != [] <==> !KnownSameSite(cookie.sameSite)
      ensures r == [] || r == [InvalidSameSite(cookie.sameSite)]
      ensures Filed(r, {SameSite})
    {
      match cookie.sameSite
      case "" | "none" | "lax" | "strict" => []
      case _ => [InvalidSameSite(cookie.sameSite)]
    }

    /** The cookie domains, longest (most specific) first. */
    method SortCookieDomains()
      modifies this`cookieDomains
      ensures cookieDomains == SortLongestFirst(old(cookieDomains))
      ensures LongestFirst(cookieDomains) && multiset(cookieDomains) == multiset(old(cookieDomains))
    {
      SortPermutes(cookieDomains);
      cookieDomains := SortLongestFirst(cookieDomains);
    }

    /** What parseSignatureKey reports: nothing for an unset key; otherwise
        the spec must be exactly `hash:key` with a hash name the digest
        table knows. */
    function SignatureKeyDefects(env: Env): (r: seq<Msg>)
      ensures r == [] || r == [InvalidSignatureSpec(signatureKey)] || r == [UnsupportedSignatureHash(signatureKey)]
      ensures r == [InvalidSignatureSpec(signatureKey)] <==>
        signatureKey != "" && SplitSignatureSpec(signatureKey).None?
      ensures r == [UnsupportedSignatureHash(signatureKey)] <==>
        signatureKey != "" && SplitSignatureSpec(signatureKey).Some? &&
        env.digest(SplitSignatureSpec(signatureKey).value.0).None?
      ensures Filed(r, {SignatureKey})
    {
      if signatureKey == "" then []
      else
        match SplitSignatureSpec(signatureKey)
        case None => [InvalidSignatureSpec(signatureKey)]
        case Some((algorithm, _)) => if env.digest(algorithm).None? then [UnsupportedSignatureHash(signatureKey)] else []
    }

    /** The signature data a key spec gives: present exactly when the key is
        set and reports nothing; then the key is the hash name, ':' and the
        secret, and the hash is the digest table's entry for the name. */
    function ParsedSignature(env: Env): (r: Option<SignatureData>)
      ensures r.Some? <==> signatureKey != "" && SignatureKeyDefects(env) == []
      ensures r.Some? ==>
        var algorithm := SplitSignatureSpec(signatureKey).value.0;
        signatureKey == algorithm + ":" + r.value.key && env.digest(algorithm) == Some(r.value.hash)
    {
      if signatureKey == "" then None
      else
        match SplitSignatureSpec(signatureKey)
        case None => None
        case Some((algorithm, secretKey)) =>
          match env.digest(algorithm)
          case None => None
          case Some(hash) => Some(SignatureData(hash, secretKey))
    }

    /** parseSignatureKey: sets the signature data when the spec parses and
        leaves it alone otherwise. */
    method ParseSignatureKey(env: Env, msgs: seq<Msg>) returns (out: seq<Msg>)
      modifies this`signatureData
      ensures out == msgs + SignatureKeyDefects(env)
      ensures signatureData == if ParsedSignature(env).Some? then ParsedSignature(env) else old(signatureData)
    {
      out := msgs;
      if signatureKey == "" {
        return;
      }
      match SplitSignatureSpec(signatureKey) {
        case None =>
          out := Append(msgs, InvalidSignatureSpec(signatureKey));
        case Some((algorithm, secretKey)) =>
          match env.digest(algorithm) {
            case None =>
              out := Append(msgs, UnsupportedSignatureHash(signatureKey));
            case Some(hash) =>
              signatureData := Some(SignatureData(hash, secretKey));
          }
      }
    }

    /** The part of setupLogger that can fail validation: a log file that
        cannot be opened for lack of permission. */
    function LogFileDefects(env: Env): (r: seq<Msg>)
      ensures r != [] <==> loggingFilename != "" && env.logPermissionDenied(loggingFilename)
      ensures r == [] || r == [UnwritableLogFile(loggingFilename)]
      ensures Filed(r, {LogFile})
    {
      if |loggingFilename| > 0 && env.logPermissionDenied(loggingFilename) then [UnwritableLogFile(loggingFilename)] else []
    }

    /** What the session, cookie, signature and logging checks report, in
        order, for the settings as given. */
    function SessionDefects(env: Env): seq<Msg>
    {
      SessionCipherOutcome(env).1 +
      SessionStoreDefects(env, SessionCipherOutcome(env).0, cookie) +
      CookieLifetimeDefects(env) +
      GoogleSettingsDefects() +
      SameSiteDefects() +
      SignatureKeyDefects(env) +
      CookieNameDefects(env, cookie.name) +
      LogFileDefects(env)
    }

    /** Each session check's messages in what they report together are
        exactly its own. */
    lemma SessionAttribution(env: Env)
      ensures Filed(SessionDefects(env), SessionRules)
      ensures Of(SessionDefects(env), CookieSecret) == SessionCipherOutcome(env).1
      ensures Of(SessionDefects(env), SessionStorage) == SessionStoreDefects(env, SessionCipherOutcome(env).0, cookie)
      ensures Of(SessionDefects(env), CookieLifetime) == CookieLifetimeDefects(env)
      ensures Of(SessionDefects(env), GoogleSettings) == GoogleSettingsDefects()
      ensures Of(SessionDefects(env), SameSite) == SameSiteDefects()
      ensures Of(SessionDefects(env), SignatureKey) == SignatureKeyDefects(env)
      ensures Of(SessionDefects(env), CookieName) == CookieNameDefects(env, cookie.name)
      ensures Of(SessionDefects(env), LogFile) == LogFileDefects(env)
    {
      var a := SessionCipherOutcome(env).1;
      var b := SessionStoreDefects(env, SessionCipherOutcome(env).0, cookie);
      var c, d, e := CookieLifetimeDefects(env), GoogleSettingsDefects(), SameSiteDefects();
      var f, g, h := SignatureKeyDefects(env), CookieNameDefects(env, cookie.name), LogFileDefects(env);
      FiledOf(a, CookieSecret);
      FiledOf(b, SessionStorage);
      FiledOf(c, CookieLifetime);
      FiledOf(d, GoogleSettings);
      FiledOf(e, SameSite);
      FiledOf(f, SignatureKey);
      FiledOf(g, CookieName);
      FiledOf(h, LogFile);
      assert SessionDefects(env) == a + b + c + d + e + f + g + h;
      SessionParts(a, b, c, d, e, f, g, h);
    }

    /** The fields configuring the session derives, as they stand. */
    function SessionFieldsNow(): SessionFields
      reads this`sessionCipher, this`sessionStore, this`cookieDomains, this`signatureData
    {
      SessionFields(sessionCipher, sessionStore, cookieDomains, signatureData)
    }

    /** What configuring the session leaves in its fields, from what they
        held `before`: the cipher the cookie-secret gate builds; the store
        built with that cipher, or the old one when it cannot be built; the
        domains sorted longest first; the parsed signature key, or the old
        data when there is none. */
    function ConfiguredSession(env: Env, before: SessionFields): SessionFields {
      var cipher := SessionCipherOutcome(env).0;
      SessionFields(
        cipher,
        if env.newSessionStore(cipher, cookie).Ok? then Some(env.newSessionStore(cipher, cookie).value)
        else before.store,
        SortLongestFirst(before.cookieDomains),
        if ParsedSignature(env).Some? then ParsedSignature(env) else before.signature)
    }

    /** The session cipher and store, the cookie checks, the domain sort,
        the signature key, the cookie name and the log file. */
    method ConfigureSession(env: Env, msgs: seq<Msg>) returns (out: seq<Msg>)
      modifies this`sessionCipher, this`sessionStore, this`cookieDomains, this`signatureData
      ensures out == msgs + SessionDefects(env)
      ensures SessionFieldsNow() == ConfiguredSession(env, old(SessionFieldsNow()))
      ensures LongestFirst(cookieDomains)
    {
      ghost var outcome := SessionCipherOutcome(env);
      ghost var a, b := outcome.1, SessionStoreDefects(env, outcome.0, cookie);
      var c, d, e := CookieLifetimeDefects(env), GoogleSettingsDefects(), SameSiteDefects();
      ghost var f := SignatureKeyDefects(env);
      var g, h := CookieNameDefects(env, cookie.name), LogFileDefects(env);
      assert SessionDefects(env) == a + b + c + d + e + f + g + h;
      var cipher;
      cipher, out := SessionCipher(env, msgs);
      sessionCipher := cipher;
      out := InitSessionStore(env, out);
      Concat3(msgs, a, b);
      out := out + c;
      Concat3(msgs, a + b, c);
      out := out + d;
      Concat3(msgs, a + b + c, d);
      out := out + e;
      Concat3(msgs, a + b + c + d, e);
      SortCookieDomains();
      out := ParseSignatureKey(env, out);
      Concat3(msgs, a + b + c + d + e, f);
      out := out + g;
      Concat3(msgs, a + b + c + d + e + f, g);
      out := out + h;
      Concat3(msgs, a + b + c + d + e + f + g, h);
    }

    // ---------------------------------------------------------------
    // Validation as a whole.

    /** Everything after the OpenID Connect set-up: the request settings,
        then the session settings, each adding its messages in turn and
        setting its own derived fields. */
    method ConfigureRequestsAndSession(env: Env, msgs: seq<Msg>) returns (out: seq<Msg>)
      modifies this`jwtBearerVerifiers, this`parsedRedirectURL, this`proxyURLs, this`compiledRegex,
        this`compiledHeader, this`provider, this`sessionCipher, this`sessionStore, this`cookieDomains, this`signatureData
      ensures out == msgs + RequestDefects(env, old(CurrentOIDC())) + SessionDefects(env)
      ensures RequestFieldsNow() == ParsedRequests(env, old(CurrentOIDC()), old(RequestFieldsNow()))
      ensures SessionFieldsNow() == ConfiguredSession(env, old(SessionFieldsNow()))
      ensures LongestFirst(cookieDomains)
    {
      ghost var session := SessionFieldsNow();
      out := ParseRequestSettings(env, msgs);
      assert SessionFieldsNow() == session;
      ghost var requests := RequestFieldsNow();
      out := ConfigureSession(env, out);
      assert RequestFieldsNow() == requests;
    }

    /** Everything validation reports when it does not stop early: the
        opening checks on the settings as given, then the OpenID Connect,
        request and session checks on the endpoints as the OpenID Connect
        set-up leaves them. */
    function AllDefects(env: Env, st: OIDCState): (r: seq<Msg>)
      ensures r == [] <==>
        SettingsDefects(env) == [] && OIDCDefects(st) == [] && RequestDefects(env, st) == [] && SessionDefects(env) == []
      ensures |r| == |SettingsDefects(env)| + |OIDCDefects(st)| + |RequestDefects(env, st)| + |SessionDefects(env)|
    {
      SettingsDefects(env) + OIDCDefects(st) + RequestDefects(env, st) + SessionDefects(env)
    }

    /** Each check's messages in the whole report are exactly its own. */
    lemma AllAttribution(env: Env, st: OIDCState)
      ensures forall rule | rule in SettingsRules :: Of(AllDefects(env, st), rule) == Of(SettingsDefects(env), rule)
      ensures Of(AllDefects(env, st), OIDCEndpoints) == OIDCDefects(st)
      ensures forall rule | rule in RequestRules :: Of(AllDefects(env, st), rule) == Of(RequestDefects(env, st), rule)
      ensures forall rule | rule in SessionRules :: Of(AllDefects(env, st), rule) == Of(SessionDefects(env), rule)
    {
      SettingsAttribution(env);
      RequestFiled(env, st);
      SessionAttribution(env);
      FiledOf(OIDCDefects(st), OIDCEndpoints);
      ReportAttribution(SettingsDefects(env), OIDCDefects(st), RequestDefects(env, st), SessionDefects(env));
    }

    /** In any report whose opening-check messages are those the opening
        checks give, a missing cookie secret, a missing client id, missing
        email validation and conflicting auth headers each show as their
        own message, and only then. */
    lemma SettingsChecksIn(env: Env, report: seq<Msg>)
      requires forall rule | rule in SettingsRules :: Of(report, rule) == Of(SettingsDefects(env), rule)
      ensures MissingCookieSecret in report <==> cookie.secret == ""
      ensures MissingClientID in report <==> clientID == ""
      ensures MissingEmailValidation in report <==>
        authenticatedEmailsFile == "" && |emailDomains| == 0 && htpasswdFile == ""
      ensures ExclusiveAuthHeaders in report <==> setBasicAuth && setAuthorization
    {
      SettingsAttribution(env);
      RequiredSettingsMessages(env);
      assert Of(report, RequiredSettings) == RequiredSettingsDefects(env);
      assert Of(report, EmailValidation) == EmailValidationDefects();
      assert Of(report, AuthHeaders) == AuthHeaderDefects();
      InReport(report, RequiredSettingsDefects(env), RequiredSettings, MissingCookieSecret);
      InReport(report, RequiredSettingsDefects(env), RequiredSettings, MissingClientID);
      InReport(report, EmailValidationDefects(), EmailValidation, MissingEmailValidation);
      InReport(report, AuthHeaderDefects(), AuthHeaders, ExclusiveAuthHeaders);
    }

    /** In a report holding the cookie-lifetime check's messages, the
        refresh message is there exactly when the refresh interval is not
        below the expiry, whatever the other settings are. */
    lemma LifetimeCheckIn(env: Env, report: seq<Msg>)
      requires Of(report, CookieLifetime) == CookieLifetimeDefects(env)
      ensures RefreshNotBelowExpire(env.durationString(cookie.refresh), env.durationString(cookie.expire)) in report <==>
        cookie.refresh >= cookie.expire
    {
      InReport(report, CookieLifetimeDefects(env), CookieLifetime,
        RefreshNotBelowExpire(env.durationString(cookie.refresh), env.durationString(cookie.expire)));
    }

    /** In a report holding the SameSite check's messages, the SameSite
        message is there exactly when the value is not one browsers know,
        whatever the other settings are. */
    lemma SameSiteCheckIn(report: seq<Msg>)
      requires Of(report, SameSite) == SameSiteDefects()
      ensures InvalidSameSite(cookie.sameSite) in report <==> !KnownSameSite(cookie.sameSite)
    {
      InReport(report, SameSiteDefects(), SameSite, InvalidSameSite(cookie.sameSite));
    }

    /** In a report holding the cookie-secret check's messages, the size
        message is there exactly when a cipher is needed and the effective
        secret has no AES key size. */
    lemma CookieSecretCheckIn(env: Env, report: seq<Msg>)
      requires Of(report, CookieSecret) == SessionCipherOutcome(env).1
      ensures
        var key := SecretBytes(cookie.secret);
        (CookieSecretSize(|key|, if key != cookie.secret then Some(cookie.secret) else None) in report <==>
           CipherNeeded() && !ValidAESKeySize(|key|))
    {
      var key := SecretBytes(cookie.secret);
      InReport(report, SessionCipherOutcome(env).1, CookieSecret,
        CookieSecretSize(|key|, if key != cookie.secret then Some(cookie.secret) else None));
    }

    /** When no cipher is needed, a report holding the cookie-secret
        check's messages has none of them. */
    lemma NoCipherNoSecretCheck(env: Env, report: seq<Msg>)
      requires Of(report, CookieSecret) == SessionCipherOutcome(env).1
      requires !CipherNeeded()
      ensures forall m | m in report :: RuleOf(m) != CookieSecret
    {
      OfMembers(report, CookieSecret);
    }

    /** Options holding the defaults: the required settings are reported
        missing, while the cookie lifetime and SameSite checks pass and no
        session cipher is needed. */
    lemma DefaultsChecked(env: Env)
      requires var d := NewOptions();
        cookie == d.cookie && clientID == d.clientID && clientSecret == d.clientSecret &&
        clientSecretFile == d.clientSecretFile && providerName == d.providerName &&
        passAccessToken == d.passAccessToken && setAuthorization == d.setAuthorization &&
        passAuthorization == d.passAuthorization
      ensures RequiredSettingsDefects(env) == [MissingCookieSecret, MissingClientID, MissingClientSecret]
      ensures CookieLifetimeDefects(env) == [] && SameSiteDefects() == []
      ensures !CipherNeeded() && SessionCipherOutcome(env) == (None, [])
    {
    }

    /** Validate: every check runs and each defect adds its message; the
        result is nothing exactly when no check reported anything, and one
        error listing every message otherwise. Only a failed discovery of
        the OpenID Connect provider stops validation early, with that
        failure as the error and the settings untouched. The settings
        checked before the OpenID Connect set-up are read as given; the
        endpoints and the provider as that set-up leaves them. */
    method Validate(env: Env) returns (err: Option<ValidationError>)
      modifies this`loginURL, this`redeemURL, this`oidcJwksURL, this`profileURL, this`skipOIDCDiscovery,
        this`oidcVerifier, this`scope, this`jwtBearerVerifiers, this`parsedRedirectURL, this`proxyURLs,
        this`compiledRegex, this`compiledHeader, this`provider, this`sessionCipher, this`sessionStore,
        this`cookieDomains, this`signatureData
      ensures old(DiscoveryFails(env, CurrentOIDC())) ==>
        err == Some(Fatal(env.newProvider(oidcIssuerURL).error)) && unchanged(this)
      ensures !old(DiscoveryFails(env, CurrentOIDC())) ==>
        var st := ConfiguredOIDC(env, old(CurrentOIDC()));
        err == Reported(AllDefects(env, st))
      ensures !old(DiscoveryFails(env, CurrentOIDC())) ==>
        RequestFieldsNow() == ParsedRequests(env, ConfiguredOIDC(env, old(CurrentOIDC())), old(RequestFieldsNow())) &&
        SessionFieldsNow() == ConfiguredSession(env, old(SessionFieldsNow())) &&
        LongestFirst(cookieDomains)
    {
      var msgs := SettingsDefects(env);
      var fatal;
      ghost var requests, session := RequestFieldsNow(), SessionFieldsNow();
      msgs, fatal := ConfigureOIDC(env, msgs);
      if fatal.Some? {
        return Some(Fatal(fatal.value));
      }
      assert RequestFieldsNow() == requests && SessionFieldsNow() == session;
      msgs := ConfigureRequestsAndSession(env, msgs);
      err := Reported(msgs);
    }
  }
}
