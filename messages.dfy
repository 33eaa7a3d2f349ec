/** The defect messages the validator accumulates. Each place in the
    validator that appends a message has its own constructor; `Text` renders
    it to the words the validator reports, and `RuleOf` names the check it
    belongs to, so that what one check reports can be told apart from what
    the others report. */
module Messages {
  import opened Wrappers
  import opened GoStrings

  /** The checks of the validator, one per group of related settings. */
  datatype Rule =
    | RequiredSettings | EmailValidation | AuthHeaders | OIDCEndpoints | PreferEmail
    | JwtIssuers | RedirectURL | Upstreams | SkipAuthPatterns | ProviderSettings
    | CookieSecret | SessionStorage | CookieLifetime | GoogleSettings | SameSite
    | SignatureKey | CookieName | LogFile

  /** The URL settings whose parse failures are reported, each named in
      its message by the word the validator uses for it. */
  datatype URLType = LoginType | RedeemType | ProfileType | ValidateType | ResourceType | RedirectType | PubJWKType

  function URLTypeName(t: URLType): string
  {
    match t
    case LoginType => "login"
    case RedeemType => "redeem"
    case ProfileType => "profile"
    case ValidateType => "validate"
    case ResourceType => "resource"
    case RedirectType => "redirect"
    case PubJWKType => "pubjwk"
  }

  datatype Msg =
    | MissingCookieSecret
    | MissingClientID
    | MissingClientSecret
    | UnreadableClientSecretFile(path: string)
    | MissingEmailValidation
    | ExclusiveAuthHeaders
    | MissingLoginURL
    | MissingRedeemURL
    | MissingJwksURL
    | PreferEmailWithoutHeaders
    | InvalidJwtIssuerSpec(spec: string)
    | VerifierBuildFailure(cause: string)
    | URLParseFailure(urlType: URLType, value: string, cause: string)
    | UpstreamParseFailure(cause: string)
    | RegexCompileFailure(pattern: string, cause: string)
    | OIDCProviderNeedsIssuer
    | GitLabProviderInitFailure
    | GoogleCredentialsUnreadable(path: string)
    | BothJWTKeys
    | MissingJWTKey
    | UnparsableJWTKey
    | UnreadableJWTKeyFile(path: string)
    | UnparsableJWTKeyFile(path: string)
    | CookieSecretSize(size: nat, decodedFrom: Option<string>)
    | CipherFailure(cause: string)
    | SessionStoreFailure(cause: string)
    | RefreshNotBelowExpire(refresh: string, expire: string)
    | MissingGoogleGroup
    | MissingGoogleAdminEmail
    | MissingGoogleServiceAccountJSON
    | InvalidSameSite(value: string)
    | InvalidSignatureSpec(spec: string)
    | UnsupportedSignatureHash(spec: string)
    | InvalidCookieName(name: string)
    | UnwritableLogFile(path: string)

  /** The check that appends `m`. A URL that fails to parse is filed under
      the redirect URL when it is the redirect URL, and under the provider
      settings otherwise. */
  function RuleOf(m: Msg): Rule
  {
    match m
    case MissingCookieSecret | MissingClientID | MissingClientSecret | UnreadableClientSecretFile(_) =>
      RequiredSettings
    case MissingEmailValidation => EmailValidation
    case ExclusiveAuthHeaders => AuthHeaders
    case MissingLoginURL | MissingRedeemURL | MissingJwksURL => OIDCEndpoints
    case PreferEmailWithoutHeaders => PreferEmail
    case InvalidJwtIssuerSpec(_) | VerifierBuildFailure(_) => JwtIssuers
    case URLParseFailure(t, _, _) => if t == RedirectType then RedirectURL else ProviderSettings
    case UpstreamParseFailure(_) => Upstreams
    case RegexCompileFailure(_, _) => SkipAuthPatterns
    case OIDCProviderNeedsIssuer | GitLabProviderInitFailure | GoogleCredentialsUnreadable(_)
      | BothJWTKeys | MissingJWTKey | UnparsableJWTKey | UnreadableJWTKeyFile(_) | UnparsableJWTKeyFile(_) =>
      ProviderSettings
    case CookieSecretSize(_, _) | CipherFailure(_) => CookieSecret
    case SessionStoreFailure(_) => SessionStorage
    case RefreshNotBelowExpire(_, _) => CookieLifetime
    case MissingGoogleGroup | MissingGoogleAdminEmail | MissingGoogleServiceAccountJSON => GoogleSettings
    case InvalidSameSite(_) => SameSite
    case InvalidSignatureSpec(_) | UnsupportedSignatureHash(_) => SignatureKey
    case InvalidCookieName(_) => CookieName
    case UnwritableLogFile(_) => LogFile
  }

  /** The words the validator reports for `m`. */
  function Text(m: Msg): string {
    match m
    case MissingCookieSecret => "missing setting: cookie-secret"
    case MissingClientID => "missing setting: client-id"
    case MissingClientSecret => "missing setting: client-secret or client-secret-file"
    case UnreadableClientSecretFile(path) => "could not read client secret file: " + path
    case MissingEmailValidation =>
      "missing setting for email validation: email-domain or authenticated-emails-file required." +
      "\n      use email-domain=* to authorize all email addresses"
    case ExclusiveAuthHeaders =>
      "mutually exclusive: set-basic-auth and set-authorization-header can not both be true"
    case MissingLoginURL => "missing setting: login-url"
    case MissingRedeemURL => "missing setting: redeem-url"
    case MissingJwksURL => "missing setting: oidc-jwks-url"
    case PreferEmailWithoutHeaders =>
      "PreferEmailToUser should only be used with PassBasicAuth or PassUserHeaders"
    case InvalidJwtIssuerSpec(spec) => "invalid jwt verifier uri=audience spec: " + spec
    case VerifierBuildFailure(cause) => "error building verifiers: " + cause
    case URLParseFailure(urlType, value, cause) =>
      "error parsing " + URLTypeName(urlType) + "-url=" + Quote(value) + " " + cause
    case UpstreamParseFailure(cause) => "error parsing upstream: " + cause
    case RegexCompileFailure(pattern, cause) => "error compiling regex=" + Quote(pattern) + " " + cause
    case OIDCProviderNeedsIssuer => "oidc provider requires an oidc issuer URL"
    case GitLabProviderInitFailure => "failed to initialize oidc provider for gitlab.com"
    case GoogleCredentialsUnreadable(path) => "invalid Google credentials file: " + path
    case BothJWTKeys => "cannot set both jwt-key and jwt-key-file options"
    case MissingJWTKey => "login.gov provider requires a private key for signing JWTs"
    case UnparsableJWTKey => "could not parse RSA Private Key PEM"
    case UnreadableJWTKeyFile(path) => "could not read key file: " + path
    case UnparsableJWTKeyFile(path) => "could not parse private key from PEM file:" + path
    case CookieSecretSize(size, decodedFrom) =>
      "cookie_secret must be 16, 24, or 32 bytes " +
      "to create an AES cipher when " +
      "pass_access_token == true or " +
      "cookie_refresh != 0, but is " + DecimalText(size) + " bytes." +
      (match decodedFrom
       case Some(secret) => " note: cookie secret was base64 decoded from " + Quote(secret)
       case None => "")
    case CipherFailure(cause) => "cookie-secret error: " + cause
    case SessionStoreFailure(cause) => "error initialising session storage: " + cause
    case RefreshNotBelowExpire(refresh, expire) =>
      "cookie_refresh (" + refresh + ") must be less than cookie_expire (" + expire + ")"
    case MissingGoogleGroup => "missing setting: google-group"
    case MissingGoogleAdminEmail => "missing setting: google-admin-email"
    case MissingGoogleServiceAccountJSON => "missing setting: google-service-account-json"
    case InvalidSameSite(value) =>
      "cookie_samesite (" + value + ") must be one of ['', 'lax', 'strict', 'none']"
    case InvalidSignatureSpec(spec) => "invalid signature hash:key spec: " + spec
    case UnsupportedSignatureHash(spec) => "unsupported signature hash algorithm: " + spec
    case InvalidCookieName(name) => "invalid cookie name: " + Quote(name)
    case UnwritableLogFile(path) => "unable to write to log file: " + path
  }

  /** Go's append(msgs, m): the list grows by `m` at the end. */
  function Append(msgs: seq<Msg>, m: Msg): (r: seq<Msg>)
    ensures msgs < r && |r| == |msgs| + 1 && r[|msgs|..] == [m]
  {
    msgs + [m]
  }

  /** Every message of `msgs` was reported by one of the checks `rules`. */
  predicate Filed(msgs: seq<Msg>, rules: set<Rule>)
    decreases |msgs|
  {
    msgs == [] || (RuleOf(msgs[|msgs| - 1]) in rules && Filed(msgs[..|msgs| - 1], rules))
  }

  lemma {:induction false} FiledMembers(msgs: seq<Msg>, rules: set<Rule>)
    ensures Filed(msgs, rules) <==> forall m | m in msgs :: RuleOf(m) in rules
    decreases |msgs|
  {
    if msgs != [] {
      var init, last := msgs[..|msgs| - 1], msgs[|msgs| - 1];
      assert msgs == init + [last];
      FiledMembers(init, rules);
    }
  }

  /** Two lists filed under the same checks are, reported one after the
      other. */
  lemma FiledAppend(a: seq<Msg>, b: seq<Msg>, rules: set<Rule>)
    requires Filed(a, rules) && Filed(b, rules)
    ensures Filed(a + b, rules)
  {
    FiledMembers(a, rules);
    FiledMembers(b, rules);
    FiledMembers(a + b, rules);
  }

  /** A list reported by one check is filed under that check, and is all
      of that check's messages. */
  lemma FiledOwn(msgs: seq<Msg>, rule: Rule)
    requires forall m | m in msgs :: RuleOf(m) == rule
    ensures Filed(msgs, {rule}) && Of(msgs, rule) == msgs
  {
    FiledMembers(msgs, {rule});
    OfOwn(msgs, rule);
  }

  /** A list filed under one check alone is all of that check's messages. */
  lemma FiledOf(msgs: seq<Msg>, rule: Rule)
    requires Filed(msgs, {rule})
    ensures Of(msgs, rule) == msgs
  {
    FiledMembers(msgs, {rule});
    OfOwn(msgs, rule);
  }

  /** Reporting one list of messages after another keeps each check's
      messages apart: when the two lists come from disjoint sets of checks,
      the messages of a check of either set are the ones its own list
      holds. */
  lemma OfPhases(a: seq<Msg>, b: seq<Msg>, ra: set<Rule>, rb: set<Rule>)
    requires Filed(a, ra) && Filed(b, rb) && ra !! rb
    ensures Filed(a + b, ra + rb)
    ensures forall rule | rule in ra :: Of(a + b, rule) == Of(a, rule)
    ensures forall rule | rule in rb :: Of(a + b, rule) == Of(b, rule)
  {
    FiledMembers(a, ra);
    FiledMembers(b, rb);
    FiledMembers(a + b, ra + rb);
    forall rule | rule in ra + rb
      ensures Of(a + b, rule) == Of(a, rule) + Of(b, rule)
      ensures rule in ra ==> Of(b, rule) == []
      ensures rule in rb ==> Of(a, rule) == []
    {
      OfAppend(a, b, rule);
      if rule in ra {
        OfOther(b, rule);
      } else {
        OfOther(a, rule);
      }
    }
  }

  /** Reporting three lists one after another is reporting the first, then
      the other two together. */
  lemma Concat3(a: seq<Msg>, b: seq<Msg>, c: seq<Msg>)
    ensures a + b + c == a + (b + c)
  {
  }

  lemma InConcat3(a: seq<Msg>, b: seq<Msg>, c: seq<Msg>)
    ensures forall m :: m in a + b + c <==> m in a || m in b || m in c
  {
  }

  /** The messages of one check, in the order they were reported. */
  function Of(msgs: seq<Msg>, rule: Rule): (r: seq<Msg>)
    ensures |r| <= |msgs|
  {
    if msgs == [] then []
    else
      Of(msgs[..|msgs| - 1], rule) +
      (if RuleOf(msgs[|msgs| - 1]) == rule then [msgs[|msgs| - 1]] else [])
  }

  /** Filtering distributes over reporting one list after another. */
  lemma {:induction false} OfAppend(a: seq<Msg>, b: seq<Msg>, rule: Rule)
    ensures Of(a + b, rule) == Of(a, rule) + Of(b, rule)
    decreases |b|
  {
    if b != [] {
      var init := b[..|b| - 1];
      assert (a + b)[..|a + b| - 1] == a + init;
      OfAppend(a, init, rule);
    } else {
      assert a + b == a;
    }
  }

  /** A list reported by one check is all that check's messages. */
  lemma {:induction false} OfOwn(msgs: seq<Msg>, rule: Rule)
    requires forall m | m in msgs :: RuleOf(m) == rule
    ensures Of(msgs, rule) == msgs
    decreases |msgs|
  {
    if msgs != [] {
      var init, last := msgs[..|msgs| - 1], msgs[|msgs| - 1];
      assert msgs == init + [last];
      OfOwn(init, rule);
    }
  }

  /** A check's messages are the messages of the list it filed. */
  lemma {:induction false} OfMembers(msgs: seq<Msg>, rule: Rule)
    ensures forall m :: m in Of(msgs, rule) <==> m in msgs && RuleOf(m) == rule
    decreases |msgs|
  {
    if msgs != [] {
      var init := msgs[..|msgs| - 1];
      OfMembers(init, rule);
      assert msgs == init + [msgs[|msgs| - 1]];
    }
  }

  /** When a check's messages in a report are a given list, a message of
      that check is in the report exactly when it is in the list. */
  lemma InReport(report: seq<Msg>, own: seq<Msg>, rule: Rule, m: Msg)
    requires Of(report, rule) == own && RuleOf(m) == rule
    ensures m in report <==> m in own
  {
    OfMembers(report, rule);
  }

  /** A list holding none of a check's messages has nothing of it. */
  lemma OfOther(msgs: seq<Msg>, rule: Rule)
    requires forall m | m in msgs :: RuleOf(m) != rule
    ensures Of(msgs, rule) == []
  {
    OfMembers(msgs, rule);
  }

  /** What the validator returns when it fails: the one fatal discovery
      error, or every defect found. */
  datatype ValidationError = Fatal(cause: string) | Invalid(msgs: seq<Msg>)

  const Banner: string := "invalid configuration:\n  "

  function Texts(msgs: seq<Msg>): (r: seq<string>)
    ensures |r| == |msgs| && forall i | 0 <= i < |msgs| :: r[i] == Text(msgs[i])
  {
    if msgs == [] then [] else [Text(msgs[0])] + Texts(msgs[1..])
  }

  lemma TextsSnoc(msgs: seq<Msg>, m: Msg)
    ensures Texts(msgs + [m]) == Texts(msgs) + [Text(m)]
  {
    var l, r := Texts(msgs + [m]), Texts(msgs) + [Text(m)];
    assert |l| == |r|;
    forall i | 0 <= i < |l| ensures l[i] == r[i] {
      if i < |msgs| {
        assert (msgs + [m])[i] == msgs[i];
      }
    }
  }

  lemma LinesSnoc(texts: seq<string>, t: string)
    requires texts != []
    ensures Banner + Join(texts + [t], "\n  ") == Banner + Join(texts, "\n  ") + "\n  " + t
  {
    JoinSnoc(texts, t, "\n  ");
    var lines := Join(texts, "\n  ");
    assert Banner + (lines + "\n  " + t) == Banner + lines + "\n  " + t;
  }

  /** The text of the returned error: the banner followed by every message,
      one per line, in the order they were found. */
  function ErrorText(e: ValidationError): (r: string)
    ensures e.Invalid? ==> Banner <= r
    ensures e.Invalid? && |e.msgs| == 1 ==> r == Banner + Text(e.msgs[0])
  {
    match e
    case Fatal(cause) => cause
    case Invalid(msgs) => Banner + Join(Texts(msgs), "\n  ")
  }

  /** The error text of several messages: each further message adds the
      line separator and its own text, so the text is the banner followed
      by every message's text, in order, one per line. */
  lemma ErrorTextSnoc(msgs: seq<Msg>, m: Msg)
    requires msgs != []
    ensures ErrorText(Invalid(msgs + [m])) == ErrorText(Invalid(msgs)) + "\n  " + Text(m)
  {
    TextsSnoc(msgs, m);
    LinesSnoc(Texts(msgs), Text(m));
  }

  /** What the validator returns once every check has run: nothing when no
      check reported a defect, and otherwise one error listing them all. */
  function Reported(msgs: seq<Msg>): (r: Option<ValidationError>)
    ensures r.None? <==> msgs == []
    ensures r.Some? ==> r.value == Invalid(msgs)
  {
    if msgs == [] then None else Some(Invalid(msgs))
  }
}
