# oauth2_proxy option validation, modelled in Dafny

This project models `Options.Validate` of oauth2_proxy, a reverse proxy that
puts OAuth2 login in front of web applications. Validate runs once, after
the proxy's settings are loaded from flags and its configuration file. It
checks the settings and derives the values the proxy runs with:

- the parsed redirect URL and upstreams, where an empty upstream path
  becomes "/";
- the compiled skip-auth patterns;
- the OpenID Connect verifier and the bearer-token verifiers;
- the bound identity provider, with its endpoint URLs and type-specific
  settings;
- the session cipher (only when a token is kept in the session or
  sessions are refreshed) and the session store;
- the cookie domains, sorted longest first;
- the request-signature key.

Validate does not stop at the first defect. Each check appends a message
to one list, and the result is one error listing every message in order.
Only a failed OpenID Connect provider discovery ends validation early,
with that failure as the error.

The model follows the code's own form:

- `Options` is a class. The settings as loaded are `const` fields. The
  values validation derives or rewrites are `var` fields, changed by
  methods with field-level `modifies` clauses.
- Each check is a function giving the messages it reports. Each step
  method is proved to append exactly those messages.
- `Validate` is proved to return nothing exactly when the concatenation
  of all checks' messages is empty, and otherwise that list
  (`AllDefects`).
- Every message belongs to exactly one check (`RuleOf`). `Of(report,
  rule)` picks out one check's messages. The attribution lemmas show that
  in the full report each check's messages are exactly its own. So "this
  message is reported iff this setting is wrong" holds in the whole
  report, whatever the other settings are.
- The loops over upstreams, skip-auth patterns and extra JWT issuers
  share one loop (`Parsing.Collect`). It is proved against the
  `Accepted`/`Rejected` specification functions.
- `addPadding`/`secretBytes` are modelled with a base64url decoder, proved
  to invert its encoder. The AES key-size gate is proved against them:
  any 16, 24 or 32 byte key round-trips through its encoding, with or
  without its trailing `=`.
- The cookie-domain sort is an insertion sort. It is proved to order the
  domains longest first and to be a permutation.

Everything the validator asks of the outside world is a field of one
`Environment.Env` value. This covers URL parsing, regular-expression
compilation, file reads, opening a file, the discovery HTTP request,
`oidc.NewProvider`, the provider factory, the digest table, PEM parsing,
the cipher, the session store, cookie serialisation, duration formatting
and the log-file permission check. Every property holds for every `Env`.

## Model

| member | source | states |
|---|---|---|
| GoStrings.Count | options.go:582-583 | the count is zero exactly when the character does not occur, and never exceeds the length |
| GoStrings.Split | options.go:582 | one more piece than there are separators, and no piece holds the separator |
| GoStrings.JoinSplit | options.go:609 | joining the pieces of a split with the separator gives back the input |
| GoStrings.SplitAtFirst | options.go:604-609 | when the separator occurs, the first piece is the text before its first occurrence and the joined rest is the text after it |
| GoStrings.CutUnique | options.go:604-609 | a string cut at a separator absent from the head has a unique head and tail |
| GoStrings.Join | options.go:469-472 | no parts join to the empty string and one part joins to itself; otherwise the text starts with the first part (JoinSnoc gives the rest) |
| GoStrings.JoinSnoc | options.go:469-472 | one more part at the end adds the separator and that part at the end of the text |
| GoStrings.TrimSuffix | options.go:267 | the suffix is removed exactly when the input ends with it; otherwise the input comes back unchanged |
| GoStrings.DecimalText | options.go:410-415 | the %d rendering of a byte count is a non-empty string of decimal digits that denote the count, without a leading zero |
| GoStrings.EscapeChar | options.go:212 | a character is written as itself exactly when it is not the quote, the backslash, a control character or DEL; no escape begins with a quote |
| GoStrings.UnescapeEscape | options.go:212 | reading back the escaped text of any string gives the string |
| GoStrings.Quote | options.go:212 | %q puts the escaped text between double quotes |
| GoStrings.QuoteRoundTrip | options.go:212 | the text between the quotes reads back, as strconv.Unquote reads it, to the quoted string |
| GoStrings.QuotePlain | options.go:641 | printable ASCII text without a quote or backslash is quoted as itself between double quotes |
| Messages.Append | options.go:230 | append keeps every earlier message as a prefix and adds exactly the new message at the end |
| Messages.Texts | options.go:469-472 | one text per message, in order, each the message's own text |
| Messages.ErrorText | options.go:469-472 | the error text starts with the "invalid configuration" banner, followed by the single message when there is one |
| Messages.ErrorTextSnoc | options.go:469-472 | each further message adds "\n  " and its own text at the end, so the text is the banner followed by every message, in order, one per line |
| Messages.Reported | options.go:469-473 | no error exactly when no message was collected; otherwise one error carrying every message |
| Messages.InReport | options.go:228-467 | a message is in a report exactly when it is among its own check's messages there |
| Parsing.URLFailure | options.go:208-215 | a URL setting reports nothing exactly when it parses, and otherwise one message with its type name, value and the parser's error |
| Parsing.ParseURL | options.go:208-215 | the URL comes back exactly when url.Parse accepts the text, and the messages grow by exactly that setting's failure |
| Parsing.AcceptedRejectedCount | options.go:603-611 | every list entry is either accepted or rejected, never both |
| Parsing.NothingRejected | options.go:603-611 | a list reports nothing exactly when every entry is accepted |
| Parsing.AcceptedFromInput | options.go:361-370 | every accepted value comes from some entry of the input |
| Parsing.RejectedFromInput | options.go:361-370 | every reported message is the rejection of some entry of the input |
| Parsing.Collect | options.go:361-389 | the loop returns exactly the accepted values in order and appends exactly the rejections in order |
| Parsing.RejectedRule | options.go:361-389 | when every rejection belongs to one check, so does everything the loop reports |
| Parsing.UpstreamOutcome | options.go:361-370 | an upstream is accepted exactly when it parses; an empty path becomes "/" with the rest of the parsed URL kept, and a non-empty path leaves the parsed URL as it is; a failure reports the parser's error |
| Parsing.PatternOutcome | options.go:373-389 | a pattern is accepted exactly when it compiles, as the compiled expression; otherwise the message quotes the pattern and the compiler's error |
| Parsing.SplitIssuer | options.go:604-609 | an entry has an issuer exactly when it holds '='; the entry is then issuer, '=', audience, with no '=' in the issuer |
| Parsing.SplitIssuerFirst | options.go:604-609 | the issuer is the text before the first '=', and the audience keeps any later '=' |
| Parsing.IssuerOutcome | options.go:604-610 | an entry is rejected exactly when it has no '=', with the "uri=audience" message |
| Parsing.ParseJwtIssuers | options.go:601-613 | parseJwtIssuers returns the accepted issuers in order and appends one message per rejected entry; the counts add up to the input length |
| Parsing.IssuersFromEntries | options.go:601-613 | every parsed issuer is an input entry cut at its first '=', and every message reports an input entry without '=' |
| Parsing.JwksURL | options.go:626 | the JWKS URL is the issuer without its trailing '/', or the whole issuer when it has none, followed by "/.well-known/jwks.json" |
| Parsing.NewVerifierFromJwtIssuer | options.go:617-636 | fails exactly when discovery fails and the JWKS request cannot be built; the verifier checks the issuer with the audience as client id; a successful discovery gives the discovered verifier; after a failed discovery the verifier is the key-set verifier at the JWKS URL, or the failure is the request error |
| Base64Url.SextetChar | options.go:662 | every six-bit value has an alphabet character that decodes back to it and is not the pad |
| Base64Url.Encode | options.go:662 | the padded encoding has four characters per started group of three bytes |
| Base64Url.RegroupBytes | options.go:662 | splitting three bytes into four sextets and joining them again gives the bytes back |
| Base64Url.DecodeQuad | options.go:662 | a full quantum followed by more text decodes to its three bytes followed by the rest's decoding |
| Base64Url.DecodeEncodeOne | options.go:662 | a final one-byte group round-trips through its "xx==" quantum |
| Base64Url.DecodeEncodeTwo | options.go:662 | a final two-byte group round-trips through its "xxx=" quantum |
| Base64Url.DecodeEncodeStep | options.go:662 | if the bytes after the first group round-trip, so do all the bytes |
| Base64Url.DecodeEncode | options.go:662 | decoding the encoding of any bytes gives them back |
| Base64Url.EncodeDecode | options.go:662 | text of alphabet characters, four per quantum, decodes to three bytes per quantum, and encoding those bytes gives the text back |
| Base64Url.DecodeRejectsForeign | options.go:662-666 | a character outside the alphabet and the pad makes decoding fail |
| Base64Url.Decode | options.go:662 | text that decodes is exactly as long as the encoding of the decoded bytes: four characters per started group of three bytes |
| CookieSecret.AddPadding | options.go:646-658 | addPadding extends the secret by at most three '=' to a multiple of four |
| CookieSecret.PaddingUnique | options.go:646-658 | that padding is the only such extension |
| CookieSecret.Chars | options.go:664 | string(b) has one character per byte, with the byte's value |
| CookieSecret.SecretBytes | options.go:660-667 | when the padded secret does not decode, the secret itself; when it decodes, the decoded bytes padded again to a multiple of four |
| CookieSecret.SecretBytesOfEncoding | options.go:660-667 | reading the encoding of any bytes gives those bytes, padded as addPadding pads them |
| CookieSecret.SecretBytesRoundTrip | options.go:396-400 | a base64url-encoded 16, 24 or 32 byte key is read back as exactly those bytes |
| CookieSecret.SecretBytesUnpaddedRoundTrip | options.go:396-400 | the same holds when the encoding is given without its trailing '=' |
| CookieSecret.SecretBytesOfText | options.go:660-667 | a secret typed as alphabet characters, four per quantum, is the encoding of three bytes per quantum, and those bytes, padded, are what it yields |
| CookieSecret.SecretBytesLiteral | options.go:665-666 | a secret with a character outside the alphabet is used as given |
| CookieSecret.PaddedToKeySize | options.go:646-658 | a string of 13-15, 21-23 or 29-31 characters is padded up to an AES key size |
| CookieSecret.RepaddedSecretPassesGate | options.go:396-400 | a decoded secret of 13-15, 21-23 or 29-31 bytes passes the key-size gate after re-padding, as a strictly longer key |
| CookieDomains.LongestFirstPairwise | options.go:459-463 | a longest-first list orders every pair of domains, not only neighbours |
| CookieDomains.Insert | options.go:461-463 | inserting into a longest-first list keeps it longest first and adds one domain |
| CookieDomains.InsertPermutes | options.go:461-463 | inserting adds exactly the new domain and loses nothing |
| CookieDomains.SortLongestFirst | options.go:461-463 | the sorted domains are longest first and as many as before |
| CookieDomains.SortPermutes | options.go:461-463 | the sort is a permutation of the domains |
| Providers.LoginGovSigningKey | options.go:546-572 | exactly one of the inline key and the key file must be given; the key comes from the PEM parse of the one given; an unreadable file reports both the read and the parse failure; a key is present exactly when nothing is reported |
| ProxyOptions.DiscoveryURL | options.go:267 | the discovery URL is the issuer without its trailing '/', or the whole issuer when it has none, followed by "/.well-known/openid-configuration" |
| ProxyOptions.SplitSignatureSpec | options.go:582-588 | a spec splits exactly when it holds one ':', into the hash name before it and the key after it |
| ProxyOptions.SplitSignatureSpecOf | options.go:582-588 | any hash and key without ':' split back out of "hash:key" |
| ProxyOptions.CountOfCut | options.go:582-583 | a string with one separator between two separator-free parts counts one separator |
| ProxyOptions.IsValidKeySize | options.go:395-400 | the loop over 16, 24 and 32 finds the size exactly when it is an AES key size |
| ProxyOptions.VerifierOf | options.go:350-354 | an issuer's verifier slot is filled exactly when its verifier can be built, and then holds that verifier |
| ProxyOptions.Verifiers | options.go:349-355 | one verifier slot per parsed issuer, in order, empty exactly when building that verifier fails |
| ProxyOptions.VerifiersBuilt | options.go:349-355 | a filled slot holds the verifier built from the issuer at the same position |
| ProxyOptions.BuildOutcome | options.go:350-353 | building fails exactly when newVerifierFromJwtIssuer fails, with the "error building verifiers" message |
| ProxyOptions.BuildVerifiers | options.go:349-355 | the loop appends one slot per issuer, including a nil slot for a failed build, and one message per failure |
| ProxyOptions.BuildFailuresFiled | options.go:350-353 | build failures belong to the JWT-issuer check |
| ProxyOptions.JwtIssuerDefects | options.go:346-356 | the extra issuers' messages all belong to the JWT-issuer check |
| ProxyOptions.NoJwtIssuerDefects | options.go:346-356 | the extra issuers report nothing exactly when every entry holds '=' and every parsed issuer's verifier can be built |
| ProxyOptions.NoBuildFailures | options.go:349-355 | no build fails exactly when every parsed issuer gets a verifier |
| ProxyOptions.ExtraIssuerVerifiers | options.go:346-356 | the slots come from the issuers that parse, and the messages are the parse failures and then the build failures |
| ProxyOptions.SessionStoreDefects | options.go:426-431 | the store reports nothing exactly when it can be built, and otherwise its one error |
| ProxyOptions.CookieNameDefects | options.go:638-644 | a name is reported, quoted, exactly when the cookie serialiser writes nothing for it |
| ProxyOptions.SettingsParts | options.go:228-254 | in the opening checks' combined messages, each check's messages are exactly its own |
| ProxyOptions.RequestParts | options.go:336-391 | in the request checks' combined messages, each check's messages are exactly its own |
| ProxyOptions.SessionParts | options.go:393-467 | in the session checks' combined messages, each check's messages are exactly its own |
| ProxyOptions.ReportAttribution | options.go:219-474 | in the four phases' messages, each check's messages come from its own phase only |
| ProxyOptions.NewOptions | options.go:151-200 | the defaults: cookie name "_oauth2_proxy", a 168 hour expiry, no refresh, basic auth and user headers passed, approval prompt "force", user id claim "email" |
| ProxyOptions.Options.constructor | options.go:151-200 | the options as loaded: every setting as given, nothing derived yet |
| ProxyOptions.Options.RequiredSettingsDefects | options.go:228-246 | the required-settings check reports at most four messages, all its own |
| ProxyOptions.Options.RequiredSettingsMessages | options.go:228-246 | the cookie secret and client id are each reported exactly when empty; the client secret is reported missing or unreadable exactly in the non-login.gov cases the code checks |
| ProxyOptions.Options.OnlyRequiredSettingsMessages | options.go:228-246 | the required-settings check reports nothing but those four messages |
| ProxyOptions.Options.EmailValidationDefects | options.go:247-250 | reported exactly when no emails file, email domain or htpasswd file is set |
| ProxyOptions.Options.AuthHeaderDefects | options.go:252-254 | reported exactly when both basic auth and the Authorization header are set |
| ProxyOptions.Options.SettingsAttribution | options.go:228-254 | each opening check's messages in their combined report are exactly its own |
| ProxyOptions.Options.AfterDiscovery | options.go:260-296 | a fetched discovery document fills only the empty endpoints and switches discovery off; without one nothing changes |
| ProxyOptions.Options.ApplyDiscovery | options.go:260-296 | the in-place discovery leaves the settings as AfterDiscovery gives them |
| ProxyOptions.Options.OIDCEndpointDefects | options.go:302-311 | at most three messages, and none exactly when the login, redeem and JWKS URLs are all set |
| ProxyOptions.Options.OIDCEndpointMessages | options.go:302-311 | each missing endpoint is reported by its own message, exactly when it is missing |
| ProxyOptions.Options.OIDCDefects | options.go:302-311 | the OpenID Connect set-up reports only endpoint messages |
| ProxyOptions.Options.ConfiguredOIDC | options.go:256-334 | without an issuer or on failed discovery nothing changes; with discovery off the verifier uses the JWKS URL; with discovery off the four endpoints are those the validator's own discovery leaves, so configured ones are kept; with it on, the discovered verifier is used, its endpoints overwrite the login and redeem URLs, and the JWKS and profile URLs stay; an empty scope becomes "openid email profile" |
| ProxyOptions.Options.DiscoveryFails | options.go:317-322 | when provider discovery fails, the validator's own discovery has changed nothing |
| ProxyOptions.Options.ConfigureOIDC | options.go:256-334 | failed provider discovery is fatal and changes nothing; otherwise the settings become ConfiguredOIDC's and the endpoint messages are appended |
| ProxyOptions.Options.PreferEmailDefects | options.go:336-338 | reported exactly when the email is preferred but neither basic auth nor user headers pass it on |
| ProxyOptions.Options.BearerDefects | options.go:340-357 | nothing is reported unless bearer tokens are accepted and extra issuers are given; all messages belong to the JWT-issuer check |
| ProxyOptions.Options.ConfigureBearerVerifiers | options.go:340-357 | the verifiers grow by the OpenID Connect verifier, if any, then one slot per parsed extra issuer, only when bearer tokens are accepted |
| ProxyOptions.Options.ParseRedirectURL | options.go:359 | the redirect URL is present exactly when it parses, and its failure is appended |
| ProxyOptions.Options.UpstreamDefects | options.go:361-371 | every upstream message belongs to the upstream check |
| ProxyOptions.Options.ParseUpstreams | options.go:361-371 | the proxy URLs grow by the upstreams that parse, in order, each with a non-empty path; one message per failure |
| ProxyOptions.Options.SkipAuthDefects | options.go:373-389 | every pattern message belongs to the skip-auth check |
| ProxyOptions.Options.CompileSkipAuthPatterns | options.go:373-389 | the path and header patterns that compile are added in order; one message per failure, path patterns first |
| ProxyOptions.Options.EndpointFailures | options.go:486-490 | at most five messages, and none exactly when all five endpoint URLs parse |
| ProxyOptions.Options.EndpointChain | options.go:486-490 | the five chained parses append exactly the five parses' own failures |
| ProxyOptions.Options.EndpointData | options.go:477-490 | the provider data carries the scope, client id, client secret, secret file, prompt, approval prompt and ACR values, and each of the five endpoint URLs exactly when it parses, as parsed |
| ProxyOptions.Options.BindSettings | options.go:492-573 | only GitLab's fallback changes the provider data |
| ProxyOptions.Options.BindingDefects | options.go:492-573 | the provider type's own checks report only provider-settings messages |
| ProxyOptions.Options.BindSettingsCases | options.go:493-573 | per provider type: Azure, GitHub, Keycloak and Bitbucket take their settings and report nothing; Google restricts groups exactly when the credentials file opens, and reports it otherwise; OIDC needs an issuer verifier; GitLab uses the issuer verifier or falls back to gitlab.com, whose endpoints replace the login and redeem URLs; login.gov parses its public JWK URL and its one signing key |
| ProxyOptions.Options.ParseProviderInfo | options.go:476-575 | the provider becomes the chosen type bound to the endpoint data; the messages grow by exactly the endpoint failures and the type's own checks |
| ProxyOptions.Options.ProviderDefects | options.go:476-575 | all of parseProviderInfo's messages belong to the provider-settings check |
| ProxyOptions.Options.RequestFiled | options.go:336-391 | every request-side message belongs to a request check |
| ProxyOptions.Options.RequestAttribution | options.go:336-391 | each request check's messages in their combined report are exactly its own |
| ProxyOptions.Options.ParseProxyTargets | options.go:359-389 | the redirect URL, upstreams and patterns are parsed in that order, with their messages in that order |
| ProxyOptions.Options.ParseTargetsAndProvider | options.go:359-391 | then the provider is bound on the endpoints as the OpenID Connect set-up left them |
| ProxyOptions.Options.ParseRequestSettings | options.go:336-391 | everything between the OpenID Connect set-up and the cipher, with the messages in source order; the derived fields become `ParsedRequests` of their old values: the bearer verifiers grown only when bearer tokens are accepted, the redirect URL exactly when it parses, the upstreams and patterns that parse added in order, and the provider bound to the endpoints as set up |
| ProxyOptions.Options.SessionCipherOutcome | options.go:393-423 | no cipher and no message unless one is needed; the size message, giving the effective length and the original secret when it was decoded, appears exactly when the key has no AES size; a cipher is built only on a valid key |
| ProxyOptions.Options.SessionCipher | options.go:393-423 | the cipher gate computes exactly that outcome |
| ProxyOptions.Options.InitSessionStore | options.go:425-431 | the store is set when it can be built and kept otherwise; its failure is appended |
| ProxyOptions.Options.CookieLifetimeDefects | options.go:433-439 | reported exactly when the refresh interval is not below the expiry, with both durations as text |
| ProxyOptions.Options.GoogleSettingsDefects | options.go:441-451 | at most three messages, all Google-settings messages |
| ProxyOptions.Options.GoogleSettingsMessages | options.go:441-451 | once any Google group setting is given, each missing one is reported, exactly then; nothing else is reported |
| ProxyOptions.Options.SameSiteDefects | options.go:453-457 | reported exactly when the value is not "", "none", "lax" or "strict" |
| ProxyOptions.Options.SortCookieDomains | options.go:459-463 | the domains become longest first, as a permutation of the old ones |
| ProxyOptions.Options.SignatureKeyDefects | options.go:577-597 | an unset key reports nothing; a spec without exactly one ':' is invalid; a hash name the digest table lacks is unsupported |
| ProxyOptions.Options.ParsedSignature | options.go:577-597 | signature data exists exactly when the key is set and reports nothing; it is the digest of the hash name and the key after ':' |
| ProxyOptions.Options.ParseSignatureKey | options.go:577-597 | parseSignatureKey sets the signature data exactly then, and appends its message otherwise |
| ProxyOptions.Options.LogFileDefects | options.go:669-678 | reported exactly when a log file is set and opening it is denied for lack of permission |
| ProxyOptions.Options.SessionAttribution | options.go:393-467 | each session check's messages in their combined report are exactly its own |
| ProxyOptions.Options.ConfigureSession | options.go:393-467 | the session messages appended in source order; the fields become `ConfiguredSession` of their old values: the gate's cipher, the store built with it or the old one, the domains sorted longest first, the parsed signature data or the old one |
| ProxyOptions.Options.ConfigureRequestsAndSession | options.go:336-467 | the request messages, then the session messages; every field it sets is as `ParsedRequests` and `ConfiguredSession` give |
| ProxyOptions.Options.AllAttribution | options.go:219-474 | in the whole report, each check's messages are exactly those it reports on its own |
| ProxyOptions.Options.SettingsChecksIn | options.go:228-254 | in the report, a missing cookie secret, missing client id, missing email validation and conflicting auth headers each appear exactly when that setting is wrong |
| ProxyOptions.Options.LifetimeCheckIn | options.go:433-439 | in the report, the refresh message appears exactly when refresh is not below expiry |
| ProxyOptions.Options.SameSiteCheckIn | options.go:453-457 | in the report, the SameSite message appears exactly when the value is unknown |
| ProxyOptions.Options.CookieSecretCheckIn | options.go:393-416 | in the report, the key-size message appears exactly when a cipher is needed and the key has no AES size |
| ProxyOptions.Options.NoCipherNoSecretCheck | options.go:393-394 | when no cipher is needed, the report holds no cookie-secret message |
| ProxyOptions.Options.DefaultsChecked | options.go:151-200 | with the defaults, the cookie secret, client id and client secret are reported missing, while the lifetime and SameSite checks pass and no session cipher is needed |
| ProxyOptions.Options.AllDefects | options.go:228-467 | the full report is empty exactly when every phase reports nothing, and is as long as their reports together |
| ProxyOptions.Options.Validate | options.go:219-474 | failed discovery returns that error with the settings untouched; otherwise the result is nothing exactly when no check reports, and one error with all messages in check order; the request fields are as `ParsedRequests` gives on the endpoints the OpenID Connect set-up leaves, and the session fields as `ConfiguredSession` gives |

## Left out

- The insecure TLS transport installed as the HTTP default client (options.go:220-226) is a global side effect with no bearing on the result. It is not modelled.
- Network, file and library calls are not modelled; each is a given function of `Env`. This covers discovery, `oidc.NewProvider`, URL parsing, regexp compilation, file reads, PEM parsing, the cipher and the session store. No property depends on what these functions return.
- Logging is not modelled, neither the discovery log lines nor the log sinks `setupLogger` configures. Only `setupLogger`'s permission message (options.go:671-678) is in the model.
- Go's base64 decoder skips CR and LF characters in its input. The model's decoder does not, so a secret holding line breaks is not modelled as Go reads it.
- `NewOptions` is modelled as the defaults it gives the settings validation reads. Its other defaults (listen addresses, proxy prefix, logging formats and the like) are left out, because validation never reads them. Parsing flags and the configuration file into settings is not part of this model.
- For discovery mode the code decides the precedence. The endpoints of a discovered provider overwrite configured login and redeem URLs (options.go:328-329). A configuration that sets its own endpoints does not keep them, and the model does the same.
- ProxyOptions.Options.SortCookieDomains: Go's `sort.Slice` is not stable, and the order it gives domains of equal length is not modelled. The model's insertion sort places each domain after the equal-length ones already sorted, so equal-length domains come out in reverse input order. The longest-first order and the permutation hold either way.
- ProxyOptions.Options.ConfigureSession: the session store is handed the cookie settings as a value. In Go it holds a pointer to them and so later sees the sorted domains. The sorted list is the separate field `cookieDomains`, and the store's view of it is not modelled.
- ProxyOptions.Options.Validate: the final OpenID Connect settings are not restated in Validate's contract; `ConfigureOIDC` states them as `ConfiguredOIDC` gives them. Validate states the result and the request and session fields.
- ProxyOptions.Options.BindSettings: its own contract states only that non-GitLab types keep the provider data. The per-type settings and messages are stated by `BindSettingsCases`.
- Settings are Go strings, which are byte strings. The model reads one character as one byte, so a setting with characters beyond ASCII stands for its UTF-8 encoding, given one character per byte. The lengths the validator measures (addPadding's `len(s) % 4`, the AES key-size gate and the size in the cookie-secret message) are then byte counts, as in Go. A setting written with wider characters is not measured as Go measures it.
- GoStrings.Quote: characters from 0x80 up are written as given. `strconv.Quote` keeps printable runes but escapes invalid UTF-8 as `\x` and non-printable runes as `\u` or `\U`; the model does not decode UTF-8, so those escapes are not modelled. ASCII text is quoted as Go quotes it.
- Messages.Text has no contract of its own: it is the table of message texts, one per kind of message, written after the format strings of options.go. `ErrorText` and `ErrorTextSnoc` state how the texts are combined.
- ProxyOptions.Options.CipherNeeded is the gate's condition itself and has no contract of its own; `SessionCipherOutcome`, `CookieSecretCheckIn` and `DefaultsChecked` state what follows from it.
- Go's `%v`/`%s` rendering of library errors is kept as the error's text, given by `Env`. Durations are rendered by `Env`'s `durationString`.
