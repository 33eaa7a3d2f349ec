/** Parsing of the list-valued and URL-valued settings: URLs, upstreams,
    skip-auth patterns and extra JWT issuers. Each list is parsed entry by
    entry; an entry that fails adds one message and parsing carries on. */
module Parsing {
  import opened Wrappers
  import opened GoStrings
  import opened Environment
  import opened Messages

  /** What parsing a URL setting reports: nothing, or the one failure,
      filed under the redirect URL or under the provider settings. */
  function URLFailure(env: Env, value: string, urlType: URLType): (r: seq<Msg>)
    ensures r == [] <==> env.parseURL(value).Ok?
    ensures r != [] ==> r == [URLParseFailure(urlType, value, env.parseURL(value).error)]
    ensures Filed(r, {if urlType == RedirectType then RedirectURL else ProviderSettings})
  {
    match env.parseURL(value)
    case Ok(_) => []
    case Err(e) => [URLParseFailure(urlType, value, e)]
  }

  /** Parses one URL setting. The URL comes back exactly when url.Parse
      accepts the text; otherwise one message naming the setting, its value
      and the parser's error is appended. */
  function ParseURL(env: Env, toParse: string, urlType: URLType, msgs: seq<Msg>): (r: (Option<URL>, seq<Msg>))
    ensures r.0.Some? <==> env.parseURL(toParse).Ok?
    ensures r.0.Some? ==> r.0.value == env.parseURL(toParse).value
    ensures r.1 == msgs + URLFailure(env, toParse, urlType)
  {
    match env.parseURL(toParse)
    case Ok(u) => (Some(u), msgs)
    case Err(e) => (None, msgs + [URLParseFailure(urlType, toParse, e)])
  }

  /** What parsing one list entry gives: a value, or the message to report. */
  datatype Outcome<+B> = Accept(value: B) | Reject(msg: Msg)

  /** The values of the accepted entries, in input order. */
  function Accepted<A, B>(xs: seq<A>, f: A -> Outcome<B>): seq<B>
  {
    if xs == [] then []
    else
      Accepted(xs[..|xs| - 1], f) +
      (match f(xs[|xs| - 1]) case Accept(v) => [v] case Reject(_) => [])
  }

  /** The messages of the rejected entries, in input order. */
  function Rejected<A, B>(xs: seq<A>, f: A -> Outcome<B>): seq<Msg>
  {
    if xs == [] then []
    else
      Rejected(xs[..|xs| - 1], f) +
      (match f(xs[|xs| - 1]) case Accept(_) => [] case Reject(m) => [m])
  }

  /** One more entry adds its message, if it is rejected. */
  lemma RejectedStep<A, B>(xs: seq<A>, i: nat, f: A -> Outcome<B>)
    requires i < |xs|
    ensures Rejected(xs[..i + 1], f) ==
      Rejected(xs[..i], f) + (match f(xs[i]) case Accept(_) => [] case Reject(m) => [m])
  {
    assert xs[..i + 1][..i] == xs[..i];
  }

  /** Every entry is either accepted or rejected, never both, never neither. */
  lemma {:induction false} AcceptedRejectedCount<A, B>(xs: seq<A>, f: A -> Outcome<B>)
    ensures |Accepted(xs, f)| + |Rejected(xs, f)| == |xs|
    decreases |xs|
  {
    if xs != [] {
      AcceptedRejectedCount(xs[..|xs| - 1], f);
    }
  }

  /** Nothing is reported exactly when every entry parses. */
  lemma {:induction false} NothingRejected<A, B>(xs: seq<A>, f: A -> Outcome<B>)
    ensures Rejected(xs, f) == [] <==> forall i | 0 <= i < |xs| :: f(xs[i]).Accept?
    decreases |xs|
  {
    if xs != [] {
      var init := xs[..|xs| - 1];
      NothingRejected(init, f);
      assert forall i | 0 <= i < |init| :: init[i] == xs[i];
    }
  }

  /** Every accepted value comes from some entry of the input. */
  lemma {:induction false} AcceptedFromInput<A, B>(xs: seq<A>, f: A -> Outcome<B>)
    ensures forall v | v in Accepted(xs, f) :: exists x | x in xs :: f(x) == Accept(v)
    decreases |xs|
  {
    if xs != [] {
      var init := xs[..|xs| - 1];
      AcceptedFromInput(init, f);
      forall v | v in Accepted(xs, f) ensures exists x | x in xs :: f(x) == Accept(v) {
        if v in Accepted(init, f) {
          var x :| x in init && f(x) == Accept(v);
          assert x in xs;
        } else {
          assert f(xs[|xs| - 1]) == Accept(v);
        }
      }
    }
  }

  /** Every reported message comes from some entry of the input. */
  lemma {:induction false} RejectedFromInput<A, B>(xs: seq<A>, f: A -> Outcome<B>)
    ensures forall m | m in Rejected(xs, f) :: exists x | x in xs :: f(x) == Reject(m)
    decreases |xs|
  {
    if xs != [] {
      var init := xs[..|xs| - 1];
      RejectedFromInput(init, f);
      forall m | m in Rejected(xs, f) ensures exists x | x in xs :: f(x) == Reject(m) {
        if m in Rejected(init, f) {
          var x :| x in init && f(x) == Reject(m);
          assert x in xs;
        } else {
          assert f(xs[|xs| - 1]) == Reject(m);
        }
      }
    }
  }

  /** The loop the validator runs over a list setting: each entry is parsed
      in turn, accepted values are collected and each rejection appends its
      message to `msgs`. */
  method Collect<A, B>(xs: seq<A>, f: A -> Outcome<B>, msgs: seq<Msg>) returns (values: seq<B>, out: seq<Msg>)
    ensures values == Accepted(xs, f)
    ensures out == msgs + Rejected(xs, f)
  {
    values, out := [], msgs;
    var i := 0;
    while i < |xs|
      invariant 0 <= i <= |xs|
      invariant values == Accepted(xs[..i], f)
      invariant out == msgs + Rejected(xs[..i], f)
    {
      assert xs[..i + 1][..i] == xs[..i];
      match f(xs[i]) {
        case Accept(v) => values := values + [v];
        case Reject(m) => out := Append(out, m);
      }
      i := i + 1;
    }
    assert xs[..i] == xs;
  }

  /** When every rejection is a message of one check, so is everything the
      loop reports. */
  lemma RejectedRule<A, B>(xs: seq<A>, f: A -> Outcome<B>, rule: Rule)
    requires forall x | x in xs :: f(x).Reject? ==> RuleOf(f(x).msg) == rule
    ensures forall m | m in Rejected(xs, f) :: RuleOf(m) == rule
    ensures Filed(Rejected(xs, f), {rule})
  {
    RejectedFromInput(xs, f);
    FiledMembers(Rejected(xs, f), {rule});
  }

  /** An upstream URL: parsed, with an empty path defaulted to "/". */
  function UpstreamOutcome(env: Env, u: string): (r: Outcome<URL>)
    ensures r.Accept? <==> env.parseURL(u).Ok?
    ensures r.Accept? ==>
      r.value.path != "" && r.value.scheme == env.parseURL(u).value.scheme && r.value.host == env.parseURL(u).value.host
    ensures r.Accept? && env.parseURL(u).value.path != "" ==> r.value == env.parseURL(u).value
    ensures r.Accept? && env.parseURL(u).value.path == "" ==> r.value == env.parseURL(u).value.(path := "/")
    ensures r.Reject? ==> r.msg == UpstreamParseFailure(env.parseURL(u).error)
  {
    match env.parseURL(u)
    case Ok(url) => Accept(if url.path == "" then url.(path := "/") else url)
    case Err(e) => Reject(UpstreamParseFailure(e))
  }

  /** A skip-auth pattern: compiled, or reported with its own text. */
  function PatternOutcome(env: Env, p: string): (r: Outcome<Regex>)
    ensures r.Accept? <==> env.compileRegex(p).Ok?
    ensures r.Accept? ==> r.value == env.compileRegex(p).value
    ensures r.Reject? ==> r.msg == RegexCompileFailure(p, env.compileRegex(p).error)
  {
    match env.compileRegex(p)
    case Ok(re) => Accept(re)
    case Err(e) => Reject(RegexCompileFailure(p, e))
  }

  /** An extra JWT issuer: the issuer URI and the audience its tokens carry. */
  datatype JwtIssuer = JwtIssuer(issuerURI: string, audience: string)

  /** Splits an `issuer=audience` entry at its first '='; the audience keeps
      any later '='. An entry without '=' has no issuer. */
  function SplitIssuer(entry: string): (r: Option<JwtIssuer>)
    ensures r.Some? <==> '=' in entry
    ensures r.Some? ==> entry == r.value.issuerURI + "=" + r.value.audience && '=' !in r.value.issuerURI
  {
    var parts := Split(entry, '=');
    if |parts| < 2 then None
    else
      SplitAtFirst(entry, '=');
      Some(JwtIssuer(parts[0], Join(parts[1..], "=")))
  }

  /** The issuer is the text before the FIRST '=': any other way of writing
      the entry as issuer, '=', audience with no '=' in the issuer gives
      the same pair. */
  lemma SplitIssuerFirst(entry: string, issuer: string, audience: string)
    requires entry == issuer + "=" + audience && '=' !in issuer
    ensures SplitIssuer(entry) == Some(JwtIssuer(issuer, audience))
  {
    assert entry[|issuer|] == '=';
    var r := SplitIssuer(entry).value;
    CutUnique(entry, '=', r.issuerURI, r.audience, issuer, audience);
  }

  function IssuerOutcome(entry: string): (r: Outcome<JwtIssuer>)
    ensures r.Reject? <==> '=' !in entry
    ensures r.Reject? ==> r.msg == InvalidJwtIssuerSpec(entry)
    ensures r.Accept? ==> entry == r.value.issuerURI + "=" + r.value.audience && '=' !in r.value.issuerURI
  {
    match SplitIssuer(entry)
    case Some(j) => Accept(j)
    case None => Reject(InvalidJwtIssuerSpec(entry))
  }

  /** parseJwtIssuers: every entry in input order either yields an issuer
      or appends one message; existing messages are kept. */
  method ParseJwtIssuers(issuers: seq<string>, msgs: seq<Msg>) returns (parsed: seq<JwtIssuer>, out: seq<Msg>)
    ensures parsed == Accepted(issuers, IssuerOutcome)
    ensures out == msgs + Rejected(issuers, IssuerOutcome)
    ensures |parsed| + (|out| - |msgs|) == |issuers|
  {
    parsed, out := Collect(issuers, IssuerOutcome, msgs);
    AcceptedRejectedCount(issuers, IssuerOutcome);
  }

  /** Every parsed issuer is an entry cut at its first '=', and every
      message reports an entry without '='. */
  lemma IssuersFromEntries(issuers: seq<string>)
    ensures forall j | j in Accepted(issuers, IssuerOutcome) ::
      exists e | e in issuers :: e == j.issuerURI + "=" + j.audience && '=' !in j.issuerURI
    ensures forall m | m in Rejected(issuers, IssuerOutcome) ::
      exists e | e in issuers :: '=' !in e && m == InvalidJwtIssuerSpec(e)
  {
    AcceptedFromInput(issuers, IssuerOutcome);
    RejectedFromInput(issuers, IssuerOutcome);
  }

  /** The JWKS URL tried for an issuer that is not a discoverable provider:
      one trailing '/' of the issuer is dropped before the well-known path. */
  function JwksURL(issuerURI: string): (r: string)
    ensures |issuerURI| > 0 && issuerURI[|issuerURI| - 1] == '/' ==>
      r == issuerURI[..|issuerURI| - 1] + "/.well-known/jwks.json"
    ensures (|issuerURI| == 0 || issuerURI[|issuerURI| - 1] != '/') ==> r == issuerURI + "/.well-known/jwks.json"
  {
    var base := TrimSuffix(issuerURI, "/");
    base + "/.well-known/jwks.json"
  }

  /** newVerifierFromJwtIssuer: a verifier for the issuer's tokens with the
      audience as client id; discovery is tried first, then the issuer's
      JWKS URL. It fails only when both are impossible. */
  function NewVerifierFromJwtIssuer(env: Env, j: JwtIssuer): (r: Result<Verifier, string>)
    ensures r.Err? <==> env.newProvider(j.issuerURI).Err? && env.requestError(JwksURL(j.issuerURI)).Some?
    ensures r.Ok? ==> r.value.issuer == j.issuerURI && r.value.clientID == j.audience && !r.value.skipIssuerCheck
    ensures r.Ok? && r.value.KeySetVerifier? ==> env.newProvider(j.issuerURI).Err? && r.value.jwksURL == JwksURL(j.issuerURI)
    ensures env.newProvider(j.issuerURI).Ok? ==> r == Ok(DiscoveredVerifier(j.issuerURI, j.audience, false))
    ensures r.Ok? && env.newProvider(j.issuerURI).Err? ==>
      r.value == KeySetVerifier(j.issuerURI, JwksURL(j.issuerURI), j.audience, false)
    ensures r.Err? ==> r.error == env.requestError(JwksURL(j.issuerURI)).value
  {
    match env.newProvider(j.issuerURI)
    case Ok(_) => Ok(DiscoveredVerifier(j.issuerURI, j.audience, false))
    case Err(_) =>
      var jwks := JwksURL(j.issuerURI);
      match env.requestError(jwks)
      case Some(e) => Err(e)
      case None => Ok(KeySetVerifier(j.issuerURI, jwks, j.audience, false))
  }
}
