/**
 * `CORSMiddleware`: the policy built by its constructor and the headers
 * `process_request` writes on the response. Origins are accepted by suffix,
 * not by equality.
 */
module Cors {
  import opened Wrappers

  const Wildcard := "*"
  const Origin := "Origin"
  const AllowOrigin := "Access-Control-Allow-Origin"
  const AllowCredentials := "Access-Control-Allow-Credentials"
  const ExposeHeaders := "Access-Control-Expose-Headers"
  const RequestMethod := "Access-Control-Request-Method"
  const RequestHeaders := "Access-Control-Request-Headers"
  const AllowMethods := "Access-Control-Allow-Methods"
  const AllowHeaders := "Access-Control-Allow-Headers"
  const MaxAge := "Access-Control-Max-Age"
  const Allow := "Allow"
  const OneDay := "86400"

  const OriginsError := "The wildcard string \"*\" may only be passed to allow_origins as a string literal, not inside an iterable."
  const CredentialsError := "The wildcard string \"*\" may only be passed to allow_credentials as a string literal, not inside an iterable."

  /** A constructor argument: one string, or an iterable of strings. */
  datatype Setting = Text(s: string) | Items(xs: seq<string>)

  datatype OriginRule = AnyOrigin | OriginSet(origins: set<string>)
  datatype CredentialRule = AnyCredentialed | CredentialSet(origins: set<string>)

  /** The middleware's three attributes after `__init__`. */
  datatype Config = Config(allowOrigins: OriginRule, exposeHeaders: Option<string>, allowCredentials: CredentialRule)

  /** An incoming request: its method and its headers. */
  datatype Request = Request(verb: string, headers: map<string, string>)

  /** `frozenset` of a setting; a single string becomes a one-element set. */
  function AsSet(x: Setting): (r: set<string>)
    ensures x.Text? ==> r == {x.s}
    ensures x.Items? ==> forall a :: a in r <==> a in x.xs
  {
    match x
    case Text(s) => {s}
    case Items(xs) => set a | a in xs
  }

  /** `sep.join(xs)`. */
  function Join(sep: string, xs: seq<string>): (r: string)
    ensures xs == [] ==> r == ""
    ensures |xs| == 1 ==> r == xs[0]
    ensures |xs| >= 2 ==> xs[0] + sep <= r
  {
    if xs == [] then ""
    else if |xs| == 1 then xs[0]
    else xs[0] + sep + Join(sep, xs[1..])
  }

  /** Joining one more item appends the separator and the item: `join` as a left-to-right accumulation. */
  lemma {:induction false} JoinAppend(sep: string, xs: seq<string>, x: string)
    requires xs != []
    ensures Join(sep, xs + [x]) == Join(sep, xs) + sep + x
  {
    if |xs| == 1 {
      assert xs + [x] == [xs[0], x];
    } else {
      assert (xs + [x])[1..] == xs[1..] + [x];
      JoinAppend(sep, xs[1..], x);
    }
  }

  /**
   * `__init__`: `'*'` stays the wildcard, anything else becomes a set and may
   * not contain `'*'`; `None` credentials are the empty set; a header
   * iterable is joined with `", "`.
   */
  function NewConfig(allowOrigins: Setting, exposeHeaders: Option<Setting>, allowCredentials: Option<Setting>): (r: Result<Config, string>)
    ensures allowOrigins != Text(Wildcard) && Wildcard in AsSet(allowOrigins) ==> r == Err(OriginsError)
    ensures r.Err? ==> r.error == OriginsError || r.error == CredentialsError
    ensures r.Ok? <==> (allowOrigins == Text(Wildcard) || Wildcard !in AsSet(allowOrigins))
                       && (allowCredentials.None? || allowCredentials.value == Text(Wildcard) || Wildcard !in AsSet(allowCredentials.value))
    ensures r.Ok? ==> (r.value.allowOrigins.AnyOrigin? <==> allowOrigins == Text(Wildcard))
    ensures r.Ok? && r.value.allowOrigins.OriginSet? ==> Wildcard !in r.value.allowOrigins.origins
    ensures r.Ok? && r.value.allowCredentials.CredentialSet? ==> Wildcard !in r.value.allowCredentials.origins
    ensures r.Ok? && allowCredentials.None? ==> r.value.allowCredentials == CredentialSet({})
    ensures r.Ok? ==> (r.value.exposeHeaders.Some? <==> exposeHeaders.Some?)
    ensures r.Ok? && allowOrigins != Text(Wildcard) ==> r.value.allowOrigins == OriginSet(AsSet(allowOrigins))
    ensures r.Ok? && allowCredentials == Some(Text(Wildcard)) ==> r.value.allowCredentials == AnyCredentialed
    ensures r.Ok? && allowCredentials.Some? && allowCredentials.value != Text(Wildcard)
            ==> r.value.allowCredentials == CredentialSet(AsSet(allowCredentials.value))
    ensures r.Ok? && exposeHeaders.Some? && exposeHeaders.value.Text? ==> r.value.exposeHeaders == Some(exposeHeaders.value.s)
    ensures r.Ok? && exposeHeaders.Some? && exposeHeaders.value.Items? ==> r.value.exposeHeaders == Some(Join(", ", exposeHeaders.value.xs))
  {
    var origins := if allowOrigins == Text(Wildcard) then AnyOrigin else OriginSet(AsSet(allowOrigins));
    if origins.OriginSet? && Wildcard in origins.origins then Err(OriginsError)
    else
      var expose := match exposeHeaders
        case None => None
        case Some(Text(s)) => Some(s)
        case Some(Items(xs)) => Some(Join(", ", xs));
      var credentials := match allowCredentials
        case None => CredentialSet({})
        case Some(c) => if c == Text(Wildcard) then AnyCredentialed else CredentialSet(AsSet(c));
      if credentials.CredentialSet? && Wildcard in credentials.origins then Err(CredentialsError)
      else Ok(Config(origins, expose, credentials))
  }

  /** `origin[-len(a):len(origin)]` for a of length n: a start before the front is clamped to 0, and `-0` is 0. */
  function SuffixSlice(origin: string, n: nat): string
  {
    if n == 0 || n > |origin| then origin else origin[|origin| - n..]
  }

  /** The comparison inside both loops of the middleware. */
  predicate SuffixMatch(entry: string, origin: string)
  {
    SuffixSlice(origin, |entry|) == entry
  }

  /** An entry matches the origin itself and every origin ending with it; an empty entry matches only the empty origin. */
  lemma SuffixMatchMeaning(entry: string, origin: string)
    ensures SuffixMatch(entry, origin) <==> entry == origin || (entry != "" && |entry| <= |origin| && origin[|origin| - |entry|..] == entry)
    ensures SuffixMatch("", origin) <==> origin == ""
  {
  }

  /** With `allowed = evil.com`, `notevil.com` is accepted; suffix matching does not respect label boundaries. */
  lemma SuffixMatchIgnoresLabels()
    ensures SuffixMatch("evil.com", "notevil.com")
    ensures !SuffixMatch("evil.com", "evil.co")
  {
    assert "notevil.com"[3..] == "evil.com";
  }

  predicate MatchesSome(entries: set<string>, origin: string)
  {
    exists a :: a in entries && SuffixMatch(a, origin)
  }

  /** The first test of `process_request`: the wildcard, or a listed suffix. */
  predicate OriginAllowed(cfg: Config, origin: string)
  {
    match cfg.allowOrigins
    case AnyOrigin => true
    case OriginSet(os) => MatchesSome(os, origin)
  }

  /** `allow_credentials == '*'` or `_is_credential_allowed`. */
  predicate Credentialed(cfg: Config, origin: string)
  {
    match cfg.allowCredentials
    case AnyCredentialed => true
    case CredentialSet(cs) => MatchesSome(cs, origin)
  }

  /** The header `key` is the same in both maps (present in both with one value, or absent from both). */
  predicate Same(before: map<string, string>, after: map<string, string>, key: string)
  {
    (key in before <==> key in after) && (key in before ==> after[key] == before[key])
  }

  predicate IsPreflight(req: Request)
  {
    req.verb == "OPTIONS" && RequestMethod in req.headers && req.headers[RequestMethod] != ""
  }

  /** The keys `process_request` may write or delete. */
  predicate Written(key: string)
  {
    key in {AllowOrigin, AllowCredentials, ExposeHeaders, Allow, AllowMethods, AllowHeaders, MaxAge}
  }

  /** The response headers after `process_request`, given those before it. */
  function Process(cfg: Config, req: Request, headers: map<string, string>): (r: map<string, string>)
    ensures Origin !in req.headers ==> r == headers
    ensures Origin in req.headers && !OriginAllowed(cfg, req.headers[Origin]) ==> r == headers
    ensures forall k :: !Written(k) ==> Same(headers, r, k)
    ensures Origin in req.headers && OriginAllowed(cfg, req.headers[Origin]) ==>
              var o := req.headers[Origin];
              && (AllowOrigin in headers ==> Same(headers, r, AllowOrigin) && Same(headers, r, AllowCredentials))
              && (AllowOrigin !in headers ==>
                    && AllowOrigin in r
                    && r[AllowOrigin] == (if cfg.allowOrigins.AnyOrigin? && !Credentialed(cfg, o) then Wildcard else o)
                    && (Credentialed(cfg, o) ==> AllowCredentials in r && r[AllowCredentials] == "true")
                    && (!Credentialed(cfg, o) ==> Same(headers, r, AllowCredentials)))
              && ((cfg.exposeHeaders.Some? && cfg.exposeHeaders.value != "")
                    ==> ExposeHeaders in r && r[ExposeHeaders] == cfg.exposeHeaders.value)
              && ((cfg.exposeHeaders.None? || cfg.exposeHeaders.value == "") ==> Same(headers, r, ExposeHeaders))
              && (IsPreflight(req) ==>
                    && Allow !in r
                    && AllowMethods in r && r[AllowMethods] == req.headers[RequestMethod]
                    && AllowHeaders in r
                    && r[AllowHeaders] == (if RequestHeaders in req.headers then req.headers[RequestHeaders] else Wildcard)
                    && MaxAge in r && r[MaxAge] == OneDay)
              && (!IsPreflight(req) ==> forall k :: k in {Allow, AllowMethods, AllowHeaders, MaxAge} ==> Same(headers, r, k))
  {
    if Origin !in req.headers then headers
    else
      var o := req.headers[Origin];
      if !OriginAllowed(cfg, o) then headers
      else
        var h1 :=
          if AllowOrigin in headers then headers
          else if Credentialed(cfg, o) then headers[AllowCredentials := "true"][AllowOrigin := o]
          else headers[AllowOrigin := if cfg.allowOrigins.AnyOrigin? then Wildcard else o];
        var h2 := if cfg.exposeHeaders.Some? && cfg.exposeHeaders.value != "" then h1[ExposeHeaders := cfg.exposeHeaders.value] else h1;
        if IsPreflight(req) then
          var allowHeaders := if RequestHeaders in req.headers then req.headers[RequestHeaders] else Wildcard;
          (h2 - {Allow})[AllowMethods := req.headers[RequestMethod]][AllowHeaders := allowHeaders][MaxAge := OneDay]
        else h2
  }

  /** A preflight answer always carries the four preflight headers; a second pass changes nothing more. */
  lemma ProcessIdempotent(cfg: Config, req: Request, headers: map<string, string>)
    ensures Process(cfg, req, Process(cfg, req, headers)) == Process(cfg, req, headers)
  {
  }

  /** A falcon response: its header map, updated in place. */
  class Response {
    var headers: map<string, string>

    constructor (headers: map<string, string>)
      ensures this.headers == headers
    {
      this.headers := headers;
    }

    method SetHeader(name: string, value: string)
      modifies this
      ensures headers == old(headers)[name := value]
    {
      headers := headers[name := value];
    }

    method DeleteHeader(name: string)
      modifies this
      ensures headers == old(headers) - {name}
    {
      headers := headers - {name};
    }
  }

  /** The loop of `_is_credential_allowed` (and of the origin test): stop at the first matching entry. */
  method MatchAny(entries: set<string>, origin: string) returns (isAllow: bool)
    ensures isAllow == MatchesSome(entries, origin)
  {
    isAllow := false;
    var rest := entries;
    while rest != {}
      invariant rest <= entries
      invariant forall a :: a in entries - rest ==> !SuffixMatch(a, origin)
      decreases |rest|
    {
      var a :| a in rest;
      if SuffixMatch(a, origin) {
        isAllow := true;
        break;
      }
      rest := rest - {a};
    }
  }

  /** `process_request`: the policy applied to the response in place. */
  method ProcessRequest(cfg: Config, req: Request, resp: Response)
    modifies resp
    ensures resp.headers == Process(cfg, req, old(resp.headers))
  {
    if Origin !in req.headers {
      return;
    }
    var o := req.headers[Origin];
    if cfg.allowOrigins.OriginSet? {
      var isAllow := MatchAny(cfg.allowOrigins.origins, o);
      if !isAllow {
        return;
      }
    }
    if AllowOrigin !in resp.headers {
      var setOrigin := if cfg.allowOrigins.AnyOrigin? then Wildcard else o;
      var credentialed := true;
      if cfg.allowCredentials.CredentialSet? {
        credentialed := MatchAny(cfg.allowCredentials.origins, o);
      }
      if credentialed {
        setOrigin := o;
        resp.SetHeader(AllowCredentials, "true");
      }
      resp.SetHeader(AllowOrigin, setOrigin);
    }
    if cfg.exposeHeaders.Some? && cfg.exposeHeaders.value != "" {
      resp.SetHeader(ExposeHeaders, cfg.exposeHeaders.value);
    }
    if req.verb == "OPTIONS" && RequestMethod in req.headers && req.headers[RequestMethod] != "" {
      resp.DeleteHeader(Allow);
      var allowHeaders := if RequestHeaders in req.headers then req.headers[RequestHeaders] else Wildcard;
      resp.SetHeader(AllowMethods, req.headers[RequestMethod]);
      resp.SetHeader(AllowHeaders, allowHeaders);
      resp.SetHeader(MaxAge, OneDay);
    }
  }
}
