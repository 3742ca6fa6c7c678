/**
  The in-memory variant (main.go): the global urlMap from token to long URL, the
  create handler (shortenURLHandler) and the redirect handler (redirectHandler).
*/
module InMemoryShortener {
  import opened Wrappers
  import opened ShortToken
  import opened Http

  /**
    The only maps the server can reach from its empty start: every key is a
    generated token and every value a non-empty long URL.
  */
  predicate WellFormed(urlMap: map<string, string>) {
    forall t :: t in urlMap ==> IsToken(t) && urlMap[t] != ""
  }

  /**
    shortenURLHandler on the map urlMap, where draws are the six values rand.Intn
    returns if the handler reaches generateShortURL.
  */
  function Create(urlMap: map<string, string>, req: CreateRequest, draws: seq<Draw>): Outcome
    requires |draws| == TOKEN_LENGTH
  {
    match Admit(req)
    case Failure(rejection) => Outcome(urlMap, rejection)
    case Success(url) =>
      var shortUrl := Spell(draws);
      Outcome(urlMap[shortUrl := url.longUrl], Response(STATUS_OK, Json(UrlPair(url.longUrl, shortUrl))))
  }

  /**
    redirectHandler on the map urlMap, for a request (any method) whose path the
    router has already cleaned and sent to this handler.
  */
  function Resolve(urlMap: map<string, string>, path: string): Response {
    var shortUrl := TrimPrefix(path, "/");
    if shortUrl in urlMap then Response(STATUS_FOUND, Location(urlMap[shortUrl]))
    else Response(STATUS_NOT_FOUND, Text(NOT_FOUND_MESSAGE))
  }

  /** A method other than POST is refused with 405 and the map is left as it was. */
  lemma CreateRejectsNonPost(urlMap: map<string, string>, req: CreateRequest, draws: seq<Draw>)
    requires |draws| == TOKEN_LENGTH
    requires req.verb != "POST"
    ensures Create(urlMap, req, draws) == Outcome(urlMap, Response(STATUS_METHOD_NOT_ALLOWED, NoBody))
  {
  }

  /** A POST whose body does not decode is refused with 400 and an empty body; the map is unchanged. */
  lemma CreateRejectsMalformedBody(urlMap: map<string, string>, req: CreateRequest, draws: seq<Draw>)
    requires |draws| == TOKEN_LENGTH
    requires req.verb == "POST" && req.body.None?
    ensures Create(urlMap, req, draws) == Outcome(urlMap, Response(STATUS_BAD_REQUEST, NoBody))
  {
  }

  /** A POST with an empty long_url is refused with 400 and the message; the map is unchanged. */
  lemma CreateRejectsEmptyLongUrl(urlMap: map<string, string>, req: CreateRequest, draws: seq<Draw>)
    requires |draws| == TOKEN_LENGTH
    requires req.verb == "POST" && req.body.Some? && req.body.value.longUrl == ""
    ensures Create(urlMap, req, draws)
         == Outcome(urlMap, Response(STATUS_BAD_REQUEST, Text(EMPTY_LONG_URL_MESSAGE)))
  {
  }

  /**
    An admitted request stores its long URL under the generated token, changes no
    other key, and answers 200 with the pair (long_url, token).
  */
  lemma CreateStoresUnderGeneratedToken(urlMap: map<string, string>, req: CreateRequest, draws: seq<Draw>)
    requires |draws| == TOKEN_LENGTH
    requires Admitted(req)
    ensures var o, token, longUrl := Create(urlMap, req, draws), Spell(draws), req.body.value.longUrl;
      && IsToken(token)
      && o.response == Response(STATUS_OK, Json(UrlPair(longUrl, token)))
      && o.store.Keys == urlMap.Keys + {token}
      && o.store[token] == longUrl
      && forall k :: k in urlMap && k != token ==> o.store[k] == urlMap[k]
  {
    SpellIsToken(draws);
  }

  /** The status is 200 exactly when the request is admitted; any other status leaves the map unchanged. */
  lemma CreateOkIffAdmitted(urlMap: map<string, string>, req: CreateRequest, draws: seq<Draw>)
    requires |draws| == TOKEN_LENGTH
    ensures Create(urlMap, req, draws).response.status == STATUS_OK <==> Admitted(req)
    ensures Create(urlMap, req, draws).response.status != STATUS_OK ==> Create(urlMap, req, draws).store == urlMap
  {
  }

  /** A short_url sent by the client plays no part in this variant. */
  lemma CreateIgnoresClientShortUrl(urlMap: map<string, string>, verb: string, longUrl: string,
                                    shortUrl: string, shortUrl': string, draws: seq<Draw>)
    requires |draws| == TOKEN_LENGTH
    ensures Create(urlMap, CreateRequest(verb, Some(UrlPair(longUrl, shortUrl))), draws)
         == Create(urlMap, CreateRequest(verb, Some(UrlPair(longUrl, shortUrl'))), draws)
  {
  }

  /** Creating keeps the map well formed. */
  lemma CreatePreservesWellFormed(urlMap: map<string, string>, req: CreateRequest, draws: seq<Draw>)
    requires |draws| == TOKEN_LENGTH
    requires WellFormed(urlMap)
    ensures WellFormed(Create(urlMap, req, draws).store)
  {
    SpellIsToken(draws);
  }

  /**
    A stored token redirects with 302 to its long URL; any other path answers 404
    with "URL not found". Exactly one leading "/" is stripped.
  */
  lemma ResolveFoundIffStored(urlMap: map<string, string>, path: string)
    ensures var token := if "/" <= path then path[1..] else path;
      && (Resolve(urlMap, path).status == STATUS_FOUND <==> token in urlMap)
      && (token in urlMap ==> Resolve(urlMap, path) == Response(STATUS_FOUND, Location(urlMap[token])))
      && (token !in urlMap ==> Resolve(urlMap, path) == Response(STATUS_NOT_FOUND, Text(NOT_FOUND_MESSAGE)))
  {
  }

  /**
    On a map the server can reach, a path the handler receives that does not name
    a token after one "/" is stripped (the root "/", anything not six
    alphanumerics) is never found.
  */
  lemma ResolveNonTokenNotFound(urlMap: map<string, string>, path: string)
    requires WellFormed(urlMap)
    requires !IsToken(TrimPrefix(path, "/"))
    ensures Resolve(urlMap, path) == Response(STATUS_NOT_FOUND, Text(NOT_FOUND_MESSAGE))
  {
  }

  /**
    The handler strips only one "/": given "//" followed by a token, it looks up
    "/" followed by the token, which is never stored. (The router normally
    redirects such a path before it reaches the handler.)
  */
  lemma ResolveDoubleSlashNotFound(urlMap: map<string, string>, token: string)
    requires WellFormed(urlMap)
    requires IsToken(token)
    ensures Resolve(urlMap, "//" + token) == Response(STATUS_NOT_FOUND, Text(NOT_FOUND_MESSAGE))
  {
  }

  /**
    Round trip: after an admitted create, the path "/" followed by the short_url of
    the response redirects with 302 to exactly the long_url that was sent.
  */
  lemma CreateThenResolve(urlMap: map<string, string>, req: CreateRequest, draws: seq<Draw>)
    requires |draws| == TOKEN_LENGTH
    requires Admitted(req)
    ensures var o := Create(urlMap, req, draws);
      && o.response.body.Json?
      && Resolve(o.store, "/" + o.response.body.pair.shortUrl)
         == Response(STATUS_FOUND, Location(req.body.value.longUrl))
  {
  }

  /** The process-wide state of main.go: the global urlMap. */
  class Server {
    var urlMap: map<string, string>

    ghost predicate Valid()
      reads this
    {
      WellFormed(urlMap)
    }

    /** make(map[string]string): the server starts with no mapping. */
    constructor ()
      ensures Valid()
      ensures urlMap == map[]
    {
      urlMap := map[];
    }

    /**
      shortenURLHandler: rejects in source order, otherwise generates a token,
      stores urlMap[token] := long_url and answers 200 with the pair.
    */
    method ShortenUrl(req: CreateRequest, draws: seq<Draw>) returns (resp: Response)
      requires Valid()
      requires |draws| == TOKEN_LENGTH
      modifies this
      ensures Valid()
      ensures Outcome(urlMap, resp) == Create(old(urlMap), req, draws)
    {
      if req.verb != "POST" {
        return Response(STATUS_METHOD_NOT_ALLOWED, NoBody);
      }
      if req.body.None? {
        return Response(STATUS_BAD_REQUEST, NoBody);
      }
      var url := req.body.value;
      if url.longUrl == "" {
        return Response(STATUS_BAD_REQUEST, Text(EMPTY_LONG_URL_MESSAGE));
      }
      var shortUrl := GenerateShortUrl(draws);
      urlMap := urlMap[shortUrl := url.longUrl];
      resp := Response(STATUS_OK, Json(UrlPair(url.longUrl, shortUrl)));
    }

    /** redirectHandler on a routed path: strips one "/" and looks the token up; reads the map only. */
    method Redirect(path: string) returns (resp: Response)
      ensures resp == Resolve(urlMap, path)
    {
      var shortUrl := TrimPrefix(path, "/");
      if shortUrl !in urlMap {
        return Response(STATUS_NOT_FOUND, Text(NOT_FOUND_MESSAGE));
      }
      resp := Response(STATUS_FOUND, Location(urlMap[shortUrl]));
    }
  }
}
