/**
  The persistent variant (v2/main.go): the same two handlers over a Redis client.
  The client is a string-to-string store whose Set and Get may fail; whether a call
  fails is decided by the network, so it is given to each call as a parameter.
*/
module RedisShortener {
  import opened Wrappers
  import opened ShortToken
  import opened Http

  /** Why a store call failed: redis.Nil for a missing key, or any transport error. */
  datatype StoreError = Nil | Unavailable

  /** The Redis client the handlers capture, reduced to the keys it holds. */
  class RedisStore {
    var data: map<string, string>

    /** A client connected to a server already holding initial. */
    constructor (initial: map<string, string>)
      ensures data == initial
    {
      data := initial;
    }

    /**
      SET key value: on success the key holds value (last write wins) and no other
      key changes; a failed call leaves the store as it was.
    */
    method Set(key: string, value: string, fails: bool) returns (err: Option<StoreError>)
      modifies this
      ensures err.Some? <==> fails
      ensures data == if fails then old(data) else old(data)[key := value]
    {
      if fails {
        return Some(Unavailable);
      }
      data := data[key := value];
      err := None;
    }

    /** GET key: the stored value, redis.Nil for a missing key, or a transport error. */
    method Get(key: string, fails: bool) returns (r: Result<string, StoreError>)
      ensures r.Success? <==> !fails && key in data
      ensures r.Success? ==> r.value == data[key]
      ensures !fails && key !in data ==> r == Failure(Nil)
    {
      if fails {
        return Failure(Unavailable);
      }
      if key !in data {
        return Failure(Nil);
      }
      r := Success(data[key]);
    }
  }

  /** The token a create uses: the client's short_url when non-empty, the generated one otherwise. */
  function ChooseToken(url: UrlPair, draws: seq<Draw>): (shortUrl: string)
    requires |draws| == TOKEN_LENGTH
    ensures shortUrl != ""
    ensures url.shortUrl != "" ==> shortUrl == url.shortUrl
    ensures url.shortUrl == "" ==> IsToken(shortUrl) && shortUrl == Spell(draws)
  {
    SpellIsToken(draws);
    if url.shortUrl != "" then url.shortUrl else Spell(draws)
  }

  /**
    shortenURLHandler on a store holding data: draws are the six values rand.Intn
    returns in generateShortURL, setFails whether the SET call fails.
  */
  function Create(data: map<string, string>, req: CreateRequest, draws: seq<Draw>, setFails: bool): Outcome
    requires |draws| == TOKEN_LENGTH
  {
    match Admit(req)
    case Failure(rejection) => Outcome(data, rejection)
    case Success(url) =>
      var shortUrl := ChooseToken(url, draws);
      if setFails then Outcome(data, Response(STATUS_INTERNAL_SERVER_ERROR, NoBody))
      else Outcome(data[shortUrl := url.longUrl], Response(STATUS_OK, Json(UrlPair(url.longUrl, shortUrl))))
  }

  /**
    redirectHandler on a store holding data, for a request whose path the router has
    already cleaned and sent to this handler; getFails whether GET fails.
  */
  function Resolve(data: map<string, string>, path: string, getFails: bool): Response {
    var shortUrl := TrimPrefix(path, "/");
    if getFails || shortUrl !in data then Response(STATUS_NOT_FOUND, Text(NOT_FOUND_MESSAGE))
    else Response(STATUS_FOUND, Location(data[shortUrl]))
  }

  /** A method other than POST is refused with 405 before any store call. */
  lemma CreateRejectsNonPost(data: map<string, string>, req: CreateRequest, draws: seq<Draw>, setFails: bool)
    requires |draws| == TOKEN_LENGTH
    requires req.verb != "POST"
    ensures Create(data, req, draws, setFails) == Outcome(data, Response(STATUS_METHOD_NOT_ALLOWED, NoBody))
  {
  }

  /** A POST whose body does not decode is refused with 400 before any store call. */
  lemma CreateRejectsMalformedBody(data: map<string, string>, req: CreateRequest, draws: seq<Draw>, setFails: bool)
    requires |draws| == TOKEN_LENGTH
    requires req.verb == "POST" && req.body.None?
    ensures Create(data, req, draws, setFails) == Outcome(data, Response(STATUS_BAD_REQUEST, NoBody))
  {
  }

  /** A POST with an empty long_url is refused with 400 and the message before any store call. */
  lemma CreateRejectsEmptyLongUrl(data: map<string, string>, req: CreateRequest, draws: seq<Draw>, setFails: bool)
    requires |draws| == TOKEN_LENGTH
    requires req.verb == "POST" && req.body.Some? && req.body.value.longUrl == ""
    ensures Create(data, req, draws, setFails)
         == Outcome(data, Response(STATUS_BAD_REQUEST, Text(EMPTY_LONG_URL_MESSAGE)))
  {
  }

  /** A failed SET answers 500, never 200, and the store keeps what it held. */
  lemma CreateSetFailure(data: map<string, string>, req: CreateRequest, draws: seq<Draw>)
    requires |draws| == TOKEN_LENGTH
    requires Admitted(req)
    ensures Create(data, req, draws, true) == Outcome(data, Response(STATUS_INTERNAL_SERVER_ERROR, NoBody))
  {
  }

  /**
    An admitted request whose SET succeeds stores long_url under the chosen token,
    changes no other key, and answers 200 with the pair (long_url, chosen token).
  */
  lemma CreateStoresUnderChosenToken(data: map<string, string>, req: CreateRequest, draws: seq<Draw>)
    requires |draws| == TOKEN_LENGTH
    requires Admitted(req)
    ensures var o, url := Create(data, req, draws, false), req.body.value;
      var shortUrl := if url.shortUrl != "" then url.shortUrl else Spell(draws);
      && o.response == Response(STATUS_OK, Json(UrlPair(url.longUrl, shortUrl)))
      && o.store.Keys == data.Keys + {shortUrl}
      && o.store[shortUrl] == url.longUrl
      && forall k :: k in data && k != shortUrl ==> o.store[k] == data[k]
  {
  }

  /** The status is 200 exactly when the request is admitted and SET succeeds; otherwise nothing is written. */
  lemma CreateOkIff(data: map<string, string>, req: CreateRequest, draws: seq<Draw>, setFails: bool)
    requires |draws| == TOKEN_LENGTH
    ensures var o := Create(data, req, draws, setFails);
      && (o.response.status == STATUS_OK <==> Admitted(req) && !setFails)
      && (o.response.status != STATUS_OK ==> o.store == data)
  {
  }

  /** A create never writes the empty key: what "" holds before, it holds after. */
  lemma CreateNeverWritesEmptyKey(data: map<string, string>, req: CreateRequest, draws: seq<Draw>, setFails: bool)
    requires |draws| == TOKEN_LENGTH
    ensures var store := Create(data, req, draws, setFails).store;
      && ("" in store <==> "" in data)
      && ("" in data ==> store[""] == data[""])
  {
  }

  /**
    Last write wins: two creates for the same client short_url leave it mapped to
    the second long_url, and a later resolve redirects there.
  */
  lemma OverwriteLastWriteWins(data: map<string, string>, first: CreateRequest, second: CreateRequest,
                               draws: seq<Draw>, draws': seq<Draw>)
    requires |draws| == TOKEN_LENGTH && |draws'| == TOKEN_LENGTH
    requires Admitted(first) && Admitted(second)
    requires first.body.value.shortUrl == second.body.value.shortUrl != ""
    ensures var token := second.body.value.shortUrl;
      var after := Create(Create(data, first, draws, false).store, second, draws', false).store;
      && after[token] == second.body.value.longUrl
      && Resolve(after, "/" + token, false) == Response(STATUS_FOUND, Location(second.body.value.longUrl))
  {
  }

  /**
    Any failing GET, a missing key or a transport error, answers 404 with
    "URL not found"; a successful one redirects with 302 to the stored URL.
  */
  lemma ResolveFoundIffStored(data: map<string, string>, path: string, getFails: bool)
    ensures var token := if "/" <= path then path[1..] else path;
      && (Resolve(data, path, getFails).status == STATUS_FOUND <==> !getFails && token in data)
      && (!getFails && token in data ==> Resolve(data, path, getFails) == Response(STATUS_FOUND, Location(data[token])))
      && (getFails || token !in data ==> Resolve(data, path, getFails) == Response(STATUS_NOT_FOUND, Text(NOT_FOUND_MESSAGE)))
  {
  }

  /**
    Round trip: after a successful create, the redirect handler given the path "/"
    followed by the short_url of the response redirects with 302 to exactly the
    long_url that was sent. A client short_url the router would not deliver as
    that path ("shorten", a leading "/", "//" inside it, a "." or ".." element) is
    outside it.
  */
  lemma CreateThenResolve(data: map<string, string>, req: CreateRequest, draws: seq<Draw>)
    requires |draws| == TOKEN_LENGTH
    requires Admitted(req)
    ensures var o := Create(data, req, draws, false);
      && o.response.body.Json?
      && Resolve(o.store, "/" + o.response.body.pair.shortUrl, false)
         == Response(STATUS_FOUND, Location(req.body.value.longUrl))
  {
  }

  /** The two handlers, registered with the one client they share. */
  class Server {
    const rdb: RedisStore

    constructor (rdb: RedisStore)
      ensures this.rdb == rdb
    {
      this.rdb := rdb;
    }

    /**
      shortenURLHandler: rejects in source order, otherwise generates a token, lets
      a non-empty client short_url replace it, SETs it and answers 200 with the pair,
      or 500 when SET fails.
    */
    method ShortenUrl(req: CreateRequest, draws: seq<Draw>, setFails: bool) returns (resp: Response)
      requires |draws| == TOKEN_LENGTH
      modifies rdb
      ensures Outcome(rdb.data, resp) == Create(old(rdb.data), req, draws, setFails)
    {
      if req.verb != "POST" {
        return Response(STATUS_METHOD_NOT_ALLOWED, NoBody);
      }
      if req.body.None? {
        return Response(STATUS_BAD_REQUEST, NoBody);
      }
      var url := req.body.value;
      if url.longUrl == "" {
        return Response(STATUS_BAD_REQUEST, Text(EMPTY_LONG_URL_MESSAGE));
      }
      var shortUrl := GenerateShortUrl(draws);
      if url.shortUrl != "" {
        shortUrl := url.shortUrl;
      }
      var err := rdb.Set(shortUrl, url.longUrl, setFails);
      if err.Some? {
        return Response(STATUS_INTERNAL_SERVER_ERROR, NoBody);
      }
      resp := Response(STATUS_OK, Json(UrlPair(url.longUrl, shortUrl)));
    }

    /** redirectHandler on a routed path: strips one "/" and GETs the token; never writes. */
    method Redirect(path: string, getFails: bool) returns (resp: Response)
      ensures resp == Resolve(rdb.data, path, getFails)
    {
      var shortUrl := TrimPrefix(path, "/");
      var longUrl := rdb.Get(shortUrl, getFails);
      if longUrl.Failure? {
        return Response(STATUS_NOT_FOUND, Text(NOT_FOUND_MESSAGE));
      }
      resp := Response(STATUS_FOUND, Location(longUrl.value));
    }
  }
}
