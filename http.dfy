/**
  The request and response shapes both server variants share, with the transport
  abstracted away: a create request arrives already JSON-decoded, a response is a
  status code and what the handler writes as its body.
*/
module Http {
  import opened Wrappers

  const STATUS_OK := 200
  const STATUS_FOUND := 302
  const STATUS_BAD_REQUEST := 400
  const STATUS_NOT_FOUND := 404
  const STATUS_METHOD_NOT_ALLOWED := 405
  const STATUS_INTERNAL_SERVER_ERROR := 500

  const EMPTY_LONG_URL_MESSAGE := "LongURL cannot be empty"
  const NOT_FOUND_MESSAGE := "URL not found"

  /** The URL record {long_url, short_url}; a field missing from the JSON decodes as "". */
  datatype UrlPair = UrlPair(longUrl: string, shortUrl: string)

  /** A request to /shorten: its HTTP method and its body, None when the body does not decode. */
  datatype CreateRequest = CreateRequest(verb: string, body: Option<UrlPair>)

  /** What a handler writes after the status line. */
  datatype Body =
    | NoBody
    | Text(text: string)       // fmt.Fprintf of a plain message
    | Json(pair: UrlPair)      // the marshalled URL record
    | Location(url: string)    // http.Redirect to url

  datatype Response = Response(status: int, body: Body)

  /** A handler's effect: the store it leaves behind and the response it writes. */
  datatype Outcome = Outcome(store: map<string, string>, response: Response)

  /** strings.TrimPrefix: s without prefix when s starts with it, s itself otherwise. */
  function TrimPrefix(s: string, prefix: string): (r: string)
    ensures prefix <= s ==> prefix + r == s
    ensures !(prefix <= s) ==> r == s
  {
    if prefix <= s then s[|prefix|..] else s
  }

  /** Trimming a prefix from a string built with it gives the rest back. */
  lemma TrimPrefixOfJoin(prefix: string, rest: string)
    ensures TrimPrefix(prefix + rest, prefix) == rest
  {
  }

  /** Only one leading "/" is removed: "//x" resolves as "/x". */
  lemma TrimSlashOnce(rest: string)
    ensures TrimPrefix("//" + rest, "/") == "/" + rest
  {
  }

  /** A request Admit lets through. */
  predicate Admitted(req: CreateRequest) {
    req.verb == "POST" && req.body.Some? && req.body.value.longUrl != ""
  }

  /**
    The checks both create handlers make, in source order, before they touch the
    store: the method must be POST, the body must decode, and long_url must not be
    empty. Success carries the decoded record; Failure carries the rejection.
  */
  function Admit(req: CreateRequest): (r: Result<UrlPair, Response>)
    ensures r.Success? <==> Admitted(req)
    ensures r.Success? ==> r.value == req.body.value
    ensures r.Failure? ==> r.error.status in {STATUS_METHOD_NOT_ALLOWED, STATUS_BAD_REQUEST}
  {
    if req.verb != "POST" then
      Failure(Response(STATUS_METHOD_NOT_ALLOWED, NoBody))
    else if req.body.None? then
      Failure(Response(STATUS_BAD_REQUEST, NoBody))
    else if req.body.value.longUrl == "" then
      Failure(Response(STATUS_BAD_REQUEST, Text(EMPTY_LONG_URL_MESSAGE)))
    else
      Success(req.body.value)
  }
}
