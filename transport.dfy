/**
 * The HTTP transport of the articles service (apps/articles/articles/transport.go): routing
 * of the two GET routes, the request decoders with their lenient boolean parsing, and the
 * success and error encoders writing to a response writer. The whole exchange for one
 * request is `Serve`, specified by the function `Respond`.
 */
module Transport {
  import opened Wrappers
  import opened Models
  import opened Errors
  import opened Spans
  import opened ArticleService
  import opened Endpoints

  /** An inbound request: method (verb), decoded URL path and the parsed query string. */
  datatype HttpRequest = HttpRequest(verb: string, path: string, query: map<string, seq<string>>)

  // ---- routing ----

  const ArticlesPrefix: string := "/articles/v1/"

  /** Which registered route a request reaches, with the path variables of that route. */
  datatype Route = GetManyRoute | GetOneRoute(vars: map<string, string>) | WrongMethod | NoRoute

  /** The `{articleID}` segment of "/articles/v1/{articleID}/": at least one character, no slash. */
  function ArticleSegment(path: string): (seg: Option<string>)
    ensures seg.Some? ==> path == ArticlesPrefix + seg.value + "/"
    ensures seg.Some? ==> seg.value != [] && '/' !in seg.value
  {
    if |path| > |ArticlesPrefix| + 1 && path[..|ArticlesPrefix|] == ArticlesPrefix
       && path[|path| - 1] == '/' && '/' !in path[|ArticlesPrefix|..|path| - 1]
    then Some(path[|ArticlesPrefix|..|path| - 1])
    else None
  }

  /** The router: the listing route first, then the single-article route; both accept GET only. */
  function MatchRoute(verb: string, path: string): (r: Route)
    ensures r == WrongMethod ==> verb != "GET"
    ensures r == GetManyRoute ==> path == ArticlesPrefix
    ensures r.GetOneRoute? ==> r.vars.Keys == {"articleID"} && path == ArticlesPrefix + r.vars["articleID"] + "/"
  {
    if path == ArticlesPrefix then
      (if verb == "GET" then GetManyRoute else WrongMethod)
    else match ArticleSegment(path)
      case Some(id) => if verb == "GET" then GetOneRoute(map["articleID" := id]) else WrongMethod
      case None => NoRoute
  }

  /** Every article path reaches the single-article route with its id, and only with GET. */
  lemma RouteOfArticlePath(verb: string, id: ArticleID)
    requires id != [] && '/' !in id
    ensures MatchRoute(verb, ArticlesPrefix + id + "/") ==
              if verb == "GET" then GetOneRoute(map["articleID" := id]) else WrongMethod
  {
    var path := ArticlesPrefix + id + "/";
    assert path[..|ArticlesPrefix|] == ArticlesPrefix;
    assert path[|ArticlesPrefix|..|path| - 1] == id;
    assert path != ArticlesPrefix;
  }

  /** Conversely, the single-article route is reached only by GET on such a path. */
  lemma GetOneRouteShape(verb: string, path: string, vars: map<string, string>)
    requires MatchRoute(verb, path) == GetOneRoute(vars)
    ensures verb == "GET" && "articleID" in vars
    ensures vars["articleID"] != [] && '/' !in vars["articleID"]
    ensures path == ArticlesPrefix + vars["articleID"] + "/"
  {
  }

  /** The listing route is reached exactly by GET on the listing path. */
  lemma GetManyRouteShape(verb: string, path: string)
    ensures MatchRoute(verb, path) == GetManyRoute <==> verb == "GET" && path == ArticlesPrefix
  {
  }

  /** A path that is neither route's is not found, whatever the method. */
  lemma NoRouteShape(verb: string, path: string)
    ensures MatchRoute(verb, path) == NoRoute <==> path != ArticlesPrefix && ArticleSegment(path).None?
  {
  }

  // ---- decoding ----

  /** url.Values.Get: the first value for `key`, or "" when there is none. */
  function QueryGet(query: map<string, seq<string>>, key: string): (v: string)
    ensures key !in query || query[key] == [] ==> v == ""
    ensures key in query && query[key] != [] ==> v == query[key][0]
  {
    if key in query && |query[key]| > 0 then query[key][0] else ""
  }

  const TrueLiterals: set<string> := {"1", "t", "T", "TRUE", "true", "True"}
  const FalseLiterals: set<string> := {"0", "f", "F", "FALSE", "false", "False"}

  /** strconv.ParseBool: the accepted spellings of true and false; anything else is an error. */
  function ParseBool(str: string): (r: Option<bool>)
    ensures r == Some(true) <==> str in TrueLiterals
    ensures r == Some(false) <==> str in FalseLiterals
    ensures r.None? <==> str !in TrueLiterals + FalseLiterals
  {
    if str in TrueLiterals then Some(true)
    else if str in FalseLiterals then Some(false)
    else None
  }

  const SuggestedParam: string := "with_suggested"

  /** The `with_suggested` flag: a parse error is dropped and reads as false. */
  function WithSuggested(query: map<string, seq<string>>): (b: bool)
    ensures b <==> QueryGet(query, SuggestedParam) in TrueLiterals
  {
    match ParseBool(QueryGet(query, SuggestedParam))
    case Some(v) => v
    case None => false
  }

  /** An absent flag, an empty one or an unparsable one is false: parsing alone never fails a request. */
  lemma WithSuggestedDefault(query: map<string, seq<string>>)
    requires SuggestedParam !in query || query[SuggestedParam] == [] ||
             query[SuggestedParam][0] !in TrueLiterals + FalseLiterals
    ensures !WithSuggested(query)
  {
  }

  const MissingIdMessage: string := "articleID is missing in parameters"

  /** decodeGetArticleRequest, inside its span. */
  function DecodeGetArticleRequest(vars: map<string, string>, query: map<string, seq<string>>): (r: Traced<Result<GetArticleRequest>>)
    ensures r.spans == Bracket("decodeGetArticleRequest", [])
    ensures r.value.Err? <==> "articleID" !in vars
    ensures r.value.Err? ==> r.value.error == Failure(MissingIdMessage)
    ensures r.value.Ok? ==> r.value.value == GetArticleRequest(vars["articleID"], WithSuggested(query))
  {
    var value := if "articleID" in vars
      then Ok(GetArticleRequest(vars["articleID"], WithSuggested(query)))
      else Err(Failure(MissingIdMessage));
    Traced(value, Bracket("decodeGetArticleRequest", []))
  }

  /** decodeGetArticlesRequest, inside its span; it never fails. */
  function DecodeGetArticlesRequest(query: map<string, seq<string>>): (r: Traced<GetArticlesRequest>)
    ensures r.spans == Bracket("decodeGetArticlesRequest", [])
    ensures r.value.includeSuggested <==> QueryGet(query, SuggestedParam) in TrueLiterals
  {
    Traced(GetArticlesRequest(WithSuggested(query)), Bracket("decodeGetArticlesRequest", []))
  }

  // ---- encoding ----

  const JsonContentType: string := "application/json; charset=utf-8"
  const TextContentType: string := "text/plain; charset=utf-8"
  const NotFoundText: string := "404 page not found\n"

  /** What is written to a response body: a JSON value encoded by json.Encoder, or plain text. */
  datatype Chunk = JsonChunk(json: Json) | TextChunk(text: string)

  /** The response as the client receives it: status, the headers sent with it, the body. */
  datatype HttpReply = HttpReply(status: int, header: map<string, string>, body: seq<Chunk>)

  /** The success envelope; an empty listing is a nil slice in the service and encodes as null. */
  function EncodeEnvelope(resp: Response): (j: Json)
    ensures resp.OneArticle? ==> j == JObj(map["article" := EncodeArticle(resp.article)])
    ensures resp.ManyArticles? && resp.articles == [] ==> j == JObj(map["articles" := JNull])
    ensures resp.ManyArticles? && resp.articles != [] ==>
              j.JObj? && j.members.Keys == {"articles"} && j.members["articles"].JArr? &&
              |j.members["articles"].items| == |resp.articles| &&
              forall i :: 0 <= i < |resp.articles| ==>
                j.members["articles"].items[i] == EncodeArticle(resp.articles[i])
  {
    match resp
    case OneArticle(a) => JObj(map["article" := EncodeArticle(a)])
    case ManyArticles(arts) =>
      JObj(map["articles" :=
        if arts == [] then JNull
        else JArr(seq(|arts|, i requires 0 <= i < |arts| => EncodeArticle(arts[i])))])
  }

  /** A client reads the single article back from the envelope unchanged. */
  lemma OneEnvelopeRoundTrip(a: Article)
    ensures DecodeArticle(EncodeEnvelope(OneArticle(a)).members["article"]) == Some(a)
  {
    DecodeEncodeArticle(a);
  }

  /** ... and every listed article, in order. */
  lemma ManyEnvelopeRoundTrip(arts: seq<Article>, i: nat)
    requires i < |arts|
    ensures EncodeEnvelope(ManyArticles(arts)).members["articles"].JArr?
    ensures DecodeArticle(EncodeEnvelope(ManyArticles(arts)).members["articles"].items[i]) == Some(arts[i])
  {
    DecodeEncodeArticle(arts[i]);
  }

  /** encodeError's status: 404 for NotFound, 200 for every other error. */
  function ErrorStatus(e: Error): (code: int)
    ensures code == 404 <==> e.NotFound?
    ensures code == 200 <==> !e.NotFound?
  {
    match e
    case NotFound(_) => 404
    case Failure(_) => 200
  }

  /** The error encoder's body: an object whose only member "error" is the error's message. */
  function ErrorBody(e: Error): (j: Json)
    ensures j.JObj? && j.members.Keys == {"error"} && j.members["error"] == JStr(Message(e))
  {
    JObj(map["error" := JStr(Message(e))])
  }

  /** A client recovers the missing id from a NotFound error body. */
  lemma ErrorBodyNamesMissingId(id: ArticleID)
    ensures ErrorBody(NotFound(id)).members["error"].JStr?
    ensures IdOfNotFoundMessage(ErrorBody(NotFound(id)).members["error"].s) == Some(id)
  {
    NotFoundMessageRoundTrip(id);
  }

  /** What encodeResponse produces on a fresh writer. */
  function SuccessReply(resp: Response): HttpReply
  {
    HttpReply(200, map["Content-Type" := JsonContentType], [JsonChunk(EncodeEnvelope(resp))])
  }

  /** What encodeError produces on a fresh writer. */
  function ErrorReply(e: Error): HttpReply
  {
    HttpReply(ErrorStatus(e), map["Content-Type" := JsonContentType], [JsonChunk(ErrorBody(e))])
  }

  /** What the router's not-found handler (http.NotFound) produces. */
  function NotFoundReply(): HttpReply
  {
    HttpReply(404, map["Content-Type" := TextContentType, "X-Content-Type-Options" := "nosniff"],
              [TextChunk(NotFoundText)])
  }

  /** What the router's method-not-allowed handler produces: the status alone. */
  function MethodNotAllowedReply(): HttpReply
  {
    HttpReply(405, map[], [])
  }

  /**
   * An http.ResponseWriter: headers set so far, whether and with which status and headers the
   * header was written, and the body written so far.
   */
  class ResponseWriter {
    var header: map<string, string>
    var wroteHeader: bool
    var status: int
    var sentHeader: map<string, string>
    var written: seq<Chunk>

    /** Nothing has been set or written yet. */
    predicate Pristine()
      reads this
    {
      header == map[] && !wroteHeader && sentHeader == map[] && written == []
    }

    /** The response as the client sees it. */
    function Reply(): HttpReply
      reads this
    {
      HttpReply(status, sentHeader, written)
    }

    constructor()
      ensures Pristine()
    {
      header := map[];
      wroteHeader := false;
      status := 0;
      sentHeader := map[];
      written := [];
    }

    /** Header().Set: only the pending header changes; once sent, headers stay as they were. */
    method SetHeader(key: string, value: string)
      modifies this
      ensures header == old(header)[key := value]
      ensures wroteHeader == old(wroteHeader) && status == old(status)
      ensures sentHeader == old(sentHeader) && written == old(written)
    {
      header := header[key := value];
    }

    /** WriteHeader: the first call sends the status and the header; later calls are ignored. */
    method WriteHeader(code: int)
      modifies this
      ensures wroteHeader && header == old(header) && written == old(written)
      ensures old(wroteHeader) ==> status == old(status) && sentHeader == old(sentHeader)
      ensures !old(wroteHeader) ==> status == code && sentHeader == old(header)
    {
      if !wroteHeader {
        status := code;
        sentHeader := header;
        wroteHeader := true;
      }
    }

    /** Write: sends status 200 first if no status was written, then appends to the body. */
    method Write(c: Chunk)
      modifies this
      ensures wroteHeader && header == old(header) && written == old(written) + [c]
      ensures old(wroteHeader) ==> status == old(status) && sentHeader == old(sentHeader)
      ensures !old(wroteHeader) ==> status == 200 && sentHeader == old(header)
    {
      WriteHeader(200);
      written := written + [c];
    }
  }

  /** encodeResponse: sets the JSON content type and writes the envelope. */
  method EncodeResponse(w: ResponseWriter, resp: Response) returns (spans: seq<SpanEvent>)
    modifies w
    ensures w.header == old(w.header)["Content-Type" := JsonContentType] && w.wroteHeader
    ensures w.written == old(w.written) + [JsonChunk(EncodeEnvelope(resp))]
    ensures old(w.wroteHeader) ==> w.status == old(w.status) && w.sentHeader == old(w.sentHeader)
    ensures !old(w.wroteHeader) ==> w.status == 200 && w.sentHeader == w.header
    ensures spans == Bracket("encodeResponse", [])
  {
    w.SetHeader("Content-Type", JsonContentType);
    w.Write(JsonChunk(EncodeEnvelope(resp)));
    spans := Bracket("encodeResponse", []);
  }

  /** encodeError: sets the JSON content type and the error's status, then writes the error body. */
  method EncodeError(w: ResponseWriter, e: Error) returns (spans: seq<SpanEvent>)
    modifies w
    ensures w.header == old(w.header)["Content-Type" := JsonContentType] && w.wroteHeader
    ensures w.written == old(w.written) + [JsonChunk(ErrorBody(e))]
    ensures old(w.wroteHeader) ==> w.status == old(w.status) && w.sentHeader == old(w.sentHeader)
    ensures !old(w.wroteHeader) ==> w.status == ErrorStatus(e) && w.sentHeader == w.header
    ensures spans == Bracket("encodeError", [])
  {
    w.SetHeader("Content-Type", JsonContentType);
    w.WriteHeader(ErrorStatus(e));
    w.Write(JsonChunk(ErrorBody(e)));
    spans := Bracket("encodeError", []);
  }

  // ---- the whole exchange ----

  /** The endpoint's outcome encoded: the success encoder, or the error encoder on an error. */
  function Encoded(r: Result<Response>): (out: Traced<HttpReply>)
    ensures out.value.status in {200, 404}
    ensures out.value.status == 404 <==> r.Err? && r.error.NotFound?
  {
    match r
    case Ok(resp) => Traced(SuccessReply(resp), Bracket("encodeResponse", []))
    case Err(e) => Traced(ErrorReply(e), Bracket("encodeError", []))
  }

  /** The listing route: decode, endpoint and encode, when the service lists `listing`. */
  function RespondMany(s: Service, query: map<string, seq<string>>, listing: seq<Article>): (r: Traced<HttpReply>)
    ensures r.value.status == 200 || r.value.status == 404
    ensures r.value.header == map["Content-Type" := JsonContentType] && |r.value.body| == 1
  {
    var d := DecodeGetArticlesRequest(query);
    var out := Encoded(GetMany(s, d.value, listing));
    Traced(out.value, d.spans + GetManySpans(s, d.value, listing) + out.spans)
  }

  /** The single-article route: decode, endpoint and encode; a decode error goes to the error encoder. */
  function RespondOne(s: Service, vars: map<string, string>, query: map<string, seq<string>>): (r: Traced<HttpReply>)
    ensures r.value.status == 200 || r.value.status == 404
    ensures r.value.header == map["Content-Type" := JsonContentType] && |r.value.body| == 1
    ensures "articleID" !in vars ==> r.value.status == 200 && r.value == ErrorReply(Failure(MissingIdMessage))
  {
    var d := DecodeGetArticleRequest(vars, query);
    match d.value
    case Err(e) =>
      var out := Encoded(Err(e));
      Traced(out.value, d.spans + out.spans)
    case Ok(one) =>
      var out := Encoded(GetOne(s, one));
      Traced(out.value, d.spans + GetOneSpans(s, one) + out.spans)
  }

  /** The reply to `req` and the span events of handling it, when the service lists `listing`. */
  function Respond(s: Service, req: HttpRequest, listing: seq<Article>): (r: Traced<HttpReply>)
    ensures r.value.status == 200 || r.value.status == 404 || r.value.status == 405
    ensures r.value.status == 405 <==> MatchRoute(req.verb, req.path) == WrongMethod
  {
    match MatchRoute(req.verb, req.path)
    case NoRoute => Traced(NotFoundReply(), [])
    case WrongMethod => Traced(MethodNotAllowedReply(), [])
    case GetManyRoute => RespondMany(s, req.query, listing)
    case GetOneRoute(vars) => RespondOne(s, vars, req.query)
  }

  /** Some listing of every store exists. */
  ghost function ListingOf(m: map<ArticleID, Article>): (l: seq<Article>)
    ensures IsListing(m, l)
    decreases |m|
  {
    if m == map[] then []
    else
      var k := SomeKey(m);
      RemoveKeySize(m, k);
      var l := [m[k]] + ListingOf(m - {k});
      assert multiset(l) == multiset{m[k]} + multiset(ListingOf(m - {k}));
      l
  }

  /** Encodes an endpoint outcome on a fresh writer. */
  method Encode(w: ResponseWriter, r: Result<Response>) returns (spans: seq<SpanEvent>)
    requires w.Pristine()
    modifies w
    ensures w.Reply() == Encoded(r).value && spans == Encoded(r).spans
  {
    if r.Ok? {
      spans := EncodeResponse(w, r.value);
    } else {
      spans := EncodeError(w, r.error);
    }
  }

  method ServeMany(s: Service, query: map<string, seq<string>>, w: ResponseWriter) returns (spans: seq<SpanEvent>)
    requires w.Pristine()
    modifies w
    ensures exists listing :: IsListing(s.articles, listing) &&
              w.Reply() == RespondMany(s, query, listing).value && spans == RespondMany(s, query, listing).spans
  {
    var d := DecodeGetArticlesRequest(query);
    var r, endpointSpans := GetArticlesEndpoint(s, d.value);
    ghost var l :| IsListing(s.articles, l) && r == GetMany(s, d.value, l) && endpointSpans == GetManySpans(s, d.value, l);
    var encodeSpans := Encode(w, r);
    spans := d.spans + endpointSpans + encodeSpans;
    assert w.Reply() == RespondMany(s, query, l).value && spans == RespondMany(s, query, l).spans;
  }

  method ServeOne(s: Service, vars: map<string, string>, query: map<string, seq<string>>, w: ResponseWriter) returns (spans: seq<SpanEvent>)
    requires w.Pristine()
    modifies w
    ensures w.Reply() == RespondOne(s, vars, query).value && spans == RespondOne(s, vars, query).spans
  {
    var d := DecodeGetArticleRequest(vars, query);
    if d.value.Err? {
      var encodeSpans := Encode(w, Err(d.value.error));
      spans := d.spans + encodeSpans;
    } else {
      var r, endpointSpans := GetArticleEndpoint(s, d.value.value);
      var encodeSpans := Encode(w, r);
      spans := d.spans + endpointSpans + encodeSpans;
    }
  }

  /** Writes what the fresh writer `w` sends in reply to `req`. */
  method Serve(s: Service, req: HttpRequest, w: ResponseWriter) returns (spans: seq<SpanEvent>)
    requires w.Pristine()
    modifies w
    ensures exists listing :: IsListing(s.articles, listing) &&
              w.Reply() == Respond(s, req, listing).value && spans == Respond(s, req, listing).spans
  {
    var route := MatchRoute(req.verb, req.path);
    if route.GetManyRoute? {
      spans := ServeMany(s, req.query, w);
      return;
    }
    ghost var l := ListingOf(s.articles);
    if route.NoRoute? {
      w.SetHeader("Content-Type", TextContentType);
      w.SetHeader("X-Content-Type-Options", "nosniff");
      w.WriteHeader(404);
      w.Write(TextChunk(NotFoundText));
      spans := [];
    } else if route.WrongMethod? {
      w.WriteHeader(405);
      spans := [];
    } else {
      spans := ServeOne(s, route.vars, req.query, w);
    }
    assert w.Reply() == Respond(s, req, l).value && spans == Respond(s, req, l).spans;
  }

  // ---- properties of the whole exchange ----

  /** GET on an article path: 404 with a NotFound body exactly when the id is not stored. */
  lemma GetArticleMissingReply(s: Service, id: ArticleID, query: map<string, seq<string>>, listing: seq<Article>)
    requires id != [] && '/' !in id && id !in s.articles
    ensures Respond(s, HttpRequest("GET", ArticlesPrefix + id + "/", query), listing).value ==
              HttpReply(404, map["Content-Type" := JsonContentType],
                        [JsonChunk(JObj(map["error" := JStr(Message(NotFound(id)))]))])
  {
    RouteOfArticlePath("GET", id);
    GetOneMissing(s, GetArticleRequest(id, WithSuggested(query)));
  }

  /** GET on an article path of a stored article without suggestions: 200 with the stored record. */
  lemma GetArticleFoundReply(s: Service, id: ArticleID, query: map<string, seq<string>>, listing: seq<Article>)
    requires id != [] && '/' !in id && id in s.articles && !WithSuggested(query)
    ensures Respond(s, HttpRequest("GET", ArticlesPrefix + id + "/", query), listing).value ==
              SuccessReply(OneArticle(s.articles[id]))
  {
    RouteOfArticlePath("GET", id);
  }

  /** Only a NotFound error reaches the client as 404; a failure of the suggestions service is a 200. */
  lemma ErrorReplyStatus(e: Error)
    ensures ErrorReply(e).status == 404 <==> e.NotFound?
    ensures e.Failure? ==> ErrorReply(e).status == 200 && ErrorReply(e).body == [JsonChunk(ErrorBody(e))]
  {
  }

  lemma EncodedSpansBalanced(r: Result<Response>)
    ensures Balanced(Encoded(r).spans)
  {
    assert Balanced([]);
    BracketBalanced("encodeResponse", []);
    BracketBalanced("encodeError", []);
  }

  lemma RespondManySpansBalanced(s: Service, query: map<string, seq<string>>, listing: seq<Article>)
    ensures Balanced(RespondMany(s, query, listing).spans)
  {
    assert Balanced([]);
    var d := DecodeGetArticlesRequest(query);
    BracketBalanced("decodeGetArticlesRequest", []);
    var r := GetMany(s, d.value, listing);
    GetManySpansBalanced(s, d.value, listing);
    EncodedSpansBalanced(r);
    ConcatBalanced(d.spans, GetManySpans(s, d.value, listing));
    ConcatBalanced(d.spans + GetManySpans(s, d.value, listing), Encoded(r).spans);
  }

  lemma RespondOneSpansBalanced(s: Service, vars: map<string, string>, query: map<string, seq<string>>)
    ensures Balanced(RespondOne(s, vars, query).spans)
  {
    assert Balanced([]);
    var d := DecodeGetArticleRequest(vars, query);
    BracketBalanced("decodeGetArticleRequest", []);
    if d.value.Err? {
      EncodedSpansBalanced(Err(d.value.error));
      ConcatBalanced(d.spans, Encoded(Err(d.value.error)).spans);
    } else {
      var one := d.value.value;
      GetOneSpansBalanced(s, one);
      EncodedSpansBalanced(GetOne(s, one));
      ConcatBalanced(d.spans, GetOneSpans(s, one));
      ConcatBalanced(d.spans + GetOneSpans(s, one), Encoded(GetOne(s, one)).spans);
    }
  }

  /** The span events of every exchange are balanced. */
  lemma RespondSpansBalanced(s: Service, req: HttpRequest, listing: seq<Article>)
    ensures Balanced(Respond(s, req, listing).spans)
  {
    match MatchRoute(req.verb, req.path)
    case NoRoute => assert Balanced([]);
    case WrongMethod => assert Balanced([]);
    case GetManyRoute => RespondManySpansBalanced(s, req.query, listing);
    case GetOneRoute(vars) => RespondOneSpansBalanced(s, vars, req.query);
  }
}
