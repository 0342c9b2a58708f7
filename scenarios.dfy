/**
 * The two services together, and end-to-end cases: the articles
 * service whose exchange is answered by the suggestions views, and concrete requests against
 * a one-article store.
 */
module Scenarios {
  import opened Models
  import opened Errors
  import opened ArticleService
  import opened Endpoints
  import opened Transport
  import opened Suggestions

  /** The exchange for `id` is answered by the suggestions view, status and body as it returned them. */
  predicate AnsweredBy(s: Service, py: SuggestionsService, id: ArticleID)
    reads py
  {
    var v := GetByArticleId(py, id);
    s.exchange(SuggestionsUrl(s.suggestionsHost, id)) == Received(v.status, v.body)
  }

  const ObjectIntoIds: Error := UnmarshalTypeError("object", "[]articles.ArticleID")

  /**
   * When the suggestions service has nothing for `id`, its 404 body is a JSON object, which
   * the articles service cannot decode into a list of ids: the result is a generic failure,
   * not NotFound, and its error reply has status 200.
   */
  lemma NoSuggestionsIsFailure(s: Service, py: SuggestionsService, id: ArticleID)
    requires AnsweredBy(s, py, id)
    requires id !in py.suggestions || py.suggestions[id] == []
    ensures GatewayIds(s, id) == Err(ObjectIntoIds)
    ensures Suggested(s, id) == Err(ObjectIntoIds)
    ensures ErrorReply(ObjectIntoIds).status == 200
  {
    GetByArticleIdMissing(py, id);
  }

  /** When it has a list, the articles service reads exactly that list and resolves it. */
  lemma SuggestionsAreRead(s: Service, py: SuggestionsService, id: ArticleID)
    requires AnsweredBy(s, py, id)
    requires id in py.suggestions && py.suggestions[id] != []
    ensures GatewayIds(s, id) == Ok(py.suggestions[id])
    ensures Suggested(s, id) == ResolveAll(s.articles, py.suggestions[id])
  {
    GetByArticleIdOk(py, id);
    DecodeIdListRoundTrip(py.suggestions[id]);
  }

  /**
   * The whole chain: GET /articles/v1/<id>/?with_suggested=true for a stored article that has
   * no suggestions is answered 200 with the decode failure as the error.
   */
  lemma NoSuggestionsOverHttp(s: Service, py: SuggestionsService, id: ArticleID, listing: seq<Article>)
    requires AnsweredBy(s, py, id)
    requires id !in py.suggestions || py.suggestions[id] == []
    requires id != [] && '/' !in id && id in s.articles
    ensures Respond(s, HttpRequest("GET", ArticlesPrefix + id + "/", map[SuggestedParam := ["true"]]), listing).value ==
              HttpReply(200, map["Content-Type" := JsonContentType],
                        [JsonChunk(JObj(map["error" := JStr("json: cannot unmarshal " + "object" + " into Go value of type " + "[]articles.ArticleID")]))])
  {
    NoSuggestionsIsFailure(s, py, id);
    RouteOfArticlePath("GET", id);
    var q: map<string, seq<string>> := map[SuggestedParam := ["true"]];
    assert QueryGet(q, SuggestedParam) == "true";
    var one := GetArticleRequest(id, true);
    assert DecodeGetArticleRequest(map["articleID" := id], q).value == Ok(one);
    GetOneSuggestionFailure(s, one);
    assert GetOne(s, one) == Err(ObjectIntoIds);
    assert Respond(s, HttpRequest("GET", ArticlesPrefix + id + "/", q), listing).value == ErrorReply(ObjectIntoIds);
  }

  /** Suggested ids come back as the stored articles, in the order the suggestions service gave them. */
  lemma SuggestionOrder(s: Service)
    requires "a" in s.articles && "b" in s.articles && "c" in s.articles
    requires s.exchange(SuggestionsUrl(s.suggestionsHost, "a")) == Received(200, StringArray(["b", "c"]))
    ensures GetOne(s, GetArticleRequest("a", true)) ==
              Ok(OneArticle(s.articles["a"].(suggested := [s.articles["b"], s.articles["c"]])))
  {
    var ids := ["b", "c"];
    DecodeIdListRoundTrip(ids);
    assert GatewayIds(s, "a") == Ok(ids);
    ResolveAllOk(s.articles, ids);
    assert ResolveAll(s.articles, ids).value == [s.articles["b"], s.articles["c"]];
    GetOneOk(s, GetArticleRequest("a", true));
  }

  /** One suggested id missing from the store fails the whole call with NotFound for that id. */
  lemma SuggestionMissing(s: Service)
    requires "a" in s.articles && "b" in s.articles && "x" !in s.articles
    requires s.exchange(SuggestionsUrl(s.suggestionsHost, "a")) == Received(200, StringArray(["b", "x"]))
    ensures GetOne(s, GetArticleRequest("a", true)) == Err(NotFound("x"))
  {
    var ids := ["b", "x"];
    DecodeIdListRoundTrip(ids);
    assert GatewayIds(s, "a") == Ok(ids);
    ResolveAllFirstMissing(s.articles, ids, 1);
    GetOneSuggestionFailure(s, GetArticleRequest("a", true));
  }

  const ExampleArticle: Article := Article("a", "", "T", "", [])

  /** GET /articles/v1/a/ on the store {"a": {"id": "a", "title": "T"}}. */
  lemma ExampleFound(s: Service, listing: seq<Article>)
    requires s.articles == map["a" := ExampleArticle]
    ensures Respond(s, HttpRequest("GET", "/articles/v1/a/", map[]), listing).value ==
              HttpReply(200, map["Content-Type" := JsonContentType],
                        [JsonChunk(JObj(map["article" := JObj(map["id" := JStr("a"), "author" := JStr(""),
                                                                  "title" := JStr("T"), "text" := JStr("")])]))])
  {
    assert ArticlesPrefix + "a" + "/" == "/articles/v1/a/";
    GetArticleFoundReply(s, "a", map[], listing);
  }

  /** GET /articles/v1/z/ on the same store. */
  lemma ExampleMissing(s: Service, listing: seq<Article>)
    requires s.articles == map["a" := ExampleArticle]
    ensures Respond(s, HttpRequest("GET", "/articles/v1/z/", map[]), listing).value ==
              HttpReply(404, map["Content-Type" := JsonContentType],
                        [JsonChunk(JObj(map["error" := JStr("article `" + "z" + "` was not found")]))])
  {
    var path := ArticlesPrefix + "z" + "/";
    assert path == "/articles/v1/z/";
    GetArticleMissingReply(s, "z", map[], listing);
  }
}
