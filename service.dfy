/**
 * The article service (apps/articles/articles/service.go): an immutable store of articles,
 * the lookup of one article, the listing of all of them, and the resolution of suggested
 * articles through the suggestions service. The HTTP client together with the remote
 * service is the function `exchange`, from the URL asked for to what came back.
 */
module ArticleService {
  import opened Wrappers
  import opened Models
  import opened Errors
  import opened Spans

  /** The outcome of one GET to the suggestions service, step by step as the client sees it. */
  datatype Reply =
    | UrlRejected(reason: string)      // url.Parse refused the built URL
    | RequestFailed(reason: string)    // client.Do returned an error
    | ReadFailed(reason: string)       // reading the response body failed
    | Unparsable(reason: string)       // the body is not well-formed JSON
    | Received(status: int, body: Json)

  datatype Service = Service(
    articles: map<ArticleID, Article>,
    suggestionsHost: string,
    exchange: string -> Reply)

  const SuggestionsPath: string := "/suggestions/v1/"

  /** Where the suggestions for `id` are asked for: host, then the fixed path, then the id. */
  function SuggestionsUrl(host: string, id: ArticleID): (u: string)
    ensures |u| == |host| + 16 + |id|
    ensures u[..|host|] == host && u[|host|..|host| + 16] == SuggestionsPath
    ensures u[|host| + 16..] == id
  {
    host + SuggestionsPath + id
  }

  /** For a fixed host, the URL determines the article it is about. */
  lemma SuggestionsUrlInjective(host: string, a: ArticleID, b: ArticleID)
    requires SuggestionsUrl(host, a) == SuggestionsUrl(host, b)
    ensures a == b
  {
    assert a == SuggestionsUrl(host, a)[|host| + 16..];
  }

  /** The span events of one lookup: "get article", tagged with the id. */
  function ArticleSpans(id: ArticleID): seq<SpanEvent>
  {
    Bracket("get article", [Attr("article.id", id)])
  }

  /** Looks `id` up in the store, inside a span "get article" tagged with the id. */
  function GetArticle(s: Service, id: ArticleID): (r: Traced<Result<Article>>)
    ensures r.spans == ArticleSpans(id)
    ensures r.value.Ok? <==> id in s.articles
    ensures r.value.Ok? ==> r.value.value == s.articles[id]
    ensures r.value.Err? ==> r.value.error == NotFound(id)
  {
    var value := if id in s.articles then Ok(s.articles[id]) else Err(NotFound(id));
    Traced(value, Bracket("get article", [Attr("article.id", id)]))
  }

  /** A snapshot as the service expects it: every record under its own id, without suggestions. */
  predicate Canonical(store: map<ArticleID, Article>)
  {
    forall k :: k in store ==> store[k].id == k && store[k].suggested == []
  }

  /** From a canonical store, a found article carries the id asked for and no suggestions. */
  lemma GetArticleCanonical(s: Service, id: ArticleID)
    requires Canonical(s.articles)
    requires GetArticle(s, id).value.Ok?
    ensures GetArticle(s, id).value.value.id == id
    ensures GetArticle(s, id).value.value.suggested == []
  {
  }

  // ---- decoding the suggestions body into []ArticleID (json.Unmarshal) ----

  /** The word encoding/json uses for a JSON value's kind in its type errors. */
  function JsonKind(j: Json): string
  {
    match j
    case JNull => "null"
    case JBool(_) => "bool"
    case JNum(_) => "number"
    case JStr(_) => "string"
    case JArr(_) => "array"
    case JObj(_) => "object"
  }

  function UnmarshalTypeError(kind: string, goType: string): Error
  {
    Failure("json: cannot unmarshal " + kind + " into Go value of type " + goType)
  }

  /**
   * The elements of a JSON array decoded as ArticleIDs: a string is taken, null leaves the
   * zero value "", and the first element of another kind is the error reported.
   */
  function DecodeIds(items: seq<Json>): (r: Result<seq<ArticleID>>)
    ensures r.Ok? ==> |r.value| == |items|
    ensures r.Ok? ==> forall i :: 0 <= i < |items| ==>
                        items[i] == JStr(r.value[i]) || (items[i] == JNull && r.value[i] == "")
    ensures r.Err? ==> r.error.Failure?
    ensures (forall i :: 0 <= i < |items| ==> items[i].JStr? || items[i].JNull?) <==> r.Ok?
    ensures r.Err? ==> exists i :: (0 <= i < |items| && !items[i].JStr? && !items[i].JNull? &&
                                    r.error == UnmarshalTypeError(JsonKind(items[i]), "articles.ArticleID") &&
                                    forall k :: 0 <= k < i ==> items[k].JStr? || items[k].JNull?)
  {
    if items == [] then Ok([])
    else
      var head: Result<ArticleID> :=
        match items[0]
        case JStr(v) => Ok(v)
        case JNull => Ok("")
        case _ => Err(UnmarshalTypeError(JsonKind(items[0]), "articles.ArticleID"));
      if head.Err? then Err(head.error)
      else match DecodeIds(items[1..])
        case Err(e) => Err(e)
        case Ok(rest) => Ok([head.value] + rest)
  }

  /** The body decoded into a []ArticleID: null is the nil slice, an array is decoded element-wise. */
  function DecodeIdList(j: Json): (r: Result<seq<ArticleID>>)
    ensures j.JNull? ==> r == Ok([])
    ensures !j.JNull? && !j.JArr? ==> r == Err(UnmarshalTypeError(JsonKind(j), "[]articles.ArticleID"))
    ensures r.Err? ==> r.error.Failure?
    ensures j.JArr? ==> r == DecodeIds(j.items)
  {
    match j
    case JNull => Ok([])
    case JArr(items) => DecodeIds(items)
    case _ => Err(UnmarshalTypeError(JsonKind(j), "[]articles.ArticleID"))
  }

  /** Decoding an array of strings gives back exactly those strings, in order. */
  lemma {:induction false} DecodeIdListRoundTrip(ids: seq<ArticleID>)
    ensures DecodeIdList(StringArray(ids)) == Ok(ids)
  {
    var items := StringArray(ids).items;
    if ids != [] {
      assert items[1..] == StringArray(ids[1..]).items;
      DecodeIdListRoundTrip(ids[1..]);
      assert [ids[0]] + ids[1..] == ids;
    }
  }

  /**
   * The ids the gateway step yields: each failure of the exchange is returned as it is; the
   * body is decoded whatever the status code, which the source does not look at.
   */
  function FetchIds(reply: Reply): (r: Result<seq<ArticleID>>)
    ensures reply.UrlRejected? ==> r == Err(Failure(reply.reason))
    ensures reply.RequestFailed? ==> r == Err(Failure(reply.reason))
    ensures reply.ReadFailed? ==> r == Err(Failure(reply.reason))
    ensures reply.Unparsable? ==> r == Err(Failure(reply.reason))
    ensures reply.Received? ==> r == DecodeIdList(reply.body)
    ensures r.Err? ==> r.error.Failure?
  {
    match reply
    case UrlRejected(m) => Err(Failure(m))
    case RequestFailed(m) => Err(Failure(m))
    case ReadFailed(m) => Err(Failure(m))
    case Unparsable(m) => Err(Failure(m))
    case Received(_, body) => DecodeIdList(body)
  }

  /** The status code of the reply plays no part in what the gateway step yields. */
  lemma FetchIdsIgnoresStatus(a: int, b: int, body: Json)
    ensures FetchIds(Received(a, body)) == FetchIds(Received(b, body))
  {
  }

  /** What the gateway step yields for `id`. */
  function GatewayIds(s: Service, id: ArticleID): Result<seq<ArticleID>>
  {
    FetchIds(s.exchange(SuggestionsUrl(s.suggestionsHost, id)))
  }

  // ---- resolution of suggested ids ----

  /** Each id resolved through the store in order; the first missing one fails the whole list. */
  function ResolveAll(store: map<ArticleID, Article>, ids: seq<ArticleID>): (r: Result<seq<Article>>)
    ensures r.Ok? ==> |r.value| == |ids| && forall i :: 0 <= i < |ids| ==> ids[i] in store
    ensures r.Err? ==> r.error.NotFound? && r.error.articleId in ids && r.error.articleId !in store
  {
    if ids == [] then Ok([])
    else if ids[0] !in store then Err(NotFound(ids[0]))
    else match ResolveAll(store, ids[1..])
      case Err(e) => Err(e)
      case Ok(rest) => Ok([store[ids[0]]] + rest)
  }

  /** How many lookups resolution makes: up to and including the first id missing from the store. */
  function Looked(store: map<ArticleID, Article>, ids: seq<ArticleID>): (n: nat)
    ensures n <= |ids|
  {
    if ids == [] then 0 else if ids[0] !in store then 1 else 1 + Looked(store, ids[1..])
  }

  /** The span events of looking each of `ids` up, in order. */
  function LookupSpans(ids: seq<ArticleID>): seq<SpanEvent>
  {
    if ids == [] then [] else LookupSpans(ids[..|ids| - 1]) + ArticleSpans(ids[|ids| - 1])
  }

  /** The suggested articles for `id`: gateway failures first, then resolution. */
  function Suggested(s: Service, id: ArticleID): Result<seq<Article>>
  {
    match GatewayIds(s, id)
    case Err(e) => Err(e)
    case Ok(ids) => ResolveAll(s.articles, ids)
  }

  /** The span events of GetSuggested: "get suggestion" around the lookups it makes. */
  function SuggestedSpans(s: Service, id: ArticleID): seq<SpanEvent>
  {
    Bracket("get suggestion", [Attr("article.id", id)] +
      match GatewayIds(s, id) case Err(_) => [] case Ok(ids) => LookupSpans(ids[..Looked(s.articles, ids)]))
  }

  /** Resolution succeeds exactly when every id is in the store, and then gives store[id] for each, in order. */
  lemma {:induction false} ResolveAllOk(store: map<ArticleID, Article>, ids: seq<ArticleID>)
    ensures ResolveAll(store, ids).Ok? <==> forall i :: 0 <= i < |ids| ==> ids[i] in store
    ensures ResolveAll(store, ids).Ok? ==>
              |ResolveAll(store, ids).value| == |ids| &&
              forall i :: 0 <= i < |ids| ==> ResolveAll(store, ids).value[i] == store[ids[i]]
  {
    if ids != [] {
      ResolveAllOk(store, ids[1..]);
      if ids[0] in store && ResolveAll(store, ids[1..]).Ok? {
        forall i | 0 <= i < |ids| ensures ResolveAll(store, ids).value[i] == store[ids[i]] {
          if i > 0 { assert ids[i] == ids[1..][i - 1]; }
        }
      }
      if ids[0] in store && (forall i :: 0 <= i < |ids[1..]| ==> ids[1..][i] in store) {
        assert forall i :: 0 <= i < |ids| ==> ids[i] in store by {
          forall i | 0 <= i < |ids| ensures ids[i] in store {
            if i > 0 { assert ids[i] == ids[1..][i - 1]; }
          }
        }
      }
    }
  }

  /** When the k-th id is the first one missing from the store, resolution fails with NotFound for it. */
  lemma {:induction false} ResolveAllFirstMissing(store: map<ArticleID, Article>, ids: seq<ArticleID>, k: nat)
    requires k < |ids| && ids[k] !in store
    requires forall j :: 0 <= j < k ==> ids[j] in store
    ensures ResolveAll(store, ids) == Err(NotFound(ids[k]))
  {
    if k > 0 {
      assert ids[1..][k - 1] == ids[k];
      ResolveAllFirstMissing(store, ids[1..], k - 1);
    }
  }

  /** Resolution stops right after the first missing id, or looks every id up when none is missing. */
  lemma {:induction false} LookedAt(store: map<ArticleID, Article>, ids: seq<ArticleID>, k: nat)
    requires k <= |ids|
    requires forall j :: 0 <= j < k ==> ids[j] in store
    ensures k == |ids| ==> Looked(store, ids) == |ids|
    ensures k < |ids| && ids[k] !in store ==> Looked(store, ids) == k + 1
  {
    if k > 0 {
      LookedAt(store, ids[1..], k - 1);
    }
  }

  lemma LookupStep(ids: seq<ArticleID>, i: nat)
    requires i < |ids|
    ensures LookupSpans(ids[..i + 1]) == LookupSpans(ids[..i]) + ArticleSpans(ids[i])
  {
    assert ids[..i + 1][..i] == ids[..i];
  }

  /** Every lookup span is closed again. */
  lemma {:induction false} LookupSpansBalanced(ids: seq<ArticleID>)
    ensures Balanced(LookupSpans(ids))
  {
    if ids == [] {
      assert Replay([], []) == Some([]);
    } else {
      var last := ids[|ids| - 1];
      assert Balanced([]) by { assert Replay([], []) == Some([]); }
      assert [Attr("article.id", last)] + [] == [Attr("article.id", last)];
      TaggedBracketBalanced("get article", "article.id", last, []);
      LookupSpansBalanced(ids[..|ids| - 1]);
      ConcatBalanced(LookupSpans(ids[..|ids| - 1]), ArticleSpans(last));
    }
  }

  /** The span events of GetSuggested are balanced on every path. */
  lemma SuggestedSpansBalanced(s: Service, id: ArticleID)
    ensures Balanced(SuggestedSpans(s, id))
  {
    var inner := match GatewayIds(s, id) case Err(_) => [] case Ok(ids) => LookupSpans(ids[..Looked(s.articles, ids)]);
    if GatewayIds(s, id).Ok? {
      var ids := GatewayIds(s, id).value;
      LookupSpansBalanced(ids[..Looked(s.articles, ids)]);
    } else {
      assert Replay([], []) == Some([]);
    }
    TaggedBracketBalanced("get suggestion", "article.id", id, inner);
  }

  /** `done` put in front of a successful result; an error stays as it is. */
  function Prepend(done: seq<Article>, rest: Result<seq<Article>>): (r: Result<seq<Article>>)
    ensures rest.Err? ==> r == rest
    ensures rest.Ok? ==> r == Ok(done + rest.value)
  {
    match rest
    case Err(e) => Err(e)
    case Ok(v) => Ok(done + v)
  }

  lemma PrependTwice(a: seq<Article>, b: seq<Article>, rest: Result<seq<Article>>)
    ensures Prepend(a, Prepend(b, rest)) == Prepend(a + b, rest)
    ensures Prepend([], rest) == rest
  {
    if rest.Ok? {
      assert a + (b + rest.value) == (a + b) + rest.value;
      assert [] + rest.value == rest.value;
    }
  }

  /** One step of resolution from position i: the lookup of ids[i], then the rest only if it was found. */
  lemma ResolveStep(store: map<ArticleID, Article>, ids: seq<ArticleID>, i: nat)
    requires i < |ids|
    ensures ids[i] in store ==>
              ResolveAll(store, ids[i..]) == Prepend([store[ids[i]]], ResolveAll(store, ids[i + 1..]))
    ensures ids[i] !in store ==> ResolveAll(store, ids[i..]) == Err(NotFound(ids[i]))
  {
    assert ids[i..][0] == ids[i];
    assert ids[i..][1..] == ids[i + 1..];
  }

  /** A gateway failure is returned as it is, and no article is looked up. */
  lemma GatewayFailureNoLookup(s: Service, id: ArticleID)
    requires GatewayIds(s, id).Err?
    ensures Suggested(s, id) == Err(GatewayIds(s, id).error)
    ensures SuggestedSpans(s, id) == Bracket("get suggestion", [Attr("article.id", id)])
  {
    assert [Attr("article.id", id)] + [] == [Attr("article.id", id)];
  }

  /**
   * Resolves the suggestions for `id`: asks the gateway, then looks every returned id up in
   * order and stops at the first one that is missing.
   */
  method GetSuggested(s: Service, id: ArticleID) returns (r: Result<seq<Article>>, spans: seq<SpanEvent>)
    ensures r == Suggested(s, id)
    ensures spans == SuggestedSpans(s, id)
  {
    var tags := [Attr("article.id", id)];
    var fetched := FetchIds(s.exchange(SuggestionsUrl(s.suggestionsHost, id)));
    if fetched.Err? {
      GatewayFailureNoLookup(s, id);
      r := Err(fetched.error);
      spans := Bracket("get suggestion", tags);
      return;
    }
    var ids := fetched.value;
    var found: seq<Article> := [];
    var lookups: seq<SpanEvent> := [];
    assert ids[0..] == ids;
    PrependTwice([], [], ResolveAll(s.articles, ids));
    for i := 0 to |ids|
      invariant ResolveAll(s.articles, ids) == Prepend(found, ResolveAll(s.articles, ids[i..]))
      invariant forall j :: 0 <= j < i ==> ids[j] in s.articles
      invariant lookups == LookupSpans(ids[..i])
    {
      var a := GetArticle(s, ids[i]);
      ResolveStep(s.articles, ids, i);
      LookupStep(ids, i);
      lookups := lookups + a.spans;
      if a.value.Err? {
        LookedAt(s.articles, ids, i);
        r := Err(a.value.error);
        spans := Bracket("get suggestion", tags + lookups);
        return;
      }
      PrependTwice(found, [a.value.value], ResolveAll(s.articles, ids[i + 1..]));
      found := found + [a.value.value];
    }
    LookedAt(s.articles, ids, |ids|);
    assert ids[|ids|..] == [] && ids[..|ids|] == ids;
    assert found + [] == found;
    r := Ok(found);
    spans := Bracket("get suggestion", tags + lookups);
  }

  // ---- listing all articles ----

  /** Some key of a non-empty store: the first one a walk over the map might visit. */
  ghost function SomeKey(m: map<ArticleID, Article>): (k: ArticleID)
    requires m != map[]
    ensures k in m
  {
    var k :| k in m; k
  }

  /** The store's records as a multiset: one occurrence per key, whatever the key order. */
  ghost function ValuesOf(m: map<ArticleID, Article>): multiset<Article>
    decreases |m|
  {
    if m == map[] then multiset{}
    else
      var k := SomeKey(m);
      assert |m - {k}| < |m| by { RemoveKeySize(m, k); }
      multiset{m[k]} + ValuesOf(m - {k})
  }

  lemma RemoveKeySize(m: map<ArticleID, Article>, k: ArticleID)
    requires k in m
    ensures |m - {k}| == |m| - 1
  {
    assert (m - {k}).Keys == m.Keys - {k};
  }

  /** ValuesOf can be unfolded at any key, not only the one it picks. */
  lemma {:induction false} ValuesOfRemove(m: map<ArticleID, Article>, k: ArticleID)
    requires k in m
    ensures ValuesOf(m) == multiset{m[k]} + ValuesOf(m - {k})
    decreases |m|
  {
    var k0 := SomeKey(m);
    if k0 != k {
      var without0, without := m - {k0}, m - {k};
      var both := without0 - {k};
      assert both == without - {k0};
      RemoveKeySize(m, k0);
      RemoveKeySize(m, k);
      ValuesOfRemove(without0, k);
      ValuesOfRemove(without, k0);
      calc {
        ValuesOf(m);
        multiset{m[k0]} + ValuesOf(without0);
        multiset{m[k0]} + (multiset{m[k]} + ValuesOf(both));
        multiset{m[k]} + (multiset{m[k0]} + ValuesOf(both));
        multiset{m[k]} + ValuesOf(without);
      }
    }
  }

  /** `listing` holds every record of the store once, in some order. */
  ghost predicate IsListing(store: map<ArticleID, Article>, listing: seq<Article>)
  {
    multiset(listing) == ValuesOf(store)
  }

  /** A listing has one element per key, and holds exactly the store's records. */
  lemma {:induction false} ListingFacts(store: map<ArticleID, Article>, listing: seq<Article>)
    requires IsListing(store, listing)
    ensures |listing| == |store|
    ensures forall a :: a in listing <==> a in store.Values
  {
    ValuesOfFacts(store);
    assert |multiset(listing)| == |listing|;
    forall a ensures a in listing <==> a in store.Values {
      assert a in listing <==> a in multiset(listing);
    }
  }

  lemma {:induction false} ValuesOfFacts(m: map<ArticleID, Article>)
    ensures |ValuesOf(m)| == |m|
    ensures forall a :: a in ValuesOf(m) <==> a in m.Values
    decreases |m|
  {
    if m != map[] {
      var k := SomeKey(m);
      RemoveKeySize(m, k);
      ValuesOfFacts(m - {k});
      forall a ensures a in ValuesOf(m) <==> a in m.Values {
        if a in m.Values && a != m[k] {
          var k' :| k' in m && m[k'] == a;
          assert k' in m - {k};
        }
      }
    }
  }

  /** Lists every article of the store, in the order of a walk over its keys; never fails. */
  method GetArticles(s: Service) returns (r: seq<Article>, spans: seq<SpanEvent>)
    ensures IsListing(s.articles, r)
    ensures spans == Bracket("get articles", [])
  {
    r := [];
    var rest := s.articles;
    while rest != map[]
      invariant multiset(r) + ValuesOf(rest) == ValuesOf(s.articles)
      decreases |rest|
    {
      var k :| k in rest;
      ValuesOfRemove(rest, k);
      RemoveKeySize(rest, k);
      assert multiset(r + [rest[k]]) == multiset(r) + multiset{rest[k]};
      r := r + [rest[k]];
      rest := rest - {k};
    }
    assert ValuesOf(rest) == multiset{};
    spans := Bracket("get articles", []);
  }
}
