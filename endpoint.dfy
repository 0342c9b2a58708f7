/**
 * The go-kit endpoints of the articles service (apps/articles/articles/endpoint.go): the
 * request and response envelopes, the single-article endpoint, which optionally fills in the
 * article's suggestions, and the listing endpoint, which optionally fills in the suggestions
 * of every listed article in place.
 */
module Endpoints {
  import opened Models
  import opened Errors
  import opened Spans
  import opened ArticleService

  datatype GetArticleRequest = GetArticleRequest(id: ArticleID, includeSuggested: bool)

  datatype GetArticlesRequest = GetArticlesRequest(includeSuggested: bool)

  /** getArticleResponse and getArticlesResponse. */
  datatype Response = OneArticle(article: Article) | ManyArticles(articles: seq<Article>)

  // ---- the single-article endpoint ----

  /** What the single-article endpoint answers for `req`. */
  function GetOne(s: Service, req: GetArticleRequest): (r: Result<Response>)
    ensures req.id !in s.articles ==> r == Err(NotFound(req.id))
    ensures r.Ok? ==> (req.id in s.articles && r.value.OneArticle? &&
                       r.value.article.(suggested := []) == s.articles[req.id].(suggested := []))
    ensures r.Ok? && !req.includeSuggested ==> r.value.article == s.articles[req.id]
  {
    match GetArticle(s, req.id).value
    case Err(e) => Err(e)
    case Ok(a) =>
      if !req.includeSuggested then Ok(OneArticle(a))
      else match Suggested(s, req.id)
        case Err(e) => Err(e)
        case Ok(sg) => Ok(OneArticle(a.(suggested := sg)))
  }

  /** Its span events: the endpoint span around the lookup, then the suggestion step if it runs. */
  function GetOneSpans(s: Service, req: GetArticleRequest): seq<SpanEvent>
  {
    Bracket("get article endpoint", ArticleSpans(req.id) +
      if req.id in s.articles && req.includeSuggested then SuggestedSpans(s, req.id) else [])
  }

  method GetArticleEndpoint(s: Service, req: GetArticleRequest) returns (r: Result<Response>, spans: seq<SpanEvent>)
    ensures r == GetOne(s, req)
    ensures spans == GetOneSpans(s, req)
  {
    var found := GetArticle(s, req.id);
    var inner := found.spans;
    if found.value.Err? {
      r := Err(found.value.error);
      assert inner + [] == inner;
      spans := Bracket("get article endpoint", inner);
      return;
    }
    var article := found.value.value;
    if req.includeSuggested {
      var sg, sgSpans := GetSuggested(s, req.id);
      inner := inner + sgSpans;
      if sg.Err? {
        r := Err(sg.error);
        spans := Bracket("get article endpoint", inner);
        return;
      }
      article := article.(suggested := sg.value);
    } else {
      assert inner + [] == inner;
    }
    r := Ok(OneArticle(article));
    spans := Bracket("get article endpoint", inner);
  }

  /** A missing article is reported as NotFound, with or without suggestions asked for, and the suggestions service is not asked. */
  lemma GetOneMissing(s: Service, req: GetArticleRequest)
    requires req.id !in s.articles
    ensures GetOne(s, req) == Err(NotFound(req.id))
    ensures GetOneSpans(s, req) == Bracket("get article endpoint", ArticleSpans(req.id))
  {
    assert ArticleSpans(req.id) + [] == ArticleSpans(req.id);
  }

  /**
   * The endpoint succeeds exactly when the article is stored and, if suggestions are asked
   * for, they resolve; the answer is then the stored article with only its suggestions
   * replaced, by the resolved ones, when asked for.
   */
  lemma GetOneOk(s: Service, req: GetArticleRequest)
    ensures GetOne(s, req).Ok? <==>
              req.id in s.articles && (req.includeSuggested ==> Suggested(s, req.id).Ok?)
    ensures GetOne(s, req).Ok? && !req.includeSuggested ==>
              GetOne(s, req).value == OneArticle(s.articles[req.id])
    ensures GetOne(s, req).Ok? && req.includeSuggested ==>
              GetOne(s, req).value == OneArticle(s.articles[req.id].(suggested := Suggested(s, req.id).value))
  {
  }

  /** Whatever fails when suggestions are asked for is the failure of the suggestion step. */
  lemma GetOneSuggestionFailure(s: Service, req: GetArticleRequest)
    requires req.id in s.articles && req.includeSuggested && Suggested(s, req.id).Err?
    ensures GetOne(s, req) == Err(Suggested(s, req.id).error)
  {
  }

  lemma GetOneSpansBalanced(s: Service, req: GetArticleRequest)
    ensures Balanced(GetOneSpans(s, req))
  {
    var lookup := ArticleSpans(req.id);
    TaggedBracketBalanced("get article", "article.id", req.id, []);
    assert lookup == Bracket("get article", [Attr("article.id", req.id)] + []);
    var rest := if req.id in s.articles && req.includeSuggested then SuggestedSpans(s, req.id) else [];
    if req.id in s.articles && req.includeSuggested {
      SuggestedSpansBalanced(s, req.id);
    } else {
      assert Balanced([]);
    }
    ConcatBalanced(lookup, rest);
    BracketBalanced("get article endpoint", lookup + rest);
  }

  // ---- the listing endpoint ----

  /**
   * One suggestion step of the listing endpoint, as a function of the article's id. The
   * endpoint reaches the service only through its GetSuggested, so the fill-in loop below is
   * stated for any such step.
   */
  type Step = ArticleID -> Traced<Result<seq<Article>>>

  /** The step of this service: GetSuggested's result and span events. */
  function SuggestStep(s: Service): (step: Step)
    ensures forall id :: step(id) == Traced(Suggested(s, id), SuggestedSpans(s, id))
  {
    id => Traced(Suggested(s, id), SuggestedSpans(s, id))
  }

  /**
   * Filling in the suggestions of `arts` in order, with the span events of the steps run: each
   * step asks for the suggestions of one article; the first failure stops the loop.
   */
  function Fill(step: Step, arts: seq<Article>): (r: Traced<Result<seq<Article>>>)
    ensures r.value.Ok? ==> (|r.value.value| == |arts| &&
                             forall i :: 0 <= i < |arts| ==> r.value.value[i].(suggested := []) == arts[i].(suggested := []))
  {
    if arts == [] then Traced(Ok([]), [])
    else
      var before := Fill(step, arts[..|arts| - 1]);
      var last := arts[|arts| - 1];
      match before.value
      case Err(_) => before
      case Ok(done) =>
        var spans := before.spans + step(last.id).spans;
        match step(last.id).value
        case Err(e) => Traced(Err(e), spans)
        case Ok(sg) => Traced(Ok(done + [last.(suggested := sg)]), spans)
  }

  /** What the listing endpoint answers for `req` when the service lists `listing`. */
  function GetMany(s: Service, req: GetArticlesRequest, listing: seq<Article>): (r: Result<Response>)
    ensures r.Ok? ==> r.value.ManyArticles? && |r.value.articles| == |listing|
    ensures r.Ok? ==> forall i :: 0 <= i < |listing| ==>
              r.value.articles[i].(suggested := []) == listing[i].(suggested := [])
    ensures r.Err? ==> req.includeSuggested
    ensures !req.includeSuggested ==> r == Ok(ManyArticles(listing))
  {
    if !req.includeSuggested then Ok(ManyArticles(listing))
    else match Fill(SuggestStep(s), listing).value
      case Err(e) => Err(e)
      case Ok(v) => Ok(ManyArticles(v))
  }

  /** Its span events: the endpoint span around the listing span, then the suggestion steps run. */
  function GetManySpans(s: Service, req: GetArticlesRequest, listing: seq<Article>): seq<SpanEvent>
  {
    Bracket("get articles endpoint", Bracket("get articles", []) +
      if req.includeSuggested then Fill(SuggestStep(s), listing).spans else [])
  }

  /** Filling in succeeds exactly when every article's step succeeds. */
  lemma {:induction false} FillOkIff(step: Step, arts: seq<Article>)
    ensures Fill(step, arts).value.Ok? <==> forall i :: 0 <= i < |arts| ==> step(arts[i].id).value.Ok?
    decreases |arts|
  {
    if arts != [] {
      var n := |arts| - 1;
      var init := arts[..n];
      FillOkIff(step, init);
      if Fill(step, init).value.Err? {
        var i :| 0 <= i < n && !step(init[i].id).value.Ok?;
        assert init[i] == arts[i];
      } else if Fill(step, arts).value.Ok? {
        forall i | 0 <= i < |arts| ensures step(arts[i].id).value.Ok? {
          if i < n {
            assert init[i] == arts[i];
          }
        }
      } else {
        assert !step(arts[n].id).value.Ok?;
      }
    }
  }

  /** A successful fill-in keeps the articles and their order and changes only `suggested`. */
  lemma {:induction false} FillValues(step: Step, arts: seq<Article>)
    requires forall i :: 0 <= i < |arts| ==> step(arts[i].id).value.Ok?
    ensures Fill(step, arts).value.Ok? && |Fill(step, arts).value.value| == |arts|
    ensures forall i :: 0 <= i < |arts| ==>
              Fill(step, arts).value.value[i] == arts[i].(suggested := step(arts[i].id).value.value)
    decreases |arts|
  {
    FillOkIff(step, arts);
    if arts != [] {
      var n := |arts| - 1;
      var init := arts[..n];
      assert forall i :: 0 <= i < n ==> init[i] == arts[i];
      FillValues(step, init);
      var v := Fill(step, arts).value.value;
      var w := Fill(step, init).value.value;
      assert v == w + [arts[n].(suggested := step(arts[n].id).value.value)];
      forall i | 0 <= i < |arts|
        ensures v[i] == arts[i].(suggested := step(arts[i].id).value.value)
      {
        if i < n {
          assert v[i] == w[i];
        }
      }
    }
  }

  /** Once a step has failed, later articles change nothing: not the result and not the spans. */
  lemma {:induction false} FillStops(step: Step, arts: seq<Article>, n: nat)
    requires n <= |arts| && Fill(step, arts[..n]).value.Err?
    ensures Fill(step, arts) == Fill(step, arts[..n])
    decreases |arts|
  {
    if n == |arts| {
      assert arts[..n] == arts;
    } else {
      var init := arts[..|arts| - 1];
      assert init[..n] == arts[..n];
      FillStops(step, init, n);
    }
  }

  /** One step: the article at position i added to the i already filled in. */
  lemma FillStep(step: Step, arts: seq<Article>, i: nat)
    requires i < |arts|
    ensures Fill(step, arts[..i + 1]) ==
              match Fill(step, arts[..i]).value
              case Err(_) => Fill(step, arts[..i])
              case Ok(done) =>
                match step(arts[i].id).value
                case Err(e) => Traced(Err(e), Fill(step, arts[..i]).spans + step(arts[i].id).spans)
                case Ok(sg) => Traced(Ok(done + [arts[i].(suggested := sg)]),
                                      Fill(step, arts[..i]).spans + step(arts[i].id).spans)
  {
    assert arts[..i + 1][..i] == arts[..i];
  }

  /** The failure reported is that of the first article whose step fails. */
  lemma FillFirstError(step: Step, arts: seq<Article>, k: nat)
    requires k < |arts| && step(arts[k].id).value.Err?
    requires forall j :: 0 <= j < k ==> step(arts[j].id).value.Ok?
    ensures Fill(step, arts).value == step(arts[k].id).value
  {
    var init := arts[..k];
    assert forall j :: 0 <= j < k ==> init[j] == arts[j];
    FillOkIff(step, init);
    FillStep(step, arts, k);
    FillStops(step, arts, k + 1);
  }

  /** With this service's steps, the fill-in span events are balanced. */
  lemma {:induction false} FillSpansBalanced(s: Service, arts: seq<Article>)
    ensures Balanced(Fill(SuggestStep(s), arts).spans)
    decreases |arts|
  {
    if arts == [] {
      assert Balanced([]);
    } else {
      var init := arts[..|arts| - 1];
      FillSpansBalanced(s, init);
      SuggestedSpansBalanced(s, arts[|arts| - 1].id);
      ConcatBalanced(Fill(SuggestStep(s), init).spans, SuggestedSpans(s, arts[|arts| - 1].id));
    }
  }

  lemma GetManySpansBalanced(s: Service, req: GetArticlesRequest, listing: seq<Article>)
    ensures Balanced(GetManySpans(s, req, listing))
  {
    var listed := Bracket("get articles", []);
    assert Balanced([]);
    BracketBalanced("get articles", []);
    var rest := if req.includeSuggested then Fill(SuggestStep(s), listing).spans else [];
    if req.includeSuggested {
      FillSpansBalanced(s, listing);
    }
    ConcatBalanced(listed, rest);
    BracketBalanced("get articles endpoint", listed + rest);
  }

  /** Without suggestions the answer is the listing itself: every stored article exactly once. */
  lemma GetManyPlain(s: Service, req: GetArticlesRequest, listing: seq<Article>)
    requires IsListing(s.articles, listing) && !req.includeSuggested
    ensures GetMany(s, req, listing).Ok?
    ensures GetMany(s, req, listing) == Ok(ManyArticles(listing))
    ensures multiset(GetMany(s, req, listing).value.articles) == ValuesOf(s.articles)
    ensures |GetMany(s, req, listing).value.articles| == |s.articles|
    ensures forall a :: a in GetMany(s, req, listing).value.articles <==> a in s.articles.Values
  {
    ListingFacts(s.articles, listing);
  }

  /** With suggestions, the endpoint succeeds exactly when every listed article's suggestions resolve. */
  lemma GetManyOkIff(s: Service, req: GetArticlesRequest, listing: seq<Article>)
    requires req.includeSuggested
    ensures GetMany(s, req, listing).Ok? <==>
              forall i :: 0 <= i < |listing| ==> Suggested(s, listing[i].id).Ok?
  {
    FillOkIff(SuggestStep(s), listing);
  }

  /** With suggestions, one answer per stored article, each a listed article with its suggestions filled in. */
  lemma GetManyWithSuggestions(s: Service, req: GetArticlesRequest, listing: seq<Article>)
    requires IsListing(s.articles, listing) && req.includeSuggested
    requires forall i :: 0 <= i < |listing| ==> Suggested(s, listing[i].id).Ok?
    ensures GetMany(s, req, listing).Ok?
    ensures |GetMany(s, req, listing).value.articles| == |listing| == |s.articles|
    ensures forall i :: 0 <= i < |listing| ==>
              listing[i] in s.articles.Values &&
              GetMany(s, req, listing).value.articles[i] ==
                listing[i].(suggested := Suggested(s, listing[i].id).value)
  {
    ListingFacts(s.articles, listing);
    FillValues(SuggestStep(s), listing);
  }

  /** With suggestions, the failure reported is that of the first listed article whose suggestions do not resolve. */
  lemma GetManyFirstError(s: Service, req: GetArticlesRequest, listing: seq<Article>, k: nat)
    requires req.includeSuggested && k < |listing| && Suggested(s, listing[k].id).Err?
    requires forall j :: 0 <= j < k ==> Suggested(s, listing[j].id).Ok?
    ensures GetMany(s, req, listing) == Err(Suggested(s, listing[k].id).error)
  {
    FillFirstError(SuggestStep(s), listing, k);
  }

  /** Overwriting the first element after `done` in `done + rest`. */
  lemma UpdateAfter<T>(done: seq<T>, rest: seq<T>, x: T)
    requires rest != []
    ensures (done + rest)[|done| := x] == done + [x] + rest[1..]
  {
  }

  /**
   * Fills in the suggestions of `listing` article by article, in place in an array, and stops
   * at the first failure.
   */
  method FillInPlace(s: Service, listing: seq<Article>) returns (r: Result<seq<Article>>, attached: seq<SpanEvent>)
    ensures Traced(r, attached) == Fill(SuggestStep(s), listing)
  {
    ghost var step := SuggestStep(s);
    var a := new Article[|listing|](i requires 0 <= i < |listing| => listing[i]);
    attached := [];
    ghost var done: seq<Article> := [];
    assert listing[0..] == listing && a[..] == done + listing && listing[..0] == [];
    for idx := 0 to a.Length
      invariant a.Length == |listing| && |done| == idx
      invariant a[..] == done + listing[idx..]
      invariant Fill(step, listing[..idx]) == Traced(Ok(done), attached)
    {
      assert a[idx] == (done + listing[idx..])[idx] == listing[idx];
      var sg, sgSpans := GetSuggested(s, a[idx].id);
      assert step(listing[idx].id) == Traced(sg, sgSpans);
      FillStep(step, listing, idx);
      attached := attached + sgSpans;
      if sg.Err? {
        FillStops(step, listing, idx + 1);
        r := Err(sg.error);
        return;
      }
      var filled := a[idx].(suggested := sg.value);
      UpdateAfter(done, listing[idx..], filled);
      assert listing[idx..][1..] == listing[idx + 1..];
      a[idx] := filled;
      done := done + [filled];
    }
    assert listing[a.Length..] == [] && listing[..a.Length] == listing;
    assert done + [] == done;
    r := Ok(a[..]);
  }

  /** Lists the store, then, when suggestions are asked for, fills them in. */
  method GetArticlesEndpoint(s: Service, req: GetArticlesRequest) returns (r: Result<Response>, spans: seq<SpanEvent>)
    ensures exists listing :: IsListing(s.articles, listing) &&
              r == GetMany(s, req, listing) && spans == GetManySpans(s, req, listing)
  {
    var listing, listed := GetArticles(s);
    var inner := listed;
    if !req.includeSuggested {
      r := Ok(ManyArticles(listing));
      assert listed + [] == listed;
    } else {
      var filled, fillSpans := FillInPlace(s, listing);
      r := if filled.Ok? then Ok(ManyArticles(filled.value)) else Err(filled.error);
      inner := listed + fillSpans;
    }
    spans := Bracket("get articles endpoint", inner);
    assert r == GetMany(s, req, listing) && spans == GetManySpans(s, req, listing);
  }
}
