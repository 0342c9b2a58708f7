/**
 * The suggestions service (apps/suggestions/suggestions/service.py and views.py): a mapping
 * from article id to the ids suggested for it, loaded once, and the two Flask views that
 * answer from it. Loading the JSON file is left to the caller, which hands the loaded
 * mapping to the constructor.
 */
module Suggestions {
  import opened Wrappers
  import opened Models

  class SuggestionsService {
    var suggestions: map<string, seq<string>>

    constructor(loaded: map<string, seq<string>>)
      ensures suggestions == loaded
    {
      suggestions := loaded;
    }

    /** get_suggestions: the whole loaded mapping. */
    function GetSuggestions(): (m: map<string, seq<string>>)
      reads this
      ensures m.Keys == suggestions.Keys && forall k :: k in m ==> m[k] == suggestions[k]
    {
      suggestions
    }

    /** get_suggestions_for_article: dict.get, so an absent id gives None rather than an error. */
    function GetSuggestionsForArticle(articleId: string): (r: Option<seq<string>>)
      reads this
      ensures r.Some? <==> articleId in suggestions
      ensures r.Some? ==> r.value == suggestions[articleId]
    {
      if articleId in suggestions then Some(suggestions[articleId]) else None
    }
  }

  /** What a view returns to Flask: a status and the JSON that jsonify produces. */
  datatype ViewResponse = ViewResponse(status: int, body: Json)

  const NoSuggestionsPrefix: string := "there are no suggestions for `"
  const NoSuggestionsSuffix: string := "` article"

  /** The text of the 404 answer: the id between fixed words. */
  function NoSuggestionsMessage(articleId: string): (m: string)
    ensures |m| == |NoSuggestionsPrefix| + |articleId| + |NoSuggestionsSuffix|
    ensures m[..|NoSuggestionsPrefix|] == NoSuggestionsPrefix
    ensures m[|NoSuggestionsPrefix|..|m| - |NoSuggestionsSuffix|] == articleId
    ensures m[|m| - |NoSuggestionsSuffix|..] == NoSuggestionsSuffix
  {
    NoSuggestionsPrefix + articleId + NoSuggestionsSuffix
  }

  /** index: 200 with the whole mapping, each id's list as a JSON array. */
  function Index(svc: SuggestionsService): (r: ViewResponse)
    reads svc
    ensures r.status == 200 && r.body.JObj?
    ensures r.body.members.Keys == svc.suggestions.Keys
    ensures forall k :: k in svc.suggestions ==> r.body.members[k] == StringArray(svc.suggestions[k])
  {
    var m := svc.GetSuggestions();
    ViewResponse(200, JObj(map k | k in m :: StringArray(m[k])))
  }

  /**
   * get_by_article_id: 200 with the list when there is a non-empty one; otherwise, for an
   * absent id and for an empty list alike, 404 with a single error message.
   */
  function GetByArticleId(svc: SuggestionsService, articleId: string): (r: ViewResponse)
    reads svc
    ensures r.status == 200 || r.status == 404
    ensures r.status == 200 ==> r.body.JArr? && r.body.items != []
    ensures r.status == 404 ==> r.body.JObj? && r.body.members.Keys == {"errors"}
  {
    match svc.GetSuggestionsForArticle(articleId)
    case Some(xs) =>
      if |xs| > 0 then ViewResponse(200, StringArray(xs))
      else ViewResponse(404, JObj(map["errors" := JArr([JStr(NoSuggestionsMessage(articleId))])]))
    case None => ViewResponse(404, JObj(map["errors" := JArr([JStr(NoSuggestionsMessage(articleId))])]))
  }

  /** The answer is 200 exactly when the id has a non-empty list, and then carries that list. */
  lemma GetByArticleIdOk(svc: SuggestionsService, articleId: string)
    ensures GetByArticleId(svc, articleId).status == 200 <==>
              articleId in svc.suggestions && svc.suggestions[articleId] != []
    ensures GetByArticleId(svc, articleId).status == 200 ==>
              GetByArticleId(svc, articleId).body == StringArray(svc.suggestions[articleId])
  {
  }

  /** Otherwise it is 404 with one message naming the id; an empty list is answered like an absent id. */
  lemma GetByArticleIdMissing(svc: SuggestionsService, articleId: string)
    requires articleId !in svc.suggestions || svc.suggestions[articleId] == []
    ensures GetByArticleId(svc, articleId) ==
              ViewResponse(404, JObj(map["errors" := JArr([JStr(NoSuggestionsMessage(articleId))])]))
  {
  }

  /** The 404 message determines the id it was about. */
  lemma NoSuggestionsMessageInjective(a: string, b: string)
    requires NoSuggestionsMessage(a) == NoSuggestionsMessage(b)
    ensures a == b
  {
    var m := NoSuggestionsMessage(a);
    assert a == m[|NoSuggestionsPrefix|..|m| - |NoSuggestionsSuffix|];
  }
}
