/**
 * The article record (apps/articles/articles/models.go) and the JSON form that its
 * struct tags give it. JSON itself is modelled as an abstract tree of values; the
 * text produced by encoding/json is not part of this model.
 */
module Models {
  import opened Wrappers

  /** An article identifier is a plain string, compared as a string. */
  type ArticleID = string

  /** An article; `suggested` holds the related articles filled in on the response path. */
  datatype Article = Article(
    id: ArticleID,
    author: string,
    title: string,
    text: string,
    suggested: seq<Article>)

  /** A JSON value. Objects are key/value maps: member order is not modelled. */
  datatype Json =
    | JNull
    | JBool(b: bool)
    | JNum(n: int)
    | JStr(s: string)
    | JArr(items: seq<Json>)
    | JObj(members: map<string, Json>)

  /** A list of strings as a JSON array of strings, in order. */
  function StringArray(xs: seq<string>): (j: Json)
    ensures j.JArr? && |j.items| == |xs|
    ensures forall i :: 0 <= i < |xs| ==> j.items[i] == JStr(xs[i])
  {
    JArr(seq(|xs|, i requires 0 <= i < |xs| => JStr(xs[i])))
  }

  /** The zero value of the struct. */
  const ZeroArticle: Article := Article("", "", "", "", [])

  /** The keys every encoded article carries, whatever its contents. */
  const AlwaysEmitted: set<string> := {"id", "author", "title", "text"}

  /**
   * The JSON object for an article: "id", "author", "title" and "text" always, and
   * "suggested" (`omitempty`) only when there are suggested articles, each of them
   * encoded by the same rules.
   */
  function EncodeArticle(a: Article): (j: Json)
    decreases a
    ensures j.JObj?
    ensures AlwaysEmitted <= j.members.Keys <= AlwaysEmitted + {"suggested"}
    ensures "suggested" in j.members <==> a.suggested != []
    ensures j.members["id"] == JStr(a.id) && j.members["author"] == JStr(a.author)
    ensures j.members["title"] == JStr(a.title) && j.members["text"] == JStr(a.text)
    ensures "suggested" in j.members ==>
              j.members["suggested"].JArr? &&
              |j.members["suggested"].items| == |a.suggested| &&
              forall i :: 0 <= i < |a.suggested| ==>
                j.members["suggested"].items[i] == EncodeArticle(a.suggested[i])
  {
    var fields := map["id" := JStr(a.id), "author" := JStr(a.author),
                      "title" := JStr(a.title), "text" := JStr(a.text)];
    if a.suggested == [] then
      JObj(fields)
    else
      JObj(fields["suggested" := JArr(seq(|a.suggested|, i requires 0 <= i < |a.suggested| =>
                                          EncodeArticle(a.suggested[i])))])
  }

  /**
   * How encoding/json fills a string field of the struct from an object member:
   * an absent key or null leaves the zero value "", a string is taken, any other
   * kind of value is a type error.
   */
  function StringField(members: map<string, Json>, key: string): (r: Option<string>)
    ensures key !in members ==> r == Some("")
    ensures key in members && members[key] == JNull ==> r == Some("")
    ensures key in members && members[key].JStr? ==> r == Some(members[key].s)
    ensures r.Some? ==> key !in members || members[key] == JNull || members[key] == JStr(r.value)
  {
    if key !in members then Some("")
    else match members[key]
      case JNull => Some("")
      case JStr(s) => Some(s)
      case _ => None
  }

  /**
   * Decoding an article by the same struct tags: the exact-key inverse of EncodeArticle.
   * A JSON null leaves the zero Article, as encoding/json does for a struct; unknown keys are
   * ignored, and any other kind of value, or a field of the wrong kind, is a decode error.
   */
  function DecodeArticle(j: Json): (r: Option<Article>)
    decreases j
    ensures j == JNull ==> r == Some(ZeroArticle)
    ensures r.Some? ==> j.JNull? || j.JObj?
    ensures r.Some? && j.JObj? ==>
              StringField(j.members, "id") == Some(r.value.id) &&
              StringField(j.members, "author") == Some(r.value.author) &&
              StringField(j.members, "title") == Some(r.value.title) &&
              StringField(j.members, "text") == Some(r.value.text)
    ensures r.Some? && j.JObj? ==>
              if "suggested" in j.members && j.members["suggested"] != JNull
              then j.members["suggested"].JArr? && |r.value.suggested| == |j.members["suggested"].items|
              else r.value.suggested == []
    ensures r.Some? && j.JObj? && "suggested" in j.members && j.members["suggested"] != JNull ==>
              forall i :: 0 <= i < |j.members["suggested"].items| ==>
                DecodeArticle(j.members["suggested"].items[i]) == Some(r.value.suggested[i])
  {
    match j
    case JNull => Some(ZeroArticle)
    case JObj(m) =>
      var id, author, title, text :=
        StringField(m, "id"), StringField(m, "author"), StringField(m, "title"), StringField(m, "text");
      if id.None? || author.None? || title.None? || text.None? then None
      else if "suggested" !in m || m["suggested"] == JNull then
        Some(Article(id.value, author.value, title.value, text.value, []))
      else if !m["suggested"].JArr? then None
      else
        var items := m["suggested"].items;
        var decoded := seq(|items|, i requires 0 <= i < |items| => DecodeArticle(items[i]));
        if forall i :: 0 <= i < |decoded| ==> decoded[i].Some? then
          Some(Article(id.value, author.value, title.value, text.value,
                       seq(|decoded|, i requires 0 <= i < |decoded| => decoded[i].value)))
        else None
    case _ => None
  }

  /** Encoding and then decoding an article gives back the same record, suggestions included. */
  lemma {:induction false} DecodeEncodeArticle(a: Article)
    decreases a
    ensures DecodeArticle(EncodeArticle(a)) == Some(a)
  {
    var j := EncodeArticle(a);
    if a.suggested != [] {
      var items := j.members["suggested"].items;
      forall i | 0 <= i < |items|
        ensures DecodeArticle(items[i]) == Some(a.suggested[i])
      {
        DecodeEncodeArticle(a.suggested[i]);
      }
      var decoded := seq(|items|, i requires 0 <= i < |items| => DecodeArticle(items[i]));
      assert seq(|decoded|, i requires 0 <= i < |decoded| => decoded[i].value) == a.suggested;
    }
  }

  /** An article without suggestions encodes to exactly the four always-emitted keys. */
  lemma NoSuggestionsNoKey(a: Article)
    requires a.suggested == []
    ensures EncodeArticle(a).members.Keys == AlwaysEmitted
  {
  }
}
