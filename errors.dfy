/**
 * The articles service's errors (apps/articles/articles/errors.go). `NotFound` is the only
 * error type the transport tells apart; every other Go error is a `Failure` carrying the
 * text its Error() method returns.
 */
module Errors {
  import opened Wrappers
  import opened Models

  datatype Error = NotFound(articleId: ArticleID) | Failure(message: string)

  /** A value or the error that stopped its computation. */
  datatype Result<T> = Ok(value: T) | Err(error: Error)

  const NotFoundPrefix: string := "article `"
  const NotFoundSuffix: string := "` was not found"

  /** What err.Error() returns. */
  function Message(e: Error): (m: string)
    ensures e.NotFound? ==> |m| == |e.articleId| + 24
    ensures e.NotFound? ==> m[..9] == NotFoundPrefix && m[|m| - 15..] == NotFoundSuffix
    ensures e.NotFound? ==> m[9..|m| - 15] == e.articleId
    ensures e.Failure? ==> m == e.message
  {
    match e
    case NotFound(id) => NotFoundPrefix + id + NotFoundSuffix
    case Failure(msg) => msg
  }

  /** Reads the identifier back out of a not-found message; None for any other text. */
  function IdOfNotFoundMessage(m: string): (r: Option<ArticleID>)
    ensures r.Some? ==> |m| == |r.value| + 24 && Message(NotFound(r.value)) == m
  {
    if |m| >= 24 && m[..9] == NotFoundPrefix && m[|m| - 15..] == NotFoundSuffix then
      var id := m[9..|m| - 15];
      assert m == NotFoundPrefix + id + NotFoundSuffix by {
        assert m == m[..9] + m[9..|m| - 15] + m[|m| - 15..];
      }
      Some(id)
    else None
  }

  /** The message determines the identifier: reading it back gives the same id. */
  lemma NotFoundMessageRoundTrip(id: ArticleID)
    ensures IdOfNotFoundMessage(Message(NotFound(id))) == Some(id)
  {
  }

  /** Distinct identifiers give distinct messages. */
  lemma NotFoundMessageInjective(a: ArticleID, b: ArticleID)
    requires Message(NotFound(a)) == Message(NotFound(b))
    ensures a == b
  {
    NotFoundMessageRoundTrip(a);
    NotFoundMessageRoundTrip(b);
  }
}
