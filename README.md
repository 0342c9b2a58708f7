# Articles and suggestions: a Dafny model

This project models the request pipeline of a two-service tracing demo.

- **Articles service (Go).** It holds an immutable store of articles. It serves
  `GET /articles/v1/` (every article) and `GET /articles/v1/{articleID}/` (one article).
  With `with_suggested=true` in the query, it also fills each article's `suggested` field.
  It does this by asking the suggestions service for ids and looking each one up in the
  store, in order and fail-fast.
- **Suggestions service (Python, Flask).** It holds a mapping from article id to suggested
  ids and answers with the list, or 404 when there is none.
- **The Python `Trace` decorator.** It wraps functions so that each traced call inside a
  request opens a span. Two flags kept in the request's `environ` decide this:
  `DISABLE_TRACING` and `DO_NOT_PROPAGATE_CONTEXT`. It also scans a class's source lines
  for methods that are already decorated.

Each file is one module:

- `wrappers.dfy`: the `Option` type.
- `models.dfy`: the article record and its JSON form.
- `errors.dfy`: the error values and their messages.
- `spans.dfy`: the span-event log and what a balanced log is.
- `service.dfy`: the service layer.
- `endpoint.dfy`: the two go-kit endpoints.
- `transport.dfy`: routing, request decoding, response and error encoding, and a
  `ResponseWriter` class.
- `suggestions.dfy`: the Python service and views.
- `pytrace.dfy`: the tracing decorator.
- `scenarios.dfy`: the two services wired together, and concrete requests.

Wherever a Go function opens an OpenTelemetry span, the model returns the span events it
emits (`Start`, `Attr`, `End`) next to its result. Lemmas show that every path closes what
it opens.

The HTTP client and the remote suggestions service together are one function,
`exchange : url -> Reply`. A `Reply` is either one of the four failures the Go code checks or
a status with a parsed JSON body. The iteration order of Go maps is left open: a listing is
any sequence whose multiset equals the store's records.

Behaviour worth knowing, which the model follows as the code has it:

- **Stored suggestions.** GetArticle returns the stored record as it is, suggestions
  included. `GetArticleCanonical` shows that a found article has the requested id and empty
  suggestions only for a store in which every record sits under its own id and has none.
- **Error status.** Only `NotFound` is answered with 404. Every other error, such as a failed
  or undecodable suggestions call, is answered with status 200 and an `{"error": ...}` body
  (`ErrorReplyStatus`).
- **No suggestions.** The suggestions service answers 404 with an object body when it has
  nothing for an article. The articles service decodes that object as a list of ids, which
  fails. A request with `with_suggested=true` for such an article therefore gets 200 with
  a JSON type error (`NoSuggestionsOverHttp`). It does not get the article without
  suggestions.
- **Empty listing.** When the store is empty, the go-kit envelope's `articles` is a nil
  slice. It is encoded as JSON `null`, not `[]` (`EncodeEnvelope`).

## Model

| member | source | states |
|---|---|---|
| Models.EncodeArticle | apps/articles/articles/models.go:5-11 | "id", "author", "title" and "text" are always present. "suggested" is present exactly when the article has suggestions (`omitempty`), and each suggestion is encoded by the same rules, in order |
| Models.StringField | apps/articles/articles/models.go:6-9 | a string field of the struct decodes from an absent key or null as "", from a string as that string, and from nothing else |
| Models.DecodeArticle | apps/articles/articles/models.go:5-11 | JSON null gives the zero article, as encoding/json leaves a struct on null. Only an object or null decodes; each string field is read by the StringField rule, and a present, non-null "suggested" must be an array whose element i decodes to suggestion i. An absent or null "suggested" gives none |
| Models.DecodeEncodeArticle | apps/articles/articles/models.go:5-11 | decoding an encoded article gives back the same record, nested suggestions included |
| Models.NoSuggestionsNoKey | apps/articles/articles/models.go:10 | an article without suggestions encodes to exactly the four always-present keys |
| Errors.Message | apps/articles/articles/errors.go:9-11 | a NotFound message is "article `" + id + "` was not found" (length \|id\|+24, with the id between the fixed words); any other error's text is kept as it is |
| Errors.IdOfNotFoundMessage | apps/articles/articles/errors.go:9-11 | recovering an id from a message gives only an id whose NotFound message is exactly that text |
| Errors.NotFoundMessageRoundTrip | apps/articles/articles/errors.go:9-11 | the id is recovered from its own NotFound message |
| Errors.NotFoundMessageInjective | apps/articles/articles/errors.go:9-11 | two NotFound errors with the same message are about the same id |
| ArticleService.SuggestionsUrl | apps/articles/articles/service.go:56 | the URL is the host, then "/suggestions/v1/", then the id |
| ArticleService.SuggestionsUrlInjective | apps/articles/articles/service.go:56 | for a fixed host, the URL determines the id |
| ArticleService.GetArticle | apps/articles/articles/service.go:29-45 | a span "get article" tagged with the id. The lookup succeeds exactly when the id is stored, gives the stored record, and otherwise fails with NotFound(id) |
| ArticleService.GetArticleCanonical | apps/articles/articles/service.go:37-44 | from a store whose records sit under their own ids and have no suggestions, a found article has the id asked for and no suggestions |
| ArticleService.DecodeIds | apps/articles/articles/service.go:78-81 | the elements decode exactly when each is a string or null, one-to-one: a string as itself, null as "". Otherwise the first element of another kind gives "json: cannot unmarshal <kind> into Go value of type articles.ArticleID" |
| ArticleService.DecodeIdList | apps/articles/articles/service.go:78-81 | null decodes to the empty list, and an array is decoded element by element by the DecodeIds rules. A non-array top level is "json: cannot unmarshal <kind> into Go value of type []articles.ArticleID", and every decode error is a generic failure, never NotFound |
| ArticleService.DecodeIdListRoundTrip | apps/articles/articles/service.go:78-81 | an array of strings decodes to exactly those ids, in order |
| ArticleService.FetchIds | apps/articles/articles/service.go:56-81 | each of the four failures (URL, request, body read, JSON syntax) is returned unchanged. A received body is decoded as an id list |
| ArticleService.FetchIdsIgnoresStatus | apps/articles/articles/service.go:68-81 | the HTTP status of the reply has no influence on the ids obtained |
| ArticleService.Looked | apps/articles/articles/service.go:85-92 | resolution makes at most one lookup per id |
| ArticleService.ResolveAll | apps/articles/articles/service.go:83-94 | a resolved list has one article per id, and every id was stored. A failure is always NotFound for one of the ids that is missing from the store |
| ArticleService.ResolveAllOk | apps/articles/articles/service.go:83-94 | resolution succeeds exactly when every id is stored, and then yields store[id] for each id, in gateway order |
| ArticleService.ResolveAllFirstMissing | apps/articles/articles/service.go:85-89 | the first missing id fails the whole resolution with NotFound for that id |
| ArticleService.LookedAt | apps/articles/articles/service.go:85-92 | lookups stop right after the first missing id, or cover every id when none is missing |
| ArticleService.LookupSpansBalanced | apps/articles/articles/service.go:85-92 | the "get article" spans of the lookups are all closed |
| ArticleService.SuggestedSpansBalanced | apps/articles/articles/service.go:47-53 | the "get suggestion" span log is balanced on every path |
| ArticleService.GatewayFailureNoLookup | apps/articles/articles/service.go:56-81 | a gateway failure is returned as it is, and no article is looked up |
| ArticleService.GetSuggested | apps/articles/articles/service.go:47-95 | the loop yields exactly the gateway-then-resolve result and the span log of the lookups it made |
| ArticleService.ListingFacts | apps/articles/articles/service.go:101-107 | a listing has one entry per key and holds exactly the store's records |
| ArticleService.GetArticles | apps/articles/articles/service.go:97-108 | the result is a permutation of the store's records (as multisets), inside a span "get articles" |
| Endpoints.GetArticleEndpoint | apps/articles/articles/endpoint.go:27-51 | the endpoint's result and span log are those of the get-one specification |
| Endpoints.GetOne | apps/articles/articles/endpoint.go:27-51 | an id missing from the store is NotFound(id). A success answers with the stored article, whose fields are kept and whose `suggested` is changed only when suggestions were asked for |
| Endpoints.GetOneMissing | apps/articles/articles/endpoint.go:33-36 | an id not in the store is NotFound(id), and no suggestion call is made |
| Endpoints.GetOneOk | apps/articles/articles/endpoint.go:33-49 | success happens exactly when the id is stored and, with suggestions asked for, their resolution succeeds. The article is the stored one, with `suggested` replaced by the resolved list when asked |
| Endpoints.GetOneSuggestionFailure | apps/articles/articles/endpoint.go:38-42 | a failing suggestion resolution fails the endpoint with that error (no partial response) |
| Endpoints.GetOneSpansBalanced | apps/articles/articles/endpoint.go:29-30 | the "get article endpoint" span log is balanced |
| Endpoints.FillOkIff | apps/articles/articles/endpoint.go:65-73 | filling every article succeeds exactly when each article's suggestion call succeeds |
| Endpoints.FillValues | apps/articles/articles/endpoint.go:66-73 | when all calls succeed, article i keeps its fields and receives its own suggestions, in place and in order |
| Endpoints.FillStops | apps/articles/articles/endpoint.go:68-70 | after the first failure, later articles change neither the result nor the span log |
| Endpoints.FillFirstError | apps/articles/articles/endpoint.go:66-70 | the batch fails with the error of the first failing article |
| Endpoints.FillSpansBalanced | apps/articles/articles/endpoint.go:66-73 | the spans of the suggestion calls are balanced |
| Endpoints.Fill | apps/articles/articles/endpoint.go:66-73 | a successful fill has one article per input article, each keeping all of its fields except `suggested` |
| Endpoints.GetManySpansBalanced | apps/articles/articles/endpoint.go:55-56 | the "get articles endpoint" span log is balanced |
| Endpoints.GetMany | apps/articles/articles/endpoint.go:53-80 | without the flag the answer is the listing unchanged. With it a success answers with one article per listed record, each keeping its fields except `suggested`. Only a request that asks for suggestions can fail |
| Endpoints.GetManyPlain | apps/articles/articles/endpoint.go:60-78 | without suggestions the answer is the listing from GetArticles, unchanged: as a multiset exactly the store's records, one entry per key |
| Endpoints.GetManyOkIff | apps/articles/articles/endpoint.go:65-73 | with suggestions the batch succeeds exactly when every article's suggestion call succeeds |
| Endpoints.GetManyWithSuggestions | apps/articles/articles/endpoint.go:65-78 | then article i of the answer is listing entry i with its own suggestions attached, one entry per stored record |
| Endpoints.GetManyFirstError | apps/articles/articles/endpoint.go:66-70 | the first failing suggestion call aborts the whole batch with its error |
| Endpoints.FillInPlace | apps/articles/articles/endpoint.go:66-73 | the in-place loop over the article array yields exactly the fill specification and its span log |
| Endpoints.GetArticlesEndpoint | apps/articles/articles/endpoint.go:53-80 | for some listing of the store, the result and span log are those of the get-many specification |
| Transport.ArticleSegment | apps/articles/articles/transport.go:39 | a matched path is the prefix, a non-empty segment without '/', then '/' |
| Transport.MatchRoute | apps/articles/articles/transport.go:38-41 | a method mismatch is a verb other than GET. The listing route is matched only on "/articles/v1/". The article route captures exactly "articleID", and the path is the prefix, that id, then "/" |
| Transport.RouteOfArticlePath | apps/articles/articles/transport.go:39 | such a path routes to get-one with that id under GET, and is a method mismatch under any other verb |
| Transport.GetOneRouteShape | apps/articles/articles/transport.go:39 | a get-one match means GET and a path built from the captured id |
| Transport.GetManyRouteShape | apps/articles/articles/transport.go:38 | get-many is matched exactly by GET on "/articles/v1/" |
| Transport.NoRouteShape | apps/articles/articles/transport.go:38-41 | no route matches exactly the paths that fit neither template |
| Transport.QueryGet | apps/articles/articles/transport.go:53 | the first value for the key, or "" when it has none |
| Transport.ParseBool | apps/articles/articles/transport.go:53 | true exactly for 1, t, T, TRUE, true, True; false exactly for 0, f, F, FALSE, false, False; an error for anything else |
| Transport.WithSuggested | apps/articles/articles/transport.go:53 | the flag is set exactly when the first with_suggested value is a true literal; a parse error reads as false |
| Transport.WithSuggestedDefault | apps/articles/articles/transport.go:64 | an absent, empty or unparsable with_suggested gives false |
| Transport.DecodeGetArticleRequest | apps/articles/articles/transport.go:44-58 | it fails exactly when the route carries no articleID, with the fixed message; otherwise it gives the id and the flag. The span log is "decodeGetArticleRequest" |
| Transport.DecodeGetArticlesRequest | apps/articles/articles/transport.go:60-68 | the flag is set exactly for a true literal, and the span log is "decodeGetArticlesRequest" |
| Transport.EncodeEnvelope | apps/articles/articles/transport.go:78-79 | {"article": article} for one article. {"articles": [...]} for a listing, where an empty listing is the nil slice and encodes as null |
| Transport.OneEnvelopeRoundTrip | apps/articles/articles/endpoint.go:15-17 | the article in a get-one body decodes back to the article sent |
| Transport.ManyEnvelopeRoundTrip | apps/articles/articles/endpoint.go:23-25 | entry i of a get-many body decodes back to article i |
| Transport.ErrorStatus | apps/articles/articles/transport.go:92-97 | 404 exactly for NotFound, 200 for every other error |
| Transport.ErrorBody | apps/articles/articles/transport.go:99-101 | the error body is an object whose only member "error" holds the error's message |
| Transport.ErrorBodyNamesMissingId | apps/articles/articles/transport.go:99-101 | a NotFound error body names the missing id, which can be read back |
| Transport.EncodeResponse | apps/articles/articles/transport.go:70-80 | sets the JSON content type, writes the envelope once, with an implicit 200 unless a status was already sent, inside "encodeResponse" |
| Transport.ResponseWriter.SetHeader | apps/articles/articles/transport.go:78 | Header().Set changes only the pending header; the status, the sent header and the body stay as they were |
| Transport.ResponseWriter.WriteHeader | apps/articles/articles/transport.go:92-97 | the first WriteHeader sends its status and the pending header; a later one changes nothing; the body is untouched |
| Transport.ResponseWriter.Write | apps/articles/articles/transport.go:79 | Write appends one chunk to the body; when no status was sent yet, it first sends 200 with the pending header |
| Transport.EncodeError | apps/articles/articles/transport.go:86-102 | sets the JSON content type, sends the error status if none was sent, then writes {"error": message}, inside "encodeError" |
| Transport.Encoded | apps/articles/articles/transport.go:70-102 | an encoded result has status 200 or 404, and 404 exactly for a NotFound error |
| Transport.Encode | apps/articles/articles/transport.go:20-22 | on a fresh writer, the reply written is the encoded result (errors go to the error encoder) |
| Transport.ServeMany | apps/articles/articles/transport.go:24-29 | decode, endpoint and encode of get-many on a fresh writer give the specified reply and spans, for some listing |
| Transport.ServeOne | apps/articles/articles/transport.go:31-36 | decode, endpoint and encode of get-one on a fresh writer give the specified reply and spans |
| Transport.RespondMany | apps/articles/articles/transport.go:24-29 | the listing reply is 200 or 404, with the JSON content type and one body chunk |
| Transport.RespondOne | apps/articles/articles/transport.go:31-36 | the article reply is 200 or 404, with the JSON content type and one body chunk. A route without an articleID fails decoding and is answered with the error reply for "articleID is missing in parameters": status 200 and that message as the error body |
| Transport.Respond | apps/articles/articles/transport.go:17-42 | every reply is 200, 404 or 405, and 405 exactly on a method mismatch |
| Transport.Serve | apps/articles/articles/transport.go:17-42 | the handler writes to the writer exactly the reply routing and the chosen route specify (404 page, 405, or a served route) |
| Transport.GetArticleMissingReply | apps/articles/articles/transport.go:86-102 | GET of a missing id is 404 with {"error": "article `id` was not found"} |
| Transport.GetArticleFoundReply | apps/articles/articles/transport.go:70-80 | GET of a stored id without suggestions is 200 with {"article": the stored record} |
| Transport.ErrorReplyStatus | apps/articles/articles/transport.go:92-101 | an error reply is 404 exactly for NotFound; any other error is 200 with the error body |
| Transport.EncodedSpansBalanced | apps/articles/articles/transport.go:71-72 | the encoder span log is balanced |
| Transport.RespondManySpansBalanced | apps/articles/articles/transport.go:24-29 | the full get-many span log is balanced |
| Transport.RespondOneSpansBalanced | apps/articles/articles/transport.go:31-36 | the full get-one span log is balanced |
| Transport.RespondSpansBalanced | apps/articles/articles/transport.go:17-42 | the span log of any request is balanced |
| Suggestions.SuggestionsService.constructor | apps/suggestions/suggestions/service.py:8-11 | the service holds the mapping it was loaded with |
| Suggestions.SuggestionsService.GetSuggestions | apps/suggestions/suggestions/service.py:13-14 | the whole mapping, same keys and same lists |
| Suggestions.SuggestionsService.GetSuggestionsForArticle | apps/suggestions/suggestions/service.py:16-17 | Some exactly for a present id, with its stored list. None, not an error, for an absent one |
| Suggestions.NoSuggestionsMessage | apps/suggestions/suggestions/views.py:26 | the id between "there are no suggestions for `" and "` article" |
| Suggestions.Index | apps/suggestions/suggestions/views.py:8-13 | status 200 and an object with exactly the mapping's keys, each with its list as a JSON array |
| Suggestions.GetByArticleId | apps/suggestions/suggestions/views.py:16-26 | the view answers 200 with a non-empty JSON array, or 404 with an object whose only key is "errors" |
| Suggestions.GetByArticleIdOk | apps/suggestions/suggestions/views.py:16-26 | 200 exactly when the id has a non-empty list, and then the body is that list |
| Suggestions.GetByArticleIdMissing | apps/suggestions/suggestions/views.py:22-26 | an absent id and an empty list alike get 404 with one message naming the id |
| Suggestions.NoSuggestionsMessageInjective | apps/suggestions/suggestions/views.py:26 | the 404 message determines the id |
| Scenarios.NoSuggestionsIsFailure | apps/articles/articles/service.go:78-81 | the Python 404 body fails to decode as an id list, a generic failure whose error reply is 200 |
| Scenarios.SuggestionsAreRead | apps/suggestions/suggestions/views.py:23-24 | a Python 200 list is read by the Go client as exactly that list |
| Scenarios.NoSuggestionsOverHttp | apps/articles/articles/transport.go:86-102 | GET with with_suggested=true of a stored article that has no suggestions is 200 with the JSON type error |
| Scenarios.SuggestionOrder | apps/articles/articles/service.go:83-94 | gateway ids ["b", "c"] attach [store["b"], store["c"]], in that order |
| Scenarios.SuggestionMissing | apps/articles/articles/service.go:85-89 | gateway ids ["b", "x"] with "x" missing fail with NotFound("x") |
| Scenarios.ExampleFound | apps/articles/articles/transport.go:70-80 | GET /articles/v1/a/ on a one-article store gives 200 and the article object |
| Scenarios.ExampleMissing | apps/articles/articles/transport.go:86-102 | GET /articles/v1/z/ on it gives 404 and "article `z` was not found" |
| PyTrace.LStrip | apps/suggestions/tracing.py:30 | the longest suffix that does not begin with whitespace; everything removed is whitespace |
| PyTrace.RStrip | apps/suggestions/tracing.py:30 | the longest prefix that does not end with whitespace; everything removed is whitespace |
| PyTrace.Strip | apps/suggestions/tracing.py:29 | the result is a piece of s with only whitespace removed before and after it, and it neither begins nor ends with Python whitespace |
| PyTrace.StripIdempotent | apps/suggestions/tracing.py:30 | stripping twice is stripping once |
| PyTrace.IndexOf | apps/suggestions/tracing.py:31 | the first position where the separator occurs, or None when it occurs nowhere |
| PyTrace.Split | apps/suggestions/tracing.py:31 | a split has at least one piece |
| PyTrace.JoinSplit | apps/suggestions/tracing.py:31 | joining the pieces with the separator gives the string back |
| PyTrace.SplitPiecesFree | apps/suggestions/tracing.py:34-35 | no piece contains the separator |
| PyTrace.SplitInTwo | apps/suggestions/tracing.py:35 | two pieces are one separator between two texts free of it |
| PyTrace.DefNameShape | apps/suggestions/tracing.py:34-37 | a name is read only from a line with exactly one "def"; it is the text after it up to "(", stripped |
| PyTrace.BeforeParen | apps/suggestions/tracing.py:30 | the first piece of split("(") is the text up to its first "(": a prefix that holds no "(", followed either by the end of the text or by a "(" |
| PyTrace.IsDecoratorLine | apps/suggestions/tracing.py:29-32 | a line the scan takes as a decorator line holds "@" followed by the decorator name |
| PyTrace.DefName | apps/suggestions/tracing.py:34-36 | a name read from the line after a decorator holds no "(" and neither begins nor ends with whitespace |
| PyTrace.Scan | apps/suggestions/tracing.py:28-39 | IndexError exactly when the last line is a decorator line; otherwise the names collected |
| PyTrace.AlreadyDecoratedMethods | apps/suggestions/tracing.py:25-39 | the scan of a class's lines under its decorator's name: lines are tested with IsDecoratorLine and names read with DefName, so NamesMembership describes exactly what is collected |
| PyTrace.ScanLines | apps/suggestions/tracing.py:28-37 | the loop gives the scan's result |
| PyTrace.NamesBound | apps/suggestions/tracing.py:28-37 | at most one name per line |
| PyTrace.NamesMembership | apps/suggestions/tracing.py:32-37 | a name is collected exactly when it is read from the line after some decorator line |
| PyTrace.NamesInOrder | apps/suggestions/tracing.py:28-37 | names come in line order: the scan of fewer lines is a prefix of the scan of more |
| PyTrace.IsTracingDecorator | apps/suggestions/tracing.py:41-42 | a callable is taken for the decorator's own wrapper exactly when it is a wrapped_f closure or a plain function that happens to be named wrapped_f |
| PyTrace.Decorate | apps/suggestions/tracing.py:44-48 | a callable named wrapped_f is returned unchanged; any other is wrapped with the decorator's flag |
| PyTrace.DecorateIdempotent | apps/suggestions/tracing.py:41-48 | decorating a decorated function changes nothing; the first decorator's flag stays |
| PyTrace.DecorateFixed | apps/suggestions/tracing.py:41-42 | decoration leaves a callable unchanged exactly when its name is wrapped_f |
| PyTrace.Invoke | apps/suggestions/tracing.py:80-122 | a call's span events and the new environ flags are those of the run specification |
| PyTrace.InvokeBody | apps/suggestions/tracing.py:103 | the calls of a function body run in order, each from the flags the previous one left |
| PyTrace.SpanName | apps/suggestions/tracing.py:111 | the span name is the request path, then " (", then the qualified name, then ")" |
| PyTrace.RunCall | apps/suggestions/tracing.py:80-122 | one call's span events and final flags. The flags are only ever set, never cleared, and a call that opens a span leaves DO_NOT_PROPAGATE_CONTEXT set |
| PyTrace.RunPrefix | apps/suggestions/tracing.py:103 | the same for the first n calls of a body, each run from the flags the previous one left |
| PyTrace.OutsideRequestInert | apps/suggestions/tracing.py:122 | outside a request context no span is opened and no flag changes |
| PyTrace.DisabledInert | apps/suggestions/tracing.py:107-108 | once DISABLE_TRACING is set, no span is opened and the flags stay as they are |
| PyTrace.DisablingCall | apps/suggestions/tracing.py:99-103 | a wrapper with disable_tracing opens no span and sets DISABLE_TRACING |
| PyTrace.OnlyFirstSpanUpstream | apps/suggestions/tracing.py:86-118 | only the first event can continue the upstream trace, and none can once DO_NOT_PROPAGATE_CONTEXT is set |
| PyTrace.OnlyFirstSpanUpstreamPrefix | apps/suggestions/tracing.py:113-118 | the same for a sequence of calls in one request |
| PyTrace.DisableSilencesLaterCalls | apps/suggestions/tracing.py:99-108 | after a disabling call, later calls of the same request add no span |
| PyTrace.RunBalanced | apps/suggestions/tracing.py:113-120 | every span is closed, innermost first |
| PyTrace.RunPrefixBalanced | apps/suggestions/tracing.py:113-120 | the same for a sequence of calls |
| PyTrace.ViewRequestSpans | apps/suggestions/suggestions/views.py:16-22 | a fresh request to the traced view: its span continues upstream, and the service call's span nests under it |
| PyTrace.DisabledViewRequest | apps/suggestions/tracing.py:99-103 | the same view with disable_tracing opens no span at all |

## Left out

- apps/articles/main.go, tracing/provider.go and tracing/middleware.go are not part of this model. They cover process start-up, exporter set-up and the middleware span named after the method and path. main.go's `http.Client` is abstracted as `exchange`.
- `NewService` (service.go:110-130) is left out: it reads and parses the snapshot file, which is I/O. The model takes the parsed store as given.
- The store is a `map[ArticleID]*Article` (service.go:23). A snapshot entry `null` becomes a nil pointer, and GetArticle (service.go:44) and GetArticles (service.go:104) would dereference it and panic. The model's store maps ids to article values, so it cannot represent a nil entry or that panic.
- Models.DecodeArticle: keys are matched exactly. encoding/json also accepts a key that differs only in letter case (`{"ID": "x"}` sets the id), and the model does not. The round-trip lemmas only decode what EncodeArticle wrote, which uses the exact keys.
- Suggestions.SuggestionsService.constructor: takes the loaded mapping as its argument. Opening the file and `json.load` (service.py:10-11) are I/O, and the case where the file does not parse as a mapping of lists is not modelled.
- The byte-level JSON encoding and decoding (`json.NewEncoder`, `io.ReadAll` with the syntax check) is left out. JSON is an abstract value, and a body that does not parse is the `Unparsable` reply.
- URL parsing, gorilla/mux path cleaning, redirects and percent-decoding are left out. A route is matched on the path text as given.
- `errorer` (transport.go:82-84) is not modelled as a branch: no response type of the service implements it, so `encodeResponse` never takes that branch.
- Contexts, cancellation and concurrency of the HTTP server are left out, and so are span timestamps and status.
- The reflection-based class decoration in tracing.py (lines 51-78: `inspect`, `vars`, `setattr`) and `OTLPProvider` (lines 127-145) are left out. The model covers the scan of source lines that the class decoration relies on. A class's methods then enter `PyTrace.Invoke` as already wrapped callables.
- Header-based context extraction (tracing.py:94-97) is reduced to the parent kind `Upstream`. The trace identifiers themselves are not modelled.
- Python exceptions raised by the wrapped function, and spans ended by them, are left out.
- apps/suggestions/app.py, containers.py and scripts/generate_mocks.py are not part of this model. They cover application wiring and a data generator.
- PyTrace.Split: requires a non-empty separator. Python's `str.split` raises ValueError for an empty separator, and the source only splits on literals.
