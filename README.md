# White Raven Tales story search: a verified model of the search core

This project models in Dafny the deterministic logic inside `QdrantStorySearch` (`app.py`), the
service behind a semantic search over gothic horror stories. The service sits between a Flask
API, an Ollama embedding endpoint and a Qdrant vector store. The model covers the logic that
sits between those services:

- **Filter translation** (`filters.dfy`, module `Filters`). The optional `mood`, `min_quality`,
  `min_length`, `max_length` and `source` fields of a search request become an ordered list of
  Qdrant field conditions. The list is wrapped as a `must` conjunction, or dropped when empty.
  Python truthiness is kept: `0`, `""` and `[]` impose nothing. The conditions have a meaning:
  `MatchAny` is membership, `MatchValue` is equality, and a range has inclusive bounds with the
  missing side unbounded. A translated filter is proved to accept exactly the payloads that
  meet every supplied constraint.
- **Result formatting** (`story.dfy`, module `Story`). A point from the store becomes the API's
  story record. Each missing payload key gets its documented default. The preview is cut to
  200 characters plus `"..."`. The id is rendered as a string, with integer ids in canonical
  decimal. Two kinds of point are kept apart. A searched point (`Hit`, qdrant-client's
  `ScoredPoint`) has a similarity score. A listed or retrieved point (`Record`) has none.
- **Statistics over a sample** (`stats.dfy`, module `Stats`). The average is taken over the
  present, non-zero quality scores, with 5.0 when there are none. The model also counts the
  distinct non-empty moods, using the loop that fills the mood set.
- **Orchestration and fallbacks** (`search.dfy`, module `Search`). The search endpoint rejects a
  query that is blank after `strip()`. `semantic_search` returns `[]` when there is no
  embedding or when the store fails. `recent_stories` and `top_stories` fall back to
  `get_any_stories` with the same limit. `random_story` and `get_story_by_id` return nothing
  on an empty result. `get_moods` returns the fixed mood list. The listing operations are
  modelled twice: as written and as intended (see "## Findings").

The external services are parameters. The embedder is a function
`string -> Option<seq<real>>`. The vector search is a function of the vector, the query filter
and the limit. The scroll is a function of the scroll filter and the limit. So the model shows
which filter and limit each search and listing operation hands to the store. The retrieval by
id is given by its outcome, `Option<seq<Record>>`. `get_stats` takes two outcomes: the point
count from `get_collection`, and the payloads from its unfiltered scroll of up to 100 records.
In every case `None` stands for a call that raised.

Python semantics kept explicitly:
- `dict.get(key, default)` on a missing key gives the default.
- `not query_vector` is true for `None` and for an empty vector.
- `str.strip()` strips exactly the characters `str.isspace` accepts.
- The average is an exact `real`, not a rounded float.

Two consequences of the code are worth stating. `min_quality: 0` is falsy and adds no
condition. The two length bounds form one range, and a payload must meet both sides.

## Model

| member | source | states |
|---|---|---|
| `Filters.FilterConditions` | app.py:72-115 | The conditions for a filter: mood, quality, length and source, each at most once, so at most four; none exactly when the filter constrains nothing |
| `Filters.QueryFilterOf` | app.py:123 | The query filter handed to the store is absent exactly when the filter constrains nothing; otherwise it is `must` over one to four translated conditions |
| `Filters.BuildFilterConditions` | app.py:72-115 | Building the conditions by successive appends gives `FilterConditions(filters)`, and the result accepts a payload exactly when the documented filter semantics `Accepts` do |
| `Filters.ConditionsMeaning` | app.py:74-115 | For every filter and payload: all translated conditions hold iff the mood is one of the listed moods (when the list is non-empty), quality ≥ a truthy `min_quality`, length within the truthy bounds, and source equals a truthy `source` |
| `Filters.QueryFilterMeaning` | app.py:123 | The query filter handed to the store (`must` over the conditions, or none) admits exactly the payloads the filter accepts |
| `Filters.UnconstrainedIsUnfiltered` | app.py:72-123 | `query_filter` is `None` iff the filter is absent or has no truthy constraint, and such a filter accepts every payload: the search is an unfiltered one |
| `Filters.ConditionsOrdered` | app.py:72-115 | At most four conditions, with strictly increasing keys in the order mood, quality, length, source, so there is at most one length condition |
| `Filters.ConditionKeys` | app.py:76-115 | A key has a condition iff its field is truthy: a non-empty mood list, a non-zero `min_quality`, a non-zero `min_length` or `max_length`, a non-empty `source` |
| `Filters.LengthRangeMeaning` | app.py:94-106 | The length range carries `gte` only for a truthy `min_length` and `lte` only for a truthy `max_length`; an unsupplied side admits every length |
| `Filters.ThemesIgnored` | app.py:64 | The documented `themes` filter never changes the conditions built |
| `Story.Decimal` | app.py:139 | `str(n)` of an integer id is a non-empty string of decimal digits with no leading zero |
| `Story.DecimalRoundTrip` | app.py:139 | Reading back the rendered integer id gives the id |
| `Story.DecimalInjective` | app.py:139 | Distinct integer ids render as distinct strings |
| `Story.IdString` | app.py:139 | A UUID id is kept verbatim; an integer id becomes digits whose value is the id |
| `Story.Preview` | app.py:135-136 | The preview has at most 203 characters and starts with the first min(len, 200) characters of the content; it is the content when that has at most 200 characters, else the first 200 plus `"..."` |
| `Story.PreviewUnchangedIff` | app.py:136 | The preview equals the content iff the content has at most 200 characters, or has exactly 203 ending in `"..."` |
| `Story.Formatted` | app.py:133-151 | The record built from a point: its payload completed from the documented defaults, `str(id)` as id, the score given, and the preview of the content |
| `Story.FormatResult` | app.py:133-151 | A searched point's result: its payload completed from the documented defaults, `str(id)` as id, its score unchanged, and the preview of the content |
| `Story.FormatRecord` | app.py:133-151 | A listed record formatted as intended: the same completed fields, `str(id)` as id, no score |
| `Story.RecordFormatsLikeHit` | app.py:133-151 | A record formatted as intended carries the same story as the same point searched; only the score differs |
| `Story.FormatFieldByField` | app.py:141-150 | Field by field: a present key passes through unchanged; a missing one becomes "Untitled", "", "unknown", [], 5, 60, "unknown", None or 0.0 |
| `Story.FormatCompleteIsIdentity` | app.py:138-151 | Formatting a hit whose payload has every key is the identity on the payload fields |
| `Stats.QualityScores` | app.py:266-270 | The kept scores are never zero and no more numerous than the sample |
| `Stats.QualityScoresMembership` | app.py:266-270 | A score is kept iff some sampled payload carries it as a present, non-zero `quality_score` |
| `Stats.QualityScoresAppend` | app.py:266-270 | Collecting scores distributes over concatenation of samples, so it is an order-preserving filter |
| `Stats.AverageQuality` | app.py:272 | The average is 5.0 when no score is kept; otherwise it times the number of kept scores is their sum, so it is their mean |
| `Stats.AverageWithin` | app.py:272 | With no usable score the average is 5.0; otherwise, if every usable score lies in [lo, hi], so does the average |
| `Stats.AverageOnScale` | app.py:266-272 | When every kept (present, non-zero) score is on the 1..10 scale, the average lies in [1, 10]; the sample may also hold zero scores, which are skipped |
| `Stats.DistinctMoods` | app.py:275-279 | The distinct moods never include "" and number at most the sample size |
| `Stats.DistinctMoodsMembership` | app.py:275-279 | A mood is counted iff some sampled payload carries it as a present, non-empty `mood` |
| `Stats.CollectMoods` | app.py:275-279 | The loop's set is exactly the distinct non-empty moods of the sample |
| `Stats.GetStats` | app.py:254-294 | A failing store call gives zeroed stats (average 0.0). Otherwise: the point count, the number of distinct moods and the average. An empty sample gives 0 moods and average 5.0 |
| `Search.StripLeading` | app.py:332 | `lstrip` removes a whitespace prefix and leaves a suffix that does not start with whitespace |
| `Search.StripTrailing` | app.py:332 | `rstrip` removes a whitespace suffix and leaves a prefix that does not end with whitespace |
| `Search.Strip` | app.py:332-337 | The stripped query is no longer than the query. It is empty iff every character is whitespace, so the query is rejected exactly then. Otherwise it neither starts nor ends with whitespace |
| `Search.StripIsSlice` | app.py:332 | The stripped query is the slice of the original that starts where the leading whitespace ends |
| `Search.StripRemovesBlank` | app.py:332 | Only whitespace is removed: what lies before and after the stripped slice is blank |
| `Search.StripIdempotent` | app.py:332 | Stripping the stripped query again changes nothing |
| `Search.FormatAll` | app.py:128 | The comprehension gives one result per hit, in order, each the formatted hit |
| `Search.SearchOutcome` | app.py:55-131 | `[]` with no (or an empty) embedding or a failed search; otherwise one formatted result per returned hit, in order, for a search under the translated query filter |
| `Search.SemanticSearch` | app.py:55-131 | Returns `[]` with no (or an empty) embedding or a failed store call; otherwise the formatted hits of a search under `QueryFilterOf(filters)`; with no truthy constraint this is the unfiltered search |
| `Search.ApiSearchStories` | app.py:330-340 | Rejected with 400 "Query is required" iff the query (missing counts as "") is all whitespace, with no service consulted; otherwise the semantic search of the stripped query with the request's filters and limit (default 12) |
| `Search.AcceptedHitMeets` | app.py:133-151 | A hit the filter accepts formats to a result meeting the filter on its fields: no default stands in for a constrained field |
| `Search.SearchResultsMeetFilter` | app.py:117-128 | If the store returns only hits its query filter admits, every result's mood, quality, length and source meet the requested constraints |
| `Search.SingleMoodSearch` | app.py:76-82 | A search filtered on the mood "gothic_decay" returns only stories of that mood when the store honours its filter |
| `Story.FormatRecordAsWritten` | app.py:140 | As written, formatting a `Record` raises at `hit.score`: never a result |
| `Search.FormatEach` | app.py:197 | A comprehension whose step may raise gives a list iff no element raises, and then the elements' results in order; otherwise the first exception ends it |
| `Search.FormatRecordsAsWritten` | app.py:197 | As written, the comprehension over listed records gives a list only when there are no records |
| `Search.GetAnyStoriesAsWritten` | app.py:225-236 | As written, `[]` whether the scroll fails or succeeds |
| `Search.RecentStoriesAsWritten` | app.py:177-201 | As written, building the date range raises, so the result is the fallback, which is `[]` |
| `Search.TopStoriesAsWritten` | app.py:203-223 | As written, `[]`: a failed scroll falls back, and a successful one raises while formatting and falls back too |
| `Search.RandomStoryAsWritten` | app.py:153-175 | As written, `None` whether the scroll fails, finds nothing, or finds records |
| `Search.GetStoryByIdAsWritten` | app.py:238-252 | As written, `None` whether retrieval fails, finds nothing, or finds the record |
| `Search.FormatRecordsAsWrittenFails` | app.py:140 | As written, formatting listed records gives no list unless there were none |
| `Search.ListingAsWrittenFindsNothing` | app.py:153-252 | As written, `get_any_stories`, `recent_stories` and `top_stories` always return `[]`, and `random_story` and `get_story_by_id` always return `None`, whatever the store holds |
| `Search.StoredStoryLost` | app.py:228-236 | For a store holding one story, the listing as written is `[]`; as intended, it is that story |
| `Search.RecentStoryLost` | app.py:181-201 | When the only story is recent and the unfiltered scroll fails, `recent_stories` as written finds nothing; as intended, it lists the story |
| `Search.FormatRecords` | app.py:197 | One formatted record per listed record, in order |
| `Search.GetAnyStories` | app.py:225-236 | As intended: one story per record of the unfiltered scroll, in order, each that record formatted (its id, its payload completed from the defaults, its preview, no score); `[]` when the scroll fails |
| `Search.RecentStories` | app.py:177-201 | As intended: the records created since the cutoff, formatted; when that scroll fails, exactly what `get_any_stories` returns with the same limit |
| `Search.TopStories` | app.py:203-223 | As intended: the records of the `quality_score >= 8` scroll, formatted; when that scroll fails, exactly what `get_any_stories` returns with the same limit |
| `Search.TopStoriesQuality` | app.py:206-220 | When the quality-filtered scroll succeeds and honours `quality_score >= 8`, every top story has quality ≥ 8 |
| `Search.RandomStory` | app.py:153-175 | As intended: no story iff the scroll of up to 50 records at or above `min_quality` failed or found nothing; otherwise the formatted form of one of the scrolled records |
| `Search.RandomStoryQuality` | app.py:156-171 | When the scroll honours `quality_score >= min_quality`, the chosen story meets that threshold |
| `Search.RandomEndpointQuality` | app.py:351 | The random-story endpoint's story, when there is one, has quality ≥ 6 |
| `Search.GetStoryById` | app.py:238-252 | As intended: no story iff retrieval failed or returned nothing; otherwise the first retrieved record, formatted |
| `Search.StoryByIdKeepsId` | app.py:238-248 | A story found by id reports that id: a UUID verbatim, an integer id as digits whose value is the id |
| `Search.Moods` | app.py:296-308 | The mood vocabulary has eight distinct, non-empty entries |

## Findings

| source | as written | input that shows it | evidently intended | confidence | as-written member | corrected member |
|---|---|---|---|---|---|---|
| app.py:140 | `_format_result` reads `hit.score`. `scroll` and `retrieve` return qdrant-client `Record`s, which have no `score`, so formatting any listed or retrieved point raises `AttributeError`. Each `except` then returns `[]` or `None`. `recent_stories` and `top_stories` fall back to `get_any_stories`, which fails the same way | a store holding one story: `get_any_stories(12)` returns `[]` and `get_story_by_id` of its id returns `None` | listed records are formatted like searched points, with no score (`score: null`) | medium; not executed; relies on qdrant-client's `Record` model | `Search.ListingAsWrittenFindsNothing` | `Search.GetAnyStories` |
| app.py:191 | `recent_stories` builds `models.Range(gte=thirty_days_ago)` with an ISO timestamp string. `Range` bounds are numbers, so building the filter raises before any scroll. The method always returns `get_any_stories(limit)` | a store whose only story was created yesterday, with the unfiltered scroll failing: `recent_stories(12)` returns `[]` | a date range on `created_at` from 30 days ago | medium; not executed; relies on qdrant-client's `Range` model | `Search.RecentStoryLost` | `Search.RecentStories` |

## Left out

- The Flask application is not modelled: routes, `render_template`, `jsonify`, the 404 and 500 responses, and a request body that is not JSON. This is framework I/O. Only the blank-query rule of the search endpoint is modelled.
- `generate_embedding` is an HTTP call to Ollama with a timeout. It is an embedder parameter whose `None` stands for any failure.
- The Qdrant calls (`search`, `scroll`, `retrieve`, `get_collection`) are foreign library and network calls. They appear as parameters or outcomes. Three things the store does are outside the model: the 0.5 score threshold, the ordering by descending score, and the enforcement of `limit`. The lemmas about filtered results assume the store honours its filter.
- The clock is not modelled. The cutoff of `recent_stories` (30 days before `datetime.now()`) is a string parameter, and its meaning as a date comparison is left to the store. `last_updated` in the stats is not modelled either.
- Search.RandomStory: states only that the story is one of the scrolled records. The uniform choice of `random.choice` is a `pick` parameter.
- Story.FormatResult: does not model `round(hit.score, 3)`. The score passes through unchanged because float rounding is out of scope.
- Stats.GetStats: the average is the exact rational mean, not `round(avg_quality, 1)`. Qdrant's nullable `points_count` is modelled as a natural number.
- `Option` models a missing payload or filter key. A key present with a JSON `null` is not modelled: there `.get(key, default)` returns `None`, not the default. Values of unexpected JSON types are not modelled either, such as a string `mood` filter, a float bound or non-string `content`.
- `_format_result` on a searched point is modelled as never raising. Its payload reads all have defaults, and a `ScoredPoint` has a score. The one way it raises, on a `Record`, is the first row of "## Findings".
- The `limit` argument is passed through to the store as given. The default of `semantic_search` (10) is unused by the endpoint, which defaults to 12.
- Logging (`print`), the global `search_client` instance and the `__main__` block are not modelled.
- `static/js/dashboard.js` is not part of this model. It is browser UI: DOM updates, `fetch`, timers and clipboard access.
