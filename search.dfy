/** The search orchestrator (`QdrantStorySearch` and the search endpoint's validation):
    how each operation combines the embedding service and the vector store, and what it
    returns when either yields nothing or fails. The services are parameters: the embedder,
    the vector search and the scroll as functions, the retrieval by id as its outcome, with
    `None` standing for a call that raised. */
module Search {
  import opened Wrappers
  import opened Story
  import opened Filters

  // ---------------------------------------------------------------------------
  // query validation in the search endpoint

  /** Python's `str.isspace` for one character. */
  predicate IsSpace(c: char) {
    || ('\U{9}' <= c <= '\U{D}')          // tab, line feed, vertical tab, form feed, carriage return
    || ('\U{1C}' <= c <= '\U{20}')        // file/group/record/unit separators, space
    || c == '\U{85}' || c == '\U{A0}' || c == '\U{1680}'
    || ('\U{2000}' <= c <= '\U{200A}')
    || c == '\U{2028}' || c == '\U{2029}' || c == '\U{202F}' || c == '\U{205F}'
    || c == '\U{3000}'
  }

  /** Every character is whitespace (the empty string included). */
  predicate IsBlank(s: string) {
    forall k :: 0 <= k < |s| ==> IsSpace(s[k])
  }

  /** `s.lstrip()`: the longest suffix that does not start with whitespace. */
  function StripLeading(s: string): (r: string)
    ensures |r| <= |s| && r == s[|s| - |r|..]
    ensures forall k :: 0 <= k < |s| - |r| ==> IsSpace(s[k])
    ensures r != [] ==> !IsSpace(r[0])
  {
    if s != [] && IsSpace(s[0]) then StripLeading(s[1..]) else s
  }

  /** `s.rstrip()`: the longest prefix that does not end with whitespace. */
  function StripTrailing(s: string): (r: string)
    ensures |r| <= |s| && r == s[..|r|]
    ensures forall k :: |r| <= k < |s| ==> IsSpace(s[k])
    ensures r != [] ==> !IsSpace(r[|r| - 1])
  {
    if s != [] && IsSpace(s[|s| - 1]) then StripTrailing(s[..|s| - 1]) else s
  }

  /** `s.strip()`: nothing is left exactly when the string is all whitespace, and what is
      left neither starts nor ends with whitespace. */
  function Strip(s: string): (r: string)
    ensures |r| <= |s|
    ensures r == [] <==> IsBlank(s)
    ensures r != [] ==> !IsSpace(r[0]) && !IsSpace(r[|r| - 1])
  {
    var l := StripLeading(s);
    var r := StripTrailing(l);
    assert r != [] ==> r[0] == l[0];
    r
  }

  /** How many characters `lstrip` removes. */
  function LeadLength(s: string): nat {
    |s| - |StripLeading(s)|
  }

  /** What `lstrip` removes is whitespace. */
  lemma LeadingBlank(s: string)
    ensures IsBlank(s[..LeadLength(s)])
  {
    var lead := s[..LeadLength(s)];
    forall k | 0 <= k < |lead| ensures IsSpace(lead[k]) {
      assert lead[k] == s[k];
    }
  }

  /** What `rstrip` removes is whitespace. */
  lemma TrailingBlank(l: string)
    ensures IsBlank(l[|StripTrailing(l)|..])
  {
    var r := StripTrailing(l);
    var tail := l[|r|..];
    forall k | 0 <= k < |tail| ensures IsSpace(tail[k]) {
      assert tail[k] == l[|r| + k];
    }
  }

  /** A prefix of a suffix is a slice. */
  lemma PrefixOfSuffix(s: string, l: string, r: string)
    requires |l| <= |s| && l == s[|s| - |l|..] && |r| <= |l| && r == l[..|r|]
    ensures r == s[|s| - |l|..|s| - |l| + |r|]
  {
  }

  /** The stripped query is a slice of the original, starting where `lstrip` stopped. */
  lemma StripIsSlice(s: string)
    ensures LeadLength(s) + |Strip(s)| <= |s|
    ensures Strip(s) == s[LeadLength(s)..LeadLength(s) + |Strip(s)|]
  {
    PrefixOfSuffix(s, StripLeading(s), StripTrailing(StripLeading(s)));
  }

  /** Only whitespace is removed: the parts of the original before and after the stripped
      slice are blank. */
  lemma StripRemovesBlank(s: string)
    ensures LeadLength(s) + |Strip(s)| <= |s|
    ensures IsBlank(s[..LeadLength(s)]) && IsBlank(s[LeadLength(s) + |Strip(s)|..])
  {
    StripIsSlice(s);
    var l := StripLeading(s);
    var r := StripTrailing(l);
    LeadingBlank(s);
    TrailingBlank(l);
    assert s[LeadLength(s) + |r|..] == l[|r|..];
  }

  /** Stripping twice is stripping once. */
  lemma StripIdempotent(s: string)
    ensures Strip(Strip(s)) == Strip(s)
  {
    var r := Strip(s);
    if r != [] {
      assert StripLeading(r) == r;
    }
  }

  datatype ApiError = ApiError(status: nat, message: string)

  const QueryRequired: ApiError := ApiError(400, "Query is required")

  /** The `limit` the search endpoint uses when the request gives none. */
  const DefaultLimit: int := 12

  /** The JSON body of a search request; a missing key is `None`. A missing, `null` or empty
      `filters` object is `None` as well: each imposes no constraint. */
  datatype SearchRequest = SearchRequest(
    query: Option<string>,
    filters: Option<SearchFilter>,
    limit: Option<int>)

  // ---------------------------------------------------------------------------
  // the external services, as parameters

  /** `generate_embedding`: a vector, or `None` when the embedding call failed. */
  type Embedder = string -> Option<seq<real>>

  /** `qdrant.search(query_vector, limit, query_filter, ...)`: the hits, or `None` when the
      call raised. */
  type VectorSearch = (seq<real>, Option<QueryFilter>, int) -> Option<seq<Hit>>

  /** `[self._format_result(hit) for hit in results]`. */
  function FormatAll(hits: seq<Hit>): (results: seq<StoryResult>)
    ensures |results| == |hits|
    ensures forall i :: 0 <= i < |hits| ==> results[i] == FormatResult(hits[i])
  {
    seq(|hits|, i requires 0 <= i < |hits| => FormatResult(hits[i]))
  }

  /** Python's `not query_vector`: no embedding, or an empty one. */
  predicate NoVector(v: Option<seq<real>>) {
    v.None? || v.value == []
  }

  /** What `semantic_search` returns: nothing without a vector or when the store fails,
      otherwise the formatted hits of a search under the translated query filter. */
  function SearchOutcome(query: string, filters: Option<SearchFilter>, limit: int,
                         embed: Embedder, search: VectorSearch): (results: seq<StoryResult>)
    ensures NoVector(embed(query)) ==> results == []
    ensures !NoVector(embed(query)) ==>
      var outcome := search(embed(query).value, QueryFilterOf(filters), limit);
      && (outcome.None? ==> results == [])
      && (outcome.Some? ==>
            (|results| == |outcome.value| &&
             forall i :: 0 <= i < |results| ==> results[i] == FormatResult(outcome.value[i])))
  {
    var vector := embed(query);
    if NoVector(vector) then []
    else
      match search(vector.value, QueryFilterOf(filters), limit)
      case None => []
      case Some(hits) => FormatAll(hits)
  }

  /** `semantic_search`: embed, build the conditions, search, format. */
  method SemanticSearch(query: string, filters: Option<SearchFilter>, limit: int,
                        embed: Embedder, search: VectorSearch)
    returns (results: seq<StoryResult>)
    ensures results == SearchOutcome(query, filters, limit, embed, search)
    ensures NoVector(embed(query)) ==> results == []
    ensures !NoVector(embed(query)) && Unconstrained(filters) ==>
      results == SearchOutcome(query, None, limit, embed, search)
  {
    var queryVector := embed(query);
    if queryVector.None? || queryVector.value == [] {
      return [];
    }
    var conds := BuildFilterConditions(filters);
    var queryFilter := if conds != [] then Some(Filter(conds)) else None;
    UnconstrainedIsUnfiltered(filters);
    var outcome := search(queryVector.value, queryFilter, limit);
    match outcome {
      case None =>
        results := [];
      case Some(hits) =>
        results := FormatAll(hits);
    }
  }

  /** `api_search_stories`: a blank query (after stripping) is rejected with 400 before any
      service is consulted; otherwise the stripped query is searched. */
  method ApiSearchStories(req: SearchRequest, embed: Embedder, search: VectorSearch)
    returns (response: Result<seq<StoryResult>, ApiError>)
    ensures response.Failure? <==> IsBlank(req.query.GetOr(""))
    ensures response.Failure? ==> response.error == QueryRequired
    ensures response.Success? ==>
      response.value == SearchOutcome(Strip(req.query.GetOr("")), req.filters,
                                      req.limit.GetOr(DefaultLimit), embed, search)
  {
    var query := Strip(req.query.GetOr(""));
    var filters := req.filters;
    var limit := req.limit.GetOr(DefaultLimit);
    if query == "" {
      return Failure(QueryRequired);
    }
    var results := SemanticSearch(query, filters, limit, embed, search);
    response := Success(results);
  }

  // ---------------------------------------------------------------------------
  // what a search returns, when the store honours the filter

  /** Every hit is admitted by the query filter. */
  predicate Honours(hits: seq<Hit>, qf: Option<QueryFilter>) {
    forall i :: 0 <= i < |hits| ==> Matches(hits[i].payload, qf)
  }

  /** The filter's constraints read on a formatted result. */
  predicate ResultMeets(f: Option<SearchFilter>, r: StoryResult) {
    f.None? ||
    var sf := f.value;
    && (TruthyList(sf.mood) ==> r.mood in sf.mood.value)
    && (TruthyInt(sf.minQuality) ==> sf.minQuality.value <= r.qualityScore)
    && (TruthyInt(sf.minLength) ==> sf.minLength.value <= r.lengthSeconds)
    && (TruthyInt(sf.maxLength) ==> r.lengthSeconds <= sf.maxLength.value)
    && (TruthyText(sf.source) ==> r.source == sf.source.value)
  }

  /** A hit the filter accepts formats to a result that meets the filter: the constrained
      fields are present, so no default stands in for them. */
  lemma AcceptedHitMeets(f: Option<SearchFilter>, hit: Hit)
    requires Accepts(f, hit.payload)
    ensures ResultMeets(f, FormatResult(hit))
  {
    FormatFieldByField(hit.id, Some(hit.score), hit.payload);
  }

  /** When the store returns only hits its query filter admits, every search result has a
      mood among the requested ones, a quality and length within the requested bounds and
      the requested source. */
  lemma SearchResultsMeetFilter(query: string, filters: Option<SearchFilter>, limit: int,
                                embed: Embedder, search: VectorSearch)
    requires forall v :: search(v, QueryFilterOf(filters), limit).Some? ==>
      Honours(search(v, QueryFilterOf(filters), limit).value, QueryFilterOf(filters))
    ensures var results := SearchOutcome(query, filters, limit, embed, search);
      forall i :: 0 <= i < |results| ==> ResultMeets(filters, results[i])
  {
    var vector := embed(query);
    if !NoVector(vector) {
      var outcome := search(vector.value, QueryFilterOf(filters), limit);
      if outcome.Some? {
        var hits := outcome.value;
        forall i | 0 <= i < |hits| ensures ResultMeets(filters, FormatResult(hits[i])) {
          QueryFilterMeaning(filters, hits[i].payload);
          AcceptedHitMeets(filters, hits[i]);
        }
      }
    }
  }

  /** A search filtered on the single mood "gothic_decay" returns only stories of that
      mood, when the store honours its filter. */
  lemma SingleMoodSearch(query: string, limit: int, embed: Embedder, search: VectorSearch)
    requires var f := Some(NoFilter.(mood := Some(["gothic_decay"])));
      forall v :: search(v, QueryFilterOf(f), limit).Some? ==>
        Honours(search(v, QueryFilterOf(f), limit).value, QueryFilterOf(f))
    ensures var results := SearchOutcome(query, Some(NoFilter.(mood := Some(["gothic_decay"]))),
                                         limit, embed, search);
      forall i :: 0 <= i < |results| ==> results[i].mood == "gothic_decay"
  {
    var f := Some(NoFilter.(mood := Some(["gothic_decay"])));
    SearchResultsMeetFilter(query, f, limit, embed, search);
    var results := SearchOutcome(query, f, limit, embed, search);
    forall i | 0 <= i < |results| ensures results[i].mood == "gothic_decay" {
      assert ResultMeets(f, results[i]);
    }
  }

  // ---------------------------------------------------------------------------
  // listing operations: the scroll service

  /** The filter a listing operation hands to `scroll`. */
  datatype ScrollFilter =
    | Unfiltered                   // `get_any_stories`
    | Only(filter: QueryFilter)    // `top_stories`, `random_story`
    | CreatedSince(cutoff: string) // the `created_at` lower bound `recent_stories` means to apply

  /** `qdrant.scroll(scroll_filter, limit)`: the records of the first page, or `None` when the
      call raised. */
  type Scroll = (ScrollFilter, int) -> Option<seq<Record>>

  /** The scroll filter of `top_stories`: quality score at least 8. */
  const TopFilter: QueryFilter := Filter([FieldCondition(QualityKey, InRange(Range(Some(8), None)))])

  /** The scroll filter of `random_story`: quality score at least `minQuality` (applied as
      given, without a truthiness test). */
  function RandomFilter(minQuality: int): QueryFilter {
    Filter([FieldCondition(QualityKey, InRange(Range(Some(minQuality), None)))])
  }

  /** How many records `random_story` draws its choice from. */
  const RandomSampleSize: int := 50

  /** The quality threshold the random-story endpoint asks for. */
  const RandomMinQuality: int := 6

  /** Every listed record is admitted by the filter. */
  predicate RecordsHonour(recs: seq<Record>, qf: QueryFilter) {
    forall i :: 0 <= i < |recs| ==> Satisfies(recs[i].payload, qf.must)
  }

  // ---------------------------------------------------------------------------
  // listing operations as written: formatting a record raises

  /** A list comprehension whose step may raise (`None`): the first exception ends it and
      no list is built. */
  function FormatEach<T>(xs: seq<T>, format: T -> Option<StoryResult>): (r: Option<seq<StoryResult>>)
    ensures r.Some? <==> forall i :: 0 <= i < |xs| ==> format(xs[i]).Some?
    ensures r.Some? ==>
      |r.value| == |xs| && forall i :: 0 <= i < |xs| ==> r.value[i] == format(xs[i]).value
  {
    if xs == [] then Some([])
    else
      match format(xs[0])
      case None => None
      case Some(r) =>
        match FormatEach(xs[1..], format)
        case None => None
        case Some(rs) => Some([r] + rs)
  }

  /** `[self._format_result(hit) for hit in results]` over records, as written. */
  function FormatRecordsAsWritten(recs: seq<Record>): (r: Option<seq<StoryResult>>)
    ensures r.Some? <==> recs == []
  {
    FormatEach(recs, FormatRecordAsWritten)
  }

  /** `get_any_stories`, as written: an exception while scrolling or formatting gives `[]`. */
  function GetAnyStoriesAsWritten(limit: int, scroll: Scroll): (stories: seq<StoryResult>)
    ensures stories == []
  {
    match scroll(Unfiltered, limit)
    case None => []
    case Some(recs) => FormatRecordsAsWritten(recs).GetOr([])
  }

  /** `recent_stories`, as written: the date filter is built as `models.Range(gte=<ISO
      timestamp>)`, whose bounds must be numbers, so building it raises before any scroll and
      the method always falls back to `get_any_stories(limit)`. */
  function RecentStoriesAsWritten(limit: int, scroll: Scroll): (stories: seq<StoryResult>)
    ensures stories == []
  {
    GetAnyStoriesAsWritten(limit, scroll)
  }

  /** `top_stories`, as written: an exception while scrolling or formatting falls back to
      `get_any_stories(limit)`. */
  function TopStoriesAsWritten(limit: int, scroll: Scroll): (stories: seq<StoryResult>)
    ensures stories == []
  {
    match scroll(Only(TopFilter), limit)
    case None => GetAnyStoriesAsWritten(limit, scroll)
    case Some(recs) =>
      match FormatRecordsAsWritten(recs)
      case None => GetAnyStoriesAsWritten(limit, scroll)
      case Some(stories) => stories
  }

  /** `random_story`, as written: formatting the chosen record raises, which gives `None`. */
  function RandomStoryAsWritten(minQuality: int, scroll: Scroll, pick: nat): (story: Option<StoryResult>)
    ensures story.None?
  {
    match scroll(Only(RandomFilter(minQuality)), RandomSampleSize)
    case None => None
    case Some(recs) => if recs == [] then None else FormatRecordAsWritten(recs[pick % |recs|])
  }

  /** `get_story_by_id`, as written: formatting the retrieved record raises, which gives
      `None`. */
  function GetStoryByIdAsWritten(retrieved: Option<seq<Record>>): (story: Option<StoryResult>)
    ensures story.None?
  {
    match retrieved
    case None => None
    case Some(recs) => if recs == [] then None else FormatRecordAsWritten(recs[0])
  }

  /** Formatting a non-empty list of records, as written, always fails. */
  lemma {:induction false} FormatRecordsAsWrittenFails(recs: seq<Record>)
    ensures FormatRecordsAsWritten(recs) == if recs == [] then Some([]) else None
  {
  }

  /** As written, no listing operation ever returns a story, whatever the store holds. */
  lemma ListingAsWrittenFindsNothing(limit: int, scroll: Scroll, minQuality: int, pick: nat,
                                     retrieved: Option<seq<Record>>)
    ensures GetAnyStoriesAsWritten(limit, scroll) == []
    ensures RecentStoriesAsWritten(limit, scroll) == []
    ensures TopStoriesAsWritten(limit, scroll) == []
    ensures RandomStoryAsWritten(minQuality, scroll, pick) == None
    ensures GetStoryByIdAsWritten(retrieved) == None
  {
    var any := scroll(Unfiltered, limit);
    if any.Some? {
      FormatRecordsAsWrittenFails(any.value);
    }
    var top := scroll(Only(TopFilter), limit);
    if top.Some? {
      FormatRecordsAsWrittenFails(top.value);
    }
  }

  // ---------------------------------------------------------------------------
  // listing operations as intended: records are formatted without a score

  /** The listed records, each formatted. */
  function FormatRecords(recs: seq<Record>): (results: seq<StoryResult>)
    ensures |results| == |recs|
    ensures forall i :: 0 <= i < |recs| ==> results[i] == FormatRecord(recs[i])
  {
    seq(|recs|, i requires 0 <= i < |recs| => FormatRecord(recs[i]))
  }

  /** `get_any_stories`: one story per record of the unfiltered scroll, in order, with its id
      and its payload completed from the defaults; nothing when the scroll fails. */
  function GetAnyStories(limit: int, scroll: Scroll): (stories: seq<StoryResult>)
    ensures scroll(Unfiltered, limit).None? ==> stories == []
    ensures scroll(Unfiltered, limit).Some? ==>
      var recs := scroll(Unfiltered, limit).value;
      && |stories| == |recs|
      && forall i :: 0 <= i < |recs| ==>
           && stories[i] == FormatRecord(recs[i])
           && stories[i].id == IdString(recs[i].id)
           && ResultPayload(stories[i]) == WithDefaults(recs[i].payload)
           && stories[i].score.None?
  {
    match scroll(Unfiltered, limit)
    case None => []
    case Some(recs) => FormatRecords(recs)
  }

  /** `recent_stories`: the records created since `cutoff` (30 days before the clock's
      reading), formatted; when that scroll raises, `get_any_stories` with the same limit. */
  function RecentStories(limit: int, cutoff: string, scroll: Scroll): (stories: seq<StoryResult>)
    ensures scroll(CreatedSince(cutoff), limit).None? ==> stories == GetAnyStories(limit, scroll)
    ensures scroll(CreatedSince(cutoff), limit).Some? ==>
      stories == FormatRecords(scroll(CreatedSince(cutoff), limit).value)
  {
    match scroll(CreatedSince(cutoff), limit)
    case Some(recs) => FormatRecords(recs)
    case None => GetAnyStories(limit, scroll)
  }

  /** `top_stories`: the records of quality at least 8, formatted; when that scroll raises,
      `get_any_stories` with the same limit. */
  function TopStories(limit: int, scroll: Scroll): (stories: seq<StoryResult>)
    ensures scroll(Only(TopFilter), limit).None? ==> stories == GetAnyStories(limit, scroll)
    ensures scroll(Only(TopFilter), limit).Some? ==>
      stories == FormatRecords(scroll(Only(TopFilter), limit).value)
  {
    match scroll(Only(TopFilter), limit)
    case Some(recs) => FormatRecords(recs)
    case None => GetAnyStories(limit, scroll)
  }

  /** When the quality-filtered scroll succeeds and honours its filter, every top story has
      a quality score of at least 8. */
  lemma TopStoriesQuality(limit: int, scroll: Scroll)
    requires scroll(Only(TopFilter), limit).Some?
    requires RecordsHonour(scroll(Only(TopFilter), limit).value, TopFilter)
    ensures forall i :: 0 <= i < |TopStories(limit, scroll)| ==>
      TopStories(limit, scroll)[i].qualityScore >= 8
  {
    var recs := scroll(Only(TopFilter), limit).value;
    forall i | 0 <= i < |recs| ensures FormatRecord(recs[i]).qualityScore >= 8 {
      assert Holds(recs[i].payload, TopFilter.must[0]);
      FormatFieldByField(recs[i].id, None, recs[i].payload);
    }
  }

  /** `random_story`: one of the scrolled records, formatted; `None` when the scroll failed
      or found nothing. `pick` stands for the choice `random.choice` makes. */
  function RandomStory(minQuality: int, scroll: Scroll, pick: nat): (story: Option<StoryResult>)
    ensures var outcome := scroll(Only(RandomFilter(minQuality)), RandomSampleSize);
      story.None? <==> outcome.None? || outcome.value == []
    ensures var outcome := scroll(Only(RandomFilter(minQuality)), RandomSampleSize);
      story.Some? ==>
        exists i :: 0 <= i < |outcome.value| && story.value == FormatRecord(outcome.value[i])
  {
    match scroll(Only(RandomFilter(minQuality)), RandomSampleSize)
    case None => None
    case Some(recs) =>
      if recs == [] then None else Some(FormatRecord(recs[pick % |recs|]))
  }

  /** When the scroll honours its filter, the chosen story meets the quality threshold. */
  lemma RandomStoryQuality(minQuality: int, scroll: Scroll, pick: nat)
    requires var outcome := scroll(Only(RandomFilter(minQuality)), RandomSampleSize);
      outcome.Some? ==> RecordsHonour(outcome.value, RandomFilter(minQuality))
    ensures RandomStory(minQuality, scroll, pick).Some? ==>
      RandomStory(minQuality, scroll, pick).value.qualityScore >= minQuality
  {
    var outcome := scroll(Only(RandomFilter(minQuality)), RandomSampleSize);
    if outcome.Some? && outcome.value != [] {
      var recs := outcome.value;
      var r := recs[pick % |recs|];
      assert Holds(r.payload, RandomFilter(minQuality).must[0]);
      FormatFieldByField(r.id, None, r.payload);
    }
  }

  /** The random-story endpoint's story, when there is one, has a quality score of at
      least 6. */
  lemma RandomEndpointQuality(scroll: Scroll, pick: nat)
    requires var outcome := scroll(Only(RandomFilter(RandomMinQuality)), RandomSampleSize);
      outcome.Some? ==> RecordsHonour(outcome.value, RandomFilter(RandomMinQuality))
    ensures RandomStory(RandomMinQuality, scroll, pick).Some? ==>
      RandomStory(RandomMinQuality, scroll, pick).value.qualityScore >= 6
  {
    RandomStoryQuality(RandomMinQuality, scroll, pick);
  }

  /** `get_story_by_id`: the first retrieved record, formatted; `None` when retrieval failed
      or found nothing. */
  function GetStoryById(retrieved: Option<seq<Record>>): (story: Option<StoryResult>)
    ensures story.None? <==> retrieved.None? || retrieved.value == []
    ensures story.Some? ==> story.value == FormatRecord(retrieved.value[0])
  {
    match retrieved
    case None => None
    case Some(recs) => if recs == [] then None else Some(FormatRecord(recs[0]))
  }

  /** A story found by id reports the id it was retrieved under. */
  lemma StoryByIdKeepsId(id: PointId, recs: seq<Record>)
    requires recs != [] && recs[0].id == id
    ensures GetStoryById(Some(recs)).Some?
    ensures id.NumId? ==> DecimalValue(GetStoryById(Some(recs)).value.id) == id.num
    ensures id.UuidId? ==> GetStoryById(Some(recs)).value.id == id.uuid
  {
  }

  /** A store holding one story: as written, listing it finds nothing; as intended, the
      story is listed. */
  lemma StoredStoryLost(limit: int, scroll: Scroll, rec: Record)
    requires scroll(Unfiltered, limit) == Some([rec])
    ensures GetAnyStoriesAsWritten(limit, scroll) == []
    ensures GetAnyStories(limit, scroll) == [FormatRecord(rec)]
  {
    FormatRecordsAsWrittenFails([rec]);
  }

  /** A store whose only story is recent and whose unfiltered scroll fails: as written,
      `recent_stories` never scrolls by date and finds nothing; as intended, it lists the
      story. */
  lemma RecentStoryLost(limit: int, cutoff: string, scroll: Scroll, rec: Record)
    requires scroll(CreatedSince(cutoff), limit) == Some([rec])
    requires scroll(Unfiltered, limit).None?
    ensures RecentStoriesAsWritten(limit, scroll) == []
    ensures RecentStories(limit, cutoff, scroll) == [FormatRecord(rec)]
  {
  }

  /** `get_moods`: the fixed mood vocabulary. */
  function Moods(): (moods: seq<string>)
    ensures |moods| == 8
    ensures forall i, j :: 0 <= i < j < |moods| ==> moods[i] != moods[j]
    ensures forall i :: 0 <= i < |moods| ==> moods[i] != ""
  {
    ["psychological", "gothic_decay", "isolation", "conspiracy", "madness",
     "ancient_dread", "urban_legend", "whispers"]
  }
}
