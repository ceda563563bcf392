/** Filter translation in `QdrantStorySearch.semantic_search`: the request's filter
    dictionary becomes an ordered list of Qdrant field conditions, ANDed under `must`,
    or no query filter at all when the list is empty. The conditions are given their
    meaning over a payload, and a translated filter is shown to accept exactly the
    payloads that meet every supplied constraint. */
module Filters {
  import opened Wrappers
  import opened Story

  /** The request's `filters` object. A key that is missing, `0`, `""` or `[]` is falsy in
      Python and imposes nothing; `themes` is accepted but never translated. */
  datatype SearchFilter = SearchFilter(
    mood: Option<seq<string>>,
    minQuality: Option<int>,
    minLength: Option<int>,
    maxLength: Option<int>,
    source: Option<string>,
    themes: Option<seq<string>>)

  const NoFilter: SearchFilter := SearchFilter(None, None, None, None, None, None)

  // Python truthiness of the filter values
  predicate TruthyInt(v: Option<int>) { v.Some? && v.value != 0 }
  predicate TruthyText(v: Option<string>) { v.Some? && v.value != "" }
  predicate TruthyList(v: Option<seq<string>>) { v.Some? && v.value != [] }

  // ---------------------------------------------------------------------------
  // Qdrant's condition grammar, restricted to what the core builds

  /** The payload keys a condition can name, in the order the translation emits them. */
  datatype Key = MoodKey | QualityKey | LengthKey | SourceKey

  /** An inclusive range; a missing side is unbounded. */
  datatype Range = Range(gte: Option<int>, lte: Option<int>)

  datatype Check = MatchAny(any: seq<string>) | MatchValue(value: string) | InRange(range: Range)

  datatype Condition = FieldCondition(key: Key, check: Check)

  /** `models.Filter(must=...)`. */
  datatype QueryFilter = Filter(must: seq<Condition>)

  /** A payload value as a condition sees it. */
  datatype Value = Text(text: string) | Number(number: int)

  function Field(p: Payload, key: Key): Option<Value> {
    match key
    case MoodKey => if p.mood.Some? then Some(Text(p.mood.value)) else None
    case QualityKey => if p.qualityScore.Some? then Some(Number(p.qualityScore.value)) else None
    case LengthKey => if p.lengthSeconds.Some? then Some(Number(p.lengthSeconds.value)) else None
    case SourceKey => if p.source.Some? then Some(Text(p.source.value)) else None
  }

  predicate InBounds(n: int, r: Range) {
    (r.gte.None? || r.gte.value <= n) && (r.lte.None? || n <= r.lte.value)
  }

  /** A field condition holds when the key is present and its value passes the check:
      `MatchAny` is membership, `MatchValue` equality, a range inclusive bounds. */
  predicate Holds(p: Payload, c: Condition) {
    var v := Field(p, c.key);
    match c.check
    case MatchAny(any) => v.Some? && v.value.Text? && v.value.text in any
    case MatchValue(s) => v == Some(Text(s))
    case InRange(r) => v.Some? && v.value.Number? && InBounds(v.value.number, r)
  }

  /** `must`: every condition holds. */
  predicate Satisfies(p: Payload, conds: seq<Condition>) {
    forall i :: 0 <= i < |conds| ==> Holds(p, conds[i])
  }

  /** What a search with this query filter admits; no filter admits everything. */
  predicate Matches(p: Payload, qf: Option<QueryFilter>) {
    qf.None? || Satisfies(p, qf.value.must)
  }

  // ---------------------------------------------------------------------------
  // the reference meaning of a request filter

  /** A filter that supplies no truthy constraint (or no filter at all). */
  predicate Unconstrained(f: Option<SearchFilter>) {
    f.None? ||
    (!TruthyList(f.value.mood) && !TruthyInt(f.value.minQuality) &&
     !TruthyInt(f.value.minLength) && !TruthyInt(f.value.maxLength) &&
     !TruthyText(f.value.source))
  }

  /** The documented filter semantics, stated independently of the translation: each
      supplied (truthy) constraint must hold, the listed moods are ORed. */
  predicate Accepts(f: Option<SearchFilter>, p: Payload) {
    f.None? ||
    var sf := f.value;
    && (TruthyList(sf.mood) ==> p.mood.Some? && p.mood.value in sf.mood.value)
    && (TruthyInt(sf.minQuality) ==>
          p.qualityScore.Some? && sf.minQuality.value <= p.qualityScore.value)
    && (TruthyInt(sf.minLength) ==>
          p.lengthSeconds.Some? && sf.minLength.value <= p.lengthSeconds.value)
    && (TruthyInt(sf.maxLength) ==>
          p.lengthSeconds.Some? && p.lengthSeconds.value <= sf.maxLength.value)
    && (TruthyText(sf.source) ==> p.source == Some(sf.source.value))
  }

  // ---------------------------------------------------------------------------
  // the translation

  /** The length range: `gte` only from a truthy `min_length`, `lte` only from a truthy
      `max_length`. */
  function LengthRange(sf: SearchFilter): Range {
    Range(if TruthyInt(sf.minLength) then sf.minLength else None,
          if TruthyInt(sf.maxLength) then sf.maxLength else None)
  }

  function MoodPart(sf: SearchFilter): seq<Condition> {
    if TruthyList(sf.mood) then [FieldCondition(MoodKey, MatchAny(sf.mood.value))] else []
  }

  function QualityPart(sf: SearchFilter): seq<Condition> {
    if TruthyInt(sf.minQuality)
    then [FieldCondition(QualityKey, InRange(Range(sf.minQuality, None)))]
    else []
  }

  function LengthPart(sf: SearchFilter): seq<Condition> {
    if TruthyInt(sf.minLength) || TruthyInt(sf.maxLength)
    then [FieldCondition(LengthKey, InRange(LengthRange(sf)))]
    else []
  }

  function SourcePart(sf: SearchFilter): seq<Condition> {
    if TruthyText(sf.source) then [FieldCondition(SourceKey, MatchValue(sf.source.value))] else []
  }

  /** The conditions built from a filter: mood, quality, length, source, each at most once,
      so at most four, and none exactly when the filter constrains nothing. */
  function FilterConditions(f: Option<SearchFilter>): (conds: seq<Condition>)
    ensures |conds| <= 4
    ensures conds == [] <==> Unconstrained(f)
  {
    match f
    case None => []
    case Some(sf) =>
      var conds := MoodPart(sf) + QualityPart(sf) + LengthPart(sf) + SourcePart(sf);
      assert |conds| == |MoodPart(sf)| + |QualityPart(sf)| + |LengthPart(sf)| + |SourcePart(sf)|;
      conds
  }

  /** The query filter passed to the store: `must` over the conditions, or none when the
      filter constrains nothing. */
  function QueryFilterOf(f: Option<SearchFilter>): (qf: Option<QueryFilter>)
    ensures qf.None? <==> Unconstrained(f)
    ensures qf.Some? ==> qf.value.must == FilterConditions(f) && 1 <= |qf.value.must| <= 4
  {
    var conds := FilterConditions(f);
    if conds != [] then Some(Filter(conds)) else None
  }

  /** Builds the condition list as `semantic_search` does, by successive appends. */
  method BuildFilterConditions(filters: Option<SearchFilter>) returns (conds: seq<Condition>)
    ensures conds == FilterConditions(filters)
    ensures forall p :: Satisfies(p, conds) <==> Accepts(filters, p)
  {
    conds := [];
    if filters.Some? {
      var sf := filters.value;
      if TruthyList(sf.mood) {
        conds := conds + [FieldCondition(MoodKey, MatchAny(sf.mood.value))];
      }
      if TruthyInt(sf.minQuality) {
        conds := conds + [FieldCondition(QualityKey, InRange(Range(sf.minQuality, None)))];
      }
      if TruthyInt(sf.minLength) || TruthyInt(sf.maxLength) {
        var range := Range(None, None);
        if TruthyInt(sf.minLength) {
          range := range.(gte := sf.minLength);
        }
        if TruthyInt(sf.maxLength) {
          range := range.(lte := sf.maxLength);
        }
        conds := conds + [FieldCondition(LengthKey, InRange(range))];
      }
      if TruthyText(sf.source) {
        conds := conds + [FieldCondition(SourceKey, MatchValue(sf.source.value))];
      }
      assert conds == MoodPart(sf) + QualityPart(sf) + LengthPart(sf) + SourcePart(sf);
    }
    forall p ensures Satisfies(p, conds) <==> Accepts(filters, p) {
      ConditionsMeaning(filters, p);
    }
  }

  // ---------------------------------------------------------------------------
  // what a translated filter accepts

  lemma SatisfiesAppend(p: Payload, a: seq<Condition>, b: seq<Condition>)
    ensures Satisfies(p, a + b) <==> Satisfies(p, a) && Satisfies(p, b)
  {
    if Satisfies(p, a) && Satisfies(p, b) {
      forall i | 0 <= i < |a + b| ensures Holds(p, (a + b)[i]) {
        if i >= |a| { assert (a + b)[i] == b[i - |a|]; }
      }
    }
    if Satisfies(p, a + b) {
      forall i | 0 <= i < |a| ensures Holds(p, a[i]) {
        assert (a + b)[i] == a[i];
      }
      forall i | 0 <= i < |b| ensures Holds(p, b[i]) {
        assert (a + b)[|a| + i] == b[i];
      }
    }
  }

  lemma SatisfiesOne(p: Payload, c: Condition)
    ensures Satisfies(p, [c]) <==> Holds(p, c)
  {
    assert [c][0] == c;
  }

  /** The translated conditions accept a payload exactly when the filter's documented
      semantics do. */
  lemma ConditionsMeaning(f: Option<SearchFilter>, p: Payload)
    ensures Satisfies(p, FilterConditions(f)) <==> Accepts(f, p)
  {
    if f.Some? {
      var sf := f.value;
      SatisfiesAppend(p, MoodPart(sf), QualityPart(sf));
      SatisfiesAppend(p, MoodPart(sf) + QualityPart(sf), LengthPart(sf));
      SatisfiesAppend(p, MoodPart(sf) + QualityPart(sf) + LengthPart(sf), SourcePart(sf));
      if TruthyList(sf.mood) {
        SatisfiesOne(p, FieldCondition(MoodKey, MatchAny(sf.mood.value)));
      }
      if TruthyInt(sf.minQuality) {
        SatisfiesOne(p, FieldCondition(QualityKey, InRange(Range(sf.minQuality, None))));
      }
      if TruthyInt(sf.minLength) || TruthyInt(sf.maxLength) {
        SatisfiesOne(p, FieldCondition(LengthKey, InRange(LengthRange(sf))));
        if p.lengthSeconds.Some? {
          LengthRangeMeaning(sf, p.lengthSeconds.value);
        }
      }
      if TruthyText(sf.source) {
        SatisfiesOne(p, FieldCondition(SourceKey, MatchValue(sf.source.value)));
      }
    }
  }

  /** The query filter handed to the store admits exactly the accepted payloads. */
  lemma QueryFilterMeaning(f: Option<SearchFilter>, p: Payload)
    ensures Matches(p, QueryFilterOf(f)) <==> Accepts(f, p)
  {
    ConditionsMeaning(f, p);
  }

  /** No query filter is issued exactly when the filter supplies no truthy constraint, and
      such a filter accepts every payload: the search is an unfiltered one. */
  lemma UnconstrainedIsUnfiltered(f: Option<SearchFilter>)
    ensures QueryFilterOf(f) == None <==> Unconstrained(f)
    ensures Unconstrained(f) ==> forall p :: Accepts(f, p)
  {
  }

  function KeyRank(k: Key): nat {
    match k
    case MoodKey => 0
    case QualityKey => 1
    case LengthKey => 2
    case SourceKey => 3
  }

  predicate HasKey(conds: seq<Condition>, k: Key) {
    exists i :: 0 <= i < |conds| && conds[i].key == k
  }

  /** Keys strictly increase along the list, so none is repeated. */
  predicate Ordered(conds: seq<Condition>) {
    forall i, j :: 0 <= i < j < |conds| ==> KeyRank(conds[i].key) < KeyRank(conds[j].key)
  }

  /** A part of the translation: at most one condition, on key `k`. */
  predicate PartOn(part: seq<Condition>, k: Key) {
    |part| <= 1 && forall i :: 0 <= i < |part| ==> part[i].key == k
  }

  /** Every key in `conds` ranks below `r`. */
  predicate RanksBelow(conds: seq<Condition>, r: nat) {
    forall i :: 0 <= i < |conds| ==> KeyRank(conds[i].key) < r
  }

  lemma HasKeyAppend(a: seq<Condition>, b: seq<Condition>, k: Key)
    ensures HasKey(a + b, k) <==> HasKey(a, k) || HasKey(b, k)
  {
    if HasKey(a + b, k) {
      var i :| 0 <= i < |a + b| && (a + b)[i].key == k;
      if i >= |a| { assert b[i - |a|] == (a + b)[i]; }
    }
    if HasKey(a, k) {
      var i :| 0 <= i < |a| && a[i].key == k;
      assert (a + b)[i] == a[i];
    }
    if HasKey(b, k) {
      var i :| 0 <= i < |b| && b[i].key == k;
      assert (a + b)[|a| + i] == b[i];
    }
  }

  /** Appending a part on a key ranked above everything so far keeps the list ordered. */
  lemma OrderedAppendPart(a: seq<Condition>, part: seq<Condition>, k: Key)
    requires Ordered(a) && RanksBelow(a, KeyRank(k)) && PartOn(part, k)
    ensures Ordered(a + part) && RanksBelow(a + part, KeyRank(k) + 1)
    ensures |a + part| <= |a| + 1
  {
    var c := a + part;
    forall i, j | 0 <= i < j < |c| ensures KeyRank(c[i].key) < KeyRank(c[j].key) {
      assert c[i] == a[i];
      if j < |a| { assert c[j] == a[j]; } else { assert c[j] == part[j - |a|]; }
    }
    forall i | 0 <= i < |c| ensures KeyRank(c[i].key) < KeyRank(k) + 1 {
      if i < |a| { assert c[i] == a[i]; } else { assert c[i] == part[i - |a|]; }
    }
  }

  lemma PartHasKey(part: seq<Condition>, k: Key, k': Key)
    requires PartOn(part, k)
    ensures HasKey(part, k') <==> part != [] && k == k'
  {
    if part != [] { assert part[0].key == k; }
  }

  /** At most four conditions, in the order mood, quality, length, source, so each key
      appears at most once. */
  lemma ConditionsOrdered(f: Option<SearchFilter>)
    ensures |FilterConditions(f)| <= 4 && Ordered(FilterConditions(f))
  {
    if f.Some? {
      var sf := f.value;
      var m, q, l, s := MoodPart(sf), QualityPart(sf), LengthPart(sf), SourcePart(sf);
      PartsOn(sf);
      OrderedAppendPart([], m, MoodKey);
      assert [] + m == m;
      OrderedAppendPart(m, q, QualityKey);
      var mq := m + q;
      OrderedAppendPart(mq, l, LengthKey);
      var mql := mq + l;
      OrderedAppendPart(mql, s, SourceKey);
      assert FilterConditions(f) == mql + s;
    }
  }

  lemma PartsOn(sf: SearchFilter)
    ensures PartOn(MoodPart(sf), MoodKey) && PartOn(QualityPart(sf), QualityKey)
    ensures PartOn(LengthPart(sf), LengthKey) && PartOn(SourcePart(sf), SourceKey)
  {
  }

  /** Each key has a condition exactly when its filter field is truthy (for length: either
      bound); a zero `min_quality`, an empty mood list or an empty source add nothing. */
  lemma ConditionKeys(f: Option<SearchFilter>, k: Key)
    ensures HasKey(FilterConditions(f), k) <==>
      f.Some? &&
      match k
      case MoodKey => TruthyList(f.value.mood)
      case QualityKey => TruthyInt(f.value.minQuality)
      case LengthKey => TruthyInt(f.value.minLength) || TruthyInt(f.value.maxLength)
      case SourceKey => TruthyText(f.value.source)
  {
    if f.Some? {
      var sf := f.value;
      var m, q, l, s := MoodPart(sf), QualityPart(sf), LengthPart(sf), SourcePart(sf);
      PartsOn(sf);
      HasKeyAppend(m, q, k);
      HasKeyAppend(m + q, l, k);
      HasKeyAppend(m + q + l, s, k);
      PartHasKey(m, MoodKey, k);
      PartHasKey(q, QualityKey, k);
      PartHasKey(l, LengthKey, k);
      PartHasKey(s, SourceKey, k);
    }
  }

  /** A length condition admits a payload when its length lies between the supplied bounds;
      the unsupplied side admits every length. */
  lemma LengthRangeMeaning(sf: SearchFilter, n: int)
    ensures InBounds(n, LengthRange(sf)) <==>
      (!TruthyInt(sf.minLength) || sf.minLength.value <= n) &&
      (!TruthyInt(sf.maxLength) || n <= sf.maxLength.value)
  {
  }

  /** The `themes` field never contributes a condition. */
  lemma ThemesIgnored(sf: SearchFilter, themes: Option<seq<string>>)
    ensures FilterConditions(Some(sf.(themes := themes))) == FilterConditions(Some(sf))
  {
  }
}
