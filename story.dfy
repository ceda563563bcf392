/** Stored story records and the result formatter (`QdrantStorySearch._format_result`):
    every raw hit from the vector store becomes a uniform API record, with documented
    defaults substituted for missing payload keys and a bounded preview of the text. */
module Story {
  import opened Wrappers

  /** Qdrant point ids are unsigned integers or UUID strings. */
  datatype PointId = NumId(num: nat) | UuidId(uuid: string)

  /** The payload stored with a point. Every key is optional: `None` means the key is missing. */
  datatype Payload = Payload(
    title: Option<string>,
    content: Option<string>,
    mood: Option<string>,
    themes: Option<seq<string>>,
    qualityScore: Option<int>,
    lengthSeconds: Option<int>,
    source: Option<string>,
    createdAt: Option<string>,
    engagementScore: Option<real>)

  /** A point as the similarity search returns it (qdrant-client's `ScoredPoint`): an id, the
      similarity score and the payload. */
  datatype Hit = Hit(id: PointId, score: real, payload: Payload)

  /** A point as `scroll` and `retrieve` return it (qdrant-client's `Record`): an id and a
      payload, and no `score` attribute at all. */
  datatype Record = Record(id: PointId, payload: Payload)

  /** The API's uniform story record. `score` is the similarity score; a stored record that
      was listed rather than searched has none (JSON `null`). */
  datatype StoryResult = StoryResult(
    id: string,
    score: Option<real>,
    title: string,
    content: string,
    preview: string,
    mood: string,
    themes: seq<string>,
    qualityScore: int,
    lengthSeconds: int,
    source: string,
    createdAt: Option<string>,
    engagementScore: real)

  const PreviewLength: nat := 200
  const Ellipsis: string := "..."

  /** The documented default of every payload key; `created_at` has none and stays missing. */
  const Defaults: Payload :=
    Payload(Some("Untitled"), Some(""), Some("unknown"), Some([]), Some(5), Some(60),
            Some("unknown"), None, Some(0.0))

  // ---------------------------------------------------------------------------
  // str(id): decimal rendering of integer ids

  predicate IsDigit(c: char) {
    '0' <= c <= '9'
  }

  predicate AllDigits(s: string) {
    forall i :: 0 <= i < |s| ==> IsDigit(s[i])
  }

  function DigitChar(d: nat): (c: char)
    requires d < 10
    ensures IsDigit(c) && c as int - '0' as int == d
  {
    (48 + d) as char
  }

  /** Python's `str(n)` for a non-negative integer: canonical decimal, no leading zeros. */
  function Decimal(n: nat): (s: string)
    ensures |s| >= 1 && AllDigits(s)
    ensures s[0] == '0' ==> n == 0
    decreases n
  {
    if n < 10 then [DigitChar(n)] else Decimal(n / 10) + [DigitChar(n % 10)]
  }

  /** The number a string of decimal digits denotes (Python's `int(s)` on digit strings). */
  function DecimalValue(s: string): nat
    requires AllDigits(s)
  {
    if s == [] then 0
    else DecimalValue(s[..|s| - 1]) * 10 + (s[|s| - 1] as int - '0' as int)
  }

  /** Reading back a rendered integer id gives the id. */
  lemma {:induction false} DecimalRoundTrip(n: nat)
    ensures DecimalValue(Decimal(n)) == n
  {
    if n >= 10 {
      var s := Decimal(n);
      assert s[..|s| - 1] == Decimal(n / 10);
      DecimalRoundTrip(n / 10);
    }
  }

  /** Distinct integer ids render as distinct strings. */
  lemma DecimalInjective(m: nat, n: nat)
    requires Decimal(m) == Decimal(n)
    ensures m == n
  {
    DecimalRoundTrip(m);
    DecimalRoundTrip(n);
  }

  /** `str(hit.id)`: a UUID id is already a string, an integer id is rendered in decimal. */
  function IdString(id: PointId): (s: string)
    ensures id.NumId? ==> AllDigits(s) && DecimalValue(s) == id.num
    ensures id.UuidId? ==> s == id.uuid
  {
    match id
    case NumId(n) => DecimalRoundTrip(n); Decimal(n)
    case UuidId(u) => u
  }

  // ---------------------------------------------------------------------------
  // preview

  /** The first `PreviewLength` characters of `content`, followed by an ellipsis when
      anything was cut off. */
  function Preview(content: string): (p: string)
    ensures |p| <= PreviewLength + |Ellipsis|
    ensures var k := if |content| < PreviewLength then |content| else PreviewLength;
            k <= |p| && p[..k] == content[..k]
    ensures |content| <= PreviewLength ==> p == content
    ensures |content| > PreviewLength ==> p == content[..PreviewLength] + Ellipsis
  {
    if |content| > PreviewLength then content[..PreviewLength] + Ellipsis else content
  }

  /** The preview equals the content exactly when nothing was cut off, or when the cut-off
      tail happened to be the ellipsis itself. */
  lemma PreviewUnchangedIff(content: string)
    ensures Preview(content) == content <==>
            |content| <= PreviewLength ||
            (|content| == PreviewLength + |Ellipsis| && content[PreviewLength..] == Ellipsis)
  {
    if |content| > PreviewLength {
      var p := Preview(content);
      if p == content {
        assert content[PreviewLength..] == p[PreviewLength..] == Ellipsis;
      }
      if |content| == PreviewLength + |Ellipsis| && content[PreviewLength..] == Ellipsis {
        assert content == content[..PreviewLength] + content[PreviewLength..];
      }
    }
  }

  // ---------------------------------------------------------------------------
  // default substitution and the formatter

  function Fill<T>(v: Option<T>, default: Option<T>): Option<T> {
    if v.Some? then v else default
  }

  /** The payload with every missing key taken from `Defaults`. */
  function WithDefaults(p: Payload): Payload {
    Payload(
      Fill(p.title, Defaults.title),
      Fill(p.content, Defaults.content),
      Fill(p.mood, Defaults.mood),
      Fill(p.themes, Defaults.themes),
      Fill(p.qualityScore, Defaults.qualityScore),
      Fill(p.lengthSeconds, Defaults.lengthSeconds),
      Fill(p.source, Defaults.source),
      Fill(p.createdAt, Defaults.createdAt),
      Fill(p.engagementScore, Defaults.engagementScore))
  }

  /** Every key that has a default is present. */
  predicate Complete(p: Payload) {
    p.title.Some? && p.content.Some? && p.mood.Some? && p.themes.Some? &&
    p.qualityScore.Some? && p.lengthSeconds.Some? && p.source.Some? &&
    p.engagementScore.Some?
  }

  /** The payload fields a result carries, read back as a payload. */
  function ResultPayload(r: StoryResult): (p: Payload)
    ensures Complete(p)
  {
    Payload(Some(r.title), Some(r.content), Some(r.mood), Some(r.themes),
            Some(r.qualityScore), Some(r.lengthSeconds), Some(r.source), r.createdAt,
            Some(r.engagementScore))
  }

  /** The record `_format_result` builds from a point's id, score and payload: the payload
      completed with the documented defaults, the id as a string and a preview of the content. */
  function Formatted(id: PointId, score: Option<real>, p: Payload): (r: StoryResult)
    ensures r.id == IdString(id) && r.score == score
    ensures ResultPayload(r) == WithDefaults(p)
    ensures r.preview == Preview(r.content)
  {
    var content := p.content.GetOr("");
    StoryResult(
      IdString(id),
      score,
      p.title.GetOr("Untitled"),
      content,
      Preview(content),
      p.mood.GetOr("unknown"),
      p.themes.GetOr([]),
      p.qualityScore.GetOr(5),
      p.lengthSeconds.GetOr(60),
      p.source.GetOr("unknown"),
      p.createdAt,
      p.engagementScore.GetOr(0.0))
  }

  /** `_format_result` on a searched point: its fields completed from the defaults, its id as
      a string and its similarity score. */
  function FormatResult(hit: Hit): (r: StoryResult)
    ensures r.id == IdString(hit.id) && r.score == Some(hit.score)
    ensures ResultPayload(r) == WithDefaults(hit.payload)
    ensures r.preview == Preview(r.content)
  {
    Formatted(hit.id, Some(hit.score), hit.payload)
  }

  /** `_format_result` on a listed record, as written: it reads `hit.score`, which a `Record`
      does not have, so the call raises `AttributeError` and yields no result. */
  function FormatRecordAsWritten(rec: Record): (r: Option<StoryResult>)
    ensures r.None?
  {
    None
  }

  /** A listed record formatted as intended: the same fields as a searched point, with no
      score. */
  function FormatRecord(rec: Record): (r: StoryResult)
    ensures r.id == IdString(rec.id) && r.score.None?
    ensures ResultPayload(r) == WithDefaults(rec.payload)
    ensures r.preview == Preview(r.content)
  {
    Formatted(rec.id, None, rec.payload)
  }

  /** A present key passes through unchanged; a missing one gets its default. */
  lemma FormatFieldByField(id: PointId, score: Option<real>, p: Payload)
    ensures var r := Formatted(id, score, p);
      && r.title == (if p.title.Some? then p.title.value else "Untitled")
      && r.content == (if p.content.Some? then p.content.value else "")
      && r.mood == (if p.mood.Some? then p.mood.value else "unknown")
      && r.themes == (if p.themes.Some? then p.themes.value else [])
      && r.qualityScore == (if p.qualityScore.Some? then p.qualityScore.value else 5)
      && r.lengthSeconds == (if p.lengthSeconds.Some? then p.lengthSeconds.value else 60)
      && r.source == (if p.source.Some? then p.source.value else "unknown")
      && r.createdAt == p.createdAt
      && r.engagementScore == (if p.engagementScore.Some? then p.engagementScore.value else 0.0)
  {
    assert ResultPayload(Formatted(id, score, p)) == WithDefaults(p);
  }

  /** Formatting a hit whose payload has every key is the identity on the payload. */
  lemma FormatCompleteIsIdentity(hit: Hit)
    requires Complete(hit.payload)
    ensures ResultPayload(FormatResult(hit)) == hit.payload
  {
  }

  /** A listed record, formatted as intended, carries the same story as that point would
      when searched: only the score differs. */
  lemma RecordFormatsLikeHit(rec: Record, score: real)
    ensures FormatRecord(rec) == FormatResult(Hit(rec.id, score, rec.payload)).(score := None)
  {
  }
}
