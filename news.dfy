/** The news feed of the server: normalisation of provider records, the
    freshness filter with its total-exclusion fallback, the built-in mock set and
    the branches of the fetch cycle that choose between them. */
module News {
  import opened Wrappers
  import opened Values
  import Sequences

  /** The provider's `category`: absent (null or undefined), a single value, or a list. */
  datatype RawCategory = NoCategory | OneCategory(name: string) | CategoryList(names: seq<string>)

  /** One record of the provider's `results` (or `data`) array; every field may be missing. */
  datatype RawRecord = RawRecord(
    title: Option<string>,
    link: Option<string>,
    description: Option<string>,
    content: Option<string>,
    imageUrl: Option<string>,
    sourceName: Option<string>,
    sourceId: Option<string>,
    category: RawCategory,
    pubDate: Option<string>)

  /** The canonical article. `pubDate` is the instant (milliseconds since the
      epoch) that the article's ISO-8601 `pubDate` string denotes; None stands for
      a string that does not parse (an invalid Date); `category` None is undefined. */
  datatype Article = Article(
    id: string,
    title: string,
    summary: string,
    content: string,
    imageUrl: Option<string>,
    sourceName: string,
    category: Option<string>,
    pubDate: Option<int>,
    link: string)

  /** Why a fetch cycle throws (and the route answers 500). */
  datatype NewsError =
    | InvalidTimeValue   // `toISOString` on an invalid Date throws a RangeError
    | TransportFailed    // `fetch` rejected
    | BodyNotJson        // `res.json()` rejected

  /** The JSON body of a successful provider response. */
  datatype NewsBody = NewsBody(results: Option<seq<RawRecord>>, data: Option<seq<RawRecord>>)

  /** What the provider call produced: a rejected fetch, or a status and a body
      that decodes (Some) or does not (None). */
  datatype NewsReply = Unreachable | Answered(status: int, body: Option<NewsBody>)

  /** `Date.parse`, supplied by the caller: the instant a date string denotes, if any. */
  type DateParser = string -> Option<int>

  /** An article the feed may show: final title and final link are both non-empty. */
  predicate Viable(a: Article)
    ensures Viable(a) <==> Truthy(Some(a.title)) && Truthy(Some(a.link))
  {
    a.title != "" && a.link != ""
  }

  /** The record's `pubDate` is truthy but not a date: `new Date(..).toISOString()` throws. */
  predicate HasBadDate(r: RawRecord, parse: DateParser)
    ensures HasBadDate(r, parse) ==> r.pubDate.Some? && r.pubDate.value != ""
  {
    Truthy(r.pubDate) && parse(r.pubDate.value).None?
  }

  /** `Array.isArray(c) ? c[0] : c ?? "general"` (an empty list gives undefined). */
  function CategoryOf(c: RawCategory): (r: Option<string>)
    ensures c.NoCategory? ==> r == Some("general")
    ensures c.OneCategory? ==> r == Some(c.name)
    ensures c.CategoryList? ==> (r.None? <==> c.names == [])
    ensures c.CategoryList? && c.names != [] ==> r == Some(c.names[0])
  {
    match c
    case NoCategory => Some("general")
    case OneCategory(name) => Some(name)
    case CategoryList(names) => if |names| == 0 then None else Some(names[0])
  }

  /** The `news-<now>-<idx>` id of a record that has neither link nor title. */
  function FallbackId(now: int, idx: nat): (id: string)
    ensures |id| > 7 && id[..5] == "news-"
  {
    "news-" + Decimal(now) + "-" + Decimal(idx)
  }

  /** Within one fetch cycle, records at different positions get different fallback ids. */
  lemma FallbackIdsDistinct(now: int, i: nat, j: nat)
    requires i != j
    ensures FallbackId(now, i) != FallbackId(now, j)
  {
    var prefix := "news-" + Decimal(now) + "-";
    assert FallbackId(now, i) == prefix + Decimal(i);
    assert FallbackId(now, j) == prefix + Decimal(j);
    if FallbackId(now, i) == FallbackId(now, j) {
      assert Decimal(i) == (prefix + Decimal(i))[|prefix|..];
      assert Decimal(j) == (prefix + Decimal(j))[|prefix|..];
      DigitsInjective(i, j);
    }
  }

  /** The map callback: one raw record at position `idx`, normalised at instant `now`. */
  function NormalizeRecord(r: RawRecord, idx: nat, now: int, parse: DateParser): (res: Result<Article, NewsError>)
    ensures res.Failure? <==> HasBadDate(r, parse)
    ensures res.Failure? ==> res.error == InvalidTimeValue
    ensures res.Success? ==> res.value.pubDate.Some?
    ensures res.Success? && !Truthy(r.pubDate) ==> res.value.pubDate == Some(now)
    ensures res.Success? && Truthy(r.pubDate) ==> res.value.pubDate == parse(r.pubDate.value)
    ensures res.Success? ==> (Viable(res.value) <==> Truthy(r.link) && r.title != Some(""))
    ensures res.Success? && Viable(res.value) ==> res.value.id == res.value.link == r.link.value
    ensures res.Success? && r.title.None? ==> res.value.title == "Untitled"
    ensures res.Success? && r.title.Some? ==> res.value.title == r.title.value
    ensures res.Success? && r.description.Some? ==> res.value.summary == r.description.value
    ensures res.Success? && r.description.None? && r.content.Some? ==> res.value.summary == r.content.value
    ensures res.Success? && r.description.None? && r.content.None? ==> res.value.summary == ""
    ensures res.Success? ==> res.value.content == if r.content.Some? then r.content.value else ""
    ensures res.Success? ==> res.value.imageUrl == r.imageUrl
    ensures res.Success? && r.sourceName.Some? ==> res.value.sourceName == r.sourceName.value
    ensures res.Success? && r.sourceName.None? && r.sourceId.Some? ==> res.value.sourceName == r.sourceId.value
    ensures res.Success? && r.sourceName.None? && r.sourceId.None? ==> res.value.sourceName == "Unknown"
    ensures res.Success? ==> res.value.category == CategoryOf(r.category)
  {
    if HasBadDate(r, parse) then Failure(InvalidTimeValue)
    else
      var instant := if Truthy(r.pubDate) then parse(r.pubDate.value).value else now;
      Success(Article(
        r.link.OrElse(r.title).GetOr(FallbackId(now, idx)),
        r.title.GetOr("Untitled"),
        r.description.OrElse(r.content).GetOr(""),
        r.content.GetOr(""),
        r.imageUrl,
        r.sourceName.OrElse(r.sourceId).GetOr("Unknown"),
        CategoryOf(r.category),
        Some(instant),
        r.link.GetOr("")))
  }

  /** `raw.map(...)`: the callback at every index; a bad date anywhere throws. */
  function MapRecords(raw: seq<RawRecord>, now: int, parse: DateParser): (res: Result<seq<Article>, NewsError>)
    ensures res.Success? <==> forall i :: 0 <= i < |raw| ==> !HasBadDate(raw[i], parse)
    ensures res.Failure? ==> res.error == InvalidTimeValue
    ensures res.Success? ==> |res.value| == |raw|
    ensures res.Success? ==> forall i :: 0 <= i < |raw| ==>
      NormalizeRecord(raw[i], i, now, parse) == Success(res.value[i])
  {
    if exists i :: 0 <= i < |raw| && HasBadDate(raw[i], parse) then Failure(InvalidTimeValue)
    else Success(seq(|raw|, i requires 0 <= i < |raw| => NormalizeRecord(raw[i], i, now, parse).value))
  }

  /** The whole normalisation step: map every record, then keep the viable ones. */
  function Normalize(raw: seq<RawRecord>, now: int, parse: DateParser): (res: Result<seq<Article>, NewsError>)
    ensures res.Success? <==> forall i :: 0 <= i < |raw| ==> !HasBadDate(raw[i], parse)
    ensures res.Failure? ==> res.error == InvalidTimeValue
    ensures res.Success? ==> |res.value| <= |raw|
    ensures res.Success? ==> forall a :: a in res.value ==>
      Viable(a) && a.id == a.link && a.pubDate.Some?
    ensures res.Success? ==> forall i :: 0 <= i < |raw| && Truthy(raw[i].link) && raw[i].title != Some("") ==>
      NormalizeRecord(raw[i], i, now, parse).value in res.value
    ensures res.Success? ==> Sequences.IsSubsequence(res.value, MapRecords(raw, now, parse).value)
    ensures res.Success? ==> forall a ::
      multiset(res.value)[a] == if Viable(a) then multiset(MapRecords(raw, now, parse).value)[a] else 0
  {
    match MapRecords(raw, now, parse)
    case Failure(e) => Failure(e)
    case Success(all) =>
      KeptArticles(raw, now, parse, all);
      ViableRecordsKept(raw, now, parse, all);
      Sequences.FilterIsSubsequence(Viable, all);
      ViableMultiplicities(all);
      Success(Sequences.Filter(Viable, all))
  }

  lemma ViableMultiplicities(all: seq<Article>)
    ensures forall a :: multiset(Sequences.Filter(Viable, all))[a] == if Viable(a) then multiset(all)[a] else 0
  {
    forall a ensures multiset(Sequences.Filter(Viable, all))[a] == if Viable(a) then multiset(all)[a] else 0 {
      Sequences.FilterCount(Viable, all, a);
    }
  }

  lemma KeptArticles(raw: seq<RawRecord>, now: int, parse: DateParser, all: seq<Article>)
    requires MapRecords(raw, now, parse) == Success(all)
    ensures forall a :: a in Sequences.Filter(Viable, all) ==> Viable(a) && a.id == a.link && a.pubDate.Some?
  {
    forall a | a in Sequences.Filter(Viable, all)
      ensures Viable(a) && a.id == a.link && a.pubDate.Some?
    {
      var i :| 0 <= i < |all| && all[i] == a;
      assert NormalizeRecord(raw[i], i, now, parse) == Success(a);
    }
  }

  lemma ViableRecordsKept(raw: seq<RawRecord>, now: int, parse: DateParser, all: seq<Article>)
    requires MapRecords(raw, now, parse) == Success(all)
    ensures forall i :: 0 <= i < |raw| && Truthy(raw[i].link) && raw[i].title != Some("") ==>
      NormalizeRecord(raw[i], i, now, parse).value in Sequences.Filter(Viable, all)
  {
    forall i | 0 <= i < |raw| && Truthy(raw[i].link) && raw[i].title != Some("")
      ensures NormalizeRecord(raw[i], i, now, parse).value in Sequences.Filter(Viable, all)
    {
      assert NormalizeRecord(raw[i], i, now, parse) == Success(all[i]);
      Sequences.FilterCount(Viable, all, all[i]);
      assert multiset(all)[all[i]] > 0;
    }
  }

  /** A record with a usable link and no title survives, titled "Untitled". */
  lemma UntitledIsKept(raw: seq<RawRecord>, now: int, parse: DateParser, i: nat)
    requires i < |raw|
    requires forall j :: 0 <= j < |raw| ==> !HasBadDate(raw[j], parse)
    requires Truthy(raw[i].link) && raw[i].title.None?
    ensures Normalize(raw, now, parse).Success?
    ensures exists a :: a in Normalize(raw, now, parse).value && a.title == "Untitled" && a.link == raw[i].link.value
  {
    var all := MapRecords(raw, now, parse).value;
    var a := all[i];
    assert NormalizeRecord(raw[i], i, now, parse) == Success(a);
    Sequences.FilterCount(Viable, all, a);
    assert multiset(all)[a] > 0;
    assert a in Sequences.Filter(Viable, all);
  }

  /** A record whose link is missing or "", or whose title is "", never reaches the feed. */
  lemma UnusableRecordIsDropped(raw: seq<RawRecord>, now: int, parse: DateParser, i: nat)
    requires i < |raw|
    requires Normalize(raw, now, parse).Success?
    requires !Truthy(raw[i].link) || raw[i].title == Some("")
    ensures NormalizeRecord(raw[i], i, now, parse).value !in Normalize(raw, now, parse).value
  {
    var all := MapRecords(raw, now, parse).value;
    var a := all[i];
    assert NormalizeRecord(raw[i], i, now, parse) == Success(a);
    assert !Viable(a);
  }

  /** The freshness test of one article: unparseable dates count as fresh. */
  predicate IsFresh(a: Article, cutoff: int)
    ensures !IsFresh(a, cutoff) <==> a.pubDate.Some? && a.pubDate.value < cutoff
  {
    a.pubDate.None? || a.pubDate.value >= cutoff
  }

  function KeepIfFresh(cutoff: int): Article -> bool {
    a => IsFresh(a, cutoff)
  }

  /** `Date.now() - MAX_AGE_HOURS*60*60*1000`. */
  function Cutoff(now: int, maxAgeHours: int): (c: int)
    ensures maxAgeHours >= 0 ==> c <= now
    ensures c == now - maxAgeHours * MsPerHour
  {
    now - maxAgeHours * 60 * 60 * 1000
  }

  /** The freshness filter: the fresh articles, or all of them when none is fresh. */
  function FreshnessFilter(normalized: seq<Article>, cutoff: int): (r: seq<Article>)
    ensures Sequences.IsSubsequence(r, normalized)
    ensures r == [] <==> normalized == []
    ensures (forall a :: a in normalized ==> !IsFresh(a, cutoff)) ==> r == normalized
    ensures (exists a :: a in normalized && IsFresh(a, cutoff)) ==>
      forall a :: multiset(r)[a] == if IsFresh(a, cutoff) then multiset(normalized)[a] else 0
  {
    var kept := Sequences.Filter(KeepIfFresh(cutoff), normalized);
    Sequences.FilterIsSubsequence(KeepIfFresh(cutoff), normalized);
    Sequences.FilterEmpty(KeepIfFresh(cutoff), normalized);
    assert forall a :: KeepIfFresh(cutoff)(a) == IsFresh(a, cutoff);
    assert forall a :: multiset(kept)[a] == if IsFresh(a, cutoff) then multiset(normalized)[a] else 0 by {
      forall a ensures multiset(kept)[a] == if IsFresh(a, cutoff) then multiset(normalized)[a] else 0 {
        Sequences.FilterCount(KeepIfFresh(cutoff), normalized, a);
      }
    }
    Sequences.SubsequenceOfSelf(normalized);
    if |kept| > 0 then kept else normalized
  }

  /** Re-filtering the output with the same cutoff gives the same list. */
  lemma FreshnessIdempotent(normalized: seq<Article>, cutoff: int)
    ensures FreshnessFilter(FreshnessFilter(normalized, cutoff), cutoff) == FreshnessFilter(normalized, cutoff)
  {
    var p := KeepIfFresh(cutoff);
    var kept := Sequences.Filter(p, normalized);
    if |kept| > 0 {
      Sequences.FilterIdempotent(p, normalized);
    } else {
      assert FreshnessFilter(normalized, cutoff) == normalized;
    }
  }

  /** The two built-in articles returned when no data can be fetched. */
  function MockArticles(now: int): (r: seq<Article>)
    ensures |r| == 2
    ensures forall a :: a in r ==> Viable(a)
    ensures r[0].id != r[1].id
    ensures r[0].pubDate == Some(now) && r[1].pubDate == Some(now - MsPerHour)
  {
    [ Article("mock-1", "Demo: TruthLensAI sample news", "Mock article - API key missing", "Mock content",
              None, "Demo", Some("general"), Some(now), "https://example.com/mock-1"),
      Article("mock-2", "Demo: Second story", "Another mock article", "More mock",
              None, "Demo", Some("tech"), Some(now - 3600 * 1000), "https://example.com/mock-2") ]
  }

  /** `j.results ?? j.data ?? []`. */
  function RawRecords(body: NewsBody): (raw: seq<RawRecord>)
    ensures body.results.Some? ==> raw == body.results.value
    ensures body.results.None? && body.data.Some? ==> raw == body.data.value
    ensures body.results.None? && body.data.None? ==> raw == []
  {
    body.results.OrElse(body.data).GetOr([])
  }

  /** One fetch cycle. `hasKey` is the truthiness of the configured API key and
      `now` the instant at which the dates and the cutoff are taken. */
  function FetchNews(hasKey: bool, reply: NewsReply, now: int, maxAgeHours: int, parse: DateParser): (r: Result<seq<Article>, NewsError>)
    ensures !hasKey ==> r == Success(MockArticles(now))
    ensures hasKey && reply.Answered? && !IsOkStatus(reply.status) ==> r == Success(MockArticles(now))
    ensures hasKey && reply.Unreachable? ==> r == Failure(TransportFailed)
    ensures hasKey && reply.Answered? && IsOkStatus(reply.status) && reply.body.None? ==> r == Failure(BodyNotJson)
    ensures r.Success? ==> forall a :: a in r.value ==> Viable(a)
    ensures hasKey && reply.Answered? && IsOkStatus(reply.status) && reply.body.Some? ==>
      match Normalize(RawRecords(reply.body.value), now, parse)
      case Failure(e) => r == Failure(e)
      case Success(normalized) => r == Success(FreshnessFilter(normalized, Cutoff(now, maxAgeHours)))
  {
    if !hasKey then Success(MockArticles(now))
    else match reply
      case Unreachable => Failure(TransportFailed)
      case Answered(status, body) =>
        if !IsOkStatus(status) then Success(MockArticles(now))
        else if body.None? then Failure(BodyNotJson)
        else match Normalize(RawRecords(body.value), now, parse)
          case Failure(e) => Failure(e)
          case Success(normalized) =>
            var shown := FreshnessFilter(normalized, Cutoff(now, maxAgeHours));
            assert forall a :: a in shown ==> a in normalized by {
              forall a | a in shown ensures a in normalized {
                if IsFresh(a, Cutoff(now, maxAgeHours)) && exists b :: b in normalized && IsFresh(b, Cutoff(now, maxAgeHours)) {
                  assert multiset(shown)[a] > 0;
                }
              }
            }
            Success(shown)
  }

  /** A record like `{title: "A", link: "https://x/1", pubDate: null}` gives an
      article titled "A" with the same link, dated `now`. */
  lemma ScenarioNullDate(now: int, parse: DateParser)
    ensures var r := RawRecord(Some("A"), Some("https://x/1"), None, None, None, None, None, NoCategory, None);
      var a := NormalizeRecord(r, 0, now, parse).value;
      Viable(a) && a.title == "A" && a.link == "https://x/1" && a.pubDate == Some(now)
  {
  }
}
