/**
 * Feed fetching and normalisation. A feed URL's fetch either yields the parser's entries or
 * fails; times are whole seconds and `now` is the moment of the run.
 */
module Feed {
  import opened Wrappers
  import opened Text
  import opened Seqs
  import opened Models

  /** A parsed entry as the feed parser hands it over: every field may be missing. */
  datatype RawEntry = RawEntry(
    id: Option<string>,
    link: Option<string>,
    title: Option<string>,
    summary: Option<string>,
    description: Option<string>,
    publishedParsed: Option<int>,
    updatedParsed: Option<int>)

  /** The outcome of fetching and parsing one URL. */
  datatype Response = Fetched(entries: seq<RawEntry>) | FetchFailed

  /** The service's state: the width of the recency window, in hours. */
  datatype FeedService = FeedService(maxAgeHours: int)

  /** Python's `a or b` on an optional string with a string fallback. */
  function OrElse(a: Option<string>, b: string): (r: string)
    ensures Truthy(a) ==> r == a.value
    ensures !Truthy(a) ==> r == b
  {
    if Truthy(a) then a.value else b
  }

  /** `entry.get("id") or entry.get("link")`, `None` when neither is a non-empty string. */
  function EntryId(e: RawEntry): (r: Option<string>)
    ensures r.Some? ==> r.value != ""
    ensures r.Some? <==> Truthy(e.id) || Truthy(e.link)
    ensures Truthy(e.id) ==> r == e.id
    ensures !Truthy(e.id) && Truthy(e.link) ==> r == e.link
  {
    if Truthy(e.id) then e.id else if Truthy(e.link) then e.link else None
  }

  /** `_parse_datetime`: the published time, else the updated time, else none. */
  function ParseDatetime(e: RawEntry): (r: Option<int>)
    ensures e.publishedParsed.Some? ==> r == e.publishedParsed
    ensures e.publishedParsed.None? ==> r == e.updatedParsed
  {
    if e.publishedParsed.Some? then e.publishedParsed else e.updatedParsed
  }

  /** `_is_recent`: a known time at most `maxAgeHours` hours before `now`. */
  function IsRecent(svc: FeedService, now: int, published: Option<int>): (r: bool)
    ensures r <==> published.Some? && now - published.value <= svc.maxAgeHours * 3600
  {
    match published
    case None => false
    case Some(t) => now - t <= svc.maxAgeHours * 3600
  }

  /** The time an item is stamped with: its parsed time, or `now` when it has none. */
  function StampedTime(e: RawEntry, now: int): (r: int)
    ensures e.publishedParsed.Some? ==> r == e.publishedParsed.value
    ensures e.publishedParsed.None? && e.updatedParsed.Some? ==> r == e.updatedParsed.value
    ensures e.publishedParsed.None? && e.updatedParsed.None? ==> r == now
  {
    match ParseDatetime(e)
    case Some(t) => t
    case None => now
  }

  /** `_normalize_entry`: the item, or `None` when it has no id or is too old. */
  function NormalizeEntry(svc: FeedService, e: RawEntry, source: string, now: int): (r: Option<NewsItem>)
    ensures r.Some? <==> EntryId(e).Some? && IsRecent(svc, now, Some(StampedTime(e, now)))
    ensures r.Some? ==> r.value.id != "" && r.value.source == source
  {
    match EntryId(e)
    case None => None
    case Some(entryId) =>
      var title := Strip(OrElse(e.title, ""));
      var link := Strip(OrElse(e.link, ""));
      var summary := Strip(OrElse(e.summary, OrElse(e.description, "")));
      var published := Some(StampedTime(e, now));
      if !IsRecent(svc, now, published) then None
      else Some(NewsItem(source, entryId, title, link, summary, published))
  }

  /** An entry with an id, a recent time and already stripped texts normalises to the item of those texts. */
  lemma NormalizeEntryIs(svc: FeedService, e: RawEntry, source: string, now: int,
                         id: string, title: string, link: string, summary: string)
    requires EntryId(e) == Some(id) && IsRecent(svc, now, Some(StampedTime(e, now)))
    requires OrElse(e.title, "") == title && OrElse(e.link, "") == link
    requires OrElse(e.summary, OrElse(e.description, "")) == summary
    requires IsStripped(title) && IsStripped(link) && IsStripped(summary)
    ensures NormalizeEntry(svc, e, source, now) == Some(NewsItem(source, id, title, link, summary, Some(StampedTime(e, now))))
  {
    StripStripped(title);
    StripStripped(link);
    StripStripped(summary);
  }

  /** The fields of a kept item: the id as found, the texts stripped, the time always set. */
  lemma NormalizedFields(svc: FeedService, e: RawEntry, source: string, now: int)
    requires NormalizeEntry(svc, e, source, now).Some?
    ensures var item := NormalizeEntry(svc, e, source, now).value;
      && item.id == (if Truthy(e.id) then e.id.value else e.link.value)
      && item.title == Strip(OrElse(e.title, ""))
      && item.link == Strip(OrElse(e.link, ""))
      && item.summary == Strip(OrElse(e.summary, OrElse(e.description, "")))
      && item.published == Some(if ParseDatetime(e).Some? then ParseDatetime(e).value else now)
      && IsStripped(item.title) && IsStripped(item.link) && IsStripped(item.summary)
  {
  }

  /** The age bound is inclusive, and an entry dated in the future is recent. */
  lemma RecencyBoundary(svc: FeedService, now: int, t: int)
    ensures IsRecent(svc, now, Some(now - svc.maxAgeHours * 3600))
    ensures !IsRecent(svc, now, Some(now - svc.maxAgeHours * 3600 - 1))
    ensures t >= now && svc.maxAgeHours >= 0 ==> IsRecent(svc, now, Some(t))
  {
  }

  /** An entry with an id but no date is stamped `now` and kept whenever the window is not negative. */
  lemma DatelessEntryKept(svc: FeedService, e: RawEntry, source: string, now: int)
    requires EntryId(e).Some? && ParseDatetime(e).None?
    ensures NormalizeEntry(svc, e, source, now).Some? <==> svc.maxAgeHours >= 0
    ensures svc.maxAgeHours >= 0 ==> NormalizeEntry(svc, e, source, now).value.published == Some(now)
  {
  }

  /** An entry with an id is dropped only for an explicit old date (or a negative window). */
  lemma OnlyOldDatesExclude(svc: FeedService, e: RawEntry, source: string, now: int)
    requires EntryId(e).Some? && NormalizeEntry(svc, e, source, now).None?
    ensures || (ParseDatetime(e).Some? && now - ParseDatetime(e).value > svc.maxAgeHours * 3600)
            || (ParseDatetime(e).None? && svc.maxAgeHours < 0)
  {
  }

  /** The normalisation of every entry of a feed, in feed order. */
  function Normalized(svc: FeedService, entries: seq<RawEntry>, source: string, now: int): (r: seq<Option<NewsItem>>)
    ensures |r| == |entries|
    ensures forall i :: 0 <= i < |entries| ==> r[i] == NormalizeEntry(svc, entries[i], source, now)
  {
    seq(|entries|, i requires 0 <= i < |entries| => NormalizeEntry(svc, entries[i], source, now))
  }

  /** What `_parse_feed` returns for a feed's entries. */
  function FeedItems(svc: FeedService, entries: seq<RawEntry>, source: string, now: int): seq<NewsItem> {
    Somes(Normalized(svc, entries, source, now))
  }

  /** `_parse_feed`: the entries that normalise, in feed order. */
  method ParseFeed(svc: FeedService, entries: seq<RawEntry>, source: string, now: int) returns (items: seq<NewsItem>)
    ensures items == FeedItems(svc, entries, source, now)
  {
    ghost var norm := Normalized(svc, entries, source, now);
    items := [];
    var i := 0;
    while i < |entries|
      invariant 0 <= i <= |entries|
      invariant items == Somes(norm[..i])
    {
      var normalized := NormalizeEntry(svc, entries[i], source, now);
      assert normalized == norm[i];
      PrefixSnoc(norm, i);
      SomesSnoc(norm[..i], normalized);
      if normalized.Some? {
        items := items + [normalized.value];
      }
      i := i + 1;
    }
    assert norm[..i] == norm;
  }

  /** Each kept item has a non-empty id and the feed's URL as source, and came from some entry. */
  lemma FeedItemsWellFormed(svc: FeedService, entries: seq<RawEntry>, source: string, now: int, item: NewsItem)
    ensures item in FeedItems(svc, entries, source, now) <==>
      exists i :: 0 <= i < |entries| && NormalizeEntry(svc, entries[i], source, now) == Some(item)
    ensures item in FeedItems(svc, entries, source, now) ==> item.id != "" && item.source == source
  {
    var norm := Normalized(svc, entries, source, now);
    SomesMembership(norm, item);
    if Some(item) in norm {
      var i :| 0 <= i < |norm| && norm[i] == Some(item);
      assert NormalizeEntry(svc, entries[i], source, now) == Some(item);
    }
  }

  /** Entries that all normalise are all kept, one item per entry in the same order. */
  lemma FeedItemsKeepAll(svc: FeedService, entries: seq<RawEntry>, source: string, now: int)
    requires forall i :: 0 <= i < |entries| ==> NormalizeEntry(svc, entries[i], source, now).Some?
    ensures |FeedItems(svc, entries, source, now)| == |entries|
    ensures forall i :: 0 <= i < |entries| ==>
      Some(FeedItems(svc, entries, source, now)[i]) == NormalizeEntry(svc, entries[i], source, now)
  {
    SomesAllSome(Normalized(svc, entries, source, now));
  }

  /** What one URL contributes: its parsed items, or nothing when its fetch failed. */
  function FeedResult(svc: FeedService, url: string, response: Response, now: int): (r: seq<NewsItem>)
    ensures response.FetchFailed? ==> r == []
  {
    match response
    case Fetched(entries) => FeedItems(svc, entries, url, now)
    case FetchFailed => []
  }

  /** The per-URL contributions, in URL order. */
  function FeedResults(svc: FeedService, urls: seq<string>, responses: seq<Response>, now: int): (r: seq<seq<NewsItem>>)
    requires |responses| == |urls|
    ensures |r| == |urls|
    ensures forall i :: 0 <= i < |urls| ==> r[i] == FeedResult(svc, urls[i], responses[i], now)
  {
    seq(|urls|, i requires 0 <= i < |urls| => FeedResult(svc, urls[i], responses[i], now))
  }

  /** What `fetch_all` returns. */
  function AllItems(svc: FeedService, urls: seq<string>, responses: seq<Response>, now: int): seq<NewsItem>
    requires |responses| == |urls|
  {
    Concat(FeedResults(svc, urls, responses, now))
  }

  /** `fetch_all`: the items of every URL, concatenated in URL order. */
  method FetchAll(svc: FeedService, urls: seq<string>, responses: seq<Response>, now: int) returns (all: seq<NewsItem>)
    requires |responses| == |urls|
    ensures all == AllItems(svc, urls, responses, now)
  {
    ghost var results := FeedResults(svc, urls, responses, now);
    all := [];
    var i := 0;
    while i < |urls|
      invariant 0 <= i <= |urls|
      invariant all == Concat(results[..i])
    {
      var res: seq<NewsItem>;
      match responses[i] {
        case Fetched(entries) => res := ParseFeed(svc, entries, urls[i], now);
        case FetchFailed => res := [];
      }
      assert res == results[i];
      PrefixSnoc(results, i);
      ConcatSnoc(results[..i], res);
      all := all + res;
      i := i + 1;
    }
    assert results[..i] == results;
  }

  /** The fetched items split at any URL: earlier URLs' items precede later URLs' items. */
  lemma AllItemsSplit(svc: FeedService, urls: seq<string>, responses: seq<Response>, now: int, i: nat)
    requires |responses| == |urls| && i <= |urls|
    ensures AllItems(svc, urls, responses, now) ==
      AllItems(svc, urls[..i], responses[..i], now) + AllItems(svc, urls[i..], responses[i..], now)
  {
    var rs := FeedResults(svc, urls, responses, now);
    assert rs == rs[..i] + rs[i..];
    assert rs[..i] == FeedResults(svc, urls[..i], responses[..i], now);
    assert rs[i..] == FeedResults(svc, urls[i..], responses[i..], now);
    ConcatAppend(rs[..i], rs[i..]);
  }

  /** A failed URL contributes nothing and leaves the other URLs' items as they were. */
  lemma FailedFeedIsolated(svc: FeedService, urls: seq<string>, responses: seq<Response>, now: int, i: nat)
    requires |responses| == |urls| && i < |urls| && responses[i] == FetchFailed
    ensures AllItems(svc, urls, responses, now) ==
      AllItems(svc, urls[..i], responses[..i], now) + AllItems(svc, urls[i + 1..], responses[i + 1..], now)
  {
    AllItemsSplit(svc, urls, responses, now, i);
    assert AllItems(svc, urls[i..], responses[i..], now) == AllItems(svc, urls[i + 1..], responses[i + 1..], now) by {
      var rest := FeedResults(svc, urls[i..], responses[i..], now);
      assert rest[0] == [];
      FeedResultsTail(svc, urls[i..], responses[i..], now);
      assert urls[i..][1..] == urls[i + 1..] && responses[i..][1..] == responses[i + 1..];
      ConcatCons(rest);
    }
  }

  /** Dropping the first URL drops its contribution. */
  lemma FeedResultsTail(svc: FeedService, urls: seq<string>, responses: seq<Response>, now: int)
    requires |responses| == |urls| && urls != []
    ensures FeedResults(svc, urls, responses, now)[1..] == FeedResults(svc, urls[1..], responses[1..], now)
  {
  }

  /** Every fetched item has a non-empty id and one of the URLs as its source. */
  lemma AllItemsWellFormed(svc: FeedService, urls: seq<string>, responses: seq<Response>, now: int, item: NewsItem)
    requires |responses| == |urls|
    requires item in AllItems(svc, urls, responses, now)
    ensures item.id != "" && item.source in urls
  {
    var rs := FeedResults(svc, urls, responses, now);
    var i :| 0 <= i < |rs| && item in rs[i];
    match responses[i]
    case Fetched(entries) => FeedItemsWellFormed(svc, entries, urls[i], now, item);
    case FetchFailed =>
  }

  /** A feed of one entry yields exactly the item that entry normalises to, if any. */
  lemma SingleEntryFeed(svc: FeedService, e: RawEntry, source: string, now: int, item: NewsItem)
    requires NormalizeEntry(svc, e, source, now) == Some(item)
    ensures FeedItems(svc, [e], source, now) == [item]
  {
    var norm := Normalized(svc, [e], source, now);
    SingletonDisplay(norm);
    SomesSingle(norm[0]);
  }

  /** Fetching a single URL yields exactly that feed's items. */
  lemma SingleFeedFetch(svc: FeedService, url: string, entries: seq<RawEntry>, now: int)
    ensures AllItems(svc, [url], [Fetched(entries)], now) == FeedItems(svc, entries, url, now)
  {
    var rs := FeedResults(svc, [url], [Fetched(entries)], now);
    assert rs == [FeedItems(svc, entries, url, now)];
    assert rs[1..] == [];
    assert Concat(rs) == rs[0] + Concat([]);
  }
}
