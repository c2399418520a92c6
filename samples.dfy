/**
 * The sample data of the worked examples: one feed with the keyword "openai", a 24-hour
 * window and AI off, and one entry with an id and a title; what the feed and the filter make
 * of that entry.
 */
module Samples {
  import opened Wrappers
  import opened Text
  import opened Models
  import opened Filter
  import opened Feed
  import opened Orchestrator

  /** Settings of the worked examples: one feed, the keyword "openai", 24 hours, AI off. */
  function ExampleSettings(): Settings {
    Settings(["https://example.org/feed"], ["openai"], 24, 10, true)
  }

  /** An entry with an id and a title, no link, summary or description, and a published time. */
  function ExampleEntry(id: string, title: string, published: int): RawEntry {
    RawEntry(Some(id), None, Some(title), None, None, Some(published), None)
  }

  /** The item that entry normalises to when it is recent and its title has no surrounding space. */
  function ExampleItem(id: string, title: string, published: int): NewsItem {
    NewsItem(ExampleSettings().feeds[0], id, title, "", "", Some(published))
  }

  /** The example entry, published an hour ago, normalises to the example item. */
  lemma ExampleNormalizes(id: string, title: string, now: int)
    requires id != "" && IsStripped(title)
    ensures NormalizeEntry(FeedService(24), ExampleEntry(id, title, now - 3600), ExampleSettings().feeds[0], now)
      == Some(ExampleItem(id, title, now - 3600))
  {
    var e := ExampleEntry(id, title, now - 3600);
    assert EntryId(e) == Some(id) && StampedTime(e, now) == now - 3600;
    assert IsRecent(FeedService(24), now, Some(now - 3600));
    NormalizeEntryIs(FeedService(24), e, ExampleSettings().feeds[0], now, id, title, "", "");
  }

  /** Fetching the example feed with that one entry yields exactly the example item. */
  lemma ExampleFetch(id: string, title: string, now: int)
    requires id != "" && IsStripped(title)
    ensures AllItems(FeedService(24), ExampleSettings().feeds, [Fetched([ExampleEntry(id, title, now - 3600)])], now)
      == [ExampleItem(id, title, now - 3600)]
  {
    var e := ExampleEntry(id, title, now - 3600);
    ExampleNormalizes(id, title, now);
    SingleEntryFeed(FeedService(24), e, ExampleSettings().feeds[0], now, ExampleItem(id, title, now - 3600));
    SingleFeedFetch(FeedService(24), ExampleSettings().feeds[0], [e], now);
  }

  /** A title whose lowercase contains "openai" makes the example item match the example keywords. */
  lemma ExampleMatches(id: string, title: string, published: int)
    requires Occurs("openai", Lower(title))
    ensures ItemMatches(NewFilterService(ExampleSettings().keywords), ExampleItem(id, title, published))
  {
    var f := NewFilterService(["openai"]);
    assert Lower("openai") == "openai";
    assert f.keywords == ["openai"];
    var blob := Blob(ExampleItem(id, title, published));
    LowerConcat(title, " ");
    assert blob == (title + " ") + "";
    var t := Lower(blob);
    assert Lower(title) <= t;
    OccursInLonger("openai", Lower(title), t);
    assert Occurs(f.keywords[0], t);
  }

  /** The sample settings, entry and item, an hour old, make a one-entry run with an empty ledger. */
  lemma ExampleRunFacts(id: string, title: string, now: int)
    requires id != "" && IsStripped(title) && Occurs("openai", Lower(title))
    ensures OneFreshEntry(ExampleSettings(), {}, ExampleEntry(id, title, now - 3600), now, ExampleItem(id, title, now - 3600))
    ensures ExampleSettings().noAI && ExampleItem(id, title, now - 3600).id == id
  {
    ExampleNormalizes(id, title, now);
    ExampleMatches(id, title, now - 3600);
  }
}
