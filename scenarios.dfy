/**
 * Worked examples of whole runs over the sample feed, with an entry an hour old and one two
 * days old.
 */
module Scenarios {
  import opened Wrappers
  import opened Text
  import opened Seqs
  import opened Models
  import opened Feed
  import opened Orchestrator
  import opened Samples

  /**
   * An entry whose title contains "openai" in any case, published an hour ago, with an empty
   * ledger and AI off: one record without script or error, and the ledger becomes its id.
   */
  lemma FreshEntryScenario(id: string, title: string, now: int, generate: nat -> Option<string>,
                           crashes: nat -> bool)
    requires id != "" && IsStripped(title) && Occurs("openai", Lower(title)) && !crashes(0)
    ensures var r := Run(ExampleSettings(), {}, [Fetched([ExampleEntry(id, title, now - 3600)])], now, generate, crashes);
      && r.processed == [ProcessedItem(ExampleItem(id, title, now - 3600), None, None)]
      && r.savedLedger == Some({id})
  {
    var empty: set<string> := {};
    ExampleRunFacts(id, title, now);
    OneEntryRunWithoutAI(ExampleSettings(), empty, ExampleEntry(id, title, now - 3600), now, generate, crashes,
                         ExampleItem(id, title, now - 3600));
  }

  /** Published 48 hours ago: the feed yields nothing, nothing is processed and the ledger is not saved. */
  lemma StaleEntryScenario(id: string, title: string, now: int, seen: set<string>,
                           generate: nat -> Option<string>, crashes: nat -> bool)
    ensures var r := Run(ExampleSettings(), seen, [Fetched([ExampleEntry(id, title, now - 48 * 3600)])], now, generate, crashes);
      r.fetched == [] && r.processed == [] && r.savedLedger.None?
  {
    var cfg := ExampleSettings();
    var svc := FeedService(24);
    var e := ExampleEntry(id, title, now - 48 * 3600);
    assert NormalizeEntry(svc, e, cfg.feeds[0], now).None?;
    assert FeedItems(svc, [e], cfg.feeds[0], now) == [];
    var rs := FeedResults(svc, cfg.feeds, [Fetched([e])], now);
    assert rs == [[]];
    assert Concat(rs) == [] + Concat([]);
  }
}
