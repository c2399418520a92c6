/**
 * One run of the monitor: fetch, drop already-seen items, keyword-filter, cap to the limit,
 * process each item, and merge the ids processed without an uncaught error into the ledger.
 * The ledger is loaded before the run (`seen`) and the run returns the set to save, if any.
 * Processing is one pass in task order; for task `i`, `generate(i)` is the summarizer's
 * answer and `crashes(i)` says whether an uncaught error ended it.
 */
module Orchestrator {
  import opened Wrappers
  import opened Text
  import opened Seqs
  import opened Models
  import opened Filter
  import opened Feed
  import Notification
  import Utils

  /** The error recorded when AI generation gave nothing. */
  const GenerationFailed: string := "Falha ao gerar roteiro (ver logs)"

  /** The settings one run reads. */
  datatype Settings = Settings(
    feeds: seq<string>,
    keywords: seq<string>,
    maxAgeHours: int,
    limit: int,
    noAI: bool)

  /** What the run did, stage by stage, and the ledger it saves (`None`: nothing saved). */
  datatype RunResult = RunResult(
    fetched: seq<NewsItem>,
    newItems: seq<NewsItem>,
    relevant: seq<NewsItem>,
    processed: seq<ProcessedItem>,
    successfulIds: seq<string>,
    savedLedger: Option<set<string>>)

  /** A line that `read_lines_file` keeps: not blank after stripping. */
  function NonBlank(): string -> bool {
    line => Strip(line) != ""
  }

  function StripAll(lines: seq<string>): (r: seq<string>)
    ensures |r| == |lines|
    ensures forall i :: 0 <= i < |lines| ==> r[i] == Strip(lines[i])
  {
    Map(lines, Strip)
  }

  function NonEmpty(): string -> bool {
    line => line != ""
  }

  /**
   * `read_lines_file`: the stripped non-blank lines in file order; nothing when the read failed.
   * Stripping the kept lines is the same as stripping every line and dropping the empty results.
   */
  function ReadLinesFile(content: Option<string>): (r: seq<string>)
    ensures content.None? ==> r == []
    ensures content.Some? ==> r == Keep(StripAll(SplitLines(content.value)), NonEmpty())
    ensures forall i :: 0 <= i < |r| ==> r[i] != "" && IsStripped(r[i])
  {
    match content
    case None => []
    case Some(text) =>
      var kept := Keep(SplitLines(text), NonBlank());
      StripAllNonBlank(kept);
      StripThenDropEmpty(SplitLines(text));
      StripAll(kept)
  }

  /** Dropping blank lines and then stripping equals stripping and then dropping empty lines. */
  lemma StripThenDropEmpty(lines: seq<string>)
    ensures StripAll(Keep(lines, NonBlank())) == Keep(StripAll(lines), NonEmpty())
  {
    KeepMap(lines, Strip, NonBlank(), NonEmpty());
  }

  /**
   * The lines read are, in file order, the stripped lines of the file that are not empty:
   * a subsequence of all stripped lines, holding every one that is not empty and no others.
   */
  lemma ReadLinesFileLines(text: string)
    ensures IsSubseq(ReadLinesFile(Some(text)), StripAll(SplitLines(text)))
    ensures forall x :: x in ReadLinesFile(Some(text)) <==> x in StripAll(SplitLines(text)) && x != ""
  {
    var all := StripAll(SplitLines(text));
    KeepIsSubseq(all, NonEmpty());
    forall x
      ensures x in ReadLinesFile(Some(text)) <==> x in all && x != ""
    {
      KeepMembership(all, NonEmpty(), x);
    }
  }

  /** Stripping lines that are not blank gives non-empty stripped lines. */
  lemma StripAllNonBlank(lines: seq<string>)
    requires forall x :: x in lines ==> NonBlank()(x)
    ensures forall i :: 0 <= i < |lines| ==> StripAll(lines)[i] != "" && IsStripped(StripAll(lines)[i])
  {
    forall i | 0 <= i < |lines|
      ensures StripAll(lines)[i] != ""
    {
      assert lines[i] in lines;
    }
  }

  /** The keep-predicate of the dedup comprehension. */
  function Unseen(seen: set<string>): NewsItem -> bool {
    (item: NewsItem) => item.id !in seen
  }

  /** The fetched items whose id is not in the ledger, in fetch order. */
  function NewItems(all: seq<NewsItem>, seen: set<string>): seq<NewsItem> {
    Keep(all, Unseen(seen))
  }

  /** An item is new exactly when it was fetched and its id is not in the ledger. */
  lemma NewItemsMembership(all: seq<NewsItem>, seen: set<string>)
    ensures IsSubseq(NewItems(all, seen), all)
    ensures forall x :: x in NewItems(all, seen) <==> x in all && x.id !in seen
  {
    KeepIsSubseq(all, Unseen(seen));
    forall x
      ensures x in NewItems(all, seen) <==> x in all && x.id !in seen
    {
      KeepMembership(all, Unseen(seen), x);
    }
  }

  /** The cap on the relevant items: Python's `if limit and len(items) > limit: items = items[:limit]`. */
  function ApplyLimit(items: seq<NewsItem>, limit: int): (r: seq<NewsItem>)
    ensures r <= items
    ensures limit == 0 ==> r == items
    ensures limit > 0 ==> |r| == (if |items| <= limit then |items| else limit)
    ensures limit < 0 ==> |r| == (if -limit <= |items| then |items| + limit else 0)
  {
    if limit != 0 && |items| > limit then SliceTo(items, limit) else items
  }

  /** The processed record of one item: no script and no error with AI off, else the answer. */
  function Processed(item: NewsItem, noAI: bool, generated: Option<string>): (p: ProcessedItem)
    ensures p.news == item
    ensures noAI ==> p.script.None? && p.error.None?
    ensures !noAI ==> p.script == generated
    ensures !noAI ==> (p.error.Some? <==> !Truthy(generated))
    ensures p.error.Some? ==> p.error.value == GenerationFailed
  {
    if noAI then ProcessedItem(item, None, None)
    else if Truthy(generated) then ProcessedItem(item, generated, None)
    else ProcessedItem(item, generated, Some(GenerationFailed))
  }

  /** What a task hands back: the item's id, or nothing when an uncaught error ended it. */
  function TaskOutcome(item: NewsItem, crashed: bool): (r: Option<string>)
    ensures r.Some? <==> !crashed
    ensures r.Some? ==> r.value == item.id
  {
    if crashed then None else Some(item.id)
  }

  /** `process_one`: fills in script and error step by step and returns the task's outcome. */
  method ProcessOne(item: NewsItem, noAI: bool, generated: Option<string>, crashed: bool)
    returns (processed: ProcessedItem, outcome: Option<string>)
    ensures processed == Processed(item, noAI, generated)
    ensures outcome == TaskOutcome(item, crashed)
  {
    var script: Option<string> := None;
    var error: Option<string> := None;
    if !noAI {
      script := generated;
      if !(script.Some? && script.value != "") {
        error := Some(GenerationFailed);
      }
    }
    processed := ProcessedItem(item, script, error);
    if crashed {
      outcome := None;
    } else {
      outcome := Some(item.id);
    }
  }

  /**
   * The output steps of a task that did not crash, after its record is rendered: the save
   * when a save directory is set, then one send per configured channel, all with the one
   * message text built from the record.
   */
  method OutputOne(n: Notification.NotificationService, processed: ProcessedItem,
                   saveDir: Option<string>, timestamp: string, md5Hex: string -> string,
                   fmt: int -> string, sink: (Notification.Channel, string) -> bool)
    returns (saved: Option<Utils.SaveTarget>, deliveries: seq<Notification.Delivery>)
    ensures saved.Some? <==> saveDir.Some?
    ensures saved.Some? ==> saved.value == Utils.SaveTarget(saveDir.value, Utils.FileName(timestamp, processed.news, md5Hex))
    ensures |deliveries| == (if Notification.TelegramConfigured(n) then 1 else 0)
                          + (if Notification.DiscordConfigured(n) then 1 else 0)
    ensures forall d :: d in deliveries ==> d.text == Notification.MessageText(processed, fmt)
    ensures (exists d :: d in deliveries && d.channel == Notification.Telegram) <==> Notification.TelegramConfigured(n)
    ensures (exists d :: d in deliveries && d.channel == Notification.Discord) <==> Notification.DiscordConfigured(n)
  {
    saved := None;
    if saveDir.Some? {
      saved := Utils.SaveResultToFile(processed, saveDir, timestamp, md5Hex);
    }
    deliveries := Notification.SendAll(n, processed, fmt, sink);
  }

  /** Script and error are both set only when the summarizer answered with the empty string. */
  lemma ScriptAndErrorOnlyForEmptyAnswer(item: NewsItem, noAI: bool, generated: Option<string>)
    ensures var p := Processed(item, noAI, generated);
      p.script.Some? && p.error.Some? <==> !noAI && generated == Some("")
  {
  }

  /** The collection loop: the ids of the tasks that returned one, in task order. */
  method CollectSuccesses(outcomes: seq<Option<string>>) returns (ids: seq<string>)
    ensures ids == Somes(outcomes)
  {
    ids := [];
    var i := 0;
    while i < |outcomes|
      invariant 0 <= i <= |outcomes|
      invariant ids == Somes(outcomes[..i])
    {
      PrefixSnoc(outcomes, i);
      SomesSnoc(outcomes[..i], outcomes[i]);
      if outcomes[i].Some? {
        ids := ids + [outcomes[i].value];
      }
      i := i + 1;
    }
    assert outcomes[..i] == outcomes;
  }

  /** The ledger save: the loaded ids and the new successes, only when there is a success. */
  function Commit(seen: set<string>, ids: seq<string>): (r: Option<set<string>>)
    ensures r.Some? <==> ids != []
    ensures r.Some? ==> seen <= r.value
    ensures r.Some? ==> forall id :: id in r.value <==> id in seen || id in ids
  {
    if ids != [] then Some(seen + set id | id in ids) else None
  }

  function ProcessedAll(batch: seq<NewsItem>, noAI: bool, generate: nat -> Option<string>): (r: seq<ProcessedItem>)
    ensures |r| == |batch|
    ensures forall i :: 0 <= i < |batch| ==> r[i] == Processed(batch[i], noAI, generate(i))
  {
    seq(|batch|, i requires 0 <= i < |batch| => Processed(batch[i], noAI, generate(i)))
  }

  function OutcomesAll(batch: seq<NewsItem>, crashes: nat -> bool): (r: seq<Option<string>>)
    ensures |r| == |batch|
    ensures forall i :: 0 <= i < |batch| ==> r[i] == TaskOutcome(batch[i], crashes(i))
  {
    seq(|batch|, i requires 0 <= i < |batch| => TaskOutcome(batch[i], crashes(i)))
  }

  /** The processing pass: every task of the batch, in task order (the gathered results). */
  method ProcessAll(batch: seq<NewsItem>, noAI: bool, generate: nat -> Option<string>, crashes: nat -> bool)
    returns (processed: seq<ProcessedItem>, outcomes: seq<Option<string>>)
    ensures processed == ProcessedAll(batch, noAI, generate)
    ensures outcomes == OutcomesAll(batch, crashes)
  {
    processed, outcomes := [], [];
    var i := 0;
    while i < |batch|
      invariant 0 <= i <= |batch|
      invariant |processed| == i && |outcomes| == i
      invariant forall k :: 0 <= k < i ==> processed[k] == Processed(batch[k], noAI, generate(k))
      invariant forall k :: 0 <= k < i ==> outcomes[k] == TaskOutcome(batch[k], crashes(k))
    {
      var p, outcome := ProcessOne(batch[i], noAI, generate(i), crashes(i));
      processed := processed + [p];
      outcomes := outcomes + [outcome];
      i := i + 1;
    }
  }

  /**
   * The run as a value, from fetching the feeds to saving the ledger: fetch, drop seen ids,
   * filter, stop when nothing is relevant, limit, process, collect the finished ids, commit.
   */
  function Run(cfg: Settings, seen: set<string>, responses: seq<Response>, now: int,
               generate: nat -> Option<string>, crashes: nat -> bool): (r: RunResult)
    requires |responses| == |cfg.feeds|
    ensures r.relevant == [] ==> r.processed == [] && r.savedLedger.None?
    ensures r.savedLedger.Some? <==> r.successfulIds != []
    ensures r.savedLedger.Some? ==> seen <= r.savedLedger.value
  {
    var all := AllItems(FeedService(cfg.maxAgeHours), cfg.feeds, responses, now);
    var newItems := NewItems(all, seen);
    var relevant := Keep(newItems, Relevant(NewFilterService(cfg.keywords)));
    if relevant == [] then RunResult(all, newItems, relevant, [], [], None)
    else
      var batch := ApplyLimit(relevant, cfg.limit);
      var ids := Somes(OutcomesAll(batch, crashes));
      RunResult(all, newItems, relevant, ProcessedAll(batch, cfg.noAI, generate), ids, Commit(seen, ids))
  }

  /** `main`, step by step, as one sequential pass over the tasks. */
  method RunOnce(cfg: Settings, seen: set<string>, responses: seq<Response>, now: int,
                 generate: nat -> Option<string>, crashes: nat -> bool) returns (r: RunResult)
    requires |responses| == |cfg.feeds|
    ensures r == Run(cfg, seen, responses, now, generate, crashes)
  {
    var all := FetchAll(FeedService(cfg.maxAgeHours), cfg.feeds, responses, now);
    var newItems := NewItems(all, seen);
    var filter := NewFilterService(cfg.keywords);
    var relevant := FilterItems(filter, newItems);
    if |relevant| == 0 {
      r := RunResult(all, newItems, relevant, [], [], None);
      return;
    }
    var batch := ApplyLimit(relevant, cfg.limit);
    var processed, outcomes := ProcessAll(batch, cfg.noAI, generate, crashes);
    var ids := CollectSuccesses(outcomes);
    var saved: Option<set<string>> := None;
    if |ids| > 0 {
      saved := Some(seen + set id | id in ids);
    }
    r := RunResult(all, newItems, relevant, processed, ids, saved);
  }

  /** The tasks of a run: the relevant items after the limit. */
  function Batch(cfg: Settings, seen: set<string>, responses: seq<Response>, now: int): seq<NewsItem>
    requires |responses| == |cfg.feeds|
  {
    var all := AllItems(FeedService(cfg.maxAgeHours), cfg.feeds, responses, now);
    ApplyLimit(Keep(NewItems(all, seen), Relevant(NewFilterService(cfg.keywords))), cfg.limit)
  }

  /** The stages of a run and how each follows from the one before. */
  lemma RunStages(cfg: Settings, seen: set<string>, responses: seq<Response>, now: int,
                  generate: nat -> Option<string>, crashes: nat -> bool)
    requires |responses| == |cfg.feeds|
    ensures var r := Run(cfg, seen, responses, now, generate, crashes);
      var batch := Batch(cfg, seen, responses, now);
      && r.fetched == AllItems(FeedService(cfg.maxAgeHours), cfg.feeds, responses, now)
      && r.newItems == NewItems(r.fetched, seen)
      && r.relevant == Keep(r.newItems, Relevant(NewFilterService(cfg.keywords)))
      && (r.relevant == [] ==> r.processed == [] && r.successfulIds == [] && r.savedLedger.None?)
      && (r.relevant != [] ==>
            && r.processed == ProcessedAll(batch, cfg.noAI, generate)
            && r.successfulIds == Somes(OutcomesAll(batch, crashes))
            && r.savedLedger == Commit(seen, r.successfulIds))
  {
  }

  /** Dedup comes first: no item whose id is in the ledger is filtered or processed. */
  lemma DedupBeforeFilter(cfg: Settings, seen: set<string>, responses: seq<Response>, now: int,
                          generate: nat -> Option<string>, crashes: nat -> bool)
    requires |responses| == |cfg.feeds|
    ensures var r := Run(cfg, seen, responses, now, generate, crashes);
      && IsSubseq(r.newItems, r.fetched)
      && (forall x :: x in r.newItems <==> x in r.fetched && x.id !in seen)
      && (forall x :: x in r.relevant ==> x in r.newItems)
      && (forall i :: 0 <= i < |r.processed| ==> r.processed[i].news.id !in seen)
  {
    var r := Run(cfg, seen, responses, now, generate, crashes);
    RunStages(cfg, seen, responses, now, generate, crashes);
    KeepIsSubseq(r.fetched, Unseen(seen));
    forall x ensures x in r.newItems <==> x in r.fetched && x.id !in seen {
      KeepMembership(r.fetched, Unseen(seen), x);
    }
    var f := NewFilterService(cfg.keywords);
    forall x | x in r.relevant ensures x in r.newItems {
      KeepMembership(r.newItems, Relevant(f), x);
    }
    if r.relevant != [] {
      var batch := Batch(cfg, seen, responses, now);
      forall i | 0 <= i < |r.processed| ensures r.processed[i].news.id !in seen {
        assert r.processed[i].news == batch[i] == r.relevant[i];
        assert r.relevant[i] in r.relevant;
      }
    }
  }

  /** The limit keeps the first relevant items in order: `LIMIT` of them, all for 0, all but `-LIMIT` below 0. */
  lemma LimitKeepsFirst(cfg: Settings, seen: set<string>, responses: seq<Response>, now: int,
                        generate: nat -> Option<string>, crashes: nat -> bool)
    requires |responses| == |cfg.feeds|
    ensures var r := Run(cfg, seen, responses, now, generate, crashes);
      && |r.processed| <= |r.relevant|
      && (forall i :: 0 <= i < |r.processed| ==> r.processed[i].news == r.relevant[i])
      && (cfg.limit == 0 ==> |r.processed| == |r.relevant|)
      && (cfg.limit > 0 ==> |r.processed| == (if |r.relevant| <= cfg.limit then |r.relevant| else cfg.limit))
      && (cfg.limit < 0 ==> |r.processed| == (if -cfg.limit <= |r.relevant| then |r.relevant| + cfg.limit else 0))
  {
    var r := Run(cfg, seen, responses, now, generate, crashes);
    RunStages(cfg, seen, responses, now, generate, crashes);
    if r.relevant != [] {
      BatchPrefix(r.relevant, cfg.limit, cfg.noAI, generate);
    }
  }

  /** The processed records of a limited batch follow the first relevant items. */
  lemma BatchPrefix(relevant: seq<NewsItem>, limit: int, noAI: bool, generate: nat -> Option<string>)
    ensures var p := ProcessedAll(ApplyLimit(relevant, limit), noAI, generate);
      && |p| <= |relevant|
      && (forall i :: 0 <= i < |p| ==> p[i].news == relevant[i])
      && (limit == 0 ==> |p| == |relevant|)
      && (limit > 0 ==> |p| == (if |relevant| <= limit then |relevant| else limit))
      && (limit < 0 ==> |p| == (if -limit <= |relevant| then |relevant| + limit else 0))
  {
    var batch := ApplyLimit(relevant, limit);
    assert forall i :: 0 <= i < |batch| ==> batch[i] == relevant[i];
  }

  /** The ledger saved: only after a success, and exactly the old ids plus the successful ones. */
  lemma LedgerMerge(cfg: Settings, seen: set<string>, responses: seq<Response>, now: int,
                    generate: nat -> Option<string>, crashes: nat -> bool)
    requires |responses| == |cfg.feeds|
    ensures var r := Run(cfg, seen, responses, now, generate, crashes);
      && (r.savedLedger.Some? <==> exists i :: 0 <= i < |r.processed| && !crashes(i))
      && (forall i :: 0 <= i < |r.processed| && !crashes(i) ==> r.processed[i].news.id in r.successfulIds)
      && (forall id :: id in r.successfulIds ==>
            exists i :: 0 <= i < |r.processed| && !crashes(i) && r.processed[i].news.id == id)
      && (r.savedLedger.Some? ==>
            && seen <= r.savedLedger.value
            && forall id :: id in r.savedLedger.value <==> id in seen || id in r.successfulIds)
  {
    var r := Run(cfg, seen, responses, now, generate, crashes);
    RunStages(cfg, seen, responses, now, generate, crashes);
    if r.relevant != [] {
      SuccessfulIds(Batch(cfg, seen, responses, now), cfg.noAI, generate, crashes);
    }
  }

  /** The ids collected from the tasks are exactly those of the processed items whose task did not crash. */
  lemma SuccessfulIds(batch: seq<NewsItem>, noAI: bool, generate: nat -> Option<string>, crashes: nat -> bool)
    ensures var processed := ProcessedAll(batch, noAI, generate);
      var ids := Somes(OutcomesAll(batch, crashes));
      && (ids != [] <==> exists i :: 0 <= i < |processed| && !crashes(i))
      && (forall i :: 0 <= i < |processed| && !crashes(i) ==> processed[i].news.id in ids)
      && (forall id :: id in ids ==> exists i :: 0 <= i < |processed| && !crashes(i) && processed[i].news.id == id)
  {
    var processed := ProcessedAll(batch, noAI, generate);
    var outcomes := OutcomesAll(batch, crashes);
    var ids := Somes(outcomes);
    forall i | 0 <= i < |processed| && !crashes(i) ensures processed[i].news.id in ids {
      assert outcomes[i] == Some(batch[i].id);
      SomesMembership(outcomes, batch[i].id);
    }
    forall id | id in ids ensures exists i :: 0 <= i < |processed| && !crashes(i) && processed[i].news.id == id {
      SomesMembership(outcomes, id);
      var i :| 0 <= i < |outcomes| && outcomes[i] == Some(id);
      assert processed[i].news.id == id;
    }
    if ids != [] {
      assert ids[0] in ids;
    }
    if exists i :: 0 <= i < |processed| && !crashes(i) {
      var i :| 0 <= i < |processed| && !crashes(i);
      assert processed[i].news.id in ids;
    }
  }

  /** A failed AI generation still counts as handled: the error is recorded and the id committed. */
  lemma GenerationFailureCommitted(cfg: Settings, seen: set<string>, responses: seq<Response>, now: int,
                                   generate: nat -> Option<string>, crashes: nat -> bool, i: nat)
    requires |responses| == |cfg.feeds|
    requires !cfg.noAI && !Truthy(generate(i)) && !crashes(i)
    requires i < |Run(cfg, seen, responses, now, generate, crashes).processed|
    ensures var r := Run(cfg, seen, responses, now, generate, crashes);
      && r.processed[i].error == Some(GenerationFailed)
      && r.processed[i].script == generate(i)
      && r.savedLedger.Some?
      && r.processed[i].news.id in r.savedLedger.value
  {
    RunStages(cfg, seen, responses, now, generate, crashes);
    LedgerMerge(cfg, seen, responses, now, generate, crashes);
  }

  /**
   * Rerunning on the same feeds with the ledger a run saved, after that run processed every
   * relevant item without an uncaught error, processes nothing and saves nothing.
   */
  lemma SecondRunProcessesNothing(cfg: Settings, seen: set<string>, responses: seq<Response>, now: int,
                                  generate: nat -> Option<string>, crashes: nat -> bool,
                                  generate2: nat -> Option<string>, crashes2: nat -> bool)
    requires |responses| == |cfg.feeds|
    requires var r := Run(cfg, seen, responses, now, generate, crashes);
      r.savedLedger.Some? && |r.processed| == |r.relevant| &&
      forall i :: 0 <= i < |r.processed| ==> !crashes(i)
    ensures var r := Run(cfg, seen, responses, now, generate, crashes);
      var r2 := Run(cfg, r.savedLedger.value, responses, now, generate2, crashes2);
      r2.relevant == [] && r2.processed == [] && r2.savedLedger.None?
  {
    var r := Run(cfg, seen, responses, now, generate, crashes);
    RelevantCommitted(cfg, seen, responses, now, generate, crashes);
    RunStages(cfg, seen, responses, now, generate, crashes);
    var ledger := r.savedLedger.value;
    RunStages(cfg, ledger, responses, now, generate2, crashes2);
    NothingLeftAfterCommit(r.fetched, seen, ledger, NewFilterService(cfg.keywords));
  }

  /** After a run with no uncaught error and nothing cut by the limit, every relevant id is in the saved ledger. */
  lemma RelevantCommitted(cfg: Settings, seen: set<string>, responses: seq<Response>, now: int,
                          generate: nat -> Option<string>, crashes: nat -> bool)
    requires |responses| == |cfg.feeds|
    requires var r := Run(cfg, seen, responses, now, generate, crashes);
      r.savedLedger.Some? && |r.processed| == |r.relevant| &&
      forall i :: 0 <= i < |r.processed| ==> !crashes(i)
    ensures var r := Run(cfg, seen, responses, now, generate, crashes);
      && seen <= r.savedLedger.value
      && forall x :: x in r.relevant ==> x.id in r.savedLedger.value
  {
    var r := Run(cfg, seen, responses, now, generate, crashes);
    LedgerMerge(cfg, seen, responses, now, generate, crashes);
    LimitKeepsFirst(cfg, seen, responses, now, generate, crashes);
    forall x | x in r.relevant ensures x.id in r.savedLedger.value {
      var i :| 0 <= i < |r.relevant| && r.relevant[i] == x;
      assert r.processed[i].news == x;
    }
  }

  /** Once every new relevant item's id is committed, dedup against the new ledger leaves nothing relevant. */
  lemma NothingLeftAfterCommit(all: seq<NewsItem>, seen: set<string>, ledger: set<string>, f: FilterService)
    requires seen <= ledger
    requires forall x :: x in Keep(Keep(all, Unseen(seen)), Relevant(f)) ==> x.id in ledger
    ensures Keep(Keep(all, Unseen(ledger)), Relevant(f)) == []
  {
    var left := Keep(all, Unseen(ledger));
    forall k | 0 <= k < |left| ensures !Relevant(f)(left[k]) {
      var x := left[k];
      KeepMembership(all, Unseen(ledger), x);
      if Relevant(f)(x) {
        KeepMembership(all, Unseen(seen), x);
        KeepMembership(Keep(all, Unseen(seen)), Relevant(f), x);
        assert false;
      }
    }
    KeepNone(left, Relevant(f));
  }

  /** A run over one feed whose one entry is new and matching processes that entry alone. */
  lemma OneEntryRun(cfg: Settings, seen: set<string>, e: RawEntry, now: int,
                    generate: nat -> Option<string>, crashes: nat -> bool, item: NewsItem)
    requires |cfg.feeds| == 1 && cfg.limit >= 0
    requires NormalizeEntry(FeedService(cfg.maxAgeHours), e, cfg.feeds[0], now) == Some(item)
    requires item.id !in seen && ItemMatches(NewFilterService(cfg.keywords), item)
    ensures var r := Run(cfg, seen, [Fetched([e])], now, generate, crashes);
      && r.processed == [Processed(item, cfg.noAI, generate(0))]
      && r.successfulIds == (if crashes(0) then [] else [item.id])
      && r.savedLedger == (if crashes(0) then None else Some(seen + {item.id}))
  {
    var svc := FeedService(cfg.maxAgeHours);
    SingleEntryFeed(svc, e, cfg.feeds[0], now, item);
    SingletonDisplay(cfg.feeds);
    SingleFeedFetch(svc, cfg.feeds[0], [e], now);
    SingleItemRun(cfg, seen, [Fetched([e])], now, generate, crashes, item);
  }

  /**
   * A run whose feeds yield one new, matching item processes exactly that item and commits
   * its id unless its task crashed.
   */
  lemma SingleItemRun(cfg: Settings, seen: set<string>, responses: seq<Response>, now: int,
                      generate: nat -> Option<string>, crashes: nat -> bool, item: NewsItem)
    requires |responses| == |cfg.feeds| && cfg.limit >= 0
    requires AllItems(FeedService(cfg.maxAgeHours), cfg.feeds, responses, now) == [item]
    requires item.id !in seen && ItemMatches(NewFilterService(cfg.keywords), item)
    ensures var r := Run(cfg, seen, responses, now, generate, crashes);
      && r.processed == [Processed(item, cfg.noAI, generate(0))]
      && r.successfulIds == (if crashes(0) then [] else [item.id])
      && r.savedLedger == (if crashes(0) then None else Some(seen + {item.id}))
  {
    RunStages(cfg, seen, responses, now, generate, crashes);
    KeepSingle(item, Unseen(seen));
    KeepSingle(item, Relevant(NewFilterService(cfg.keywords)));
    var batch := Batch(cfg, seen, responses, now);
    assert batch == [item];
    var outcomes := OutcomesAll(batch, crashes);
    assert outcomes == [TaskOutcome(item, crashes(0))];
    assert outcomes[1..] == [];
    assert Somes(outcomes) == (if crashes(0) then [] else [item.id]);
    assert (set x | x in [item.id]) == {item.id};
  }

  /** One feed, a limit that keeps at least one item, and one entry that gives a new, matching item. */
  predicate OneFreshEntry(cfg: Settings, seen: set<string>, e: RawEntry, now: int, item: NewsItem) {
    && |cfg.feeds| == 1 && cfg.limit >= 0
    && NormalizeEntry(FeedService(cfg.maxAgeHours), e, cfg.feeds[0], now) == Some(item)
    && item.id !in seen && ItemMatches(NewFilterService(cfg.keywords), item)
  }

  /** Adding an id to an empty ledger gives the ledger of that id alone. */
  lemma AddToEmpty(seen: set<string>, id: string)
    requires seen == {}
    ensures seen + {id} == {id}
  {
  }

  /** With AI off and no crash, the one entry's record has neither script nor error and its id is saved. */
  lemma OneEntryRunWithoutAI(cfg: Settings, seen: set<string>, e: RawEntry, now: int,
                             generate: nat -> Option<string>, crashes: nat -> bool, item: NewsItem)
    requires OneFreshEntry(cfg, seen, e, now, item) && cfg.noAI && !crashes(0)
    ensures var r := Run(cfg, seen, [Fetched([e])], now, generate, crashes);
      && r.processed == [ProcessedItem(item, None, None)]
      && r.savedLedger == Some(seen + {item.id})
      && (seen == {} ==> r.savedLedger == Some({item.id}))
  {
    OneEntryRun(cfg, seen, e, now, generate, crashes, item);
    if seen == {} {
      AddToEmpty(seen, item.id);
    }
    assert Processed(item, cfg.noAI, generate(0)) == ProcessedItem(item, None, None);
  }
}
