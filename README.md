# rss_monitor, one run, in Dafny

This project models one run of `rss_monitor`, a keyword-driven RSS monitor. The run:

- loads the ledger of ids already handled;
- fetches every configured feed and normalises its entries into news items, dropping entries that have no id or are older than the age window;
- drops items whose id is in the ledger;
- keeps the items whose `title + " " + summary` contains a keyword, ignoring case;
- caps the batch with `LIMIT`;
- processes every item: an optional AI script gives a record with script and error, and whether its task finished;
- merges the ids of the tasks that finished into the ledger, and saves the ledger only when at least one task finished.

Modules follow the source files:

| module | file | contents |
|---|---|---|
| `Filter` | `services/filter.py` | keyword filter |
| `Feed` | `services/feed.py` | entry normalisation, per-feed parsing, flattening of per-URL results |
| `Notification` | `services/notification.py` | message text and channel guards |
| `Utils` | `utils.py` | output file name |
| `Orchestrator` | `main.py` | the pipeline in `main` and `read_lines_file` |
| `Samples` | — | the sample settings, entry and item used by the scenarios, and their facts |
| `Scenarios` | — | whole runs over the sample feed |

Shared code lives in three further modules:

- `Models` holds the two records.
- `Text` holds the Python string primitives the code uses: `lower`, `strip`, `splitlines`, `in`, `join` and a one-character `replace`.
- `Seqs` holds the generic list operations: filtering, collecting `Some` values, concatenation and Python's `s[:n]`.

Loops and step-by-step updates in the source are methods. The loops carry loop invariants. Each of the following is proved equal to a specification function, and the lemmas are stated about those functions:

- the `for … append` loops in `filter_items` and `_parse_feed`;
- the `extend` loop in `fetch_all`;
- the success-collection loop of `main`;
- the conditional `append`s of `build_message`, which are not a loop;
- the step-by-step `script`/`error` updates in `process_one`, which are not a loop.

The save-and-send step of `process_one` is the method `Orchestrator.OutputOne`. Its contract states the save target and the sends directly, not through a specification function.

Some behaviour becomes parameters of the model:

- Time is whole seconds, and `now` is a parameter.
- A feed fetch is `Fetched(entries)` or `FetchFailed`. An entry arrives as a record of optional strings and optional timestamps.
- The summarizer's answer for task `i` is `generate(i)`, and whether an uncaught exception ends task `i` is `crashes(i)`.
- A channel's send outcome is a function of the channel and the text.
- The MD5 hex digest is a function, and the `strftime` stamp is a string.

## Model

| member | source | states |
|---|---|---|
| `Filter.NewFilterService` | rss_monitor/services/filter.py:5-6 | the keywords are stored lowercased, one per given keyword in the same order, and each stored keyword is its own lowercase |
| `Filter.MatchesKeywords` | rss_monitor/services/filter.py:8-10 | true iff some stored keyword occurs at some position of the lowercased text |
| `Filter.FilterItems` | rss_monitor/services/filter.py:12-18 | the loop returns exactly the items whose title-space-summary matches, in input order |
| `Filter.FilterMembership` | rss_monitor/services/filter.py:12-18 | an item is in the result iff it is in the input and its title-space-summary matches |
| `Filter.FilterIsSubsequence` | rss_monitor/services/filter.py:12-18 | the result is a subsequence of the input (order kept) and never longer |
| `Filter.FilterIdempotent` | rss_monitor/services/filter.py:12-18 | filtering the filtered list changes nothing |
| `Filter.NoKeywordsNoMatches` | rss_monitor/services/filter.py:8-18 | with no keywords no text matches and every list filters to empty |
| `Filter.EmptyKeywordMatchesAll` | rss_monitor/services/filter.py:10 | an empty keyword occurs everywhere, so every item passes |
| `Filter.MatchIgnoresTextCase` | rss_monitor/services/filter.py:9 | a text and its lowercase match the same |
| `Filter.MatchIgnoresKeywordCase` | rss_monitor/services/filter.py:6 | keyword lists equal up to case filter the same |
| `Filter.MatchInsideWord` | rss_monitor/services/filter.py:10 | substring test without word boundaries: "ia" matches "Diagnosticar" |
| `Filter.MatchAcrossJoin` | rss_monitor/services/filter.py:15 | the joining space can be part of a match: "GPT " matches title "ChatGPT" with summary "news" |
| `Filter.MatchNeedsJoin` | rss_monitor/services/filter.py:15 | in that example neither title nor summary alone contains "gpt " |
| `Text.Lower` | rss_monitor/services/filter.py:6-9 | the lowercase has the input's length and its i-th character is the i-th input character lowercased |
| `Text.Contains` | rss_monitor/services/filter.py:10 | the left-to-right search is true iff the keyword occurs at some position |
| `Text.Strip` | rss_monitor/services/feed.py:51-53 | the result has no whitespace at either end, is no longer than the input, is empty iff the input is all whitespace, and is a slice of the input with only whitespace before and after it |
| `Text.StripIdempotent` | rss_monitor/main.py:31 | stripping a stripped line changes nothing |
| `Text.SplitLines` | rss_monitor/main.py:30 | one piece more than the input has line boundaries, and no piece holds a line boundary |
| `Text.SplitLinesRejoin` | rss_monitor/main.py:30 | joining the pieces back with the input's boundaries, in order, gives the input |
| `Seqs.SliceTo` | rss_monitor/main.py:95 | Python `s[:n]`, always a prefix: for `n >= 0` the first n elements (all when fewer); for `n < 0` all but the last `-n` (none when fewer) |
| `Feed.EntryId` | rss_monitor/services/feed.py:47-49 | the id if non-empty, else the link if non-empty, else none; a result is never empty |
| `Feed.StampedTime` | rss_monitor/services/feed.py:57-59 | the published time if present, else the updated time, else `now` |
| `Feed.ParseDatetime` | rss_monitor/services/feed.py:73-76 | the published time if present, else the updated time |
| `Feed.IsRecent` | rss_monitor/services/feed.py:81-85 | true iff a time is present and `now - t <= max_age_hours * 3600` |
| `Feed.NormalizeEntry` | rss_monitor/services/feed.py:46-71 | an item iff the entry has an id and its stamped time is recent; the item has a non-empty id and the feed's URL as source |
| `Feed.NormalizeEntryIs` | rss_monitor/services/feed.py:46-71 | an entry with an id, a recent time and texts that stripping leaves alone normalises to exactly the item of those texts, its id and its stamped time |
| `Feed.NormalizedFields` | rss_monitor/services/feed.py:51-70 | title and link default to "" and are stripped, summary falls back to description then "", the id is kept unstripped, a missing time becomes `now` |
| `Feed.RecencyBoundary` | rss_monitor/services/feed.py:84-85 | exactly `max_age_hours` old is recent, one second more is not, future times are recent |
| `Feed.DatelessEntryKept` | rss_monitor/services/feed.py:57-62 | an entry with an id and no date is kept iff the window is not negative, stamped `now` |
| `Feed.OnlyOldDatesExclude` | rss_monitor/services/feed.py:57-62 | an entry with an id is dropped only for a date outside the window (or no date and a negative window) |
| `Feed.ParseFeed` | rss_monitor/services/feed.py:37-44 | the loop returns the normalised entries, in feed order, dropping those that give none |
| `Feed.FeedItemsWellFormed` | rss_monitor/services/feed.py:37-44 | an item is returned iff some entry normalises to it; each has a non-empty id and the URL as source |
| `Feed.FeedItemsKeepAll` | rss_monitor/services/feed.py:40-43 | when every entry normalises, the i-th item is the i-th entry's |
| `Feed.SingleEntryFeed` | rss_monitor/services/feed.py:37-44 | a one-entry feed yields exactly that entry's item |
| `Feed.FetchAll` | rss_monitor/services/feed.py:18-24 | the loop returns the concatenation of the per-URL results in URL order |
| `Feed.AllItemsSplit` | rss_monitor/services/feed.py:18-24 | the items of earlier URLs precede those of later URLs |
| `Feed.FailedFeedIsolated` | rss_monitor/services/feed.py:19-23 | a failed URL contributes nothing and leaves the other URLs' items unchanged |
| `Feed.SingleFeedFetch` | rss_monitor/services/feed.py:18-24 | one URL yields exactly that feed's items |
| `Feed.AllItemsWellFormed` | rss_monitor/services/feed.py:13-24 | every fetched item has a non-empty id and one of the URLs as source |
| `Notification.NewNotificationService` | rss_monitor/services/notification.py:8-15 | no telegram pair gives no token and no chat id; a pair gives both; the webhook is stored as given |
| `Notification.TelegramConfigured` | rss_monitor/services/notification.py:41 | true iff both a token and a chat id are present and neither is empty |
| `Notification.DiscordConfigured` | rss_monitor/services/notification.py:61 | true iff a webhook is present and is not empty |
| `Notification.TelegramGuard` | rss_monitor/services/notification.py:40-42 | telegram is tried iff a pair with non-empty token and chat id was given; discord iff the webhook is non-empty |
| `Notification.MessageLines` | rss_monitor/services/notification.py:19-29 | the header lines, then the script heading and script when the script is non-empty, else the error line when the error is non-empty, else nothing |
| `Notification.BuildMessage` | rss_monitor/services/notification.py:17-30 | the appends produce the lines of `MessageLines` joined by newlines |
| `Notification.MessageHeader` | rss_monitor/services/notification.py:19-24 | line 1 is the fire prefix and title, line 2 the link prefix and link, line 3 the time line iff there is a time; the text starts with the first two lines |
| `Notification.ScriptBeatsError` | rss_monitor/services/notification.py:25-27 | a non-empty script ends the message under its heading and no error line appears |
| `Notification.ErrorLineOnlyWithoutScript` | rss_monitor/services/notification.py:28-29 | the error line ends the message iff the script is missing or empty and the error is non-empty |
| `Notification.HeaderOnly` | rss_monitor/services/notification.py:17-30 | with neither script nor error the message is the 2 or 3 header lines |
| `Notification.DispatchIsolated` | rss_monitor/services/notification.py:32-38 | which channels are tried, and with what text, does not depend on any send's outcome |
| `Notification.SendAll` | rss_monitor/services/notification.py:32-38 | one send per configured channel, so exactly as many sends as configured channels, each with the one built text; a channel is tried iff it is configured |
| `Utils.SafeTitle` | rss_monitor/utils.py:18 | at most 50 characters (the whole title when shorter), i-th character the title's with `/` and `\` turned into `_`, no separator left |
| `Utils.HashInputSeparatesIds` | rss_monitor/utils.py:20 | for one title the digest input determines the id |
| `Utils.FileNameParts` | rss_monitor/utils.py:21-22 | with a 32-character digest the name is stamp, `_`, safe title, `_`, 8 digest characters, `.json` |
| `Utils.SaveResultToFile` | rss_monitor/utils.py:12-22 | nothing without a save directory; otherwise that directory and the derived name |
| `Orchestrator.ReadLinesFile` | rss_monitor/main.py:28-34 | nothing when the read failed; otherwise the file's lines stripped, with the empty results dropped, in file order; every line returned is non-empty and stripped |
| `Orchestrator.StripThenDropEmpty` | rss_monitor/main.py:31 | stripping the non-blank lines gives the same list as stripping all lines and dropping the empty ones |
| `Orchestrator.ReadLinesFileLines` | rss_monitor/main.py:28-34 | the result is an ordered subsequence of the stripped lines, and a string is in it iff it is a non-empty stripped line |
| `Orchestrator.NewItemsMembership` | rss_monitor/main.py:85 | the new items are an ordered subsequence of the fetched ones, and an item is new iff it was fetched and its id is not in the ledger |
| `Orchestrator.ApplyLimit` | rss_monitor/main.py:94-95 | a prefix of the relevant items: all for 0, `LIMIT` of them when exceeded, all but `-LIMIT` below 0 |
| `Orchestrator.Processed` | rss_monitor/main.py:108-116 | AI off: no script, no error; AI on: the answer as script, the fixed error iff the answer is missing or empty |
| `Orchestrator.TaskOutcome` | rss_monitor/main.py:125-128 | the item's id unless an exception escaped |
| `Orchestrator.ProcessOne` | rss_monitor/main.py:105-128 | the step-by-step updates give `Processed` and `TaskOutcome` |
| `Orchestrator.ScriptAndErrorOnlyForEmptyAnswer` | rss_monitor/main.py:111-114 | script and error are both set iff AI is on and the answer was "" |
| `Orchestrator.OutputOne` | rss_monitor/main.py:119-123 | a save target iff a save directory is set, named from the stamp, title and digest; one send per configured channel, each with the record's message text |
| `Orchestrator.ProcessAll` | rss_monitor/main.py:130 | the pass gives every task's record and outcome in task order |
| `Orchestrator.CollectSuccesses` | rss_monitor/main.py:133-136 | the loop collects the ids the tasks returned, in task order |
| `Orchestrator.Commit` | rss_monitor/main.py:139-140 | a ledger iff some id succeeded; it contains the old ledger and holds exactly the old and the new ids |
| `Orchestrator.Run` | rss_monitor/main.py:77-140 | nothing processed and no ledger saved when no item is relevant; a ledger is saved iff some id succeeded, and it contains the old ledger |
| `Orchestrator.RunOnce` | rss_monitor/main.py:77-140 | step by step, the run gives the same stages and ledger as `Run` |
| `Orchestrator.RunStages` | rss_monitor/main.py:81-140 | fetch, dedup, filter in that order; nothing processed and nothing saved when no item is relevant |
| `Orchestrator.DedupBeforeFilter` | rss_monitor/main.py:85-86 | the new items are an ordered subsequence holding exactly the fetched items with unseen ids; no seen id is processed |
| `Orchestrator.BatchPrefix` | rss_monitor/main.py:93-95 | the processed batch holds the first relevant items, as many as the limit rule allows |
| `Orchestrator.LimitKeepsFirst` | rss_monitor/main.py:93-95 | the processed items are the first relevant ones, as many as the limit rule allows |
| `Orchestrator.SuccessfulIds` | rss_monitor/main.py:125-136 | the collected ids are exactly those of the tasks that did not crash |
| `Orchestrator.LedgerMerge` | rss_monitor/main.py:133-140 | saved iff some task finished; the saved set is the old ledger plus exactly the finished tasks' ids |
| `Orchestrator.GenerationFailureCommitted` | rss_monitor/main.py:111-125 | a failed generation records the error and still commits the id |
| `Orchestrator.NothingLeftAfterCommit` | rss_monitor/main.py:85-86 | once every new relevant id is in the ledger, dedup against it leaves nothing relevant |
| `Orchestrator.RelevantCommitted` | rss_monitor/main.py:130-140 | without crashes or limit cuts every relevant id ends in the saved ledger |
| `Orchestrator.SecondRunProcessesNothing` | rss_monitor/main.py:85-140 | rerunning with the saved ledger after a crash-free, uncut run processes and saves nothing |
| `Orchestrator.SingleItemRun` | rss_monitor/main.py:85-140 | with `cfg.limit >= 0`, one new matching item is processed alone and committed unless its task crashed |
| `Orchestrator.OneEntryRun` | rss_monitor/main.py:81-140 | with `cfg.limit >= 0`, one feed with one new, matching, recent entry processes that entry alone |
| `Orchestrator.OneEntryRunWithoutAI` | rss_monitor/main.py:81-140 | with `cfg.limit >= 0`, AI off and no crash, that entry's record has no script and no error, and the saved ledger is the old one plus its id |
| `Samples.ExampleNormalizes` | rss_monitor/services/feed.py:46-71 | an entry with an id and a stripped title, an hour old, becomes the item with empty link and summary |
| `Samples.ExampleFetch` | rss_monitor/services/feed.py:13-24 | fetching that one-entry feed yields exactly that item |
| `Samples.ExampleMatches` | rss_monitor/services/filter.py:8-15 | a title whose lowercase contains "openai" anywhere matches the keyword "openai" |
| `Samples.ExampleRunFacts` | rss_monitor/services/feed.py:46-71 | the sample settings and the hour-old entry form a one-feed, one-entry run whose item is new to an empty ledger and matches |
| `Scenarios.FreshEntryScenario` | rss_monitor/main.py:81-140 | an hour-old entry whose lowercased title contains "openai" anywhere, an empty ledger and AI off: one record without script or error, and the saved ledger is exactly its id |
| `Scenarios.StaleEntryScenario` | rss_monitor/main.py:89-91 | an entry 48 hours old under a 24-hour window: nothing fetched, processed or saved |

## Left out

- `services/ai.py` is not part of this model. The summarizer is the parameter `generate`, whose answer is an optional string.
- `services/state.py` is not part of this model. The loaded ledger is the input set `seen`; a missing or corrupt file gives the empty set. The save is the `savedLedger` field of the run's result.
- `config.py` defaults, `parse_args` and the settings overrides in `main` are not modelled. The settings a run reads form the `Settings` record.
- The network is left out: HTTP GET and POST, `raise_for_status` and timeouts. So is `feedparser.parse`. A fetch is `Fetched(entries)` or `FetchFailed`, and a send's outcome is the `sink` parameter.
- Concurrency is left out: `asyncio.gather` and `Semaphore(5)`. Processing is one pass in task order, which matches the task order that `gather` keeps for its results.
- The two clock reads in `_normalize_entry` and `_is_recent` are one instant, `now`. In the source, a dateless entry is stamped at feed.py:58, and `_is_recent` reads the clock again at feed.py:84. With `max_age_hours == 0`, Python therefore drops a dateless entry as soon as the clock has moved between the two reads. The model keeps it (`Feed.DatelessEntryKept`).
- The local-time `timestamp()` conversion of parsed time tuples is not modelled. Entries carry times already in seconds.
- `str(datetime)` in the time line is the parameter `fmt`.
- MD5 is the parameter `md5Hex`, and the `strftime` stamp is the parameter `timestamp`.
- `Text.LowerChar`: lowercases ASCII and Latin-1 capitals only, not all of Unicode, because Python's full case tables (including multi-character results) are out of scope.
- `Text.SplitLines`: treats CR LF as two boundaries and yields an empty piece after a final boundary. `str.splitlines()` does neither. Only empty pieces differ, and `read_lines_file` drops those as blank. `ReadLinesFile` therefore returns the same lines.
- Logging, `render_result`'s printing and the JSON file write are left out. The write's failure handling is left out too: it is caught and logged, so a failed save raises nothing into `process_one`.
- `crashes(i)` stands for any exception that escapes inside `process_one`. Saving (utils.py:16-30) and the two sends (notification.py:45-58 and 64-73) catch their own errors, and `send_all` gathers them with `return_exceptions`. `render_result` (utils.py:7-10) and the `build_message` call in `send_all` (notification.py:33) are not guarded, so their failures are among those `crashes(i)` stands for; the model does not enumerate them.
- `Run` does not carry the per-task outputs: its result holds the records and the ledger, not the save targets or the sends. Lines 119-123 of `main.py` are modelled by `Orchestrator.OutputOne` on its own and are not composed into `Run`.
- `Feed.RecencyBoundary`: holds for a whole-second `now`. Python's `datetime.now()` carries microseconds, so an entry exactly `max_age_hours` old is normally already a fraction of a second too old and is not recent.
- `timedelta(hours=max_age_hours)` overflows for very large windows; the error is raised inside `_fetch_feed` and caught there (feed.py:33-35), so that feed gives no items. The model uses unbounded integers and does not model that overflow.
- Script and error are not exclusive, although they read as alternatives. When the summarizer answers with the empty string, `process_one` sets both: the script is `""` and the error is the fixed message. The model follows the code (`Orchestrator.ScriptAndErrorOnlyForEmptyAnswer`).
