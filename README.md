# Asteria case summarizer — a verified model

This project models, in Dafny, the core of the Asteria case summarizer. The
summarizer takes the bug tracker's HTML export of support tickets and does the
following:

- it parses the export into tickets (`src/html_parser.py`);
- it cuts each ticket's detail markup into timeline entries;
- it merges the entries into customer/support messages (`src/asteria_fetcher.py`);
- it asks a generative model for a seven-section summary, behind a rate
  limit and a bounded exponential-backoff retry loop, and parses the reply
  (`src/llm_summarizer.py`);
- it stores the result under an `AST-` key (`src/asteria_summarizer.py`,
  `src/batch_processor.py`, `batch_reprocess.py`).

Modules, one per source file, plus shared helpers:

| module | models |
|---|---|
| `HtmlParser` | `_parse_datetime`, `_parse_row`, the text post-processing of `_clean_details_html`, `extract_timeline`, and the `AsteriaHTMLParser` class with its `_tickets` cache |
| `AsteriaFetcher` | the routing-suffix cleaner, `_is_customer_message`, `_create_email`, and the merging loop of `_convert_timeline_to_emails` |
| `LlmSummarizer` | the backoff formula, the rate-limit wait, the retry loop of `generate_summary`, the hand-written scanners for the section and JSON-block regexes of `_parse_response`, `build_summary_text`, and the `LLMSummarizer` class with its `last_call_time` |
| `AsteriaSummarizer` | `process_ticket`, the standalone summary, `_merge_emails_simple`, `_build_simple_summary`, `_extract_outcome`, `process_all` |
| `SummaryStore` | what both batch scripts share when writing a row: the `AST-` key, `summary.get(...)` of the section columns, and the in-place `metadata["source"]` tagging |
| `BatchProcessor` | `src/batch_processor.py`: the `process_all` loop with its skip/success/failure counters, `_exists_in_db`, `_save_to_db`'s key and branch choice, `_parse_summary_sections` |
| `BatchReprocess` | `batch_reprocess.py`: `process_ticket`, `_merge_emails`, `save_to_db`, the `process_all` loop |
| `Wrappers`, `Seqs`, `Text`, `Json`, `Timestamps`, `Sections` | `Option`/`Result`; generic sequence folds and searches; Python string operations (`strip`, `split`, `join`, `startswith`); decoded JSON values; an abstract date-time and its `isoformat`/`strftime` renderings; the seven section keys |

How the model is built:

- Loops in the source are `method`s with loop invariants. Each is proved equal to a function, a fold or a
  recursion, and the properties are lemmas about that function.
- The classes whose fields change keep those fields:
  - `AsteriaHtmlParser.tickets`;
  - the client's `lastCallTime`, call count and sleep log;
  - the batch processors' table of stored rows.
- Things outside the program are inputs:
  - the `strptime` oracle and the JSON decoder;
  - the service's answer to each attempt, the clock readings and the jitter draws, bundled as a `World`;
  - the database, as a map from case number to row.

Where the code and the system's design description disagree, the model follows the code:

- **Headings need the Japanese word.** For five sections a heading is found only with its Japanese word; only the brackets around it are optional. A heading with the English words alone is not found (`LlmSummarizer.RestWithoutJapanese`). So `build_summary_text`'s English-only headings do not parse back (`LlmSummarizer.RebuiltHeadingNotFound`), and no round trip is claimed.
- **The walk can stop early.** It stops at the next bold node, and also at an empty text node, since an empty string is false for `while current`. Text nodes add nothing to an entry: BeautifulSoup gives them the name `None`, so they pass the `hasattr` test but match no tag.
- **The first metadata block wins.** The block that is decoded is the leftmost ```` ```json ```` block, not a trailing one.
- **Routing suffixes are cut at the leftmost match.** The suffix is cut where `\s+to\s+.+$` first matches. Timeline entries keep the raw actor, suffix included.
- **A reply that fails to parse is fatal.** If `_parse_response` raises, for example when the decoder crashes, the loop fails at once with no further attempt.

Two behaviours are modelled exactly as written:

- The `Meta:` line of `_build_simple_summary` reports the length of the ticket id as `emails=`.
- `_build_simple_summary` does not use the merged thread.

## Model

| member | source | states |
|---|---|---|
| `HtmlParser.FirstParse` | src/html_parser.py:151-163 | the result is the parse by the first format `strptime` accepts, and it is none exactly when every format is rejected |
| `HtmlParser.ParseDatetime` | src/html_parser.py:140-163 | tries `%Y/%m/%d %H:%M`, `%Y/%m/%d`, `%Y-%m-%d %H:%M:%S` in that order and returns the first success; raises the "Unable to parse datetime" error exactly when all three fail |
| `HtmlParser.ParseRow` | src/html_parser.py:102-138 | a row with fewer than 10 cells raises the unexpected-row error with the cell count. Otherwise the parse fails exactly when the opened date, or a non-empty closed cell, does not parse. `closed` is None exactly when its cell is empty. Id, title, area, priority, type, importance and linked-to come from columns 0, 1, 2, 5, 6, 7 and 8; the details are the cleaned text of cell 9 and the raw markup is cell 9 |
| `HtmlParser.ParseRowsSpec` | src/html_parser.py:81-82 | one ticket per row, in order, exactly when every row parses; otherwise the error of the first failing row |
| `HtmlParser.FindById` | src/html_parser.py:96-100 | None exactly when no ticket has the id; otherwise the first ticket carrying it |
| `HtmlParser.FindByIdAt` | src/html_parser.py:97-99 | the ticket at the first index holding the id is the one returned |
| `HtmlParser.AsteriaHtmlParser.constructor` | src/html_parser.py:48-56 | a new parser has no cached ticket list |
| `HtmlParser.AsteriaHtmlParser.ParseAllTickets` | src/html_parser.py:58-84 | returns the parse of the export (its missing-table, missing-body and row errors included); once a list is cached it is returned unchanged; the cache is filled only by a successful parse |
| `HtmlParser.AsteriaHtmlParser.GetTicketById` | src/html_parser.py:86-100 | a parse error propagates; otherwise the first ticket with the id, or None |
| `HtmlParser.NewlineRun` | src/html_parser.py:193 | the length of the maximal run of newlines at the start of the text |
| `HtmlParser.CollapseNewlinesSound` | src/html_parser.py:193 | after `re.sub(r"\n{3,}", "\n\n", ...)` no three newlines are adjacent, the characters other than newlines are unchanged and in order, and a leading non-newline stays first |
| `HtmlParser.CollapseRun` | src/html_parser.py:193 | each maximal run of newlines is rewritten on its own: a run of three or more becomes exactly two newlines, a shorter run is kept as it is, and the text on either side is collapsed independently |
| `HtmlParser.RStripEach` | src/html_parser.py:194 | one trimmed line per line, each the `rstrip` of its original |
| `HtmlParser.SplitJoin` | src/html_parser.py:194 | splitting on newlines undoes joining lines that hold no newline |
| `HtmlParser.CleanDetailsLinesTrimmed` | src/html_parser.py:193-194 | after cleaning, no line of the details ends in whitespace |
| `HtmlParser.CleanDetailsMayKeepTripleNewline` | src/html_parser.py:193-194 | the trim runs after the collapse: `"a\n \n\nb"` cleans to `"a\n\n\nb"`, three newlines in a row |
| `HtmlParser.ActionAt` | src/html_parser.py:217 | the alternative of `OPENED\|ASSIGNED\|EDITED\|RESOLVED\|CLOSED` found at a position, or none when no keyword occurs there |
| `HtmlParser.ActorRun` | src/html_parser.py:218 | `[^\n<]` matches up to the first newline or `<` |
| `HtmlParser.GiveBack` | src/html_parser.py:216-218 | the backtracking of `\s+` before group 3: the last position of the whitespace run that holds no newline, or none when the run is all newlines |
| `HtmlParser.ActorStart` | src/html_parser.py:218 | group 3 starts at a character that is neither a newline nor `<` |
| `HtmlParser.HeaderAt` | src/html_parser.py:215-219 | a header matches at a position only where `\d{4}/\d{2}/\d{2}` does, `\d` being any Unicode decimal digit |
| `HtmlParser.FullWidthDate` | src/html_parser.py:215-216 | `\d` matches full-width digits too: `２０２５/０１/０７` has the date shape |
| `HtmlParser.HeaderPos` | src/html_parser.py:224 | `pattern.search` in positions: the position it returns lies in the text and the header matches there, or it is past the end |
| `HtmlParser.HeaderPosLeftmost` | src/html_parser.py:224 | the header matches at no position the search passes over, so the match found is the leftmost one |
| `HtmlParser.HeaderPosAt` | src/html_parser.py:224 | a search that starts where the header matches returns that position |
| `HtmlParser.SearchHeader` | src/html_parser.py:224-229 | no match exactly when the header matches at no position |
| `HtmlParser.ActorGroupAt` | src/html_parser.py:218 | once the start of group 3 is known, the group is the run of `[^\n<]` from there |
| `HtmlParser.HeaderExample` | src/html_parser.py:214-229 | `2025/01/07 17:45 OPENED by Nao Oki` yields the timestamp text, `OPENED` and the stripped actor `Nao Oki` |
| `HtmlParser.WalkStep` | src/html_parser.py:240-258 | one sibling of the walk: its piece (a newline for `br`, the full text of a container holding non-space text, nothing otherwise) is appended in order |
| `HtmlParser.CollectContent` | src/html_parser.py:237-258 | the loop's joined content is the walk of the following siblings up to the first bold node or empty text node |
| `HtmlParser.WalkReadsUpToStop` | src/html_parser.py:240-258 | siblings after the stop are never read: lists that agree up to a stop give the same content |
| `HtmlParser.ExtractTimeline` | src/html_parser.py:198-268 | the entries are the timeline of the bold nodes taken in document order |
| `HtmlParser.SiteEntriesAtMostOne` | src/html_parser.py:222-234 | a bold node yields at most one entry, and one exactly when its stripped text holds a header whose timestamp parses |
| `HtmlParser.TimelineAppend` | src/html_parser.py:222-266 | entries come in document order: the timeline of consecutive runs of bold nodes is the concatenation of theirs |
| `HtmlParser.SkippedSiteLeavesOthers` | src/html_parser.py:231-234 | a bold node without a header, or with a rejected timestamp, is skipped and leaves every other entry as it was |
| `HtmlParser.TimelineBounded` | src/html_parser.py:222-266 | never more entries than bold nodes |
| `AsteriaFetcher.UnrouteCutsRouting` | src/asteria_fetcher.py:176 | for a stripped `s`, `re.sub(r"\s+to\s+.+$", "", s)` gives a prefix of `s`; it is `s` exactly when the suffix matches nowhere, and otherwise ends where the suffix first matches |
| `AsteriaFetcher.IsCustomerMessage` | src/asteria_fetcher.py:165-184 | true exactly when the cleaned name is one of the four customer names; support names and unknown names both give false |
| `AsteriaFetcher.CreateEmail` | src/asteria_fetcher.py:186-213 | incoming: from the raw user to `CData Japan Support`; outgoing: from `CData Japan Support` to `Asteria`; the subject is the title; the id is ticket id, `_`, ISO date, `_`, cleaned user with spaces as underscores |
| `AsteriaFetcher.MessageIdHasNoSpace` | src/asteria_fetcher.py:203-206 | a message id has no space when the ticket id has none |
| `AsteriaFetcher.Emails` | src/asteria_fetcher.py:115-161 | an empty timeline gives no message; a non-empty one gives at least one and never more than there are entries |
| `AsteriaFetcher.CloseRun` | src/asteria_fetcher.py:152-161 | saving the open run appends its message after those of the closed runs |
| `AsteriaFetcher.FirstRun` | src/asteria_fetcher.py:128-150 | the first entry opens the first run with its date, side and user |
| `AsteriaFetcher.OpenRun` | src/asteria_fetcher.py:128-144 | an entry from the other side saves the open run and opens a new one |
| `AsteriaFetcher.ExtendRun` | src/asteria_fetcher.py:146-150 | an entry from the same side adds its line to the open run |
| `AsteriaFetcher.MergedStep` | src/asteria_fetcher.py:124-150 | each loop turn keeps the loop's variables describing the runs read so far |
| `AsteriaFetcher.MergedTracksRuns` | src/asteria_fetcher.py:124-150 | after every prefix, the variables describe that prefix's maximal same-side runs |
| `AsteriaFetcher.MergedIsMailed` | src/asteria_fetcher.py:124-163 | the loop plus the final save give one message per maximal run |
| `AsteriaFetcher.ConvertTimelineToEmails` | src/asteria_fetcher.py:93-163 | the merging loop returns the messages of the timeline's runs |
| `AsteriaFetcher.ConvertTicketToEmails` | src/asteria_fetcher.py:79-91 | the messages of the ticket's extracted timeline |
| `AsteriaFetcher.EmailOfRun` | src/asteria_fetcher.py:131-150 | message `k` is made from run `k`: the first entry's date, side and user (`Unknown` for an empty user), and one `[ACTION] content` or `[ACTION]` line per entry joined by newlines |
| `AsteriaFetcher.EmailsAlternate` | src/asteria_fetcher.py:128-144 | neighbouring messages always differ in `is_incoming` |
| `AsteriaFetcher.EmailsCoverTimeline` | src/asteria_fetcher.py:124-161 | nothing is dropped or reordered: the runs behind the messages, one per message, concatenate back to the timeline |
| `AsteriaFetcher.EmailsDirectionUniform` | src/asteria_fetcher.py:124-144 | every entry of a message's run is from the side the message is marked with |
| `LlmSummarizer.Backoff` | src/llm_summarizer.py:168-182 | `min(60 * 2**attempt * jitter, 300)` never exceeds 300 seconds |
| `LlmSummarizer.BackoffPositive` | src/llm_summarizer.py:179-181 | with a positive jitter the wait is more than zero |
| `LlmSummarizer.BackoffMonotone` | src/llm_summarizer.py:179-181 | for a fixed jitter the wait never shrinks as the attempt grows |
| `LlmSummarizer.BackoffCapped` | src/llm_summarizer.py:168-182 | from the fourth attempt on, every jitter the source can draw hits the 300-second cap |
| `LlmSummarizer.RateLimitWait` | src/llm_summarizer.py:160-166 | a sleep exactly when less than the interval has elapsed since the last call, lasting the rest of the interval |
| `LlmSummarizer.FoldedCapitalized` | src/llm_summarizer.py:324 | `re.IGNORECASE`: a capitalised occurrence of a heading word matches |
| `LlmSummarizer.Optional` | src/llm_summarizer.py:313-318 | `[（(]?`: one character of the class is consumed or none |
| `LlmSummarizer.LastNewlineIn` | src/llm_summarizer.py:313-319 | `\s*\n` matches up to the last newline of the whitespace run, or fails when the run has none |
| `LlmSummarizer.AfterEnglish` | src/llm_summarizer.py:313-319 | the English words match within the text |
| `LlmSummarizer.AfterJapanese` | src/llm_summarizer.py:313-318 | the optional-bracketed Japanese word matches within the text |
| `LlmSummarizer.HeadingEnd` | src/llm_summarizer.py:313-319 | a heading starts with `##` and ends just after a newline |
| `LlmSummarizer.HeadingRest` | src/llm_summarizer.py:313-319 | the rest of a heading after `##` ends just after a newline |
| `LlmSummarizer.BodyEnd` | src/llm_summarizer.py:313-319 | the lazy body stops at the first `\n##`, `\n---`, `\n```` or end of text (also just before a final newline) |
| `LlmSummarizer.ExtractSpec` | src/llm_summarizer.py:323-326 | a section is found exactly when its heading matches somewhere, letters compared as `re.IGNORECASE` compares them (ASCII case, `İ`/`ı` for `i`, `ſ` for `s`, the Kelvin sign for `k`); its body runs from the leftmost heading to the first stop after it |
| `LlmSummarizer.NoHeadingBefore` | src/llm_summarizer.py:324 | no heading matches before the leftmost one |
| `LlmSummarizer.ExtractFound` | src/llm_summarizer.py:324-326 | the section body when the leftmost heading is known |
| `LlmSummarizer.HeadingEndAt` | src/llm_summarizer.py:313 | after `##` the whitespace `\s*` is consumed greedily |
| `LlmSummarizer.RestWithoutJapanese` | src/llm_summarizer.py:313-318 | the English words without the Japanese word do not make a heading |
| `LlmSummarizer.HeadingRestSteps` | src/llm_summarizer.py:313-319 | a heading is the English words, then the Japanese part, then `\s*\n` |
| `LlmSummarizer.RebuiltHeadingNotFound` | src/llm_summarizer.py:312-362 | the `## Symptoms` heading that `build_summary_text` writes is not found by `_parse_response` |
| `LlmSummarizer.ModelHeadingEnd` | src/llm_summarizer.py:313 | `## Symptoms（現象）` followed by a newline matches as a heading |
| `LlmSummarizer.ModelHeadingFound` | src/llm_summarizer.py:312-326 | with the Japanese word the section is found and its body runs to the end of the text |
| `LlmSummarizer.DottedHeadingFound` | src/llm_summarizer.py:312-326 | under `re.IGNORECASE` a heading spelled `ENVİRONMENT`, with a dotted capital I, is found and its body extracted |
| `LlmSummarizer.ClosingFence` | src/llm_summarizer.py:329 | the first `\n```` at or after a position, or none when there is none |
| `LlmSummarizer.TryNewlines` | src/llm_summarizer.py:329 | `\s*\n` before the block body gives back newlines from the last to the first, and a closing fence must follow |
| `LlmSummarizer.BlockAt` | src/llm_summarizer.py:329 | a metadata block opens with ```` ```json ````, whitespace and a newline, and its body has no closing fence before its end |
| `LlmSummarizer.JsonBlock` | src/llm_summarizer.py:329-331 | the body of the leftmost block, and none exactly when no block opens anywhere |
| `LlmSummarizer.FoundSectionsSpec` | src/llm_summarizer.py:322-326 | a section is present exactly when its heading occurs (case-insensitively, as the regex engine folds letters), with the text extracted under it |
| `LlmSummarizer.Metadata` | src/llm_summarizer.py:328-336 | `{}` when there is no block or it does not decode; the decoded value otherwise; an error only when decoding raises something other than a decode error |
| `LlmSummarizer.ParseSummarySpec` | src/llm_summarizer.py:299-338 | the case number is the ticket id; each section is found independently of the others; the parse fails only when the metadata decoder raises |
| `LlmSummarizer.ParseResponse` | src/llm_summarizer.py:286-338 | the loop over the seven patterns, starting from unset sections and `{}` metadata, returns the parse |
| `LlmSummarizer.SummaryLinesCount` | src/llm_summarizer.py:350-364 | the text has four header lines and three lines (heading, text, blank) for each section present with a non-empty text, so never more than 25 lines |
| `LlmSummarizer.BuildSummaryText` | src/llm_summarizer.py:340-366 | the text is the lines joined by newlines |
| `LlmSummarizer.SummaryLinesHeaderOnly` | src/llm_summarizer.py:350-356 | a summary without non-empty sections renders as the four header lines alone |
| `LlmSummarizer.SummaryLinesPlace` | src/llm_summarizer.py:353-364 | each section's lines come after the header and the lines of the sections before it in the fixed order |
| `LlmSummarizer.Waited` | src/llm_summarizer.py:160-166 | `_wait_for_rate_limit` changes neither `last_call_time` nor the call count, and logs its one sleep when there is one |
| `LlmSummarizer.FirstSettled` | src/llm_summarizer.py:232-279 | the first attempt whose call does not fail transiently, every earlier one having failed transiently |
| `LlmSummarizer.Backoffs` | src/llm_summarizer.py:244-275 | one backoff sleep per transient failure |
| `LlmSummarizer.RetryCharacterized` | src/llm_summarizer.py:230-284 | the retry loop equals its loop-free description: a run of transient failures, then give up or settle |
| `LlmSummarizer.RetryResultStep` | src/llm_summarizer.py:244-275 | a transient failure costs a call and a backoff sleep, records the error and moves to the next attempt |
| `LlmSummarizer.GenerateOutcome` | src/llm_summarizer.py:184-284 | calls, sleeps, `last_call_time` and result of `generate_summary`. A response is parsed. An unreadable response, or any other exception, becomes an API error at once. Five transient failures give the error carrying the last one. Only an answered call sets `last_call_time` |
| `LlmSummarizer.GenerateCallsBounded` | src/llm_summarizer.py:232-242 | at least one and at most `MAX_RETRIES` = 5 calls |
| `LlmSummarizer.FirstSettledAt` | src/llm_summarizer.py:232-279 | after a run of transient failures the first other outcome is the one that settles |
| `LlmSummarizer.GenerateSucceedsIff` | src/llm_summarizer.py:232-279 | a summary is returned exactly when some attempt is answered after transient failures only and its reply parses |
| `LlmSummarizer.BackoffsAt` | src/llm_summarizer.py:244-275 | the `k`-th backoff sleep is for attempt `k` with its jitter draw |
| `LlmSummarizer.GenerateSleeps` | src/llm_summarizer.py:160-275 | earlier sleeps are kept; only the first new sleep can be the rate-limit wait, which is positive (once before the loop, never between attempts); every backoff lasts more than zero and at most 300 seconds for jitter in [0.8, 1.2] |
| `LlmSummarizer.LlmClient.constructor` | src/llm_summarizer.py:139-150 | a new client has `last_call_time` 0 and has made no call |
| `LlmSummarizer.LlmClient.WaitForRateLimit` | src/llm_summarizer.py:160-166 | the client's new state is the rate-limit wait applied to the old one |
| `LlmSummarizer.LlmClient.GenerateSummary` | src/llm_summarizer.py:184-284 | result and new client state are those of `generate_summary` from the old state |
| `AsteriaSummarizer.ThreadLayout` | src/asteria_summarizer.py:200-210 | exactly three lines per message: tag, minute and sender; body; blank |
| `AsteriaSummarizer.MergeEmailsSimple` | src/asteria_summarizer.py:200-210 | the thread text is those lines joined by newlines |
| `AsteriaSummarizer.FirstClosing` | src/asteria_summarizer.py:248-250 | the first RESOLVED or CLOSED entry, none before it |
| `AsteriaSummarizer.ExtractOutcome` | src/asteria_summarizer.py:240-252 | the loop over the timeline returns exactly `Outcome`: it stops at the first RESOLVED or CLOSED entry, and gives `OPEN` when it walks the whole timeline |
| `AsteriaSummarizer.Outcome` | src/asteria_summarizer.py:240-252 | `RESOLVED` for a closed ticket; else `FromManager: ` + the first RESOLVED/CLOSED entry's action; else `OPEN` |
| `AsteriaSummarizer.Overview` | src/asteria_summarizer.py:224 | the first 500 characters of the details, always followed by `...` |
| `AsteriaSummarizer.HeadLines` | src/asteria_summarizer.py:214-227 | twelve lines before the close date, the overview tenth |
| `AsteriaSummarizer.SimpleSummaryLines` | src/asteria_summarizer.py:212-238 | the close-date line only for a closed ticket; the last line is the Meta line reporting the ticket id's length |
| `AsteriaSummarizer.DateRange` | src/asteria_summarizer.py:194 | first message's date, ` - `, last message's date |
| `AsteriaSummarizer.Tagged` | src/asteria_summarizer.py:124-130 | `source`, `area`, `priority`, `importance`, `ticket_id` are overwritten; every other key keeps its value |
| `AsteriaSummarizer.SummarizeNone` | src/asteria_summarizer.py:109-121 | a found ticket gives no summary exactly when it yields no message or the Salesforce path was taken |
| `AsteriaSummarizer.SummarizeFields` | src/asteria_summarizer.py:118-198 | a summary carries the ticket id, the message count (between 1 and the entry count), the date range, the outcome and the tagged metadata |
| `AsteriaSummarizer.TicketSummaryCases` | src/asteria_summarizer.py:99-104 | a parse error propagates; a missing ticket gives None; otherwise the summary of the first ticket with the id |
| `AsteriaSummarizer.Limited` | src/asteria_summarizer.py:278-279 | `tickets[:limit]` for a truthy limit (negative ones cut from the end); all tickets for 0 or None |
| `AsteriaSummarizer.TallyStep` | src/asteria_summarizer.py:288-298 | a summary adds a success and is collected; anything else adds a failure |
| `AsteriaSummarizer.TallyCounts` | src/asteria_summarizer.py:281-298 | success + failed == total, one summary per success |
| `AsteriaSummarizer.Attempts` | src/asteria_summarizer.py:288-290 | each ticket is processed again by its own id |
| `AsteriaSummarizer.RunAllCounts` | src/asteria_summarizer.py:276-300 | a parse error propagates; otherwise total is the ticket count after the limit, success + failed == total, one summary per success |
| `AsteriaSummarizer.AsteriaSummarizer.constructor` | src/asteria_summarizer.py:52-77 | a summarizer has a fresh parser over the export |
| `AsteriaSummarizer.AsteriaSummarizer.GenerateSummaryStandalone` | src/asteria_summarizer.py:173-198 | the standalone summary of the ticket and its messages |
| `AsteriaSummarizer.AsteriaSummarizer.ProcessTicket` | src/asteria_summarizer.py:89-132 | the method, with its in-place metadata tagging, returns the summary described above |
| `AsteriaSummarizer.AsteriaSummarizer.ProcessTickets` | src/asteria_summarizer.py:288-298 | the counter loop returns the tally of every ticket's processing |
| `AsteriaSummarizer.AsteriaSummarizer.ProcessAll` | src/asteria_summarizer.py:266-300 | the results of the run |
| `SummaryStore.AsteriaKey` | src/batch_processor.py:161 | the key is `AST-` followed by the case number |
| `SummaryStore.AsteriaKeyInjective` | src/batch_processor.py:137-161 | two tickets share a key exactly when they share an id |
| `SummaryStore.Column` | src/batch_processor.py:178-184 | `summary.get(key)` is None for a missing section |
| `SummaryStore.SectionColumns` | src/batch_processor.py:178-184 | all seven section columns, each the summary's value or None |
| `SummaryStore.WithSource` | src/batch_processor.py:164-165 | the tagged metadata keeps every key and sets `source`. It changes the caller's summary only when the summary had metadata. A non-object metadata makes it raise |
| `SummaryStore.WithSourceAlreadyTagged` | src/batch_processor.py:164-165 | tagging metadata that already names the source changes nothing |
| `BatchProcessor.HeadingFrom` | src/batch_processor.py:243-255 | the first section, in the fixed order, whose English or Japanese name the line contains; none exactly when it contains none |
| `BatchProcessor.ScanKeepsKeys` | src/batch_processor.py:209-217 | every section key stays present while scanning |
| `BatchProcessor.SectionsComplete` | src/batch_processor.py:209-217 | all seven keys are always returned |
| `BatchProcessor.ClosedStep` | src/batch_processor.py:237-257 | a line that does not open a closed section leaves it closed and unchanged |
| `BatchProcessor.ClosedScan` | src/batch_processor.py:235-257 | only a heading that opens a closed section again can change it |
| `BatchProcessor.UnopenedEmpty` | src/batch_processor.py:209-261 | a section whose heading never appears is `""` |
| `BatchProcessor.PreambleScan` | src/batch_processor.py:235-257 | lines before the first recognised heading leave the scanner where it started |
| `BatchProcessor.PreambleIgnored` | src/batch_processor.py:235-257 | lines before the first recognised heading are ignored |
| `BatchProcessor.Gather` | src/batch_processor.py:256-257 | non-heading lines are gathered in order for the open section |
| `BatchProcessor.HeadingOpens` | src/batch_processor.py:237-255 | a recognised heading saves the open section and starts a fresh buffer |
| `BatchProcessor.OpenWith` | src/batch_processor.py:237-257 | after a heading and the lines below it, its section is open with exactly those lines |
| `BatchProcessor.LastSection` | src/batch_processor.py:259-261 | the last section is the lines below its heading, joined by newlines and stripped |
| `BatchProcessor.SectionBeforeNext` | src/batch_processor.py:237-261 | a section is the text between its heading and the next recognised heading, kept unless a later heading opens it again (a repeat replaces it) |
| `BatchProcessor.UnknownHeadingSkipped` | src/batch_processor.py:237-257 | an unrecognised `## ` line is dropped without closing the open section: the lines on both sides are gathered together |
| `BatchProcessor.SaveRow` | src/batch_processor.py:153-205 | the 7-column form exactly when `symptoms` and `environment` are both truthy, with each column `summary.get`; otherwise `summary_text` (or `""`) in symptoms; the metadata tagged with the source |
| `BatchProcessor.SummaryStoredAsText` | src/batch_processor.py:164-201 | a summarizer summary is stored in the fallback form, and tagging leaves it unchanged |
| `BatchProcessor.TicketSummaryStored` | src/batch_processor.py:104-108 | every summary is for the ticket asked for, takes the fallback form and comes back from the save unchanged |
| `BatchProcessor.VisitAllStep` | src/batch_processor.py:95-119 | the run after one more ticket is that ticket's visit of the run so far |
| `BatchProcessor.VisitAllCounts` | src/batch_processor.py:87-119 | each ticket counts once as success, failure or skip; total unchanged; one summary per success |
| `BatchProcessor.AddRow` | src/batch_processor.py:106-108 | saving under a new key extends the rows by that key |
| `BatchProcessor.VisitRows` | src/batch_processor.py:95-119 | one ticket keeps the rows equal to the old ones plus those of the summaries saved |
| `BatchProcessor.VisitAllRows` | src/batch_processor.py:95-119 | no stored row is overwritten; the keys added are exactly those of the summaries collected, none in a dry run |
| `BatchProcessor.DryRun` | src/batch_processor.py:98-112 | a dry run writes nothing and skips exactly the tickets already stored |
| `BatchProcessor.AttemptsSameCase` | src/batch_processor.py:104 | the summary of each ticket is for that ticket |
| `BatchProcessor.BatchRunResults` | src/batch_processor.py:80-133 | a parse error propagates. Otherwise success + failed + skipped == total (the ticket count after the limit), one summary per success, and no stored row is changed. The rows added are those of the collected summaries; a dry run adds none and skips exactly the stored tickets |
| `BatchProcessor.AsteriaBatchProcessor.constructor` | src/batch_processor.py:39-63 | a processor with its own parser and a summarizer over the same export |
| `BatchProcessor.AsteriaBatchProcessor.ExistsInDb` | src/batch_processor.py:135-151 | true exactly when the ticket's `AST-` key is stored |
| `BatchProcessor.AsteriaBatchProcessor.SaveToDb` | src/batch_processor.py:153-205 | writes the row under the `AST-` key, replacing any row there, and returns the caller's summary after tagging; nothing is written when tagging raises |
| `BatchProcessor.AsteriaBatchProcessor.ProcessAll` | src/batch_processor.py:65-133 | the method's results and table are those of the run |
| `BatchProcessor.AsteriaBatchProcessor.ProcessTickets` | src/batch_processor.py:95-119 | the counter loop visits each ticket in order |
| `BatchProcessor.AsteriaBatchProcessor.ProcessOne` | src/batch_processor.py:96-119 | one ticket: skipped when stored, otherwise summarized and recorded |
| `BatchProcessor.AsteriaBatchProcessor.Record` | src/batch_processor.py:106-115 | a summary is saved (unless dry run), collected and counted; none is a failure |
| `BatchProcessor.AsteriaBatchProcessor.FindHeading` | src/batch_processor.py:243-255 | the loop with `break` finds the first section the line names |
| `BatchProcessor.AsteriaBatchProcessor.ParseSummarySections` | src/batch_processor.py:207-263 | the line loop returns the sections described above |
| `BatchReprocess.ThreadLayout` | batch_reprocess.py:104-112 | exactly three lines per message: tag and minute; body; blank |
| `BatchReprocess.HeaderWithoutSender` | batch_reprocess.py:107-109 | the header lacks the sender that `_merge_emails_simple` writes (src/asteria_summarizer.py:206) |
| `BatchReprocess.MergeEmails` | batch_reprocess.py:104-112 | the thread text is those lines joined by newlines |
| `BatchReprocess.SectionValues` | batch_reprocess.py:91-97 | each of the seven fields is `parsed.get(key)`: the text, or None |
| `BatchReprocess.ReprocessTicketCases` | batch_reprocess.py:64-66 | a parse error propagates and a missing ticket gives None, both without touching the client; otherwise the found ticket is the one asked for |
| `BatchReprocess.ReprocessFoundFields` | batch_reprocess.py:68-102 | None exactly when there is no message, then no call is made. A model error propagates. Otherwise the record has the case number, the message count (at least one) and the date range. Its summary text is the rendered reply; each section field is `parsed.get`; metadata is the parsed metadata |
| `BatchReprocess.SaveSections` | batch_reprocess.py:119-146 | always the seven-column form, each column `summary.get`, metadata tagged `source = asteria`; raises when the metadata is not an object |
| `BatchReprocess.ReplySaved` | batch_reprocess.py:88-146 | a reprocessed ticket's row holds each parsed section or None, and can be written exactly when the reply's metadata is an object |
| `BatchReprocess.StepAllStep` | batch_reprocess.py:168-182 | the run after one more ticket settles that ticket's outcome |
| `BatchReprocess.StepAllCounts` | batch_reprocess.py:159-184 | each ticket counts once as success or failure; total unchanged |
| `BatchReprocess.SettledRows` | batch_reprocess.py:171-182 | settling a ticket writes at most its own row |
| `BatchReprocess.ReprocessTicketCase` | batch_reprocess.py:64-89 | a summary is for the ticket asked for |
| `BatchReprocess.StepAllRows` | batch_reprocess.py:168-182 | a run writes only its own tickets' rows, in the seven-column form tagged `asteria` |
| `BatchReprocess.ReprocessRunResults` | batch_reprocess.py:152-184 | a parse error propagates. Otherwise success + failed == total (the ticket count after the limit), with exceptions counted as failures. Other cases' rows stay as they were; every changed row is a tagged seven-column row under one of the run's keys |
| `BatchReprocess.AsteriaBatchProcessor.constructor` | batch_reprocess.py:28-34 | a processor with a fresh parser and a fresh model client |
| `BatchReprocess.AsteriaBatchProcessor.ProcessTicket` | batch_reprocess.py:60-102 | result and new client state are those of `process_ticket` |
| `BatchReprocess.AsteriaBatchProcessor.SaveToDb` | batch_reprocess.py:114-150 | writes the seven-column row under the `AST-` key, replacing any row there; nothing when tagging raises |
| `BatchReprocess.AsteriaBatchProcessor.ProcessAll` | batch_reprocess.py:152-184 | the method's results, table and client state are those of the run |
| `BatchReprocess.AsteriaBatchProcessor.ProcessTickets` | batch_reprocess.py:168-182 | the counter loop processes each ticket in order |
| `BatchReprocess.AsteriaBatchProcessor.ProcessOne` | batch_reprocess.py:169-182 | one ticket processed and settled |
| `BatchReprocess.AsteriaBatchProcessor.Record` | batch_reprocess.py:173-182 | a summary is saved and counted a success; none, a model error or a failed save is a failure |

## Left out

- **Parsing the HTML with BeautifulSoup/lxml and reading the file** (src/html_parser.py:68-81, 179-191, 211). The export is given as a value: a table, its body rows, and for each cell its stripped text, its markup, its flattened text and its node tree. How `br`/`p`/`li`/`pre`/`code` are rewritten before `get_text` is not modelled; only the text post-processing is.
- **The regex engine.** The patterns for headers, routing suffixes, section headings and JSON blocks are hand-written scanners for those four patterns only.
- **`strptime`, `isoformat` and `strftime`.** `strptime` is an oracle parameter; its grammar is not modelled. The date-time is an abstract record, and only the layout of its renderings is modelled.
- **`json.loads`.** It is an oracle that returns a value, a decode error, or another exception. `json.dumps` of the stored metadata is not modelled: the row holds the metadata value.
- **The Gemini SDK, `time.time`, `time.sleep` and `random.uniform`.** For each summary, a `World` gives the following inputs:
  - each attempt's outcome: an answer, a transient error, an unreadable response or another error;
  - the clock reading before the call, and the reading stamped after an answered call;
  - one jitter per attempt.
  Sleeps are logged, not taken. Real arithmetic stands in for floating point.
- **The prompt template and its formatting** (src/llm_summarizer.py:38-133, 217-228). The merged thread is computed, but what the model answers is an input that does not depend on it.
- **The Salesforce delegation path** (src/asteria_summarizer.py:25-31, 66-77, 134-171). As written it always ends in its exception handler, because of an undefined `ticket_id` and a missing method. It is modelled as a flag that yields no summary. `_case_summary_to_dict` and `_load_config` are not part of this model.
- **SQLite.** The table is a map from case number to row. Not modelled:
  - connection errors;
  - the exception path of `_exists_in_db` that returns False;
  - `created_at` column values;
  - the FTS triggers;
  - `_verify_db_integrity` (it only logs);
  - `delete_existing_asteria_cases` and the `--delete-asteria` option of `batch_reprocess.py`.
- **`datetime.now()` for a summary's `created_at`.** It is a parameter.
- **Things the constructors check or read.** Not modelled: `LLMSummarizer`'s check for a missing API key, the `genai` setup, and the file paths the constructors store.
- **Other code outside the model:**
  - logging and `print`;
  - the CLI entry points and `main`;
  - `parse_html_file` and `AsteriaFetcher.fetch_by_ticket_id`, which the modelled code does not call;
  - the test scripts `test_llm.py` and `test_fix.py`.
- BatchProcessor.Visit: the save in `process_all` is modelled as never raising. The summaries handed to it always carry object metadata (`BatchProcessor.TicketSummaryStored`), so the source's exception-to-failure path for a failing save is not reachable here.
- AsteriaFetcher.Unroute: agrees with `re.sub(r"\s+to\s+.+$", "", s)` only when `s` has no trailing whitespace. That is the only way the source calls it (`_clean_user` strips first). On a string ending in whitespace or a newline, Python's `$` also matches before a final `\n` and `.+` may end in spaces; the model's scanner does not follow those cases.
- Timestamps.IsoFormat, Timestamps.MinuteText, Timestamps.DateText: the date-time record's fields are unconstrained naturals, and each field is printed as its last 2 or 4 digits. The renderings match Python's `isoformat`/`strftime` only for the datetimes Python can hold (month 1-12, day 1-31, hour 0-23, minute and second 0-59), and `%Y` only for years 1000-9999.
- **Unicode tables.** `\d` and `\s` are modelled with the character tables of Unicode 15.0 (Python 3.12). Other Python versions may differ in a few code points.
