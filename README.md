# India VC intelligence: a Dafny model of the analysis and storage core

The system finds articles about Indian venture capital. It scores and
classifies them, stores them in SQLite and shows them on a Streamlit
dashboard. This project models the deterministic core of that pipeline:

- **`ContentAnalyzer`** (`content_analyzer.dfy`) models the heuristic analyser.
  - The relevance score: a base of 50, bonuses for source tier, investment keywords, sectors, recency, length, a funding title and a currency marker, one penalty, and a clamp to [0, 100].
  - Sector classification, VC-firm detection, priority, content type, sentiment, key topics and theme counts.
  - The section parser used on model replies, and the deterministic branches of the summary.
  - `analyze_content`, with the language-model insight and summary replies as inputs.
- **`SearchEngine`** (`search_engine.dfy`) models the search engine's pure parts.
  - De-duplication of results by URL and by title similarity. The similarity measure is a parameter.
  - Query generation, the relevance keyword filter, the "india mentioned twice" filter for global results, and the search statistics.
- **`DataManager`** (`data_manager.dfy`) models the SQLite content store as a class.
  - The content table is a sequence of rows and the feedback table a sequence of feedback records, with explicit AUTOINCREMENT counters.
  - Storing a batch, the filtered query, storing user feedback, cleanup, and the tracked-VC count.
- **`Dashboard`** (`dashboard.dfy`) models the pure pieces of the dashboard's two-stage run.
  - Stage 1: conversion of raw search hits, with the host taken from the URL, and the URL-only de-duplication.
  - The clean-up of the model's JSON reply and the keyword fallback score.
  - Stage 2: the accept and priority rule.

Four support modules hold the Python and SQL semantics the core relies on:

- **`Text`**: ASCII `lower()`, substring `in`, `strip()`, `split`, `join` and the non-overlapping `str.count`.
- **`Ranking`**: `ORDER BY … DESC` with NULLs last, as a stable sort, and `LIMIT`.
- **`Sequences`**: order-preserving subsequences.
- **`Wrappers`**: `Option`.

Behaviour of the code that is easy to misread:

- A missing or unparsable publication date counts as "now", so it gets the full recency bonus.
- Content ids come from SQLite's AUTOINCREMENT counter.
- Title similarity is `difflib.SequenceMatcher.ratio`. It is a parameter here.
- The currency check at content_analyzer.py:116 is garbled in the source. It is read as a test for `$` or `₹` in the content.
- In stage 1 of the dashboard, the IndexError raised by a URL without two slashes is caught by the per-query handler (streamlit_app.py:122-123). So it drops only the remaining hits of that query, not the whole run.
- The analyser's tier-1 list holds short names, but `_detect_vc_firm` returns canonical long names. So the tier-1 clause of `_assign_priority` never fires through `analyze_content`. `ContentAnalyzer.DetectedFirmNeverTier1` proves this.

## Model

| member | source | states |
|---|---|---|
| Text.ToLower | content_analyzer.py:74 | ASCII lower-casing keeps the length and maps each character by itself |
| Text.ToLowerAppend | content_analyzer.py:74 | lower-casing distributes over concatenation |
| Text.ToLowerIdempotent | search_engine.py:208 | lower-casing twice is the same as once |
| Text.CountContained | content_analyzer.py:250-251 | counts listed words present in the text; zero exactly when none is present, never more than the list |
| Text.ContainsInContext | content_analyzer.py:74 | a substring of a part is a substring of any text built around it |
| Text.ContainsAnyInContext | content_analyzer.py:74 | a keyword found in a part is found in any text built around it |
| Text.ContainsSingleChar | content_analyzer.py:116-117 | a one-character substring test is membership of that character |
| Text.LeadingSpaces | content_analyzer.py:374 | the leading whitespace run is whitespace and stops at a non-space |
| Text.TrailingSpaces | content_analyzer.py:374 | the trailing whitespace run is whitespace and stops at a non-space |
| Text.Strip | content_analyzer.py:374 | `strip()` is empty iff the text is all whitespace; otherwise it removes exactly the leading and trailing whitespace runs and starts and ends with non-space |
| Text.StripTrimmed | search_engine.py:226 | stripping a text without outer whitespace changes nothing |
| Text.Split | content_analyzer.py:371 | `split` always yields at least one piece |
| Text.SplitPiecesFree | content_analyzer.py:371 | no piece of a split contains the separator |
| Text.SplitNoSeparator | streamlit_app.py:117 | a text without the separator splits into itself |
| Text.SplitAtSeparator | streamlit_app.py:117 | splitting `a + sep + b` is splitting `a` followed by splitting `b` |
| Text.SplitLength | streamlit_app.py:117 | the number of pieces is the number of separators plus one |
| Text.CountDropFirst | search_engine.py:156 | dropping a character never raises the non-overlapping count |
| Text.CountSuffix | search_engine.py:156 | a longer suffix has at least the count of a shorter one |
| Text.CountWithin | search_engine.py:156 | a match that starts inside another adds at most one to the rest |
| Text.CountAtLeastFrom | search_engine.py:156 | any occurrence gives at least one plus the count after it |
| Text.CountAfterFront | search_engine.py:156 | with a match at the front, the count is at least one plus the count from any later point past that match |
| Text.OccursInTail | search_engine.py:156 | an occurrence past a non-matching front is an occurrence in the tail, with the same count |
| Text.MatchInTail | search_engine.py:156 | an occurrence in the tail is an occurrence one position later in the whole |
| Text.CountPositiveHasMatch | search_engine.py:156 | a positive count comes from an actual occurrence, with the rest counted after it |
| Text.CountTwoHasDisjointMatches | search_engine.py:156 | a count of two or more yields two non-overlapping occurrences |
| Text.DisjointMatchesCountTwo | search_engine.py:156 | two non-overlapping occurrences give a count of at least two |
| Ranking.AboveTransitive | data_manager.py:180 | the `relevance_score DESC, date_published DESC` order (NULL dates last) is transitive |
| Ranking.AboveTotal | data_manager.py:180 | any two distinct keys are ordered one way or the other |
| Ranking.Insert | data_manager.py:180 | inserting adds exactly the one element, as a multiset |
| Ranking.InsertKeepsSorted | data_manager.py:180 | inserting into a descending list keeps it descending |
| Ranking.SortDesc | data_manager.py:180 | the sort is a permutation of its input and is sorted descending |
| Ranking.Limit | data_manager.py:181 | `LIMIT n` keeps the first `min(n, len)` rows, a sub-multiset of the input; a negative limit keeps all |
| Ranking.KeyFilterAppend | content_analyzer.py:305 | the elements with a given key of `a + b` are those of `a`, then those of `b` |
| Ranking.KeyFilterNone | content_analyzer.py:305 | a sequence with no element of a key has none to filter |
| Ranking.KeyFilterCons | content_analyzer.py:305 | filtering `[x] + s` is `x` if it has the key, then the filter of `s` |
| Ranking.KeyFilterConsStep | content_analyzer.py:305 | a common head keeps an equation between filters |
| Ranking.KeyFilterSnoc | content_analyzer.py:305 | filtering `s + [x]` is the filter of `s`, then `x` if it has the key |
| Ranking.AboveHeadUnmatched | content_analyzer.py:305 | no element of a sorted sequence shares the key of something ranked above its head |
| Ranking.InsertStable | content_analyzer.py:305 | insertion places the new element after every element with an equal key |
| Ranking.SortDescStable | content_analyzer.py:305 | the sort is stable: for every key, its elements come out in input order, as Python's `sorted` keeps them |
| Ranking.KeyFilterPrefix | content_analyzer.py:305-307 | cutting a sequence short keeps, for every key, a prefix of that key's elements |
| Ranking.LimitKeepsTop | data_manager.py:180-181 | a row cut by the limit ranks no higher than any row kept |
| Sequences.SubsequenceDropLast | search_engine.py:225-241 | dropping the last element of a subsequence leaves a subsequence |
| Sequences.SubsequenceExtend | search_engine.py:225-241 | a subsequence stays one when the host grows |
| Sequences.SubsequenceBoth | search_engine.py:241 | appending the same element to both keeps the relation |
| Sequences.SubsequenceMembers | search_engine.py:225-241 | a subsequence is no longer than its host and holds only host elements |
| Sequences.SubsequenceReflexive | search_engine.py:225-241 | every list is a subsequence of itself |
| Sequences.PrefixIsSubsequence | content_analyzer.py:279 | every prefix is a subsequence |
| Sequences.SubsequenceTransitive | content_analyzer.py:274-279 | a subsequence of a subsequence is a subsequence |
| ContentAnalyzer.SourceBonus | content_analyzer.py:79-84 | the source bonus is exactly one of 20, 15, 10, 0; each tier applies iff its marker matches and no earlier tier did |
| ContentAnalyzer.CountPresent | content_analyzer.py:87 | counts the keywords in title or content; zero iff none occurs |
| ContentAnalyzer.InvestmentBonus | content_analyzer.py:87-88 | 5 per distinct investment keyword found, capped at 20; 20 iff at least four are found |
| ContentAnalyzer.SectorHitCount | content_analyzer.py:91-94 | never more sectors matched than listed |
| ContentAnalyzer.SectorBonus | content_analyzer.py:95 | 5 per matched sector capped at 15; 15 iff three or more match |
| ContentAnalyzer.RecencyBonus | content_analyzer.py:98-109 | +10 iff at most a day old, +5 iff one to seven days, 0 otherwise |
| ContentAnalyzer.RawScore | content_analyzer.py:72-121 | the unclamped score is always between 30 and 135 |
| ContentAnalyzer.Clamp | content_analyzer.py:123 | the clamp lands in [0, 100] and is the identity inside it |
| ContentAnalyzer.RelevanceScore | content_analyzer.py:70-123 | the final score is always in [30, 100]; it equals the raw score up to 100, and is 100 iff the raw score reaches 100 |
| ContentAnalyzer.CountSectorHits | content_analyzer.py:91-94 | the loop counts exactly the matching priority sectors |
| ContentAnalyzer.CalculateRelevanceScore | content_analyzer.py:70-123 | the method computes the relevance score, which lies in [30, 100] |
| ContentAnalyzer.MatchedNames | content_analyzer.py:131-134 | no more names are matched than the table has |
| ContentAnalyzer.MatchedNamesSpec | content_analyzer.py:131-134 | matched names keep table order, are distinct, and a name is listed iff one of its keywords occurs |
| ContentAnalyzer.MatchedNamesInOrder | content_analyzer.py:131-134 | matched names form an order-preserving subsequence of the table's names |
| ContentAnalyzer.MatchedNamesListed | content_analyzer.py:131-134 | for a table with distinct names, a name is listed iff one of its keywords occurs in the text |
| ContentAnalyzer.MatchedNamesDistinct | content_analyzer.py:131-134 | no name is listed twice |
| ContentAnalyzer.NamesAre | content_analyzer.py:131-134 | the table's names, index by index |
| ContentAnalyzer.SectorsOf | content_analyzer.py:125-139 | the sectors are the matched ones, or `["General"]` when none matched |
| ContentAnalyzer.SectorsOfSpec | content_analyzer.py:125-139 | a priority sector is listed iff one of its keywords occurs; "General" iff none does and a general term does; no sector twice |
| ContentAnalyzer.ClassifySectors | content_analyzer.py:125-139 | the loop computes the sector classification |
| ContentAnalyzer.KeywordInTitleAndContent | content_analyzer.py:129 | a keyword in the lower-cased title or content is in the joined text |
| ContentAnalyzer.ScoredSectorIsClassified | content_analyzer.py:91-134 | a sector that earns score bonus is always among the classified sectors |
| ContentAnalyzer.FirstAliasIndex | content_analyzer.py:158-161 | the index found is the first alias occurring in the text, or past the end when none occurs |
| ContentAnalyzer.DetectVcFirm | content_analyzer.py:141-161 | "Unknown" iff no alias occurs; otherwise the canonical name of the first occurring alias in mapping order |
| ContentAnalyzer.DetectedFirmNeverTier1 | content_analyzer.py:145-161 | no detected firm name is in the tier-1 list |
| ContentAnalyzer.AssignPriority | content_analyzer.py:163-171 | High iff score ≥ 80, a tier-1 firm or a hot sector; Medium iff not High and (score ≥ 60 or two or more sectors); Low otherwise |
| ContentAnalyzer.PriorityMonotone | content_analyzer.py:163-171 | a higher score never lowers the priority |
| ContentAnalyzer.ClassifyContentType | content_analyzer.py:227-241 | each type is chosen iff its title terms occur and no earlier type's do; general content iff no term of any type occurs |
| ContentAnalyzer.AnalyzeSentiment | content_analyzer.py:243-258 | positive iff more positive than negative words are present, negative iff the reverse, neutral on a tie |
| ContentAnalyzer.KeyTopicsOf | content_analyzer.py:274-279 | a prefix of the matched topics of length `min(3, matches)`: all of them when fewer than three match |
| ContentAnalyzer.KeyTopicsSpec | content_analyzer.py:260-279 | topics keep table order, are distinct, each has a keyword in the text, and with fewer than three listed every topic with a keyword present is listed |
| ContentAnalyzer.ExtractKeyTopics | content_analyzer.py:274-279 | the loop over every topic, then the cut to three, computes the key topics |
| ContentAnalyzer.ThemeScores | content_analyzer.py:295-299 | entries are exactly the themes with a positive keyword count, each with its count, no more than there are themes |
| ContentAnalyzer.ThemeScoresInOrder | content_analyzer.py:295-299 | scored themes keep the table's order |
| ContentAnalyzer.TopRanked | content_analyzer.py:302-307 | `min(n, len)` entries sorted by count descending, a sub-multiset of the scores (all of them when there are at most `n`), and no left-out entry scores above a kept one |
| ContentAnalyzer.TopRankedStable | content_analyzer.py:302-307 | among equal counts, the kept entries are the first ones in input order |
| ContentAnalyzer.ExtractThemes | content_analyzer.py:281-307 | at most five themes, sorted by count descending, a permutation of the scored themes |
| ContentAnalyzer.ExtractThemesTieOrder | content_analyzer.py:295-305 | themes with equal counts come out in table order |
| ContentAnalyzer.ThemesListed | content_analyzer.py:281-307 | every theme appears with its count iff that count is positive (there are at most five themes) |
| ContentAnalyzer.ExtractSection | content_analyzer.py:367-382 | the loop with its `in_section` flag and early exit computes the section text |
| ContentAnalyzer.NoHeadingNoSection | content_analyzer.py:373-382 | with no heading line nothing is collected |
| ContentAnalyzer.NoHeadingEmptyText | content_analyzer.py:367-382 | with no heading line the section is "" |
| ContentAnalyzer.StripKeepsLeadingDigit | content_analyzer.py:376-378 | a digit in the first three characters survives stripping |
| ContentAnalyzer.CollectedLinesShape | content_analyzer.py:373-379 | every collected line is blank or has a digit among its first three characters |
| ContentAnalyzer.StopLineEndsSection | content_analyzer.py:378-379 | collection stops at the first non-blank line without such a digit once a heading was seen |
| ContentAnalyzer.SameHeadSameSection | content_analyzer.py:373-379 | the collection step depends only on the first line and the rest |
| ContentAnalyzer.GenerateSummary | content_analyzer.py:199-225 | short content is its own summary; otherwise the stripped reply, or the first 200 characters plus "..." when the model fails |
| ContentAnalyzer.AnalyzeContent | content_analyzer.py:35-68 | the analysis carries the score in [30, 100], the joined sectors, the firm, the priority by score and hot sector, the insight text unchanged, the summary, type, sentiment and topics |
| SearchEngine.UrlsAppend | search_engine.py:237 | adding a kept result adds exactly its URL to the seen URLs |
| SearchEngine.TitlesAppend | search_engine.py:238 | adding a kept result adds exactly its normalised title to the seen titles |
| SearchEngine.DeduplicateResults | search_engine.py:219-241 | the loop with its seen-URL and seen-title sets keeps exactly the results the de-duplication rule admits |
| SearchEngine.DedupIsSubsequence | search_engine.py:219-241 | the output is an order-preserving subsequence of the input |
| SearchEngine.AdmitsExtends | search_engine.py:229-235 | a duplicate-free list stays duplicate-free after appending a result iff that result is admitted |
| SearchEngine.DedupNoDuplicates | search_engine.py:219-241 | kept URLs are pairwise distinct and no kept title has similarity > 0.8 with an earlier kept title |
| SearchEngine.DedupPrefix | search_engine.py:225-241 | what is kept from a prefix is a prefix of what is kept overall |
| SearchEngine.AdmittedIsKept | search_engine.py:229-239 | a result admitted by what was kept before it is kept |
| SearchEngine.DroppedIsBlocked | search_engine.py:229-235 | a dropped result shares its URL with, or is > 0.8 similar to, some kept result |
| SearchEngine.BlockedByKept | search_engine.py:229-235 | a result the rule refuses is blocked by a kept result with its URL or a title more than 0.8 similar |
| SearchEngine.EqualTitleDropped | search_engine.py:226-246 | given sim(t, t) = 1, a result whose normalised title equals a kept one is dropped |
| SearchEngine.DedupKeepsDuplicateFree | search_engine.py:219-241 | a duplicate-free input comes back unchanged |
| SearchEngine.LastAdmitted | search_engine.py:229-239 | in a duplicate-free list the last result passes both the URL and the title test against those before it |
| SearchEngine.NoDuplicatesDropLast | search_engine.py:219-241 | a duplicate-free list stays duplicate-free without its last result |
| SearchEngine.DedupIdempotent | search_engine.py:219-241 | de-duplicating the output again changes nothing |
| SearchEngine.DedupStep | search_engine.py:229-239 | one step of the loop: append iff admitted |
| SearchEngine.TitleDropDoesNotBlockUrl | search_engine.py:229-239 | a result dropped for its title records neither its URL nor its title, so a later result with the same URL and an unclashing title is kept |
| SearchEngine.VcQueries | search_engine.py:181-185 | three queries per VC |
| SearchEngine.SectorQueries | search_engine.py:189-193 | three queries per sector |
| SearchEngine.GenerateSearchQueries | search_engine.py:175-204 | the two loops and the fixed list build the query list |
| SearchEngine.ExpandIndex | search_engine.py:180-193 | query `3v + k` of an expansion is query `k` of item `v` |
| SearchEngine.ExpandNext | search_engine.py:180-193 | one more item appends that item's queries at the end |
| SearchEngine.VcQueryAt | search_engine.py:180-185 | 44 queries in all; query `3v + k` is the `k`-th query of the `v`-th tier-1 VC |
| SearchEngine.SectorQueryAt | search_engine.py:188-193 | query `21 + 3s + k` is the `k`-th query of the `s`-th sector |
| SearchEngine.FixedQueriesLast | search_engine.py:196-202 | the last five queries are the thought-leadership queries |
| SearchEngine.TavilyQueriesAreVcQueries | search_engine.py:70 | the ten queries sent are those of the first three VCs and the first of the fourth |
| SearchEngine.RelevanceIgnoresCase | search_engine.py:206-217 | relevance does not depend on letter case |
| SearchEngine.RelevanceInContext | search_engine.py:206-217 | relevant text stays relevant inside a larger text |
| SearchEngine.KeepGlobalIffTwoMentions | search_engine.py:154-156 | a global result is kept iff "india" occurs twice without overlap in its lower-cased title and content |
| SearchEngine.GetSearchStats | search_engine.py:267-273 | the query total is three per VC, three per sector, plus the fixed queries |
| SearchEngine.SearchStatsValues | search_engine.py:267-273 | the statistics are 44 queries, 4 feeds, 13 domains and 7 VCs |
| DataManager.UrlsOfAppend | data_manager.py:23 | a new row adds exactly its URL |
| DataManager.AppendKeepsInvariant | data_manager.py:125-132 | inserting a new URL with the next id keeps URLs unique and ids increasing |
| DataManager.StoreAllStep | data_manager.py:96-138 | one batch item: skipped if its URL exists or its insert fails, else appended with the next id |
| DataManager.StoreAllGrows | data_manager.py:96-143 | old rows are untouched; new rows come from the batch, get consecutive ids, have new URLs and zero feedback; the counter advances by the rows added |
| DataManager.StoreAllKeepsInvariant | data_manager.py:99-101 | storing keeps URLs unique and ids increasing |
| DataManager.StoreAllComplete | data_manager.py:96-138 | every URL of the batch whose insert does not fail is in the table afterwards, and no old URL disappears |
| DataManager.StoreAllNothingNew | data_manager.py:99-138 | a batch of known or failing items changes nothing |
| DataManager.StoreAgainStoresNothing | data_manager.py:99-101 | storing the same batch twice stores nothing the second time |
| DataManager.Select | data_manager.py:157-178 | the selected rows are exactly those matching every active filter, in table order |
| DataManager.FilteredContent | data_manager.py:145-181 | only matching rows, as a sub-multiset of the matches, sorted by score then date descending; all of them when the limit is negative, else `min(limit, matches)` of them |
| DataManager.FilteredContentKeepsTop | data_manager.py:180-181 | a matching row left out ranks no higher than any row returned |
| DataManager.NoFilterReturnsAll | data_manager.py:160-181 | with no filter and no limit every row is returned |
| DataManager.SelectAll | data_manager.py:157-178 | when every row matches, selection returns the table |
| DataManager.ApplyFeedback | data_manager.py:224-228 | only the row with the id gets the value added to its feedback; everything else is unchanged |
| DataManager.FeedbackTotal | data_manager.py:224-228 | the total feedback grows by the value times the number of rows with that id |
| DataManager.FeedbackTotalStep | data_manager.py:224-228 | the total feedback of a table splits into its last row and the rest |
| DataManager.IdAtMostOnce | data_manager.py:21 | with increasing ids an id occurs at most once, and once iff present |
| DataManager.ApplyFeedbackKeepsInvariant | data_manager.py:224-228 | the update keeps URLs unique and ids increasing |
| DataManager.RecentRows | data_manager.py:318-321 | exactly the rows scraped at or after the cutoff survive, in order |
| DataManager.RecentFeedback | data_manager.py:324-327 | exactly the feedback at or after the cutoff survives, in order |
| DataManager.RecentRowsKeepInvariant | data_manager.py:318-321 | deleting rows keeps URLs unique and ids increasing |
| DataManager.AppendNewestRow | data_manager.py:318-321 | kept older rows followed by the newest row keep URLs unique and ids increasing |
| DataManager.RecentFeedbackKeepsIds | data_manager.py:324-327 | deleting feedback keeps feedback ids increasing |
| DataManager.AppendNewestFeedback | data_manager.py:324-327 | kept older feedback followed by the newest entry keeps ids increasing |
| DataManager.TrackedVcSet | data_manager.py:437-438 | the tracked VCs are exactly the firm names other than "Unknown" that occur, never more than the rows |
| DataManager.TrackedVcsGrow | data_manager.py:437-438 | adding rows never lowers the tracked-VC count |
| DataManager.SubsetCardinality | data_manager.py:437-438 | a subset is no larger than its superset |
| DataManager.ContentStore.constructor | data_manager.py:13-55 | the store starts with empty tables and both counters at 1 |
| DataManager.ContentStore.StoreContent | data_manager.py:86-143 | the loop stores the batch as the table model does; the count returned is the growth of the table; an empty batch changes nothing; feedback is untouched |
| DataManager.ContentStore.GetFilteredContent | data_manager.py:145-181 | the query over the current table |
| DataManager.ContentStore.StoreUserFeedback | data_manager.py:211-228 | exactly one feedback record is appended with the next id, and the content rows receive the feedback update |
| DataManager.ContentStore.CleanupOldData | data_manager.py:311-333 | old rows and old feedback are deleted; the count returned is the number of feedback records deleted only |
| DataManager.ContentStore.GetTrackedVcs | data_manager.py:437-438 | the count of distinct firm names other than "Unknown" in the current rows, never more than the rows |
| Dashboard.SourceOf | streamlit_app.py:117 | an empty URL gives "Unknown"; otherwise fails iff the URL has fewer than two slashes; a source never contains a slash |
| Dashboard.SourceOfHostUrl | streamlit_app.py:117 | for `scheme://host/path` the source is the host |
| Dashboard.ConvertHits | streamlit_app.py:112-123 | converts hits in order and stops at the first whose source raises |
| Dashboard.ConvertQueryHits | streamlit_app.py:112-123 | the inner loop appends exactly the converted hits of one query |
| Dashboard.ConvertHitsNext | streamlit_app.py:112-120 | while sources can be extracted, the converted prefix grows by the next hit |
| Dashboard.ConvertHitsEnd | streamlit_app.py:112-123 | the conversion is complete where the hits run out or a source raises |
| Dashboard.Stage1HitsNext | streamlit_app.py:100-123 | one more query adds that query's records at the end |
| Dashboard.CollectRawResults | streamlit_app.py:96-123 | the query loop collects the converted hits of every broad query, skipping failed queries |
| Dashboard.ConvertHitsAll | streamlit_app.py:112-120 | when every URL yields a source, every hit is converted |
| Dashboard.HitUrlsAppend | streamlit_app.py:133 | keeping a hit adds exactly its URL to the seen set |
| Dashboard.DedupByUrl | streamlit_app.py:127-133 | the loop keeps the first hit for each URL |
| Dashboard.FirstPerUrlSpec | streamlit_app.py:127-133 | the output is an order-preserving subsequence with distinct URLs, the same URL set, and no more hits |
| Dashboard.FirstPerUrlInOrder | streamlit_app.py:127-133 | the output is an order-preserving subsequence of the input |
| Dashboard.FirstPerUrlSameUrls | streamlit_app.py:127-133 | the output covers exactly the input's URLs |
| Dashboard.FirstPerUrlNoRepeat | streamlit_app.py:127-133 | no URL appears twice in the output |
| Dashboard.FirstOccurrenceKept | streamlit_app.py:130-133 | the first hit with a given URL is kept |
| Dashboard.FirstPerUrlDistinct | streamlit_app.py:127-133 | a list with distinct URLs comes back unchanged |
| Dashboard.FirstPerUrlIdempotent | streamlit_app.py:127-133 | de-duplicating twice is de-duplicating once |
| Dashboard.DropEnds | streamlit_app.py:201-203 | `s[a:-b]` is the middle of `s`, or empty when the ends overlap |
| Dashboard.StripFences | streamlit_app.py:198-203 | the stripped reply loses its first 7 and last 3 characters after a "```json" opening, its first 3 and last 3 after another "```" opening, and nothing otherwise |
| Dashboard.FencedIsStripped | streamlit_app.py:198 | a fenced reply has no outer whitespace |
| Dashboard.JsonFenceRoundTrip | streamlit_app.py:200-201 | a ```json fence around a body is removed exactly |
| Dashboard.PlainFenceRoundTrip | streamlit_app.py:202-203 | a plain ``` fence around a body not starting with "json" is removed exactly |
| Dashboard.FallbackMatches | streamlit_app.py:212-216 | no more matches than high-value keywords |
| Dashboard.FallbackScore | streamlit_app.py:216 | 15 per distinct keyword, capped at 85; so 85 or a multiple of 15 up to 75; 85 iff six or more keywords |
| Dashboard.FallbackThresholds | streamlit_app.py:216-249 | a fallback article is accepted iff at least three keywords match, and is High iff at least five match |
| Dashboard.AiClassify | streamlit_app.py:189-217 | the parsed reply when the call and the parse succeed; otherwise the fallback classification |
| Dashboard.AiClassifyFallback | streamlit_app.py:208-217 | a failed call or unparsable reply yields the fallback score (at most 85) with category "general" |
| Dashboard.Assess | streamlit_app.py:236-251 | accepted iff the score (missing means 0) is at least 40; priority High iff at least 70, else Medium; category defaults to "general" and reasoning to "No reasoning" |
| Dashboard.TestArticles | streamlit_app.py:226 | exactly the first `min(10, n)` articles, in order |
| Dashboard.Stage2 | streamlit_app.py:226-253 | the loop collects the assessed articles among the first ten |
| Dashboard.HitsOf | streamlit_app.py:251 | the articles of the accepted records, index by index |
| Dashboard.AcceptedInOrder | streamlit_app.py:229-253 | accepted articles form an order-preserving subsequence of the tested ones |
| Dashboard.AcceptedSound | streamlit_app.py:236-251 | every accepted article scored at least 40, and is High iff it scored at least 70 |
| Dashboard.AcceptedComplete | streamlit_app.py:242-251 | every tested article scoring 40 or more is accepted |
| Dashboard.MissingScoreRejected | streamlit_app.py:236-242 | an article without a score is never accepted |
| Dashboard.AtMostTenAccepted | streamlit_app.py:226-251 | at most ten articles are accepted |

## Left out

- Language-model calls (`_extract_insights`, the model branch of `_generate_summary`, `generate_insights`, the call in `ai_classify_content`) are inputs: an optional reply string or a classification function.
- The Tavily search, `feedparser` RSS fetching, `time.sleep` throttling and the API connection checks are network I/O. Search results are inputs.
- `urlparse` domain extraction and `dateutil` date parsing are library calls. A date is given as an optional day count, and a missing one counts as now.
- The SQL and pandas aggregations (`get_trending_themes`, `get_search_performance_stats`, `get_learning_insights`, `get_all_content`, the rest of `get_database_stats`), schema creation, and `update_relevance_scoring_model` are not modelled. The last one does nothing.
- Floating-point `raw_score` arithmetic and averages are not modelled.
- Streamlit display, progress bars, metrics and the page flow around the two stages are not modelled.
- `config.py` holds only constants that nothing in the modelled code reads.
- `lower()`, `strip()` and `isdigit()` are modelled on ASCII only. Unicode case mapping and whitespace are not.
- LIKE wildcards (`%`, `_`) inside a filter value are treated as literal characters.
- Failures of an individual INSERT are an input predicate, `rejects`. Other SQL errors, and the empty result a failed query returns, are not modelled.
- DataManager.ContentStore.CleanupOldData: the cutoff is an integer day given by the caller, in place of SQLite's `date('now', '-N days')` text comparison.
- DataManager.FilteredContent: the order among rows with equal score and date follows table order (a stable sort). SQLite leaves it unspecified.
- Dashboard.AiClassify: a JSON reply is decoded by a `parse` parameter. A score that is not an integer, or a reply that is not an object, is not modelled.
- Dashboard.Stage2: the accepted records are new values. The source adds keys to the same dictionaries in place, and that aliasing is not modelled.
- Dashboard.CollectRawResults: the `date_published` timestamp taken from the clock is omitted from the records.
- ContentAnalyzer.AnalyzeContent: `analysis_timestamp` (the clock) is omitted. The insight text is an input and is stored unchanged.
- DataManager.Article: only the nine columns the modelled query and count read are kept (title, url, content, source, date_published, relevance_score, sectors, vc_firm, priority). `store_content` also inserts author, search_query, raw_score, insights, summary, content_type, sentiment, key_topics and analysis_timestamp (data_manager.py:104-131), which no modelled operation reads.
- ContentAnalyzer.RecencyBonus: a `date_published` key present with the value None raises AttributeError at content_analyzer.py:105. The model reads it like a missing date, as "now".
- Dashboard.Assess: a JSON `"score": null` makes `None >= 40` raise TypeError at streamlit_app.py:242. The model reads it as a missing score, which is rejected. Likewise a JSON `"category": null` or `"reasoning": null` is stored as None at streamlit_app.py:247 and streamlit_app.py:237; the model stores the defaults "general" and "No reasoning" instead, because its classification uses `None` only for a missing key.
- An exception escaping the whole dashboard run (streamlit_app.py:288) is not modelled.
