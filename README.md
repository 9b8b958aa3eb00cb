# Microsoft Style Guide MCP server: a Dafny model

This project models the core of a Model Context Protocol (MCP) server that checks prose against the Microsoft Writing Style Guide, together with the chat front end of its client:

- **The offline analyzer** (`fastmcp_style_server.py`):
  - a fixed library of regular-expression patterns and a terminology table;
  - `analyze_content`: statistics, four gated check blocks, status;
  - `get_style_guidelines`, `suggest_improvements` and `_get_improvement_suggestion`;
  - the empty-text guards of the `analyze_content` and `suggest_improvements` tools.
- **The web-enabled analyzer** (`fastmcp_style_server_web.py`):
  - a class that keeps a cache of fetched pages;
  - `fetch_web_content`, `search_style_guide_live` and `get_official_guidance`;
  - its own variants of `analyze_content` (with live guidance), `get_style_guidelines`, `suggest_improvements` and `_get_improvement_suggestion`.
- **The client** (`mcp_client.py`):
  - `call_tool` over the connection state;
  - the four tool helpers;
  - the chat router `process_chat_command`;
  - `_format_result`.

## Modules

Each module is one `.dfy` file.

- **`Wrappers`** (`wrappers.dfy`): `Option`.
- **`TextModel`** (`text.dfy`):
  - `str.lower` on ASCII, `str.strip` and `str.split` (whitespace as `str.isspace`);
  - `re.split(r'[.!?]+')` as `Pieces`/`Sentences`;
  - substring search, `str.replace` of every occurrence, slicing and `str(int)`;
  - Python's lexicographic string order.
- **`Patterns`** (`patterns.dfy`): the six regular expressions, written as explicit matchers.
  - `MatchAt(rule, s, i)` is the end of the match that Python's backtracking engine finds at `i`.
  - `FindAll` is `re.findall`/`re.finditer`: leftmost and non-overlapping.
- **`Style`** (`style.dfy`): the issue model shared by both servers:
  - issue categories and severities;
  - the terminology check;
  - statistics and status;
  - improvement suggestions and filtering;
  - the guidelines dictionary.
- **`OfflineSpec`** (`offline_spec.dfy`): the offline `analyze_content` as a function.
- **`StyleServer`** (`offline_server.dfy`): the offline `analyze_content` and `suggest_improvements` as methods, plus the tool guards.
- **`OfflineProperties`** (`offline_properties.dfy`): the offline properties.
- **`WebSpec`** (`web_spec.dfy`): the specification of the web analyzer:
  - the network as a function from URL to reply;
  - the cache as a map;
  - the search and guidance functions;
  - the web issue list.
- **`WebStyleServer`** (`web_server.dfy`): class `WebStyleGuideAnalyzer`, with its cache as a field and its methods proved against `WebSpec`.
- **`WebProperties`** (`web_properties.dfy`): the properties of the web analyzer.
- **`McpClient`** (`chat_client.dfy`): argument dictionaries, the router, class `FastMcpClient` with `CallTool`, `ProcessChatCommand` and `FormatResult`.

## Notes on the source

Where the repository's written description and the code disagree, the model follows the code. These are the places:

- **Sentence count.** A text made only of terminators (`"..."`) has `sentence_count` 0 and `word_count` 1 (`Style.TerminatorsOnly`), not a sentence count of at least one.
- **Passive-voice advice never fires.** The passive-voice issue's message, "Consider using active voice for clarity", contains no "passive". So `_get_improvement_suggestion` never returns "Change '…' to active voice" and falls through to the generic advice (`Style.GrammarGetsGeneric`, `OfflineProperties.NeverAdvisesActiveVoice`, `WebProperties.WebNeverAdvisesActiveVoice`).
- **`"whitelist"`** is reported as an accessibility error, not as a terminology issue.
- **Guidelines prefix.** `command.replace("guidelines-", "")` removes every occurrence of the prefix. So `guidelines-guidelines-voice` is accepted as the `voice` category (`McpClient.RepeatedPrefixAccepted`). `guidelines-all` is refused as an unknown category (`McpClient.GuidelinesAllRefused`), although plain `guidelines` asks for all of them.
- **Topic mappings in `get_official_guidance`.**
  - Both `"voice"` and `"tone"` map to `voice_tone`, so the topic `voice_tone` fetches and reports that page twice (`WebProperties.VoiceToneGuidanceRepeats`).
  - No key occurs in `"accessibility"`, which therefore falls back to the first three core sections (`WebProperties.AccessibilityTopicFallsBack`).
- **The web `analyze_content`** differs from the offline one:
  - it runs the voice-and-tone block whatever the analysis type;
  - its grammar block checks only the passive pattern;
  - its accessibility block checks only the non-inclusive pattern (`WebProperties.UnknownTypeOnlyVoice`, `WebProperties.WebBlocksRanked`).
- **Unknown connection type.** A client with a session but no recorded connection type answers "Unknown connection type".

## Model

| member | source | states |
|---|---|---|
| TextModel.Lower | fastmcp_style_server_web.py:163 | `str.lower` keeps the length and maps each character through `LowerChar`, which keeps whitespace, word characters and terminators and leaves no upper-case letter |
| TextModel.LowerIsLowered | fastmcp_style_server_web.py:163 | lowering yields a lowered string and is idempotent |
| TextModel.LowerOfLowered | fastmcp_style_server_web.py:163 | lowering a string without upper-case letters changes nothing |
| TextModel.Strip | fastmcp_style_server.py:311-312 | `str.strip` gives a slice of the input with no whitespace at either end; it is empty exactly when the input is blank |
| TextModel.StripIdempotent | mcp_client.py:469 | stripping twice is stripping once |
| TextModel.StripUnpadded | mcp_client.py:469 | a string with no whitespace at either end is its own strip |
| TextModel.WordsShape | fastmcp_style_server.py:79 | `str.split()` yields non-empty whitespace-free words, none exactly when the text is blank |
| TextModel.WordsSplit | fastmcp_style_server.py:79 | `str.split()` splits at every whitespace character: the words of `a + c + b`, for whitespace `c`, are the words of `a` followed by the words of `b` |
| TextModel.SingleWord | fastmcp_style_server.py:79 | a non-empty stretch without whitespace is exactly one word, itself; with `WordsSplit` this fixes the words of every text |
| TextModel.WordsAfterSpace | fastmcp_style_server.py:79 | leading whitespace adds no word |
| TextModel.WordsLowered | fastmcp_style_server_web.py:163 | the words of a lower-case text are lower-case |
| TextModel.LowerAppend | fastmcp_style_server_web.py:163 | `lower()` distributes over concatenation |
| TextModel.PiecesShape | fastmcp_style_server.py:80 | `re.split('[.!?]+')` yields at least one piece, none holding a terminator, and the whole text when it has none |
| TextModel.SentencesSplit | fastmcp_style_server.py:80 | the non-blank pieces of `a + c + b`, for a terminator `c`, are those of `a` followed by those of `b` |
| TextModel.SentencesOfSegment | fastmcp_style_server.py:80 | a stretch without terminators is one sentence, itself, unless it is blank, when it is none; with `SentencesSplit` this fixes the sentences of every text |
| TextModel.SentencesAfterTerminator | fastmcp_style_server.py:80 | leading terminators add no sentence |
| TextModel.NonBlankAppend | fastmcp_style_server.py:80 | the `if s.strip()` filter distributes over concatenation of piece lists |
| TextModel.NonBlank | fastmcp_style_server.py:80 | the `if s.strip()` filter keeps only non-blank pieces drawn from the input |
| TextModel.RemoveAll | mcp_client.py:506 | `str.replace(pat, "")` never lengthens the text |
| TextModel.Take | fastmcp_style_server_web.py:186 | slicing `[:n]` gives the first `min(n, len)` elements |
| TextModel.NatToString | mcp_client.py:350-358 | the decimal text of a status code is a non-empty string of digits whose value (`DigitsValue`) is the code, with no leading zero unless it is "0" |
| TextModel.StrLessIrreflexive | fastmcp_style_server_web.py:184 | Python's string order, used by the sort key, is irreflexive |
| TextModel.StrLessTransitive | fastmcp_style_server_web.py:184 | the string order is transitive |
| TextModel.StrLessTotal | fastmcp_style_server_web.py:184 | two different strings are ordered one way or the other |
| TextModel.StrLessAsymmetric | fastmcp_style_server_web.py:184 | the string order is asymmetric |
| Patterns.LibraryWellFormed | fastmcp_style_server.py:53-61 | the six patterns of the library are well-formed: every word and auxiliary begins and ends with a word character, so `\b` around a match means non-word neighbours |
| Patterns.FindAll | fastmcp_style_server.py:87-88 | `re.findall`/`re.finditer` returns non-empty matches inside the text, in increasing and non-overlapping order |
| Patterns.MatchAt | fastmcp_style_server.py:53-61 | a match at a position ends after it and inside the text |
| Patterns.MatchTable | fastmcp_style_server.py:53-61 | one entry per position of the text, each the pattern's match at that position |
| Patterns.FindAllSound | fastmcp_style_server.py:87-88 | every reported match is the pattern's match at its start, and no position outside the reported matches admits a match |
| Patterns.MatchedIsCovered | fastmcp_style_server.py:87-88 | every position where the pattern matches lies inside some reported match |
| Patterns.FindAllEmptyIff | fastmcp_style_server.py:87-88 | `findall` finds nothing exactly when the pattern matches at no position |
| Patterns.StartsIncrease | fastmcp_style_server.py:113 | the matches of `finditer` come in strictly increasing order of position |
| Patterns.WordListMatchIsWholeWord | fastmcp_style_server.py:54 | a `\b(w1\|w2\|…)\b` match is one of the listed words, matched ignoring case |
| Patterns.MasteredIsNotMaster | fastmcp_style_server.py:58 | the trailing `\b` keeps "mastered" from matching "master" |
| Patterns.MasterIsFlagged | fastmcp_style_server.py:58 | "master" alone matches the non-inclusive pattern over its six characters |
| Patterns.PassiveMatchShape | fastmcp_style_server.py:55 | a passive match starts with an auxiliary and ends with "ed" at a word boundary |
| Patterns.LongSentenceShape | fastmcp_style_server.py:56 | a long-sentence match holds an upper-case letter followed by at least 100 non-terminators before its closing terminator |
| Patterns.SingleSentenceNeverLong | fastmcp_style_server.py:56 | a text with no terminator before its last character has no long-sentence match |
| Style.CategoryName | fastmcp_style_server.py:92-170 | each issue category has its own `type` string |
| Style.CategoryNameInjective | fastmcp_style_server.py:257-258 | filtering by type tells the categories apart |
| Style.BuiltinValid | fastmcp_style_server.py:53-71 | the analyzer's word lists are whole-word lists |
| Style.FindingIssue | fastmcp_style_server.py:113-172 | an issue made from a match has its check's type and severity (`FindingKind`: passive voice a grammar warning, a long sentence grammar info, a non-inclusive term an accessibility error, a gendered pronoun an accessibility warning), records the match's position and the matched text (the long-sentence issue has no text) and has its block's rank |
| Style.FindingIssuesComplete | fastmcp_style_server.py:113-172 | every position where a check's pattern matches is covered by a reported issue at that match's start |
| Style.FindingIssueIsMatch | fastmcp_style_server.py:113-172 | each reported issue comes from a match of its check's pattern at the issue's position |
| Style.FindingPositionsIncrease | fastmcp_style_server.py:113-172 | within one check, issue positions strictly increase |
| Style.AppendMatchIssues | fastmcp_style_server.py:113-120 | the loop over matches appends one issue per match, in order |
| Style.AppendFindings | fastmcp_style_server.py:113-172 | running a check appends exactly that check's issues |
| Style.StandardIssues | fastmcp_style_server.py:138-147 | one standard raises at most one issue per avoided spelling, all terminology issues |
| Style.AppendTerminology | fastmcp_style_server.py:137-147 | the nested loop over standards and avoided terms appends exactly `TermIssues` |
| Style.AppendStandard | fastmcp_style_server.py:139-147 | the inner loop appends exactly one standard's issues |
| Style.TermIssuesBound | fastmcp_style_server.py:137-147 | there are at most as many terminology issues as avoided spellings in the table |
| Style.TermIssuesIff | fastmcp_style_server.py:137-147 | a standard reports an avoided spelling exactly when the spelling is in its list and occurs in the text ignoring case |
| Style.StandardIssuesIff | fastmcp_style_server.py:139-147 | one standard reports a spelling exactly when it is among its avoided spellings and occurs in the text ignoring case |
| Style.TableDistinct | fastmcp_style_server.py:64-71 | the terminology table's standards have distinct correct forms |
| Style.WifiRaisesBoth | fastmcp_style_server.py:70 | a text containing "wifi" in any case gets both the "WiFi" and the "wifi" issue |
| Style.StatisticsOf | fastmcp_style_server.py:79-82 | `word_count` is the number of `str.split()` words and `sentence_count` the number of non-blank `re.split` pieces; a blank text has neither |
| Style.StatisticsJoinAtSpace | fastmcp_style_server.py:79-81 | joining two texts with whitespace adds their word counts |
| Style.StatisticsJoinAtTerminator | fastmcp_style_server.py:80-82 | joining two texts with a terminator adds their sentence counts |
| Style.StatisticsOfOneWord | fastmcp_style_server.py:79-82 | a stretch with neither whitespace nor terminators counts one word and one sentence |
| Style.TerminatorsOnly | fastmcp_style_server.py:79-83 | a text made only of terminators counts one word and no sentence |
| Style.TerminatorsNoSentence | fastmcp_style_server.py:80 | such a text yields no non-blank piece |
| Style.StatusFor | fastmcp_style_server.py:176-185 | the status is Excellent for no issue, Good for one or two, Needs Work for three or more |
| Style.StatusMonotone | fastmcp_style_server.py:176-185 | more issues never give a better status |
| Style.Assemble | fastmcp_style_server.py:187-200 | the analysis carries the issues, the suggestions and their count, and its status follows the count |
| Style.VoiceExclusive | fastmcp_style_server.py:86-109 | the voice block gives either the contraction suggestion or the contraction issue, never both; it suggests at most twice; it praises "you" exactly when "you" occurs as a word |
| Style.ImprovementSuggestion | fastmcp_style_server.py:284-297 | a grammar issue without "passive" in its message gets the generic advice, and an accessibility issue gets the inclusive alternative for its text |
| Style.Improvements | fastmcp_style_server.py:257-265 | the filter keeps at most as many improvements as issues |
| Style.CollectImprovements | fastmcp_style_server.py:256-274 | the loop yields the filtered improvements followed by the average-length improvement when the average exceeds 25 |
| Style.ImprovementsAll | fastmcp_style_server.py:257-265 | focus "all" turns every issue, in order, into its improvement |
| Style.ImprovementsFiltered | fastmcp_style_server.py:257-265 | a category focus gives exactly the improvements that focus "all" gives for that category's issues (`Only`), so one per such issue, in order, each of that category |
| Style.Only | fastmcp_style_server.py:258 | every issue of the category is kept and nothing else: the result holds only issues of that category, is a sub-multiset of the input and contains each of its issues of that category |
| Style.ImprovementsUnknownFocus | fastmcp_style_server.py:257-265 | a focus that is neither "all" nor a category name keeps no issue |
| Style.GrammarGetsGeneric | fastmcp_style_server.py:289-297 | passive and long-sentence issues get the generic advice, because neither message contains "passive" |
| Style.TextPreview | fastmcp_style_server.py:277 | the preview is the text up to 100 characters, otherwise its first 100 characters followed by "..." |
| Style.Keys | fastmcp_style_server.py:202-250 | the keys of the principles, in order |
| Style.EntryFor | fastmcp_style_server.py:210-248 | the entry for a key holds that key's block and, in the web variant, its official URL |
| Style.BuiltFits | fastmcp_style_server.py:202-250 | the principles hold exactly the requested blocks, each with its content, in the fixed order voice, grammar, terminology, accessibility |
| Style.GetStyleGuidelines | fastmcp_style_server.py:202-250 | the guidelines carry the category, the base URL and exactly the requested blocks in order |
| StyleServer.AnalyzeContent | fastmcp_style_server.py:73-200 | the method computes exactly `OfflineAnalysis`, the four gated blocks in order |
| StyleServer.AppendGrammar | fastmcp_style_server.py:112-134 | the grammar block appends the passive issues and then the long-sentence issues |
| StyleServer.AppendAccessibility | fastmcp_style_server.py:150-173 | the accessibility block appends the non-inclusive issues and then the gendered-pronoun issues |
| StyleServer.OfflineIssuesByBlock | fastmcp_style_server.py:86-173 | the concatenation of the gated blocks is the analysis's issue list |
| StyleServer.SuggestImprovements | fastmcp_style_server.py:252-282 | the report holds the preview, the focus, the comprehensive analysis's filtered improvements plus the average-length one, their count and the tips URL |
| StyleServer.AnalyzeContentTool | fastmcp_style_server.py:309-315 | a blank text is refused with "No text provided for analysis"; any other text is analysed |
| StyleServer.SuggestImprovementsTool | fastmcp_style_server.py:376-382 | a blank text is refused with "No text provided for improvement suggestions"; any other text gets the improvements |
| OfflineProperties.UnknownTypeFindsNothing | fastmcp_style_server.py:86-185 | an analysis type that names no block gives no issue, no suggestion and an Excellent status |
| OfflineProperties.IssuesInRankOrder | fastmcp_style_server.py:86-173 | issues come block by block: voice, passive, long sentence, terminology, non-inclusive, gendered |
| OfflineProperties.ContractionIssueIff | fastmcp_style_server.py:86-104 | the contraction issue is reported exactly when the voice block runs and the text has no contraction |
| OfflineProperties.SingleSentenceHasNoLongIssue | fastmcp_style_server.py:124-134 | a text with no terminator before its end has only warning-level grammar issues |
| OfflineProperties.SuggestAllCoversEveryIssue | fastmcp_style_server.py:252-265 | with focus "all" every issue, in order, becomes an improvement |
| OfflineProperties.NeverAdvisesActiveVoice | fastmcp_style_server.py:284-297 | no improvement of the offline server says "Change … to active voice" |
| WebSpec.Names | fastmcp_style_server_web.py:57-64 | the section names of the core URL table, in order |
| WebSpec.SectionUrl | fastmcp_style_server_web.py:233-234 | looking up a section finds its URL exactly when the table holds the name |
| WebSpec.FetchOutcome | fastmcp_style_server_web.py:107-157 | a fetch succeeds exactly on status 200, with the full text, the title or the default title, and a preview of at most 2000 characters that is a prefix of the full text; a failure carries the error and the URL |
| WebSpec.CachedRefines | fastmcp_style_server_web.py:110-143 | one fetch only adds successful results to the cache and keeps every earlier entry |
| WebSpec.RefinesTransitive | fastmcp_style_server_web.py:110-143 | cache growth composes |
| WebSpec.RefinesKeepsSeen | fastmcp_style_server_web.py:110-113 | what a URL yields does not change as the cache grows |
| WebSpec.CacheAfterRefines | fastmcp_style_server_web.py:166-167 | fetching a list of URLs in turn only grows the cache |
| WebSpec.Score | fastmcp_style_server_web.py:171 | the relevance score counts at most all the search terms |
| WebSpec.Hits | fastmcp_style_server_web.py:166-181 | there is at most one hit per core section |
| WebSpec.Insert | fastmcp_style_server_web.py:184 | inserting into a sorted result list keeps it sorted and adds exactly that result |
| WebSpec.SortResults | fastmcp_style_server_web.py:184 | the sort is a permutation ordered by (high relevance, section) descending |
| WebSpec.BeforeTransitive | fastmcp_style_server_web.py:184 | the sort key's order is transitive |
| WebSpec.BeforeAsymmetric | fastmcp_style_server_web.py:184 | the sort key's order is asymmetric |
| WebSpec.Matched | fastmcp_style_server_web.py:223-225 | the mapping loop yields at most one section per mapping key |
| WebSpec.MatchedIff | fastmcp_style_server_web.py:223-225 | for every (lower-cased) topic, a section is selected exactly when some mapping entry whose key occurs in the topic names it |
| WebSpec.MatchedNone | fastmcp_style_server_web.py:223-229 | a topic containing no key matches nothing |
| WebSpec.GuidanceFor | fastmcp_style_server_web.py:232-244 | the guidance loop yields at most one item per selected section |
| WebSpec.GuidanceForRefines | fastmcp_style_server_web.py:232-244 | guidance does not depend on how much the cache has grown |
| WebSpec.GuidanceLoopStep | fastmcp_style_server_web.py:232-244 | one loop step appends that section's entry and fetches that section's URL |
| WebSpec.WebIssuesByBlock | fastmcp_style_server_web.py:276-335 | voice issues, then gated passive, terminology and non-inclusive issues make up the web issue list |
| WebSpec.LiveGuidanceLoopFits | fastmcp_style_server_web.py:338-348 | live guidance holds at most two issue types, each with the first guidance item for it; if the text has at most two types, every type that has guidance is present |
| WebSpec.GuidanceKeepsRefining | fastmcp_style_server_web.py:338-348 | guidance fetched on a cache that has grown equals the guidance on the original cache, and fetching it only grows the cache further |
| WebStyleServer.WebStyleGuideAnalyzer.constructor | fastmcp_style_server_web.py:51-89 | a new analyzer has the built-in patterns and table, the six core sections and an empty cache |
| WebStyleServer.WebStyleGuideAnalyzer.FetchWebContent | fastmcp_style_server_web.py:107-157 | a cached URL is answered from the cache; otherwise the page is fetched and cached only on success |
| WebStyleServer.WebStyleGuideAnalyzer.SearchStyleGuideLive | fastmcp_style_server_web.py:159-201 | the report is `SearchSpec` on the old cache, and the cache then holds every core page that answered |
| WebStyleServer.WebStyleGuideAnalyzer.GetOfficialGuidance | fastmcp_style_server_web.py:203-260 | the report is `GuidanceSpec` on the old cache, and the cache then holds every selected page that answered |
| WebStyleServer.WebStyleGuideAnalyzer.GuidanceEntryOf | fastmcp_style_server_web.py:233-244 | one section gives its entry as seen from the original cache, and only its URL is fetched |
| WebStyleServer.WebStyleGuideAnalyzer.RelevantSectionsOf | fastmcp_style_server_web.py:219-229 | the mapping loop with its fallback gives `RelevantSections` |
| WebStyleServer.WebStyleGuideAnalyzer.LiveGuidance | fastmcp_style_server_web.py:338-348 | the live guidance satisfies `LiveGuidanceFits` and the cache only grows |
| WebStyleServer.WebStyleGuideAnalyzer.GuidanceForType | fastmcp_style_server_web.py:341-342 | the guidance for an issue type is `TypeGuidance` and the cache only grows |
| WebStyleServer.WebStyleGuideAnalyzer.AnalyzeContent | fastmcp_style_server_web.py:262-378 | the analysis is `WebAnalysis`, its live guidance fits its issues, and the cache only grows |
| WebStyleServer.WebStyleGuideAnalyzer.SuggestImprovements | fastmcp_style_server_web.py:437-469 | the report holds the preview, the focus, the improvements of the comprehensive web analysis, their count, the tips URL and fitting live guidance |
| WebStyleServer.WebStyleGuideAnalyzer.GetStyleGuidelines | fastmcp_style_server_web.py:380-435 | web-enabled guidelines hold exactly the requested blocks in order, each with its official URL |
| WebProperties.WebBlocksRanked | fastmcp_style_server_web.py:276-335 | the web issue list is voice issues, passive issues, terminology issues and non-inclusive issues, in that order |
| WebProperties.WebContractionIssueIff | fastmcp_style_server_web.py:276-298 | the web analysis reports the contraction issue exactly when the text has no contraction, whatever the analysis type |
| WebProperties.WebIssuesRanked | fastmcp_style_server_web.py:301-335 | the web analysis reports neither long-sentence nor gendered-pronoun issues, and its issues are in block order |
| WebProperties.UnknownTypeOnlyVoice | fastmcp_style_server_web.py:276-360 | an analysis type naming no block still gets the voice issues and suggestions, and at most one issue |
| WebProperties.WebNeverAdvisesActiveVoice | fastmcp_style_server_web.py:471-484 | no improvement of the web server says "Change … to active voice" |
| WebProperties.NoTermsNoHits | fastmcp_style_server_web.py:171-173 | with no search term no section scores |
| WebProperties.BlankQueryFindsNothing | fastmcp_style_server_web.py:163-192 | a blank query returns no result and a total of 0 |
| WebProperties.QueryTermsSplit | fastmcp_style_server_web.py:163 | `query.lower().split()` splits at every whitespace character: the terms of two queries joined by whitespace are the terms of the first followed by those of the second |
| WebProperties.QueryTermsShape | fastmcp_style_server_web.py:163 | every search term is a non-empty lower-case stretch without whitespace, and a query has no terms exactly when it is blank |
| WebProperties.HitsSound | fastmcp_style_server_web.py:166-181 | each hit is a core section whose fetched page contains a term, carries that page's title and content preview, and it is high exactly when the score reaches half the terms |
| WebProperties.HitsComplete | fastmcp_style_server_web.py:166-181 | every core section whose page contains a term is a hit |
| WebProperties.SearchResultsBounded | fastmcp_style_server_web.py:186-192 | at most five results are returned, drawn from the hits, and the total counts every hit |
| WebProperties.SearchResultsOrdered | fastmcp_style_server_web.py:184 | high-relevance results come first, each group by section name descending |
| WebProperties.SearchRepeatable | fastmcp_style_server_web.py:110-113 | searching again after a search gives the same report |
| WebProperties.SearchIgnoresNetworkOnceCached | fastmcp_style_server_web.py:110-113 | once every core page is cached, the network no longer affects the search |
| WebProperties.FetchedAreCached | fastmcp_style_server_web.py:118-143 | every URL that answered successfully is in the cache afterwards |
| WebProperties.CacheAfterIdempotent | fastmcp_style_server_web.py:110-143 | fetching the same URLs twice leaves the cache as after once |
| WebProperties.GuidanceSound | fastmcp_style_server_web.py:232-244 | every guidance item is a selected section, with its own URL and its fetched preview |
| WebProperties.GuidanceBounded | fastmcp_style_server_web.py:232 | at most three sections are consulted and at most one item comes from each |
| WebProperties.GrammarTopicSelectsWritingTips | fastmcp_style_server_web.py:207-225 | the topic "grammar" selects only `writing_tips` |
| WebProperties.AccessibilityTopicFallsBack | fastmcp_style_server_web.py:223-232 | the topic "accessibility" matches no key and falls back to the first three core sections |
| WebProperties.VoiceToneSelectsTwice | fastmcp_style_server_web.py:207-225 | the topic "voice_tone" selects the `voice_tone` section twice |
| WebProperties.VoiceToneGuidanceRepeats | fastmcp_style_server_web.py:232-244 | so its guidance repeats that section's entry |
| McpClient.Lookup | mcp_client.py:739-744 | a dictionary lookup finds the value stored under the key, or reports that no entry has it |
| McpClient.LookupAppend | mcp_client.py:739-744 | looking up in a dictionary extended with more entries finds the earlier entry first |
| McpClient.ArgumentsRoundTrip | mcp_client.py:366-390 | the arguments a helper sends, read back by tool name, give back the same call |
| McpClient.NormalizeIdempotent | mcp_client.py:469 | `command.lower().strip()` is idempotent |
| McpClient.RouteIgnoresCaseAndPadding | mcp_client.py:469 | routing a normalised command gives the same answer as routing the raw command |
| McpClient.CommandWordsAreNormal | mcp_client.py:472-512 | every command word and every `guidelines-<category>` is already in normal form, so it is routed as written |
| McpClient.AnalyzeAliasesRoute | mcp_client.py:472-475 | "analyze", "check", "review" and "style-check" run a comprehensive analysis of the content, or are refused without content |
| McpClient.VoiceAliasesRoute | mcp_client.py:477-480 | the voice aliases run a voice_tone analysis, or are refused without content |
| McpClient.GrammarAliasesRoute | mcp_client.py:482-485 | the grammar aliases run a grammar analysis, or are refused without content |
| McpClient.TermsAliasesRoute | mcp_client.py:487-490 | the terminology aliases run a terminology analysis, or are refused without content |
| McpClient.AccessibilityAliasesRoute | mcp_client.py:492-495 | the accessibility aliases run an accessibility analysis, or are refused without content |
| McpClient.ImproveAliasesRoute | mcp_client.py:497-500 | the improvement aliases ask for all improvements, or are refused without content |
| McpClient.GuidelinesAliasesRoute | mcp_client.py:502-503 | the guidelines aliases ask for all guidelines, with or without content |
| McpClient.SearchRoute | mcp_client.py:512-515 | "search" searches for the content, or is refused without it |
| McpClient.AnalyzeAliasesClassified | mcp_client.py:472 | every analyze alias reaches the analyze branch, ahead of every later test |
| McpClient.VoiceAliasesClassified | mcp_client.py:477 | every voice alias reaches the voice branch |
| McpClient.GrammarAliasesClassified | mcp_client.py:482 | every grammar alias reaches the grammar branch |
| McpClient.TermsAliasesClassified | mcp_client.py:487 | every terminology alias reaches the terminology branch |
| McpClient.AccessibilityAliasesClassified | mcp_client.py:492 | every accessibility alias reaches the accessibility branch |
| McpClient.ImproveAliasesClassified | mcp_client.py:497 | every improvement alias reaches the improvement branch |
| McpClient.GuidelinesAliasesClassified | mcp_client.py:502 | every guidelines alias reaches the guidelines branch |
| McpClient.PrefixedRoute | mcp_client.py:505-510 | `guidelines-<category>` asks for that category when it is one of the four, and is refused naming it otherwise |
| McpClient.GuidelinesCategoryRoutes | mcp_client.py:505-508 | each of the four categories is routed to its guidelines |
| McpClient.GuidelinesAllRefused | mcp_client.py:505-510 | `guidelines-all` is refused as an unknown category |
| McpClient.RepeatedPrefixAccepted | mcp_client.py:506 | because every occurrence of the prefix is removed, `guidelines-guidelines-voice` is routed as `voice` |
| McpClient.EmptyContentCallsOnlyGuidelines | mcp_client.py:472-515 | without content the only tool the router calls is get_style_guidelines |
| McpClient.ContentIsForwarded | mcp_client.py:472-515 | every other call carries the non-empty chat content unchanged |
| McpClient.UnknownIff | mcp_client.py:517-535 | a command gets the unknown-command answer, listing the twelve commands, exactly when no branch knows it |
| McpClient.RoutedCallsAreServed | mcp_client.py:472-515 | every routed call names an analysis type that runs a block, a category that selects a block, or the "all" focus |
| McpClient.CategoriesServed | mcp_client.py:507-508 | each accepted guidelines category selects at least one block of the guidelines |
| McpClient.CallOutcomeGuards | mcp_client.py:323-364 | a call succeeds only over an open session of type stdio or http, and over http only with status 200; without a session or with an unknown type, the transport is never consulted |
| McpClient.FastMcpClient.constructor | mcp_client.py:97-104 | a new client has no session and no connection type |
| McpClient.FastMcpClient.CallTool | mcp_client.py:323-364 | the method answers `CallOutcome` of the client's state, and "Not connected to server" without a session |
| McpClient.FastMcpClient.Call | mcp_client.py:366-390 | each helper is `call_tool` with the tool's name and its argument dictionary |
| McpClient.ProcessChatCommand | mcp_client.py:467-535 | a routed call goes through `call_tool`, a refusal answers with its error, and an unknown command answers with the list of commands |
| McpClient.SummaryTakesPrecedence | mcp_client.py:734-745 | a dictionary with a "summary" shows "Summary: " and that value, whatever else it holds |
| McpClient.AssessmentBeforeDump | mcp_client.py:734-745 | without a summary, an "assessment" is shown as "Assessment: " and that value |
| McpClient.DumpOnlyWithoutKeys | mcp_client.py:734-745 | a dictionary with neither key is shown as its JSON dump |

## Left out

- **The network and HTML parsing.** A parameter `net` stands for them: it maps each URL to a reply holding the status, the title and the extracted text, or to an exception. The `<title>` regex extraction, the regex removal of `<script>` and `<style>` blocks and of tags, and the whitespace collapsing (fastmcp_style_server_web.py:122-130) are inside that oracle. The oracle gives the same reply for a URL every time during a run. `SearchRepeatable`, `CacheAfterIdempotent` and `VoiceToneGuidanceRepeats` depend on that for pages whose fetch failed: the program fetches those again, and a real network may then answer differently.
- **Timestamps.** The `timestamp` fields and `asyncio.get_event_loop().time()` are left out.
- **`cache_timeout`** is left out: the code never reads it. So is the `aiohttp` session lifecycle (`get_session`, `close_session`).
- **Error branches.** The generic `except Exception` branches of `search_style_guide_live`, `get_official_guidance` and `analyze_content` are left out: the model has no exception that the modelled code could raise. Fetch failures are modelled (`WebSpec.FetchOutcome`).
- **Set iteration order.** The live-guidance loop iterates over a Python `set` of issue types, whose order is unspecified. The model does not fix which two types are kept when there are more than two; `LiveGuidanceFits` states what holds for every order.
- **Floating-point average.** `round(word_count / max(1, sentence_count), 1) > 25` is modelled on integers as `20 * words >= 501 * max(1, sentences)` (`Style.LongAverage`). This is the exact decimal comparison. Python's float division and rounding agree with it whenever the sentence count is below 10^13; for larger counts a quotient just below 25.05 can round up, which the model does not reproduce.
- **Tool wrappers.** The wrappers' emoji display text (the `summary` string of fastmcp_style_server.py:344 and the `formatted` strings of :373 and :403; the `detailed` and `data` values returned beside them are the modelled results), the `search_style_guide` tool of the offline server, the FastMCP/stdio fallback servers and `main` are left out. The offline empty-text guards are modelled.
- **Character handling.** `str.lower` and `\w` are modelled on ASCII letters, digits and `_`. Unicode case mapping and Unicode word characters are not modelled.
- **Client connection code.** The client's connect, start, terminate and disconnect code (mcp_client.py:118-295) is not part of this model. Nor is the platform and encoding set-up. The connection state is the two fields `sessionOpen` and `connectionType`.
- McpClient.FastMcpClient.CallTool: the stdio reply is taken as the tool result. `_handle_response`'s extraction of the first content item's text, and its own exception branch, are folded into the transport parameter.
- **Helpers not modelled.** The client helpers `get_official_guidance` and `check_terminology` (mcp_client.py:392-405) are left out, and so are the `VSCodeInterface` and interactive front ends.
- McpClient.FormatResult: Python's `str` and `json.dumps` are parameters; the dictionary is a list of key/value entries whose first entry for a key wins.
- **Async and concurrency.** Asynchronous execution and concurrent calls on one analyzer are not modelled. Each method runs to completion.
