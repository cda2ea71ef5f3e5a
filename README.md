# RaydaHelpdesk decision core in Dafny

RaydaHelpdesk is an IT help desk that answers a free-text request in four
steps:

1. **Classification.** The request is put in one of seven categories, with a
   confidence and a short reasoning. A language model is asked for all three.
   When a model call fails, keyword matching takes over.
2. **Retrieval.** Up to three knowledge chunks are retrieved. The chunks come
   from two markdown documents and two JSON documents. The model names the
   chunks it wants; when it cannot be asked, a keyword ranking is used.
3. **Escalation.** Six ordered rules decide whether the request must go to a
   human, why, and at which urgency: normal, high or critical.
4. **Response.** The reply text is generated by the model and then cleaned of
   markdown. When the call fails, a fixed fallback text is used instead.

The orchestrator threads one request through these steps. When a step raises,
it returns a fixed error response.

This project models the deterministic logic around the model calls:

- every branch, constant and error path of the four components and the
  orchestrator, except those listed under "Left out";
- the components that the original updates in place, as classes:
  - the classifier's category table;
  - the retriever's chunk list;
  - the engine's rule table;
  - the request's identifier.

Each model call is represented by its reply, an `Option<string>` in which
`None` means the call raised. The float parser and the `:.2f` formatter are
function parameters; floats are reals. The clock readings, the generated UUID
and the contents of the files read are parameters too.

Module layout by source file:

| Dafny module (file) | source file |
|---|---|
| `Models` (models.dfy) | `src/helpdesk/models/models.py` |
| `Config` (config.dfy) | `src/helpdesk/utils/config.py` |
| `Escalation` (escalation.dfy) | `src/helpdesk/core/escalation_logic.py` |
| `Classifier` (classifier.dfy) | `src/helpdesk/core/classifier.py` |
| `Knowledge` (knowledge.dfy) | `src/helpdesk/core/knowledge_retriever.py` |
| `Response` (response.dfy) | `src/helpdesk/core/response_generator.py` |
| `HelpDesk` (system.dfy) | `src/helpdesk/core/system.py` |
| `Strings`, `Wrappers` | helpers standing in for Python's `str` methods |

Every state-changing method is proved against a specification function. For
example, `ShouldEscalate` computes `Decide`, `Classify` computes
`Classification`, `FallbackKeywordSearch` computes `KeywordSearch` and
`ProcessRequest` computes `Processing`. The lemmas then state what those
functions promise.

## Model

| member | source | states |
|---|---|---|
| Models.ValueInjective | src/helpdesk/models/models.py:5-13 | Two categories with the same string value are the same category. |
| Models.FindCategory | src/helpdesk/models/models.py:5-13 | The member found in a list has the key as its value; no member is found only when no member of the list has that value. |
| Models.CategoryFromValue | src/helpdesk/core/classifier.py:35-39 | A configuration key maps to a category exactly when some category has that value, and then to that category. |
| Models.AllCategoriesComplete | src/helpdesk/models/models.py:5-13 | The iteration order of the enumeration lists every one of the seven categories. |
| Models.HelpDeskRequest.constructor | src/helpdesk/models/models.py:15-21 | A new request has the given id, text and user; its priority defaults to "normal" and its timestamp to none. |
| Escalation.EscalationEngine.constructor | src/helpdesk/core/escalation_logic.py:11-29 | The rule table has exactly the configured categories. Each one holds its trigger list, or the empty list when it has none; an unreadable configuration gives an empty table. |
| Escalation.EscalationEngine.Evaluate | src/helpdesk/core/escalation_logic.py:31-93 | Against the engine's own rule table, the decision is the one `Decide` specifies. |
| Escalation.EmptyTriggerMatches | src/helpdesk/core/escalation_logic.py:106-110 | An empty trigger matches every request, because it has no words to look for. |
| Escalation.MatchesTriggerIgnoresCase | src/helpdesk/core/escalation_logic.py:95-110 | Lower-casing the request or the trigger never changes whether they match. |
| Escalation.MatchingTriggersMembers | src/helpdesk/core/escalation_logic.py:39-43 | The triggers reported are exactly the category's triggers that match the request. |
| Escalation.FoundKeywords | src/helpdesk/core/escalation_logic.py:112-121 | A keyword is reported exactly when its lower-cased form occurs in the text, and no more keywords are reported than the list has. |
| Escalation.FoundKeywordsInOrder | src/helpdesk/core/escalation_logic.py:117-119 | Reported keywords keep the order of the keyword list. |
| Escalation.FoundKeywordsOnce | src/helpdesk/core/escalation_logic.py:117-119 | A list without repetitions yields a report without repetitions. |
| Escalation.UrgentKeywordsOnceInOrder | src/helpdesk/core/escalation_logic.py:112-121 | Each configured urgent keyword is reported at most once, in configuration order. |
| Escalation.CheckUrgentKeywords | src/helpdesk/core/escalation_logic.py:112-121 | The loop finds exactly the configured urgent keywords whose lower-cased form occurs in the lower-cased request. |
| Escalation.MultipleIssuesWithoutAndAlso | src/helpdesk/core/escalation_logic.py:123-132 | The multiple-issues check answers the same without "and also", which "also" already covers. |
| Escalation.FirstFoundFrom | src/helpdesk/core/escalation_logic.py:75-80 | The position found holds a keyword that occurs, and no earlier position does; nothing is found only when no keyword from there on occurs. |
| Escalation.FirstBusinessKeyword | src/helpdesk/core/escalation_logic.py:70-80 | The business-impact keyword reported is one of the nine in the list. |
| Escalation.MeetingReportedBeforeClient | src/helpdesk/core/escalation_logic.py:75-80 | Because the loop stops at the first keyword, a request mentioning "meeting" is never reported as "client". |
| Escalation.UrgencyNeverDecreases | src/helpdesk/core/escalation_logic.py:35-80 | Across the six rules, reasons are only appended and the urgency never drops. |
| Escalation.TraceOutcome | src/helpdesk/core/escalation_logic.py:35-80 | After the six rules, the reasons are every reason the findings call for in rule order, and the urgency is the most severe one called for. |
| Escalation.DecideOutcome | src/helpdesk/core/escalation_logic.py:82-93 | A request escalates exactly when some reason was found. The reason is then the reasons joined by "; ", and otherwise the automated-response text; the urgency is the most severe one called for. |
| Escalation.CriticalIff | src/helpdesk/core/escalation_logic.py:45-63 | The urgency is critical if and only if an urgent keyword occurs or the category is a security incident or a hardware failure. |
| Escalation.HighIff | src/helpdesk/core/escalation_logic.py:38-80 | The urgency is high if and only if it is not critical and a category trigger or a business-impact keyword matched. |
| Escalation.RaisedUrgencyEscalates | src/helpdesk/core/escalation_logic.py:82-93 | Any urgency above normal comes with an escalation. |
| Escalation.ConfidenceOnlyAddsReason | src/helpdesk/core/escalation_logic.py:51-53 | The confidence never changes the urgency. A confidence below 0.8 always escalates, and any two confidences of at least 0.8 give the same decision. |
| Escalation.HighPriorityAlwaysCritical | src/helpdesk/core/escalation_logic.py:55-63 | A security incident or a hardware failure always escalates, as critical. |
| Escalation.AddBusinessImpact | src/helpdesk/core/escalation_logic.py:69-80 | The business-impact block adds one reason for the first keyword found, and lifts a normal urgency to high. |
| Escalation.CollectTriggerReasons | src/helpdesk/core/escalation_logic.py:38-43 | The trigger loop gives one "Category trigger:" reason per matching trigger, in order, and high urgency exactly when one matched. |
| Escalation.ShouldEscalate | src/helpdesk/core/escalation_logic.py:31-93 | The imperative rule sequence computes `Decide`, the decision the lemmas above characterise. |
| Classifier.Put | src/helpdesk/core/classifier.py:42-47 | Assigning a name maps it to the new record and keeps the table's names distinct and equal to its keys. |
| Classifier.First | src/helpdesk/core/classifier.py:99-102 | The first record exists exactly when the table is not empty. |
| Classifier.LoadEntriesWellNamed | src/helpdesk/core/classifier.py:32-47 | Loading keeps the table valid, and every name is the readable form of its category's value. |
| Classifier.LoadedTableShape | src/helpdesk/core/classifier.py:26-66 | The table loaded is valid, and it is either the two-entry built-in table or a well-named one. |
| Classifier.ReadableNameInjective | src/helpdesk/core/classifier.py:42 | Two categories with the same readable name are the same category. |
| Classifier.LoadEntriesKeepsConfigured | src/helpdesk/core/classifier.py:33-47 | Every configuration key equal to a category's value ends up in the table, under its readable name and recording that category. When no later entry repeats the key, the record holds that entry's description, resolution time and triggers. |
| Classifier.LoadEntriesOnlyConfigured | src/helpdesk/core/classifier.py:33-47 | Every name the loading adds is the readable name of a configuration key equal to the value of the category it records. Every other name keeps its earlier record. |
| Classifier.LoadedTableContents | src/helpdesk/core/classifier.py:26-66 | A configuration that loads gives a table holding exactly its category-valued keys, each under its readable name and with its category. A missing configuration, or an entry lacking a field, gives the built-in table. |
| Classifier.LoadEntriesFailureSticks | src/helpdesk/core/classifier.py:48-66 | Once an entry lacks a field, loading fails whatever follows; the built-in table is then used. |
| Classifier.ReadableNameShape | src/helpdesk/core/classifier.py:42 | A readable name is as long as the category value, and is told apart from the fallback's names by its length and letters. |
| Classifier.LoadedNames | src/helpdesk/core/classifier.py:149-155 | "Network Issues", "Hardware Support" and "General Inquiry" are never names in a loaded table; the other fallback names record their own category. |
| Classifier.KeywordScore | src/helpdesk/core/classifier.py:160 | A score is at most the list's length, and it is zero exactly when no keyword occurs. |
| Classifier.BestCategoryIsEarliestMaximum | src/helpdesk/core/classifier.py:157-165 | The best score is the maximum over entries present in the table, held by the earliest entry reaching it; a best score of zero keeps "General Inquiry". |
| Classifier.FallbackConfidence | src/helpdesk/core/classifier.py:167 | The fallback confidence lies in [0.2, 0.9]. It is min(0.9, 0.2 × score): a fifth per keyword for up to four keywords, 0.9 from five on, and 0.3 when none matched. |
| Classifier.FallbackOutcome | src/helpdesk/core/classifier.py:144-180 | The fallback fails exactly when the table is empty. Otherwise it gives the category of a table entry, a confidence in [0.2, 0.9] and the score in its reasoning. |
| Classifier.FallbackCategories | src/helpdesk/core/classifier.py:149-178 | On a loaded table, the fallback answers password reset, software installation, email configuration or the first entry's category. |
| Classifier.BestCategoryIsMappingName | src/helpdesk/core/classifier.py:157-165 | The winning name is "General Inquiry" or one of the five mapping names. |
| Classifier.BestKeywordCategory | src/helpdesk/core/classifier.py:157-165 | The scoring loop computes the earliest maximum that `BestCategory` specifies. |
| Classifier.FallbackKeywordClassification | src/helpdesk/core/classifier.py:144-180 | The method computes `FallbackClassification`, about which `FallbackOutcome` holds. |
| Classifier.FirstCloseMatch | src/helpdesk/core/classifier.py:93-97 | A match returned is a table name whose lower-cased form contains the prediction or is contained in it. |
| Classifier.FirstCloseMatchIsFirst | src/helpdesk/core/classifier.py:93-97 | The match is the earliest in table order; none is found only when no name matches. |
| Classifier.ResolveNameInTable | src/helpdesk/core/classifier.py:90-102 | The resolved name is a name of the table, and resolution fails exactly when the table is empty. |
| Classifier.ResolveNameChoice | src/helpdesk/core/classifier.py:90-102 | An exact name is kept; otherwise the earliest close match is taken; otherwise the first name is. |
| Classifier.ResolveEmptyPrediction | src/helpdesk/core/classifier.py:93-97 | An empty prediction matches every name and so resolves to the first one. |
| Classifier.ResolveCategory | src/helpdesk/core/classifier.py:90-102 | The for-else loop computes `ResolveName`. |
| Classifier.Clamp | src/helpdesk/core/classifier.py:116 | The result lies in [0, 1]: a value inside it is kept, one below gives 0 and one above gives 1. |
| Classifier.ParseConfidence | src/helpdesk/core/classifier.py:112-118 | A parsable reply is clamped to [0, 1]; otherwise the confidence is 0.8. |
| Classifier.ClassificationFallsBack | src/helpdesk/core/classifier.py:139-142 | A failed model call or an empty table leads to the keyword fallback. |
| Classifier.ClassificationOutcome | src/helpdesk/core/classifier.py:68-142 | Classification fails exactly on an empty table. Its category is a table entry's and its confidence lies in [0, 1]. With all three replies, the result is the resolved name's category, the parsed confidence and the cleaned reasoning. |
| Classifier.FindEnumValue | src/helpdesk/core/classifier.py:35-39 | The enumeration search finds the member whose value is the key, if there is one. |
| Classifier.RequestClassifier.constructor | src/helpdesk/core/classifier.py:17-24 | The table is the one loading the configuration specifies, and it is valid. |
| Classifier.RequestClassifier.LoadCategories | src/helpdesk/core/classifier.py:26-66 | The loop adds entries in file order; a missing field, or an unreadable file, replaces the table by the built-in one. |
| Classifier.RequestClassifier.Classify | src/helpdesk/core/classifier.py:68-142 | The method computes `Classification`, about which `ClassificationOutcome` holds. |
| Knowledge.SectionTitleIsOneLine | src/helpdesk/core/knowledge_retriever.py:58 | A section title is a single line. |
| Knowledge.NonBlankPiecesOrigin | src/helpdesk/core/knowledge_retriever.py:51-66 | Each chunk comes from a non-blank piece; the chunks keep the order of the pieces; every non-blank piece gives a chunk. |
| Knowledge.SectionChunkShape | src/helpdesk/core/knowledge_retriever.py:52-66 | A markdown chunk has non-empty stripped content, names its file, and has a one-line section title. |
| Knowledge.MarkdownChunksCover | src/helpdesk/core/knowledge_retriever.py:42-69 | The split pieces rejoin to the file; every non-blank piece gives a chunk and every chunk comes from one. |
| Knowledge.ExtractTextChunksShape | src/helpdesk/core/knowledge_retriever.py:77-113 | Every extracted chunk is a JSON chunk of its file: a key, ": " and text of more than 50 characters, under a path extending the current one. |
| Knowledge.MemberChunksShape | src/helpdesk/core/knowledge_retriever.py:81-106 | The same holds for the chunks of an object's members. |
| Knowledge.ItemChunksShape | src/helpdesk/core/knowledge_retriever.py:108-111 | The same holds for the chunks of an array's items. |
| Knowledge.MemberChunksAgree | src/helpdesk/core/knowledge_retriever.py:81-106 | Objects that share their first members give the same chunks for those members. |
| Knowledge.MemberChunksSplit | src/helpdesk/core/knowledge_retriever.py:81-106 | The chunks of the members after a prefix depend only on those members. |
| Knowledge.ExtractObjectConcat | src/helpdesk/core/knowledge_retriever.py:81-106 | Chunks come out in document order: an object's chunks are those of its first members followed by those of the rest. |
| Knowledge.ScalarMember | src/helpdesk/core/knowledge_retriever.py:85-95 | A single string member longer than 50 characters gives exactly one chunk; any other scalar gives none. |
| Knowledge.ScalarItemsYieldNothing | src/helpdesk/core/knowledge_retriever.py:94-111 | A list holding no object or list gives no chunk, strings included. |
| Knowledge.NestedPaths | src/helpdesk/core/knowledge_retriever.py:83-95 | At any path, a member holding an object with one long string gives one chunk "key: text", whose section is the inner key below the member's path, joined by ".". |
| Knowledge.ItemPaths | src/helpdesk/core/knowledge_retriever.py:108-111 | At any path and for any item i, an item holding an object with one long string adds one chunk after those of the earlier items. Its section is "[i].key" at the top level, and "path[i].key" below a path. |
| Knowledge.InRange | src/helpdesk/core/knowledge_retriever.py:153 | No more numbers are kept than were read, and each one kept is below the chunk count. |
| Knowledge.InRangeMultiplicity | src/helpdesk/core/knowledge_retriever.py:153 | Every in-range number is kept as often as it occurs, and every other number is dropped. |
| Knowledge.ChosenIndices | src/helpdesk/core/knowledge_retriever.py:149-153 | At most three chunk numbers are read, each names an existing chunk, and a reply of "none" in any case chooses nothing; `ChosenIndicesOfNumbers` gives the numbers chosen. |
| Knowledge.InRangeAppend | src/helpdesk/core/knowledge_retriever.py:153 | The in-range filter keeps the order of the numbers: filtering a concatenation concatenates the filtered parts. |
| Knowledge.FirstResults | src/helpdesk/core/knowledge_retriever.py:153 | The `[:3]` slice: the first min(3, n) entries, unchanged. |
| Knowledge.ChosenIndicesOfNumbers | src/helpdesk/core/knowledge_retriever.py:149-153 | A reply listing any numbers, with the same non-empty digit-free separator between them, chooses the first three numbers that name a chunk. They keep the order written, and repeats are kept. |
| Knowledge.ChosenIndicesExample | src/helpdesk/core/knowledge_retriever.py:149-153 | With ten chunks, "3, 25, 7, 9, 1" chooses chunks 3, 7 and 9: 25 is out of range and only three are kept. |
| Strings.DigitRunsOfList | src/helpdesk/core/knowledge_retriever.py:152 | `re.findall(r'\d+', ...)` read as numbers gives back a list of numbers written with a digit-free separator, in order. |
| Knowledge.IndexResultsRanked | src/helpdesk/core/knowledge_retriever.py:155-166 | Result k is the k-th chosen chunk with relevance 1.0 - 0.1·k. |
| Knowledge.RetrievalOutcome | src/helpdesk/core/knowledge_retriever.py:121-173 | At most three results. An empty knowledge base gives none and a failed model call gives the keyword search; otherwise the chosen chunks, scored 1.0, 0.9 and 0.8 in turn. |
| Knowledge.WordHits | src/helpdesk/core/knowledge_retriever.py:180-185 | The hit count is at most the number of query words, and it is zero exactly when no word occurs in the chunk. |
| Knowledge.ScoredChunksGenuine | src/helpdesk/core/knowledge_retriever.py:180-185 | Each scored entry records a real chunk, its position and its positive score. |
| Knowledge.ScoredChunksInOrder | src/helpdesk/core/knowledge_retriever.py:180-185 | Scored entries keep the knowledge-base order. |
| Knowledge.ScoredChunksComplete | src/helpdesk/core/knowledge_retriever.py:180-185 | Every chunk with a positive score is scored. |
| Knowledge.ScoredChunksNone | src/helpdesk/core/knowledge_retriever.py:180-185 | When no chunk scores, nothing is kept. |
| Knowledge.Insert | src/helpdesk/core/knowledge_retriever.py:188 | Insertion adds exactly the one entry to the list's multiset. |
| Knowledge.SortByScore | src/helpdesk/core/knowledge_retriever.py:188 | Sorting is a permutation. |
| Knowledge.InsertOrdered | src/helpdesk/core/knowledge_retriever.py:188 | Inserting an earlier entry into an ordered list keeps it ordered: higher scores first, ties in original order. |
| Knowledge.SortByScoreOrdered | src/helpdesk/core/knowledge_retriever.py:188 | Sorting a list in position order by descending score is stable, as Python's sort is. |
| Knowledge.Ranked | src/helpdesk/core/knowledge_retriever.py:180-188 | The ranking is ordered, is a permutation of the scored chunks, and each entry scores between 1 and the word count. |
| Knowledge.Top | src/helpdesk/core/knowledge_retriever.py:191 | The top entries are the first min(3, n) entries of the ranking. |
| Knowledge.KeywordSearchBounds | src/helpdesk/core/knowledge_retriever.py:175-200 | At most three results, each with relevance in (0, 1], best first; a query without words gives none. |
| Knowledge.KeywordSearchKeepsBest | src/helpdesk/core/knowledge_retriever.py:175-200 | A chunk that scores is returned, or three results came back that score at least as well as it does. |
| Knowledge.CountKindCounts | src/helpdesk/core/knowledge_retriever.py:207-210 | The count of a chunk type is the number of chunks of that type, its multiplicity among the chunks' types. |
| Knowledge.KindsPartition | src/helpdesk/core/knowledge_retriever.py:202-211 | The markdown and JSON counts add up to the total. |
| Knowledge.Stats | src/helpdesk/core/knowledge_retriever.py:202-211 | The total is the number of chunks. Each type count is the number of chunks of that type, and the two counts add up to the total. The sources listed are exactly the sources of the chunks. |
| Knowledge.LoadedChunksSources | src/helpdesk/core/knowledge_retriever.py:22-40 | Each loaded markdown chunk names one of the two markdown files and each JSON chunk one of the two JSON files. |
| Knowledge.KnowledgeRetriever.constructor | src/helpdesk/core/knowledge_retriever.py:17-20 | The chunk list is the four files' chunks in file order. |
| Knowledge.KnowledgeRetriever.LoadMarkdownFile | src/helpdesk/core/knowledge_retriever.py:42-69 | The file's chunks are appended and the earlier ones are untouched; an unreadable file appends nothing. |
| Knowledge.KnowledgeRetriever.LoadJsonFile | src/helpdesk/core/knowledge_retriever.py:71-119 | The extracted chunks are appended and the earlier ones are untouched; an unreadable file appends nothing. |
| Knowledge.KnowledgeRetriever.Retrieve | src/helpdesk/core/knowledge_retriever.py:121-173 | The method computes `Retrieval`, about which `RetrievalOutcome` holds. |
| Knowledge.KnowledgeRetriever.ScoreChunks | src/helpdesk/core/knowledge_retriever.py:180-185 | The scoring loop computes `ScoredChunks`, which the three `ScoredChunks` lemmas characterise. |
| Knowledge.KnowledgeRetriever.FallbackKeywordSearch | src/helpdesk/core/knowledge_retriever.py:175-200 | The method computes `KeywordSearch`, about which `KeywordSearchBounds` and `KeywordSearchKeepsBest` hold. |
| Knowledge.RelevanceResults | src/helpdesk/core/knowledge_retriever.py:190-198 | Entry j of the result loop is the j-th top chunk with its relevance share. |
| Response.RemoveMarkdown | src/helpdesk/core/response_generator.py:126-129 | After the markdown removals, no asterisk is left. |
| Response.CleanLinesWellSpaced | src/helpdesk/core/response_generator.py:132-140 | The kept lines are stripped, and no blank line comes first or right after another blank line. |
| Response.CleanLinesKeepsAbsent | src/helpdesk/core/response_generator.py:132-140 | The line loop introduces no character that was not in the lines. |
| Response.CollapseBlankLines | src/helpdesk/core/response_generator.py:146-147 | When the while loop ends, no three consecutive newlines are left. |
| Response.CollapseKeepsAbsent | src/helpdesk/core/response_generator.py:146-147 | Collapsing introduces no character other than newlines. |
| Response.CleanHasNoAsterisk | src/helpdesk/core/response_generator.py:117-152 | A cleaned reply never holds an asterisk. |
| Response.CleanIsStripped | src/helpdesk/core/response_generator.py:152 | A cleaned reply has no whitespace at either end. |
| Response.ReplacementAfterCollapseCanCreateBlankRun | src/helpdesk/core/response_generator.py:146-150 | After the while loop, the replacement at line 150 can still create three consecutive newlines. |
| Response.CleanResponseFormatting | src/helpdesk/core/response_generator.py:117-152 | The method computes `Clean`: the empty reply stays empty, and the result has no asterisk and is stripped. |
| Response.GeneratedText | src/helpdesk/core/response_generator.py:93-115 | A text exists exactly when the call succeeded, and it has no asterisk and is stripped. |
| Response.FallbackNamesCategory | src/helpdesk/core/response_generator.py:154-167 | The fallback text names the category, with spaces for underscores, and ends with the support-contact sentence. |
| Response.FallbackAnnouncesEscalation | src/helpdesk/core/response_generator.py:159-161 | An escalated fallback says it is escalated and at which priority. |
| Response.FallbackAdviceIff | src/helpdesk/core/response_generator.py:159-163 | The fallback offers troubleshooting steps if and only if the request is not escalated. |
| Response.BuildContext | src/helpdesk/core/response_generator.py:169-178 | The loop computes `Context`; no results give the "No specific knowledge" text. |
| Response.ContextMentionsResult | src/helpdesk/core/response_generator.py:174-178 | Every result appears in the context with its number from 1, its source and its content. |
| Response.GenerateResponse | src/helpdesk/core/response_generator.py:48-91 | A failed call gives the fallback text; otherwise the cleaned reply, which has no asterisk and is stripped. |
| HelpDesk.AssignedId | src/helpdesk/core/system.py:41-43 | A non-empty id is kept; a missing or empty one is replaced by the fresh one. |
| HelpDesk.ProcessingSteps | src/helpdesk/core/system.py:37-103 | The response echoes the id and the time. With categories, it carries the classification and the retrieval, escalation and text computed from it. Without categories, it is the error response for the `IndexError`. |
| HelpDesk.ProcessingOutcome | src/helpdesk/core/system.py:37-103 | Every response has at most three knowledge results and a confidence in [0, 1]. Its category is a configured one unless it is the error response. A confidence below 0.8, or an urgency above normal, comes with an escalation. |
| HelpDesk.HelpDeskSystem.constructor | src/helpdesk/core/system.py:14-35 | The classifier, retriever and engine hold the tables that loading their configuration specifies, and the system is ready to classify. |
| HelpDesk.HelpDeskSystem.ProcessRequest | src/helpdesk/core/system.py:37-103 | The request gets its assigned id and is otherwise unchanged; the response is `Processing` over the components' state. |

## Left out

- Model calls, HTTP clients, file reads, JSON parsing and `print` logging are not modelled. A call is represented by its reply (`None` when it raises), and a file by its parsed content (`None` when it cannot be read or parsed).
- The prompt texts are left out, because only the model sees them: the category descriptions, the system and user prompts, and the summaries sent with retrieval.
- Floats are modelled as reals, so NaN, infinities and rounding are outside the model. The parser behind `float(...)` and the `:.2f` formatter are parameters.
- Unicode case mapping, `str.strip`, `str.split` and `\d` are modelled as ASCII.
- `os.path.join` is modelled as joining with "/".
- The clock and `uuid.uuid4()` are parameters. Both processing-time branches use one pair of readings.
- `HelpDesk.HelpDeskSystem.ProcessRequest` assumes that the `except` branch of `process_request` runs once a step raises. Line 86 imports from `models`, which may fail depending on the module search path; the model does not capture that.
- The model never lets the retrieval, escalation or response steps raise. Each of them catches its own model-call errors. For a well-formed configuration, the only exception reaching `process_request` is the classifier's `IndexError` on an empty table.
- Configuration values of the wrong JSON type are not represented: the model's configurations hold only strings and lists of strings. In the source, an `escalation_triggers` that is `null` reaches `should_escalate` as `None` (escalation_logic.py line 28), and a trigger that is not a string has no `lower` (line 99). Every request of that category then raises: a `null` list raises `TypeError` at line 40, where the loop iterates over it, and a non-string trigger raises `AttributeError` at line 99. `process_request` catches the exception and returns its error response (system.py lines 82-103). Start-up does not fail in these cases. The classifier stores a `null` field as it is (classifier.py lines 43-47), whereas the model reads a field as either present with its type or missing.
- `get_system_status` holds no decision logic and relies on a retriever attribute that is not part of this model. The classifier's `get_categories` and `get_stats` were left out for the same reason.
- `Knowledge.KnowledgeRetriever.Retrieve` has no category argument, because `retrieve` never reads it.
- The section of a JSON or markdown chunk is kept on `Chunk`, but `RetrievalResult` carries no section. The pydantic model has no such field, so the value passed for it is dropped.
- The branch of `extract_text_chunks` for lists of strings, at lines 96-106, is unreachable: the branch before it at line 94 already takes every list. `Knowledge.ScalarItemsYieldNothing` states the resulting behaviour.
- `Knowledge.SortByScore` models `list.sort` on values, as an insertion sort. It is stable, as Python's sort is. The JSON extraction is modelled on values too, as recursion.
- Recursion limits and duplicate JSON keys are not modelled, since a parsed object is a list of members.
- Escalation.EscalationEngine.constructor: `None` stands for a missing file only. A malformed file, or one without a `categories` object, raises in the original and stops start-up; the model does not represent that failure.
- `Escalation.EscalationEngine.constructor` and `Classifier.RequestClassifier.constructor` take their configurations as two separate parameters. They can differ:
  - the classifier opens `data/categories.json` below the project root (classifier.py lines 18-21);
  - the engine opens `categories.json` relative to the working directory (escalation_logic.py line 18, config.py line 35).
  When the working directory holds no such file, the engine's rule table is empty while the classifier's table may be full.
- `Response.FallbackAnnouncesEscalation`: only one direction is proved. That the word "escalated" is absent without an escalation is not stated; `Response.FallbackAdviceIff` states the converse paragraph choice instead.
- `Response.GenerateResponse`: "no asterisk, stripped" is promised only for the reply path, because the fallback text is fixed.
- `Response.ReplacementAfterCollapseCanCreateBlankRun` shows the replacement at line 150 undoing the while loop on a text given to that stage. A whole reply showing the same is not exhibited.
- Classification takes the keyword fallback when any of its three model calls raises (classifier.py lines 139-142), not only the category call.
- A request whose every model call raises is not necessarily escalated. The fallback confidence is 0.8 at four keyword hits and 0.9 from five on, and neither is below the 0.8 threshold. A request such as "forgot password login reset", with no category trigger, urgent keyword or business-impact word, then comes back unescalated. No rule of its own escalates it.
- An empty category table makes classification raise an `IndexError` (classifier.py lines 100-102 and 170-174), and `process_request` then returns its error response.
