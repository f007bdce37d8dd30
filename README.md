# meeting_minutes_app — a Dafny model of its deterministic core

The repository is a set of LangGraph agents: a sanctions-screening company
researcher, two company-research agents (one that pauses for a human review
of its sources), a compliance officer, a railway-standards researcher, a
debate moderator, and several meeting-minutes writers with reflection and
human-critique loops. Each graph node returns a state delta computed from the
state and from a language model's or a web search's answer. This project
models what is left once those answers are inputs: the routers and graph
wiring, the tool nodes that store search results by URL, the search merges,
the fuzzy name matcher and the sanctions loop, the debate stage machine, the
railway report's budgeted excerpts, the reflection role swap, the minutes
writer's prompt selection and the Markdown renderers.

Layout, one module per file:

- `wrappers.dfy` (`Wrappers`): `Option` and `Result`.
- `text.dfy` (`Text`): the Python string operations the agents use
  (`lower`, `strip`, `split`, `join`, `replace`, `in`), stated on
  `seq<char>`.
- `messages.dfy` (`Messages`): chat messages and tool calls.
- `documents.dfy` (`Documents`): search results, and the `documents`
  dictionary as an insertion-ordered sequence of entries with unique URLs;
  the class `Store` holds it where a node updates it in place.
- `tool_nodes.dfy` (`ToolNodes`): the tool loop shared by the research and
  railway agents, as a reference function and a method that updates the store.
- `search.dfy` (`Search`): the ways the agents merge the answers of several
  web searches.
- `graph.dfy` (`Graph`): a compiled graph as an entry, fixed edges and
  conditional branches with or without a path map.
- `company_researcher.dfy`, `research_agent.dfy`, `research_interrupt.dfy`,
  `compliance.dfy`, `railway.dfy` with `railway_report.dfy`, `debate.dfy`:
  one agent each.
- `minutes_types.dfy`, `minutes_writer.dfy`, `minutes_app.dfy`: the
  minutes application under `minutes_agent/`.
- `minutes_nodes.dfy`, `minutes_loop.dfy`, `minutes_cloud.dfy`,
  `minutes_local.dfy`, `minutes_review.dfy`: the graphs under
  `meeting_minutes_agent/`.

Nodes that update the `documents` dictionary in place are methods on a
`Store`, proved against a reference function of the old entries and the
tool answers. Loops that build text or lists are methods proved against a
function of their inputs. Everything else is a function.

Behaviour of the source that the proofs make explicit:

- In `names_match`, for two names that both have at least two words, the
  Jaccard test can only hold when two words are shared, so it never decides
  the outcome (`CompanyResearcher.JaccardNeverDecides`).
- The debate graph's first three nodes are joined by fixed edges, so the
  stage they compute is never consulted. The agreement test looks for
  substrings, so a reply such as "No, no es posible" counts as agreement.
- The deployed and checkpointed minutes graphs approve on lower-case
  "aprobado"; the graph with the human-review interrupt approves on
  "Aprobado". The deployed graph's critique node adds an empty message, so
  its revision node is never reached.
- In the minutes application, a whitespace-only critique is not an approval.
  It sends the minutes back to the writer, which then picks the writing
  prompt but builds the correction request.
- The interrupt agent's router can never return "research", and its
  research counter never changes the route. The railway router's counter
  test gives the same answer in both branches.

## Model

| member | source | states |
|---|---|---|
| Text.LowerChar | company_researcher/main.py:61 | an upper-case ASCII or Latin-1 letter becomes its lower-case form, 32 code points higher; any other character is kept; the result is never upper case |
| Text.Lower | company_researcher/main.py:61 | `str.lower()` keeps the length, lowers each character, and leaves no upper-case letter |
| Text.ContainsItself | company_researcher/main.py:87 | every word occurs in itself, so `part in other_part` holds for equal words |
| Text.ContainsInfix | minutes_agent/utils/nodes.py:60-106 | text inside a piece of a concatenation is inside the concatenation |
| Text.OccursShift | debate_agent/debate_agent.py:115 | dropping the first character shifts every later occurrence by one |
| Text.LStrip | company_researcher/main.py:67 | the result is the suffix left after dropping the leading whitespace, and starts with a non-space character unless empty |
| Text.RStrip | company_researcher/main.py:67 | the result is the prefix left after dropping the trailing whitespace, and ends with a non-space character unless empty |
| Text.Strip | company_researcher/main.py:67 | `strip()` yields a piece of the text with no whitespace at either end, and is empty exactly when the text is all whitespace |
| Text.IndexOf | debate_agent/debate_agent.py:115 | the first occurrence of a pattern, or none exactly when the pattern does not occur |
| Text.Split | debate_agent/debate_agent.py:115-116 | `s.split(sep)` has at least one part |
| Text.SplitHead | debate_agent/debate_agent.py:115-116 | a split has a second part (so `[1]` does not raise) exactly when the separator occurs; its first part is the text before the first occurrence |
| Text.ContainsTrans | debate_agent/debate_agent.py:115-116 | an occurrence inside an occurrence is an occurrence |
| Text.SplitFirstHasNoSep | debate_agent/debate_agent.py:115-116 | the first part of a split never contains the separator |
| Text.JoinSplit | debate_agent/debate_agent.py:115-116 | joining the parts of `s.split(sep)` with `sep` gives back `s` |
| Text.Reassemble | debate_agent/debate_agent.py:115-116 | the text before an occurrence, the separator and the text after it make up the whole |
| Text.JoinCons | minutes_agent/utils/nodes.py:99 | joining a head and a non-empty list is the head, the separator and the join of the list |
| Text.JoinAppend | minutes_agent/utils/nodes.py:60-106 | joining two non-empty lists is joining each and putting the separator between them |
| Text.JoinHasPart | minutes_agent/utils/nodes.py:99 | every part occurs in the join |
| Text.SplitJoin | minutes_agent/utils/nodes.py:99 | splitting a join on a one-character separator that no part contains gives back the parts |
| Text.NoCharNoIndex | minutes_agent/utils/nodes.py:99 | a character that does not occur has no first occurrence |
| Text.FirstCharIndex | minutes_agent/utils/nodes.py:99 | the first occurrence of a character after a piece without it is right after that piece |
| Text.Replace | company_researcher/main.py:62-66 | `s.replace(pat, rep)` only holds characters of `s` or of `rep` |
| Text.ReplaceAbsent | company_researcher/main.py:62-66 | `s.replace(pat, rep)` is `s` when `pat` does not occur in it |
| Text.ReplaceFirst | company_researcher/main.py:62-66 | at the leftmost occurrence of `pat`, the text before it is kept, `pat` becomes `rep`, and replacing goes on after it |
| Text.ReplaceRemoves | company_researcher/main.py:62-65 | replacing a one-character pattern by text without it removes it |
| Text.WordLength | company_researcher/main.py:79-80 | the run of non-space characters at the start of the text ends at whitespace or at the end |
| Text.Words | company_researcher/main.py:79-80 | `split()` yields non-empty words without whitespace |
| Text.WordsEmptyIffBlank | company_researcher/main.py:79-80 | a text has no words exactly when it is blank |
| Messages.CountToolCallers | company_researcher/main.py:419 | the number of messages with tool calls is at most the history's length, and zero exactly when no message has tool calls |
| Messages.AnswersCallsLast | company_research_agent/company_researcher.py:98-105 | answering the calls before the last and then the last with its id answers all of them, in order |
| Graph.Resolve | company_research_agent/company_researcher.py:167-174 | a router without a path map leads to the node it names; with a map, only the keys of the map lead anywhere |
| Documents.Dicts | complience_officer/main.py:109-111 | the dict elements of a returned list are exactly its dict values |
| Documents.Lookup | company_research_agent/company_researcher.py:102 | `docs.get(url)` finds a document exactly when the URL is a key, and then the one stored under it |
| Documents.AddIfNewProperties | company_research_agent/company_researcher.py:102-103 | `if url not in docs: docs[url] = doc` keeps keys unique, only appends, never overwrites a stored document, and leaves the URL stored |
| Documents.Merged | company_research_agent/company_researcher.py:101-104 | the first-seen merge appends the documents with a new URL, in order, keeps keys unique, and afterwards every URL of the batch is stored |
| Documents.MergedKeepsStored | company_research_agent/company_researcher.py:102-103 | merging never overwrites: every URL stored before keeps its document |
| Documents.Store.Has | company_research_agent/company_researcher.py:102 | `url in docs` is true exactly when a lookup finds the URL |
| Documents.Store.Add | company_research_agent/company_researcher.py:102-103 | stores the document in place unless its URL is a key, reports whether it did, and keeps keys unique |
| Documents.Store.AddAll | company_research_agent/company_researcher.py:101-104 | the in-place loop over a result list leaves the dictionary and the stored documents of the reference `Merged` |
| ToolNodes.Absorbed | company_research_agent/company_researcher.py:101-104 | the inner loop keeps keys unique and only grows the dictionary; it raises `KeyError('url')` exactly when some document lacks a URL |
| ToolNodes.AbsorbedMerges | company_research_agent/company_researcher.py:101-104 | when every document has a URL, the inner loop is the first-seen merge and describes exactly the documents it stored, in order |
| ToolNodes.AbsorbedNothingNew | company_research_agent/company_researcher.py:101-104 | a result list whose URLs are all stored already changes nothing and adds no text |
| ToolNodes.AbsorbedRaisedStays | company_research_agent/company_researcher.py:101-103 | once `KeyError('url')` ended the inner loop, one more document changes nothing |
| ToolNodes.AbsorbedStops | company_research_agent/company_researcher.py:101-103 | after a `KeyError('url')` the remaining documents change nothing |
| ToolNodes.Absorb | company_research_agent/company_researcher.py:101-104 | the in-place inner loop leaves the dictionary, text and exception of the reference `Absorbed` |
| ToolNodes.Processed | company_research_agent/company_researcher.py:94-105 | the outer loop, in which an unknown tool, a search that raises and a document without a URL all end the node, keeps keys unique and only grows the dictionary; every message is the header followed by a prefix of the running `docs_str` |
| ToolNodes.ProcessedLast | company_research_agent/company_researcher.py:98-105 | the node gets through the last call exactly when it got through the earlier ones and the call is good, and then answers it with the header and the whole `docs_str` |
| ToolNodes.ProcessedAnswers | company_research_agent/company_researcher.py:98-105 | without an exception, one tool message per call, in call order, with that call's id |
| ToolNodes.ProcessedCumulative | company_research_agent/company_researcher.py:96-105 | `docs_str` is never reset, so each message's text starts with the text of every earlier message |
| ToolNodes.AllCallsOkLast | company_research_agent/company_researcher.py:98-101 | all calls are good (a known tool, a search that returned, documents with URLs) iff the earlier ones are and the last one is |
| ToolNodes.ProcessedRaises | company_research_agent/company_researcher.py:98-103 | the node raises exactly when some call names a tool other than `tavily_search`, some search invocation raises, or some search returned a document without a URL |
| ToolNodes.KeepsStored | company_research_agent/company_researcher.py:102-103 | a document stored before the node keeps its entry |
| ToolNodes.ProcessedRaisedStays | company_research_agent/company_researcher.py:98-99 | once an exception ended the node, one more call changes nothing |
| ToolNodes.ProcessedStops | company_research_agent/company_researcher.py:98-99 | after an exception the remaining calls change nothing |
| ToolNodes.RunCalls | company_research_agent/company_researcher.py:94-105 | the in-place loop over the calls leaves the dictionary and the messages of the reference `Processed`, or the exception that ends it |
| ResearchAgent.ToolNode | company_research_agent/company_researcher.py:94-110 | `tool_node` with the header "Found the following new documents: " and JSON descriptions leaves the dictionary and messages of `Processed`, and passes `research_count` through unchanged (0 when absent) |
| ResearchAgent.ShouldContinue | company_research_agent/company_researcher.py:124-138 | "tools" iff the last message has tool calls, "research" otherwise, whatever `research_count` is |
| ResearchAgent.WorkflowRoutes | company_research_agent/company_researcher.py:157-178 | without tool calls the run ends after research; with tool calls both the tools and the fixed edge to END are scheduled; tools lead back to research |
| ResearchAgent.WriteReport | company_research_agent/company_researcher.py:141-154 | the report is the answer, the one new message is an AI message "Generated Report:\n" followed by the answer, and `research_count` is passed through (0 when absent) |
| Search.CollectedAppend | agente_ferroviario/railway_agent.py:59-61 | merging the responses of two runs of sub-queries is merging each and concatenating, so the order of sub-queries is kept |
| Search.FailureContributesNothing | agente_ferroviario/railway_agent.py:42-63 | a failing sub-query neither aborts the search nor changes the results of the others |
| Search.CollectedMembers | agente_ferroviario/railway_agent.py:42-63 | a merged result comes from a successful sub-query, and every result of a successful sub-query is kept |
| Search.GatherTolerant | agente_ferroviario/railway_agent.py:56-63 | the gathered responses, each failure counted as `[]`, are concatenated in sub-query order; `tavily_search` in company_research_agent/company_researcher.py is the same merge |
| Search.SearchSequentially | company_researcher/main.py:277-302 | the sequential search keeps, in order, the results of every query whose call did not raise and whose response has `results` |
| Search.FirstError | complience_officer/main.py:83-92 | the index of the first failed search: every earlier one succeeded, and there is none exactly when all succeed |
| Search.SearchStrict | complience_officer/main.py:82-94 | with no error handling, the first failed search propagates; otherwise every result, in query order |
| CompanyResearcher.NormalizeName | company_researcher/main.py:59-67 | the normalised name has no upper-case letter and no `,` `.` `-` `_`, and neither starts nor ends with whitespace |
| CompanyResearcher.MatchWords | company_researcher/main.py:91-111 | for word sets of other than one word, a match is exactly two shared words or two overlapping words of at least four characters |
| CompanyResearcher.JaccardNeverDecides | company_researcher/main.py:92-101 | when neither set has exactly one word, a Jaccard ratio above one half already implies two shared words, so the ratio never decides the outcome |
| CompanyResearcher.SingleWordRule | company_researcher/main.py:83-89 | if either name has exactly one word, the names match iff some word of one is a substring of some word of the other |
| CompanyResearcher.MultiWordRule | company_researcher/main.py:91-111 | for names of other than one word, a match is two shared words, a Jaccard ratio above one half, or two long words one inside the other |
| CompanyResearcher.NamesMatchSymmetric | company_researcher/main.py:70-111 | `names_match(a, b) == names_match(b, a)` |
| CompanyResearcher.MatchWordsSymmetric | company_researcher/main.py:79-111 | the word-set test does not depend on argument order |
| CompanyResearcher.NamesMatchReflexive | company_researcher/main.py:70-111 | a name with at least one word matches itself |
| CompanyResearcher.NoWordsMatchNothing | company_researcher/main.py:75-111 | a name that normalises to no words matches nothing, in either position |
| CompanyResearcher.EmptyMatchesNothing | company_researcher/main.py:79-111 | an empty word set matches no word set |
| CompanyResearcher.Distinct | company_researcher/main.py:186 | `list(set(filter(None, names)))` holds exactly the non-empty names, each once |
| CompanyResearcher.FirstWhere | company_researcher/main.py:189-190 | the inner loop picks the first name the test accepts, and finds none exactly when no name passes |
| CompanyResearcher.CompanyTest | company_researcher/main.py:190 | the test applied to each list name is `names_match(name, company_name)` |
| CompanyResearcher.MatchOf | company_researcher/main.py:157-242 | an entity yields a match iff it has a names element and one of its distinct names passes; the match has score 1.0, its name is among `all_names`, and the details come from the entity |
| CompanyResearcher.MatchesLast | company_researcher/main.py:156-242 | one more entity appends its match, if any, at the end of the list |
| CompanyResearcher.MatchesSound | company_researcher/main.py:156-253 | at most one match per entity; every match has score 1.0 and a name that matches the company; no matching entity is missed |
| CompanyResearcher.MatchEntity | company_researcher/main.py:189-242 | the name loop with its `break` records exactly the match of the first matching name |
| CompanyResearcher.AnalyzeSanctions | company_researcher/main.py:149-253 | no entities is the error "No se encontraron entidades en el archivo XML"; otherwise the matches in entity order, `total_matches` their count and `total_entries_analyzed` the number of entities |
| CompanyResearcher.ShouldContinue | company_researcher/main.py:409-424 | "tools" iff the last message has tool calls and fewer than 3 messages in the history have tool calls; "output" otherwise |
| CompanyResearcher.ToolRoundsCapped | company_researcher/main.py:419-422 | once three tool-calling messages are in the history, any continuation of it routes to "output" |
| CompanyResearcher.CountGrows | company_researcher/main.py:419 | extending the history never lowers the count of tool-calling messages |
| CompanyResearcher.WorkflowRoutes | company_researcher/main.py:431-439 | the router's answer is a node of the graph; tools lead back to research and output leads to END |
| CompanyResearcher.Reply | company_researcher/main.py:342-351 | each call is answered by a tool message carrying that call's id, on success and on error |
| CompanyResearcher.ProcessedStep | company_researcher/main.py:320-351 | a known tool, after no exception, merges its result into the dictionary and appends its reply |
| CompanyResearcher.ProcessedUnknown | company_researcher/main.py:321 | an unknown tool name, after no exception, raises `KeyError` with the name and changes nothing else |
| CompanyResearcher.ProcessedLast | company_researcher/main.py:320-351 | the last call raises exactly when no earlier call raised and its tool name is unknown |
| CompanyResearcher.ProcessedRaisedStays | company_researcher/main.py:320-321 | after an exception, one more call changes nothing |
| CompanyResearcher.ProcessedAnswers | company_researcher/main.py:320-351 | unless a tool name is unknown, there is one tool message per call, in call order, with that call's id, including calls whose tool raised |
| CompanyResearcher.KnownToolsLast | company_researcher/main.py:320-321 | all calls name known tools iff the earlier ones do and the last one does |
| CompanyResearcher.ProcessedRaises | company_researcher/main.py:305-321 | the node raises exactly when some call names a tool outside `tools_by_name` |
| CompanyResearcher.ProcessedValid | company_researcher/main.py:327-333 | the dictionary never holds two documents under one URL |
| CompanyResearcher.ProcessedKeepsStored | company_researcher/main.py:332-333 | a document already stored under a URL keeps its entry: existing keys are never overwritten |
| CompanyResearcher.ProcessedGrows | company_researcher/main.py:327-333 | the dictionary only grows: the old entries are a prefix of the new ones |
| CompanyResearcher.StoreResult | company_researcher/main.py:327-333 | one call updates the dictionary in place as the reference `Stored` says and keeps its keys unique |
| CompanyResearcher.ToolNode | company_researcher/main.py:314-353 | the in-place loop leaves the dictionary and returns the messages of the reference `Processed`, or the `KeyError` that ends it |
| CompanyResearcher.ProcessedStops | company_researcher/main.py:320-321 | after an exception, the remaining calls change nothing |
| Compliance.ScannedMerges | complience_officer/main.py:109-115 | the dictionary after scanning a returned list is the first-seen merge of its dicts that carry a URL: a URL already stored is never overwritten, and non-dict values are never stored |
| Compliance.ScannedNoUrls | complience_officer/main.py:116-118 | a list without URL-carrying dicts stores nothing and adds the string of each element, in order |
| Compliance.Absorbed | complience_officer/main.py:119-121 | a result that is not a list is stored nowhere and adds its string to `docs_str` |
| Compliance.Step | complience_officer/main.py:106-107 | once an exception has been raised, a further call changes nothing |
| Compliance.StepEntries | complience_officer/main.py:108-121 | one call merges a returned list's URL-carrying dicts into the dictionary, first seen kept, and leaves it unchanged otherwise |
| Compliance.ProcessedUnique | complience_officer/main.py:113-114 | the dictionary never holds two documents under one URL |
| Compliance.ProcessedGrows | complience_officer/main.py:113-114 | the dictionary only grows: the old entries are a prefix of the new ones |
| Compliance.KeepsStored | complience_officer/main.py:113 | a document stored before the node keeps its entry |
| Compliance.StepMessages | complience_officer/main.py:104-123 | one call keeps every message a tool message holding the header and a prefix of the running `docs_str`, and later messages extend earlier ones |
| Compliance.ProcessedBounded | complience_officer/main.py:104-123 | every message is "Found the following new documents: " followed by a prefix of the running `docs_str` |
| Compliance.ProcessedAnswers | complience_officer/main.py:106-123 | without an exception, there is one tool message per call, in call order, with that call's id |
| Compliance.AllCallsOkLast | complience_officer/main.py:106-108 | all calls are good iff the earlier ones are and the last one is |
| Compliance.ProcessedRaises | complience_officer/main.py:97-108 | the node raises exactly when some call names a tool other than `tavily_search` or its search failed |
| Compliance.ProcessedCumulative | complience_officer/main.py:104-123 | `docs_str` is never reset, so each message's text starts with the text of every earlier message |
| Compliance.ProcessedStops | complience_officer/main.py:106-108 | after an exception the remaining calls change nothing |
| Compliance.ScanItems | complience_officer/main.py:109-118 | the in-place loop over a returned list leaves the dictionary and adds the text of the reference `Scanned` |
| Compliance.AbsorbInto | complience_officer/main.py:109-121 | one tool result, list or not, updates the dictionary in place and adds the text of the reference `Absorbed` |
| Compliance.AnswerCalls | complience_officer/main.py:102-125 | the loop of `tool_node`, for any header text, leaves the dictionary and returns the messages of the reference `Processed`, or the exception that ends it |
| Compliance.ToolNode | complience_officer/main.py:102-125 | `tool_node` with the header "Found the following new documents: " yields the dictionary and messages of the reference `Processed`, or its exception |
| Compliance.ShouldContinue | complience_officer/main.py:155-162 | "tools" iff the last message's tool calls are non-empty, "output" otherwise |
| Compliance.WorkflowRoutes | complience_officer/main.py:165-184 | research is the entry and hands over to the node the router names; tools lead back to research and output to END |
| Debate.NextStage | debate_agent/debate_agent.py:26-34 | topic_selection → perspective_assignment → opening_statements → debate, debate stays, any other stage is returned unchanged |
| Debate.NextStageSettles | debate_agent/debate_agent.py:26-34 | `get_next_stage` yields 'conclusion' only when given it; three steps from topic_selection reach 'debate', and from any stage three steps reach a fixed point |
| Debate.TopicSelectionNode | debate_agent/debate_agent.py:72-79 | advances to perspective_assignment iff the topic is non-empty, always names the moderator as speaker, and keeps the topic ('' when absent) |
| Debate.ExtractPerspectives | debate_agent/debate_agent.py:113-117 | a successful extraction has exactly the keys "a" and "b" |
| Debate.ExtractPerspectivesFound | debate_agent/debate_agent.py:114-121 | the perspectives are extracted exactly when both "[Perspective A]" and "[Perspective B]" occur in the reply |
| Debate.ExtractPerspectivesCut | debate_agent/debate_agent.py:115-116 | perspective A never contains "[Perspective B]" and perspective B never contains "Do you agree" |
| Debate.NoSepAfterStrip | debate_agent/debate_agent.py:115-116 | the stripped text before the first separator does not contain the separator |
| Debate.RefusalCanProceed | debate_agent/debate_agent.py:124-125 | the agreement test is on substrings: "No, no es posible" counts as agreement because "posible" contains "si" |
| Debate.PerspectiveAssignmentNode | debate_agent/debate_agent.py:112-134 | advances to opening_statements, with Debater A speaking, iff the lower-cased last message contains one of sí/si/yes/ok/procede/adelante; the perspectives are the extracted ones, else the previous ones, else "Not defined" for both |
| Debate.Flip | debate_agent/debate_agent.py:177 | Debater A hands over to Debater B, and anyone else to Debater A |
| Debate.OpeningStatementsNode | debate_agent/debate_agent.py:143-188 | flips the speaker (Debater A when absent), moves to 'debate' iff the new speaker is Debater A, and resets count to 0 and round to 1 |
| Debate.DebateTurn | debate_agent/debate_agent.py:233-240 | the speaker flips, and count and round each go up by one exactly when the new speaker is Debater A, so round minus count is preserved |
| Debate.DebateNode | debate_agent/debate_agent.py:197-243 | stays in 'debate', takes speaker, count and round from `DebateTurn` (speaker A and round 1 when absent), and keeps topic and perspectives |
| Debate.ConclusionNode | debate_agent/debate_agent.py:266-270 | sets stage 'conclusion' and the moderator as speaker and nothing else |
| Debate.ShouldContinueDebate | debate_agent/debate_agent.py:272-279 | "conclusion" iff `debate_count >= 3`, "debate" otherwise |
| Debate.DebateRunsCount | debate_agent/debate_agent.py:233-279 | from count c < 3 the debate node runs 2·(3−c) times when Debater A speaks next and one fewer for Debater B: six times from a fresh count |
| Debate.DebateRunsAtLeastOnce | debate_agent/debate_agent.py:272-279 | with the count already at 3 or more, the debate node still runs once, since the router is consulted only after it |
| Debate.WorkflowShape | debate_agent/debate_agent.py:282-302 | the first three nodes follow fixed edges whatever stage they set; debate is the only conditional node and goes where the router says; only conclusion reaches END |
| Railway.ProcessTools | agente_ferroviario/railway_agent.py:70-97 | the stored dictionary and the tool messages are those of the shared tool loop run with this agent's header and `Fuente/Título/Contenido` line; an unknown tool name, a search invocation that raises or a document without a URL ends the node with that exception; `research_count` is passed through, 0 when absent |
| Railway.ShouldContinue | agente_ferroviario/railway_agent.py:118-130 | the route is `tools` exactly when the last message carries tool calls, otherwise `report`, whatever the research counter says |
| Railway.WorkflowRoutes | agente_ferroviario/railway_agent.py:213-234 | from `analyze` the router leads to the tools iff the last message has tool calls and to the report otherwise; tools lead back to `analyze`; only the report node reaches the end |
| Railway.Hits | agente_ferroviario/railway_agent.py:146 | the number of keywords found never exceeds the number of keywords |
| Railway.Relevance | agente_ferroviario/railway_agent.py:134-154 | the excerpt length a document earns is one of 500, 1000 or 2000 |
| Railway.HitsMonotone | agente_ferroviario/railway_agent.py:146 | a text containing every keyword another text contains counts at least as many keywords |
| Railway.RelevanceMonotone | agente_ferroviario/railway_agent.py:134-154 | a document whose content or title holds every keyword another's does earns at least the same excerpt length |
| Railway.HitsAll | agente_ferroviario/railway_agent.py:146 | every keyword found gives the full count, none found gives zero |
| Railway.RelevanceFn | agente_ferroviario/railway_agent.py:166 | the scoring function handed to the excerpt loop agrees with `evaluate_relevance` on every document |
| Railway.ReportDocuments | agente_ferroviario/railway_agent.py:199 | the documents in the report prompt are sorted by score, non-increasing, and are a permutation of the excerpts built in insertion order |
| Railway.ReportPrompt | agente_ferroviario/railway_agent.py:156-199 | builds the excerpts, then sorts them, giving exactly the report's document list |
| RailwayReport.Sources | agente_ferroviario/railway_agent.py:161-166 | one source per stored document, in insertion order |
| RailwayReport.Cut | agente_ferroviario/railway_agent.py:176-178 | content no longer than the limit is kept whole; longer content is cut at the limit and gets `...`; the excerpt is at most three characters over the limit |
| RailwayReport.Item | agente_ferroviario/railway_agent.py:169-187 | one summary's excerpt is at most three characters over its capped limit |
| RailwayReport.ItemIsSummary | agente_ferroviario/railway_agent.py:169-187 | a summary keeps its document's URL, title and score, and its excerpt is the content cut at a positive limit no larger than the score |
| RailwayReport.SummarizeLength | agente_ferroviario/railway_agent.py:161-190 | at most one summary per stored document |
| RailwayReport.SummarizeAt | agente_ferroviario/railway_agent.py:161-190 | the summary at each position belongs to the document at the same position, in insertion order |
| RailwayReport.SummarizeOverrun | agente_ferroviario/railway_agent.py:159-190 | the excerpts exceed the 50000-character budget by at most the three characters of one `...` |
| RailwayReport.SummarizeLeavesOut | agente_ferroviario/railway_agent.py:169-190 | with positive scores a document is left out only once the budget is used up |
| RailwayReport.SummarizeStarts | agente_ferroviario/railway_agent.py:169-173 | with positive scores and budget left, the next document is summarized |
| RailwayReport.Trim | agente_ferroviario/railway_agent.py:176-178 | the excerpt is the content cut at the limit, with `...` if something was cut off |
| RailwayReport.BuildSummary | agente_ferroviario/railway_agent.py:157-190 | the loop builds exactly the reference list of summaries |
| RailwayReport.Scored | agente_ferroviario/railway_agent.py:199 | the summaries kept for one score all come from the list and carry that score |
| RailwayReport.ByRelevanceAt | agente_ferroviario/railway_agent.py:199 | the score at each position of the sorted list is 2000, then 1000, then 500 according to the group it falls in |
| RailwayReport.ByRelevanceSorted | agente_ferroviario/railway_agent.py:199 | the sorted list has non-increasing scores |
| RailwayReport.ByRelevancePermutation | agente_ferroviario/railway_agent.py:199 | with every score one of the three levels, the sorted list is a permutation of the summaries |
| ResearchInterrupt.ShouldContinue | company_research_interrupt/nodes/conditions.py:4-18 | the route is `tools` exactly when the last message has tool calls, `human_review` exactly when it has none and the review is awaited (the default), `generate_report` exactly when it has none and the review is not awaited; the final `research` return is unreachable |
| ResearchInterrupt.WorkflowRoutes | company_research_interrupt/company_research_interrupt.py:12-34 | research is the entry; the router's every answer is in the path map and leads to the node of that name; tools return to research, the review leads to the report, and only the report reaches the end |
| ResearchInterrupt.Call | company_research_interrupt/nodes/nodes.py:28-55 | one call keeps the stored dictionary's URLs unique, only adds to it, and always produces a non-empty tool message |
| ResearchInterrupt.CallNothingNew | company_research_interrupt/nodes/nodes.py:33-47 | a search whose documents are all stored already leaves the dictionary as it is and is answered with the no-results text |
| ResearchInterrupt.CallStores | company_research_interrupt/nodes/nodes.py:33-47 | a search that stores something adds exactly the new documents and is answered with their `Fuente/Título/Contenido` lines |
| ResearchInterrupt.Processed | company_research_interrupt/nodes/nodes.py:27-55 | the loop over the calls keeps URLs unique, only adds to the dictionary, and answers every call, in order, with a tool message carrying its id, whether or not the call raised |
| ResearchInterrupt.KeepsStored | company_research_interrupt/nodes/nodes.py:36-37 | a document stored before the node keeps its entry |
| ResearchInterrupt.RunCall | company_research_interrupt/nodes/nodes.py:28-55 | one call updates the shared dictionary and returns the message text exactly as the reference definition of one call says |
| ResearchInterrupt.ToolNode | company_research_interrupt/nodes/nodes.py:13-63 | a last message without tool calls gets an empty delta with both flags false and the dictionary untouched; otherwise the dictionary and messages are the loop's, the counter goes up by one (from 0 when absent) and the review is awaited |
| ResearchInterrupt.StripAll | company_research_interrupt/nodes/nodes.py:90 | every URL typed is stripped, and none is dropped |
| ResearchInterrupt.Selection | company_research_interrupt/nodes/nodes.py:90 | the typed selection always yields at least one URL, possibly empty |
| ResearchInterrupt.KeepSelected | company_research_interrupt/nodes/nodes.py:91-95 | the filtered dictionary holds exactly the stored entries whose URL was selected, and is no larger |
| ResearchInterrupt.KeepSelectedAppend | company_research_interrupt/nodes/nodes.py:91-95 | filtering a dictionary made of two runs of entries is filtering each run, with the kept entries of the earlier run first |
| ResearchInterrupt.KeepSelectedAround | company_research_interrupt/nodes/nodes.py:91-95 | a selected entry is kept between the kept entries before it and those after it |
| ResearchInterrupt.KeepSelectedInOrder | company_research_interrupt/nodes/nodes.py:91-95 | the filter keeps the dictionary's order: of two selected entries, the earlier one is kept at an earlier position |
| ResearchInterrupt.KeepSelectedUnique | company_research_interrupt/nodes/nodes.py:91-95 | the filtered dictionary still has one entry per URL |
| ResearchInterrupt.KeepAllSelected | company_research_interrupt/nodes/nodes.py:91-95 | selecting every stored URL keeps the dictionary unchanged, order included |
| ResearchInterrupt.HumanReview | company_research_interrupt/nodes/nodes.py:65-107 | the review ends exactly on `s` or `n` after stripping and lower-casing; then it goes to the report, stops awaiting review, marks research complete and adds the approved-sources message; `s` keeps every source, `n` keeps exactly the selected ones, and keeps them in the dictionary's order because its documents are the filter whose order `KeepSelectedInOrder` states |
| ResearchInterrupt.Bullet | company_research_interrupt/nodes/nodes.py:136 | one line of the source list is the URL with three characters around it |
| ResearchInterrupt.BulletsPrefix | company_research_interrupt/nodes/nodes.py:131-136 | the source list of the first entries is a prefix of the whole list |
| ResearchInterrupt.BulletAt | company_research_interrupt/nodes/nodes.py:131-136 | each entry's line appears in the source list right after the lines of the entries before it |
| ResearchInterrupt.BulletsGrow | company_research_interrupt/nodes/nodes.py:131-136 | a later entry's line starts strictly after an earlier one's |
| ResearchInterrupt.BulletsListUrls | company_research_interrupt/nodes/nodes.py:129-154 | the source list at the end of the prompt names every kept URL on its own line, in dictionary order |
| ResearchInterrupt.ReportTexts | company_research_interrupt/nodes/nodes.py:129-136 | the loop builds exactly the sources text and the `Fuentes consultadas` list |
| ResearchInterrupt.WriteReport | company_research_interrupt/nodes/nodes.py:156-164 | the report and the single AI message are the model's answer; research is complete and no review is awaited |
| MinutesNodes.Translated | meeting_minutes_agent/nodes/nodes.py:46-49 | the comprehension succeeds exactly when every message is an AI or a human message; then it keeps the length and the contents and turns AI messages into human ones and human ones into AI ones |
| MinutesNodes.SwapRoles | meeting_minutes_agent/nodes/nodes.py:46-49 | an empty history raises `IndexError`; otherwise the swap succeeds exactly when every message after the first is an AI or a human message, and then keeps the first message, keeps the length and contents, and exchanges the roles of the rest |
| MinutesNodes.TranslatedRejects | meeting_minutes_agent/nodes/nodes.py:46-49 | the `KeyError` names the type of the first message that is neither an AI nor a human message |
| MinutesNodes.SwapRolesTwice | meeting_minutes_agent/nodes/nodes.py:46-49 | swapping twice gives the history back when no later AI message carries tool calls |
| MinutesNodes.ReflectionNode | meeting_minutes_agent/nodes/nodes.py:31-52 | the node succeeds exactly when the swap does and then adds exactly one human message holding the critic's answer to the swapped history; otherwise it raises the swap's error |
| MinutesNodes.GenerateReflection | meeting_minutes_agent/utils/reflectionAgent.py:28-44 | never raises: the result is a human message holding the critic's answer to the swapped history, or the fixed error prefix followed by the swap's or the model's error |
| MinutesNodes.GenerateReflectionAgrees | meeting_minutes_agent/utils/reflectionAgent.py:28-44 | when the model answers, the standalone reflection gives the node's message, and an empty history becomes the `IndexError` message instead of an exception |
| MinutesCloud.ShouldContinueReflection | meeting_minutes_agent/minutes_agent_cloud.py:115-119 | the route is `human_critique` exactly when the history has more than two messages, `reflect` otherwise |
| MinutesCloud.ShouldContinueRevision | meeting_minutes_agent/minutes_agent_cloud.py:121-125 | the run ends exactly when the last message is `aprobado` after stripping or is blank, and goes to `revision` otherwise |
| MinutesCloud.StripNotInto | meeting_minutes_agent/minutes_agent_cloud.py:123 | stripping never turns a string into a different string at least as long |
| MinutesCloud.ApprovalIsCaseSensitive | meeting_minutes_agent/minutes_agent_cloud.py:121-125 | `Aprobado` with a capital A asks for a revision |
| MinutesCloud.HumanCritique | meeting_minutes_agent/minutes_agent_cloud.py:94-95 | the critique node adds exactly one blank human message |
| MinutesCloud.CritiqueEndsRun | meeting_minutes_agent/minutes_agent_cloud.py:94-125 | after the critique node the revision router always ends the run, so the revision node is never reached |
| MinutesCloud.WorkflowShape | meeting_minutes_agent/minutes_agent_cloud.py:127-137 | drafting is the entry; only drafting and the critique branch; reflection returns to drafting; revision has no outgoing edge |
| MinutesCloud.RunReflectsOnce | meeting_minutes_agent/minutes_agent_cloud.py:115-135 | from one seed message the first draft is followed by a reflection, which always succeeds on that history, and the second draft makes four messages |
| MinutesCloud.RunEndsAfterCritique | meeting_minutes_agent/minutes_agent_cloud.py:115-136 | after the second draft the human critique follows and the run then ends |
| MinutesLocal.RunJudgesDraft | meeting_minutes_agent/minutes_agent_local_memory.py:14-34 | with a critique node that adds nothing, the revision router judges the second draft itself: the run ends exactly when that draft is `aprobado` or blank |
| MinutesLoop.ShouldContinue | meeting_minutes_agent/minutes_agent.py:119-123 | the run ends exactly when the history has more than two messages, and reflects otherwise |
| MinutesLoop.WorkflowShape | meeting_minutes_agent/minutes_agent.py:106-126 | drafting is the entry and the only branch; reflection returns to drafting |
| MinutesLoop.Run | meeting_minutes_agent/minutes_agent.py:106-126 | from one seed message drafting runs exactly twice with one reflection between, then the run ends |
| MinutesReview.ShouldContinue | meeting_minutes_agent/minutes_agent_reflect_interrupt.py:120-130 | reflection exactly while the history has at most two messages; after that the run ends exactly when the last message is `Aprobado` after stripping or is blank, and goes to the human critique otherwise |
| MinutesReview.JudgesNewDraft | meeting_minutes_agent/minutes_agent_reflect_interrupt.py:120-132 | after the first round the router judges the draft just added: the run ends exactly when that draft approves, and goes to the critique otherwise |
| MinutesReview.LowerCaseIsNotApproval | meeting_minutes_agent/minutes_agent_reflect_interrupt.py:120-130 | lower-case `aprobado` is sent back to the critique |
| MinutesReview.WorkflowShape | meeting_minutes_agent/minutes_agent_reflect_interrupt.py:108-136 | drafting is the entry and the only conditional node; reflection and the critique both lead back to it |
| MinutesWriter.RunMode | minutes_agent/utils/agentWriter.py:105-109 | the reviser runs exactly when the critique is present and not blank, the writer otherwise |
| MinutesWriter.ModeName | minutes_agent/utils/agentWriter.py:29-35 | the writer passes the prompt type `write` and the reviser another one |
| MinutesWriter.GetSystemMessage | minutes_agent/utils/agentWriter.py:45-55 | the format instructions are embedded; the writer's expertise and the `Información no proporcionada` instruction appear exactly for the type `write`; any other type gets the reviser's expertise and purpose and no such instruction |
| MinutesWriter.PromptAsksForNoInfo | minutes_agent/utils/agentWriter.py:45-109 | the prompt `run` picks asks for `Información no proporcionada` exactly when there is no critique or it is blank |
| MinutesWriter.CreateContent | minutes_agent/utils/agentWriter.py:72-103 | the correction request, carrying the critique, the minutes and the transcript, is built exactly when the critique is non-empty, minutes are present and the transcript is present; otherwise the initial request carries the transcript and the word count; a missing transcript raises `KeyError('transcript')` and, for the initial request, a missing word count `KeyError('wordCount')` |
| MinutesWriter.BlankCritiqueMixesPrompts | minutes_agent/utils/agentWriter.py:72-109 | a whitespace-only critique with minutes present gets the writer's prompt but the correction request |
| MinutesWriter.GenerateMinutes | minutes_agent/utils/agentWriter.py:57-70 | a `KeyError` from building the request passes through unchanged; otherwise the model's minutes are returned, or its failure becomes `No se pudieron generar las actas: ` followed by the failure |
| MinutesWriter.Run | minutes_agent/utils/agentWriter.py:105-109 | minutes are returned only when the request could be built and the model answered it with those minutes under the prompt the dispatch picked |
| MinutesApp.BulletList | minutes_agent/utils/nodes.py:98-99 | the bullet list is empty exactly when there are no items |
| MinutesApp.BulletListLines | minutes_agent/utils/nodes.py:98-99 | items without line breaks come back line by line, one `- ` line per item, in order |
| MinutesApp.TableIsJoin | minutes_agent/utils/nodes.py:91-106 | both tables are the lines of a blank line, the header, the rule and the rows, joined by line breaks, followed by the closing spaces |
| MinutesApp.TableLines | minutes_agent/utils/nodes.py:91-106 | a table whose header, rule and rows have no line break splits back into a blank line, the header, the rule, the rows (one empty line when there are none) and the closing spaces |
| MinutesApp.AttendeeTableLines | minutes_agent/utils/nodes.py:91-96 | after the header and the rule comes one row per attendee, in order, with name, position and role in that order |
| MinutesApp.TaskTableLines | minutes_agent/utils/nodes.py:101-106 | after the header and the rule comes one row per task, in order, with responsible, description and date in that order |
| MinutesApp.MarkdownSections | minutes_agent/utils/nodes.py:60-89 | the document opens with the title as a first-level heading, and contains every section heading followed by that field's text, lists rendered and other values as they are |
| MinutesApp.CreateMinutes | minutes_agent/utils/nodes.py:16-27 | a missing or empty transcript raises `El transcript no puede ser null`; otherwise the node succeeds exactly when the writer does, and then the writer's minutes replace the old ones and nothing else changes |
| MinutesApp.CreateCritique | minutes_agent/utils/nodes.py:29-38 | the critic's text becomes the critique and nothing else changes |
| MinutesApp.HumanApproved | minutes_agent/utils/nodes.py:48-55 | the minutes are marked approved and nothing else changes |
| MinutesApp.OutputMeeting | minutes_agent/utils/nodes.py:57-58 | without minutes the node raises `KeyError('minutes')`; otherwise it adds the Markdown of the minutes and changes nothing else |
| MinutesApp.ShouldContinue | minutes_agent/agent_minutes.py:7-11 | the route is `human_approved` exactly when the critique is missing or exactly empty, `create_minutes` otherwise |
| MinutesApp.WorkflowShape | minutes_agent/agent_minutes.py:14-31 | a fixed path from reading the transcript to the human critique, the router after the critique, approval leading to the output, and only the output reaching the end |
| MinutesApp.BlankCritiqueRewrites | minutes_agent/agent_minutes.py:7-11 | a whitespace-only critique is not an approval: the minutes go back to the writer, which then uses the writing prompt |
| MinutesApp.CritiqueRevises | minutes_agent/agent_minutes.py:7-11 | a critique with content sends the minutes back, and the next round revises them with that critique, the current minutes and the transcript |
| MinutesApp.ApprovedRun | minutes_agent/agent_minutes.py:14-31 | with a transcript and an empty critique of the first draft the run goes straight through and ends approved, holding the Markdown of that draft |

## Left out

- Language-model calls (`invoke`, `ainvoke`, `with_structured_output`, the `tenacity` retry) are foreign calls. Their answers are parameters: a string, a message, tool calls, or a `Result` where the call may fail.
- Tavily web search is network I/O, so each search's answer is a parameter. `asyncio.gather` runs the sub-queries concurrently, which is modelled as the list of their answers in sub-query order.
- The sanctions list is read from an XML file on disk. Each entity is modelled by its names and detail lists; parsing, file access and the file-not-found path are not modelled.
- `date.today()`, `json.dumps` and `str()` of a result are formatting of values the model does not inspect. They appear as opaque strings: the date is a parameter, and a document's JSON text is a field of `Doc`.
- The LangGraph runtime is library behaviour. The `add_messages` reducer is modelled as an append, and nodes return deltas. `Command`, `MemorySaver` checkpointing and interrupts are left out, and a graph's next step is a set of node names (`Graph.Next`).
- The routers of the railway and research agents write `state['research_count']` in place before returning. They are modelled by their return value only, since whether that write persists is up to the runtime.
- Text.Lower: lower-cases ASCII and Latin-1 letters only, because full Unicode case mapping is a table outside the model. Every keyword and approval word in the source falls within that range, but the company names `CompanyResearcher.NormalizeName` lower-cases do not: names in other scripts (Cyrillic, Greek) that Python would match case-insensitively, such as "ГАЗПРОМ" and "Газпром", do not match in the model.
- CompanyResearcher.Distinct: models `list(set(...))`, whose order Python leaves unspecified, as first occurrence. It keeps each non-empty name once.
- CompanyResearcher.NamesMatch: restates the float ratio `common / union > 0.5` as the integer test `2 * common > union`. It has the same truth value for finite sets.
- Debate.DebateRuns: counts debate-node runs with a `fuel` bound, so it returns `None` when the fuel runs out. The lemmas give fuel enough for the loop to end.
- Graph invariants whose absence raises `KeyError` in the debate nodes are preconditions: a topic, perspectives, or a debate count that an earlier node always sets. The same holds for the non-empty message list every router reads.
- Compliance.ShouldContinue: treats a last message that is not an AI message as one without tool calls. The source would raise `AttributeError` there; the graph only routes after the model's AI message.
- MinutesTypes.Minutes: the writer's parsed answer is taken to hold every key of `MinutesContent`, each with a value of its declared type. `JsonOutputParser` returns the model's JSON without checking it against that `TypedDict`, so a reply that misses a key would make `generate_markdown` raise `KeyError` inside `output_meeting` (minutes_agent/utils/nodes.py:57-62); `MinutesApp.OutputMeeting` fails only on a missing `minutes` key. Such a reply is not modelled.
- MinutesWriter.CreateContent: tests the minutes for presence, where `create_content` tests them for truthiness. An empty minutes dictionary, which is falsy in Python, is not modelled, because `MinutesTypes.Minutes` always holds every field, as the line above assumes.
- The critic of `minutes_agent/utils/agentCritique.py` and the writer of `meeting_minutes_agent/utils/writerAgent.py` are model wrappers. The critique text is a parameter of `MinutesApp.CreateCritique`.
- The command-line and HTTP drivers, the cotizador agent and the file-reading tools do only I/O or declare constants, so they have no logic to model.
- Documents.Doc: search results are taken to follow the Tavily result schema, in which `url`, `title`, `content` and `snippet` are strings whenever present and `score` is a number. A key present with the value `None`, and a non-numeric `score`, are not modelled; the source handles them differently, as the next three lines say.
- ToolNodes.Absorbed: a document whose `url` is present but `None` is read as one without a URL and raises `KeyError('url')`, where the research agent's `tool_node` would store it under the key `None`. On the railway report, a `None` title or content would raise in `evaluate_relevance` or when cutting the excerpt, which `Railway.Relevance` and `RailwayReport.Cut` do not model.
- Compliance.ScannedMerges: a dict whose `url` is present but `None` is read as URL-less, so its `str` is added to the text, where the compliance officer's `tool_node` would store it under the key `None` and add its JSON.
- CompanyResearcher.ProcessedStep: web results carry no `score` in the model, so a result whose `score` is not a number is merged like any other. The source would store that one result, raise `TypeError` when formatting the score, skip the rest of the list and reply "Error: …".
- Printing and debug logging are left out.
