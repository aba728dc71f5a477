# AgentDesk core in Dafny

This project models the deterministic core of AgentDesk, a multi-agent
assistant for document work and investment research, and proves properties
of the model. Every language-model call, HTTP request, file read, `json.loads`,
`libmagic` lookup, clock reading and random id is a parameter of the model (an
oracle function or an input value), so what is modelled and proved is the
text, list and state handling around those calls.

One Dafny module stands for each source file of the core:

- `AgentCore` (`agent_core.dfy`): an agent, the message list it sends, and the context block folded into it (`agents/multi_agents.py`).
- `AgentRegistry`, `AgentRouter`, `Conversation` and `MultiAgentSystem`: the registry as an insertion-ordered dictionary, the `@`-mention and keyword router, the conversation log, and `chat` with coordinator plan detection and plan execution (`agents/multi_agents.py`).
- `AkshareHelper`: stock-symbol normalisation, per-tool defaults and argument validation (`tools/akshare_helper.py`).
- `DocumentTools`: operation prompts, Markdown table and summary-card rendering, output validation and the section splitter (`tools/document_tools.py`).
- `ComplianceGraph`, `DocumentGraph` and `DailyTechGraph`: the three workflow graphs, each as the sequence or loop of node updates it drives over one state object (`archive/graph/compliance_graph.py`, `archive/graph/document_graph.py`, `graph/daily_tech_graph.py`).
- `PromptManager`: the prompt library over its JSON file and the prompt optimiser's JSON extraction (`agents/prompt_manager.py`).
- `AlphaFund`: the research team's model-call wrapper, context formatting, fence stripping, fallbacks and the fixed order of the workflow (`agents/alphafund_agent.py`).
- `RateLimiting`: the sliding-window rate limiter (`utils/rate_limiter.py`).
- `McpService`: the HTTP-or-stdio transport choice and the hosted endpoint URL (`services/mcp_service.py`).
- `FileTools`: file-type detection, reader dispatch and the JSON list preview (`tools/file_tools.py`).
- `Doubles`: the binary64 rounding behind the `i > len(lines) * 0.7` test of the section splitter (`tools/document_tools.py`).
- Shared helpers: `Wrappers` (`Option`, `Result`), `Strings` (the Python `str` operations used), `JsonValues` (parsed JSON values, `dict.get`, `str()`, iteration and the greedy `\{.*\}` search) and `Paths` (`os.path.splitext`, `basename`, `join`).

Where objects of the source change their fields (the registry, the
conversation manager, the system, the workflow states, the prompt store, the
rate limiter, the AlphaFund agent), the model is a class whose methods are
proved against specification functions; the rest is functions and lemmas.

## Behaviour of the code worth knowing

- Plan detection in `chat` (agents/multi_agents.py:807-832) first runs the greedy first-`{`-to-last-`}` search on the reply with its newlines removed. When that search matches and the reply contains a code fence, the code asks the match for a group it does not have. The exception is swallowed and no plan runs. The fenced-block search runs only after the greedy search fails, and then it cannot match (`JsonValues.BraceSpanSurvivesRemoval`). So a plan in a code fence is never executed (`MultiAgentSystem.PlanDetection`).
- Mentions (agents/multi_agents.py:622-627) are matched against a fixed alternation of eleven names, not against the registry.
- A failing plan step (agents/multi_agents.py:820-832) does not fail the request. The exception is caught, and the answer is the coordinator's own reply, marked as a success (`MultiAgentSystem.Coordinated`).
- In the router's keyword rules (agents/multi_agents.py:693-708), "图表" appears in the data expert's rule before the visualisation rule. So that keyword never selects the visualisation expert (`AgentRouter.VisualisationShadowed`).
- In the document workflow (archive/graph/document_graph.py:223-229, 312), nothing ever sets `review_approved`, so every result sent to review is routed to the error handler. The router function's write of the error message is discarded, because LangGraph keeps only what nodes return. The error handler then finds no error and writes no report, and the run ends with no error, no metadata and no report (`DocumentGraph.ProcessDocument`).

## Model

| member | source | states |
|---|---|---|
| AgentCore.ContextParts | agents/multi_agents.py:120-131 | one part per truthy key among document, previous_results and user_feedback, in that order: the document header with the first 1000 characters of the document and "...", then the previous-results header with the previous results, then the feedback header with the feedback; no part exactly when none of the three is truthy |
| AgentCore.FormatContext | agents/multi_agents.py:120-133 | the context text is absent exactly when no part was collected, and is otherwise the parts joined by blank lines |
| AgentCore.FormatContextCarriesParts | agents/multi_agents.py:120-133 | every collected part occurs in the context text |
| AgentCore.FormatContextReadsDocumentPrefix | agents/multi_agents.py:123-124 | only the first 1000 characters of the document matter: truncating it beforehand gives the same context text |
| AgentCore.FullMessages | agents/multi_agents.py:104-114 | the message list starts with the system prompt and ends with the caller's messages unchanged; a context message is inserted at position 1 only when the context text exists |
| Conversation.RecentWindow | agents/multi_agents.py:738-740 | Python's `h[-limit:]`: a suffix of the history whose length is the limit (capped at the history's length) for a positive limit, the whole history for 0, and all but the first `-limit` records for a negative limit |
| Conversation.FormattedAppend | agents/multi_agents.py:756-768 | formatting distributes over concatenation, so each record is formatted on its own |
| Conversation.FormattedCount | agents/multi_agents.py:762-766 | the number of chat messages equals the number of user and assistant records; every other role is dropped |
| Conversation.ConversationManager.constructor | agents/multi_agents.py:724-726 | a new manager has an empty history and an empty context |
| Conversation.ConversationManager.AddMessage | agents/multi_agents.py:728-736 | exactly one record with the given role, content and agent name is appended; the context is unchanged |
| Conversation.ConversationManager.GetRecentMessages | agents/multi_agents.py:738-740 | the answer is the recent window of the history for the given limit |
| Conversation.ConversationManager.SetContext | agents/multi_agents.py:742-744 | the key is bound to the value and every other binding and the history are unchanged |
| Conversation.ConversationManager.GetContext | agents/multi_agents.py:746-750 | a non-empty key gives that key's value or None; a missing or empty key gives the whole context |
| Conversation.ConversationManager.ClearHistory | agents/multi_agents.py:752-754 | the history becomes empty and the context is kept |
| Conversation.ConversationManager.FormatHistoryForLlm | agents/multi_agents.py:756-768 | the answer is the recent window turned into chat messages, with user records as human messages, assistant records as AI messages and other roles dropped |
| AgentRegistry.Put | agents/multi_agents.py:579-581 | one dictionary write: the key then finds the agent, every other key finds what it found before, a new key goes to the end of the insertion order, and well-formedness is kept |
| AgentRegistry.AgentKeys | agents/multi_agents.py:576-586 | an agent is written under its name, its role and "@" + its name |
| AgentRegistry.RegisteredWritesKeys | agents/multi_agents.py:576-586 | `register` is the same as writing the agent under each of its keys in turn; the visualisation expert's drawing-agent aliases come last |
| AgentRegistry.GetFrom | agents/multi_agents.py:588-590 | the entry stored under the name when there is one; otherwise the entry stored under "@" + name; nothing exactly when both keys are absent |
| AgentRegistry.RegisterStores | agents/multi_agents.py:576-590 | after `register(agent)` the agent is found by its name, its role and "@" + its name, and the visualisation expert also by 绘画智能体 and @绘画智能体; every other key is unchanged |
| AgentRegistry.DedupByName | agents/multi_agents.py:592-600 | the listing keeps only agents of the input, never repeats a name, and covers exactly the names not seen before |
| AgentRegistry.FirstNamed | agents/multi_agents.py:592-600 | the position of the first agent carrying a name, every agent before it carrying another name, or the length when none carries it |
| AgentRegistry.DedupFirstOccurrences | agents/multi_agents.py:592-600 | the listing keeps, for each name not seen before, the first agent of the input carrying it, and lists them in the order of those first occurrences |
| AgentRegistry.RegisterAllFresh | agents/multi_agents.py:558-574 | registering agents whose keys are all distinct appends every key in order, each bound to the agent that wrote it |
| AgentRegistry.RegisterAllFinds | agents/multi_agents.py:573-586 | after registering agents whose keys are all distinct, every key finds the agent that wrote it |
| AgentRegistry.ListingOfRegistered | agents/multi_agents.py:558-600 | registering agents with distinct keys and distinct names, then listing, gives back exactly those agents in registration order |
| AgentRegistry.DefaultKeysListed | agents/multi_agents.py:558-586 | the ten default agents write no key twice and have distinct names |
| AgentRegistry.DefaultRegistry | agents/multi_agents.py:554-600 | a fresh registry lists the ten default agents once each, in registration order, and finds each one by its name |
| AgentRegistry.DefaultFinds | agents/multi_agents.py:560-590 | the default registry finds the i-th default agent by its name |
| AgentRegistry.DefaultDrawingAlias | agents/multi_agents.py:584-590 | in the default registry, 绘画智能体 finds the visualisation expert |
| AgentRegistry.Registry.constructor | agents/multi_agents.py:554-574 | a new registry holds exactly the ten default agents, registered in order |
| AgentRegistry.Registry.RegisterAgents | agents/multi_agents.py:572-574 | the dictionary becomes the old one with each agent of the list registered in turn, in order |
| AgentRegistry.Registry.Register | agents/multi_agents.py:576-586 | the dictionary becomes the old one with the agent's keys written and stays well-formed |
| AgentRegistry.Registry.Get | agents/multi_agents.py:588-590 | the answer is the name-then-"@"-name lookup of the current dictionary |
| AgentRegistry.Registry.ListAgents | agents/multi_agents.py:592-600 | the answer is the dictionary's values deduplicated by name in insertion order |
| AgentRouter.MatchAtFacts | agents/multi_agents.py:625 | the name matched at a position is the first of the alternatives, in the pattern's order, whose "@"-prefixed form occurs there; no match means no alternative occurs there |
| AgentRouter.ParseFromFinds | agents/multi_agents.py:622-627 | every name reported is mentioned in the text; nothing is reported exactly when no mention starts at or after the scan position; no mention starts between that position and the first reported name's occurrence |
| AgentRouter.NextMention | agents/multi_agents.py:625-626 | the first position at or after the scan position where some alternative is mentioned, with none before it, or the end of the text |
| AgentRouter.ParseFromScan | agents/multi_agents.py:625-626 | the scan reports nothing when no mention is left; otherwise it reports the name matched at the next mention and continues right after that mention, so the list holds every non-overlapping mention left to right |
| AgentRouter.ParseAppend | agents/multi_agents.py:625-626 | the mentions of two texts joined where no mention is cut are those of the first followed by those of the second, so a name mentioned twice is listed twice |
| AgentRouter.ParseMentions | agents/multi_agents.py:622-627 | the mentions are listed names that occur in the text, the list is empty exactly when no listed name is mentioned anywhere, and its first entry is the leftmost mention; the full list is given by `ParseFromScan` and `ParseAppend` |
| AgentRouter.NoAtNoMentions | agents/multi_agents.py:622-627 | a text without "@" mentions nobody |
| AgentRouter.FirstRule | agents/multi_agents.py:693-712 | the selected keyword group is the first one with a keyword in the text; no earlier group has one |
| AgentRouter.AutoRoute | agents/multi_agents.py:656-719 | automatic routing succeeds exactly when the chosen name is registered; it then reports that agent, the unchanged message, no mentions, the routing type and a reason naming the agent; an unregistered name raises on `agent.name` |
| AgentRouter.Route | agents/multi_agents.py:629-654 | with a mention, whatever the scenario, the first mention's agent is reported together with the message with that mention cut out once and stripped, the type "explicit" and all mentions; without a mention the automatic routing decides |
| AgentRouter.ExplicitCutsFirstMention | agents/multi_agents.py:633-648 | the text route cuts out of a message with a mention is the mention's first occurrence, and no mention of a listed name starts before it; the rest of the message is kept and stripped |
| AgentRouter.ScenarioChoices | agents/multi_agents.py:662-690 | the compliance scenario picks the content creator when a writing keyword occurs and otherwise the compliance officer; the investment scenario picks the data expert when a data keyword occurs and otherwise the document analyst |
| AgentRouter.VisualisationShadowed | agents/multi_agents.py:697-708 | the visualisation rule is reached only when "图表" and "生成图" do not occur, so those two keywords can never select the visualisation expert |
| AgentRouter.DefaultMentionsResolve | agents/multi_agents.py:558-625 | every mentionable name finds an agent in the default registry, and each of the ten team names finds the agent of that name |
| AgentRouter.ChosenTargetIsTeamName | agents/multi_agents.py:656-712 | every name the automatic routing can look up is a default team name |
| AgentRouter.DefaultRoutingSucceeds | agents/multi_agents.py:629-719 | with the default registry, routing never raises and always yields an agent; without a mention that agent has the chosen name |
| AgentRouter.DefaultAutoRoute | agents/multi_agents.py:656-719 | without a mention, the default registry routes to the chosen agent with the message unchanged and a reason naming that agent |
| AgentRouter.SummaryRequestRoutes | agents/multi_agents.py:693-694 | "帮我总结这份文档" goes to the document analyst by keyword |
| AgentRouter.PieChartRequestRoutes | agents/multi_agents.py:693-708 | a request to draw a pie chart ("画一个饼图…") goes to the visualisation expert, because no earlier keyword group matches |
| MultiAgentSystem.AsPlan | agents/multi_agents.py:819 | a parsed value is taken as a plan exactly when it is an object whose "type" is "plan" |
| MultiAgentSystem.PlanDetection | agents/multi_agents.py:807-832 | a plan is found exactly when the text handed to the parser parses to a plan object; the greedy search on the newline-free reply comes first, and a reply holding a code fence never yields a plan, because the group lookup raises and is swallowed |
| MultiAgentSystem.StepAgent | agents/multi_agents.py:868-871 | a string agent field is looked up by name, and the lookup raises exactly for a list or object field |
| MultiAgentSystem.Outputs | agents/multi_agents.py:878 | one output block per earlier result |
| MultiAgentSystem.OutputsAt | agents/multi_agents.py:878 | the k-th output block is "--- ", the k-th result's agent field, " 的输出 ---", a newline and the k-th reply |
| MultiAgentSystem.Results | agents/multi_agents.py:884-887 | one result per executed step |
| MultiAgentSystem.StepContext | agents/multi_agents.py:876-879 | a step's context holds the earlier outputs joined by blank lines, and the document exactly when one was given |
| MultiAgentSystem.StepSeesEarlierOutputs | agents/multi_agents.py:876-882 | a plan step's agent receives, second in its message list, a context message that carries the previous-results header with all earlier outputs, and so every earlier step's output block |
| MultiAgentSystem.StepOutcome | agents/multi_agents.py:867-887 | a step is skipped exactly when its agent is not found; a step that runs is numbered by its position, used the agent its field names and a string instruction, and got the model's reply to that instruction under the context of the earlier outputs (a list-valued instruction: see "Left out") |
| MultiAgentSystem.RunWithPrefix | agents/multi_agents.py:866 | the loop over one more step is the loop so far advanced by that step |
| MultiAgentSystem.RunStopsAtError | agents/multi_agents.py:881 | once a step has raised, later steps change nothing |
| MultiAgentSystem.StepperNumbers | agents/multi_agents.py:866-887 | the step function numbers each step by its position, and whether it skips a step does not depend on the steps before |
| MultiAgentSystem.RunWithIndices | agents/multi_agents.py:866 | executed steps carry positions inside the plan, strictly increasing |
| MultiAgentSystem.IndicesSnoc | agents/multi_agents.py:866 | the positions of one more executed step are the earlier positions plus its own |
| MultiAgentSystem.RunWithReplay | agents/multi_agents.py:866-893 | each executed step is what the step function gives for its step, its position and exactly the steps executed before it |
| MultiAgentSystem.RunWithSkips | agents/multi_agents.py:866-872 | when nothing raised, every step that did not run is one the step function skips |
| MultiAgentSystem.RunStepsReplay | agents/multi_agents.py:866-893 | the plan's steps run in order, each executed step doing what its step says with the outputs of exactly the earlier executed steps as context |
| MultiAgentSystem.RunStepsSkips | agents/multi_agents.py:866-872 | when no step raised, every step that did not run had an agent that was not found |
| MultiAgentSystem.Logs | agents/multi_agents.py:889 | one log entry per executed step |
| MultiAgentSystem.Records | agents/multi_agents.py:892 | one assistant record per executed step |
| MultiAgentSystem.RunWithStep | agents/multi_agents.py:866-893 | one pass of the loop: a raise ends the run with that error, a skip adds nothing, and a run step is appended |
| MultiAgentSystem.ExecutedSnoc | agents/multi_agents.py:884-892 | each executed step adds its output, its log entry and its history record at the end |
| MultiAgentSystem.PlanSpec | agents/multi_agents.py:860-911 | a `steps` value that cannot be iterated raises before any step runs; otherwise the plan succeeds exactly when no step raised, having executed the steps the loop ran |
| MultiAgentSystem.PlanSpecOfRun | agents/multi_agents.py:895-911 | a plan that ran without raising answers with the report of its explanation and the logs of exactly its executed steps, and otherwise raises the step's error |
| MultiAgentSystem.Coordinated | agents/multi_agents.py:820-832 | running a detected plan keeps the history so far and the context, and always succeeds: with the plan report, or with the coordinator's own answer when a step raised |
| MultiAgentSystem.RawThenCleanMessage | agents/multi_agents.py:781-797 | the raw message is logged before the agent is called, so the agent sees it as the last history entry and then, cleaned, as the new message |
| MultiAgentSystem.RepliedHistory | agents/multi_agents.py:800-858 | a raising model gives an error answer naming the agent and adds no record; a reply is logged right after the history under the agent's name, and a plain answer carries exactly that reply |
| MultiAgentSystem.RoutedHistory | agents/multi_agents.py:788-858 | once routed, the history so far is kept, an error answer adds nothing, and a plain answer is logged right after it |
| MultiAgentSystem.LoggedHistory | agents/multi_agents.py:788-858 | after logging, a routing failure or error answer adds nothing, and a plain answer is logged right after the history |
| MultiAgentSystem.ChatHistory | agents/multi_agents.py:778-858 | `chat` logs the raw message first; a routing failure, a missing agent or a raising model add nothing else; a plain answer is logged right after the message under the answering agent's name |
| MultiAgentSystem.PlanReportOnlyFromCoordinator | agents/multi_agents.py:806-826 | a plan report comes only from the coordinator, only for a detected plan object, and only when every step ran without raising; it reports exactly the steps that ran |
| MultiAgentSystem.DefaultChatNeverRaises | agents/multi_agents.py:778-858 | with the default registry `chat` never raises, and every error answer names the agent |
| MultiAgentSystem.System.constructor | agents/multi_agents.py:773-776 | a fresh default registry and an empty conversation |
| MultiAgentSystem.System.TakeStep | agents/multi_agents.py:867-881 | one pass of the step loop gives what the step function specifies |
| MultiAgentSystem.System.ExecutePlan | agents/multi_agents.py:860-911 | `_execute_plan` returns or raises what `PlanSpec` gives and appends one assistant record per executed step, leaving the context alone |
| MultiAgentSystem.System.RecordStep | agents/multi_agents.py:884-892 | a run step's output, log entry and history record are appended |
| MultiAgentSystem.System.PlanStep | agents/multi_agents.py:868-892 | one pass of the step loop: an exception ends the run with that error and records nothing; a skipped step extends the run by nothing; a step that ran extends the run, the results, the log and the history by exactly that step |
| MultiAgentSystem.System.RunPlanSteps | agents/multi_agents.py:866-892 | the step loop runs exactly the steps `RunSteps` runs, stopping at the same error, with their logs and history records |
| MultiAgentSystem.System.Chat | agents/multi_agents.py:778-858 | `chat` answers, and leaves the history and context, exactly as `ChatSpec` gives |
| MultiAgentSystem.System.Dispatch | agents/multi_agents.py:793-858 | the part after routing answers and logs as specified |
| MultiAgentSystem.System.Respond | agents/multi_agents.py:803-848 | the part after the agent has answered logs the reply and runs a coordinator's plan as specified |
| MultiAgentSystem.System.ClearConversation | agents/multi_agents.py:921-924 | both the history and the context are emptied |
| MultiAgentSystem.System.ReloadAgents | agents/multi_agents.py:926-933 | a fresh default registry replaces the old one, and the conversation is kept |
| AkshareHelper.MarketOr | tools/akshare_helper.py:20-51 | `market or "A"` is always truthy: the caller's market when it is truthy, "A" otherwise |
| AkshareHelper.SecondPart | tools/akshare_helper.py:27-29 | the exchange part of a dotted symbol contains no dot |
| AkshareHelper.NormalizeSymbol | tools/akshare_helper.py:9-51 | the normalised symbol has no dot and is a prefix of the stripped input; the market is truthy and is either "A" or the caller's market; a falsy symbol gives an empty symbol with `market or "A"` |
| AkshareHelper.NormalizeDotted | tools/akshare_helper.py:26-37 | a dotted symbol keeps what precedes its first dot; the market is "A" exactly for the SZ, SZSE, SH and SSE suffixes in any case, whatever market was passed, and `market or "A"` otherwise |
| AkshareHelper.NormalizeUndotted | tools/akshare_helper.py:39-51 | an undotted symbol is kept stripped; codes starting with 0, 3, 6, 8 or 4 are A-shares whatever market was passed, and other codes take `market or "A"` |
| AkshareHelper.NormalizeStable | tools/akshare_helper.py:9-51 | normalising an undotted or falsy symbol a second time returns the same pair |
| AkshareHelper.Default | tools/akshare_helper.py:82-90 | setting a default adds the key, changes no existing binding, and binds the default value only where the key was absent |
| AkshareHelper.FormatToolArgs | tools/akshare_helper.py:54-104 | formatting raises exactly when a search call's market is present but is not a string, because it has no `lower()` |
| AkshareHelper.FormatToolArgsKeys | tools/akshare_helper.py:73-102 | a stock tool's symbol and market become the normalised pair; stock_prices gets period "1d" and limit 10 and stock_news gets limit 5, each only where absent; the search market becomes "sh" when it is missing or is "a" in any case |
| AkshareHelper.FormatToolArgsKeeps | tools/akshare_helper.py:65-104 | formatting removes no key, adds only symbol, market, period and limit, and leaves every other argument as the caller passed it; symbol and market also stay as passed unless the tool is a stock tool given a symbol, and the market unless the tool is `search` |
| AkshareHelper.ValidateToolArgs | tools/akshare_helper.py:107-131 | arguments are valid exactly when no error message is given, and exactly when stock_info and stock_prices have a truthy symbol and a market, stock_news has a truthy symbol, and search has a truthy keyword |
| AkshareHelper.FormattedArgsValidate | tools/akshare_helper.py:54-131 | after formatting, a stock tool's arguments validate whenever the symbol normalises to a non-empty code, because the market is always filled in; for search, formatting never changes the verdict |
| DocumentTools.TemplateFor | tools/document_tools.py:30-131 | an operation outside the six known ones gets the generic template, which names the operation and heads the instruction "用户指示" |
| DocumentTools.PromptShape | tools/document_tools.py:27-133 | every prompt opens with its template and the first 8000 characters of the document, ends with the instruction and a newline, and is blind to the document beyond 8000 characters |
| DocumentTools.Fit | tools/document_tools.py:315-316 | a row is cut or padded with empty cells to exactly `n` cells, keeping its first cells in place |
| DocumentTools.Dashes | tools/document_tools.py:310 | the separator has one `---` per header |
| DocumentTools.RowLines | tools/document_tools.py:313-317 | one line per data row, in order, each the row fitted to the header count and joined with the column separator |
| DocumentTools.MarkdownTableLines | tools/document_tools.py:303-319 | empty headers or rows give ""; otherwise, when no cell holds a line break, the table reads back line by line as the header, the separator and each fitted row |
| DocumentTools.GenerateMarkdownTable | tools/document_tools.py:292-319 | the table-building loop computes exactly the table described above |
| DocumentTools.CardLines | tools/document_tools.py:334-339 | the card has five lines more than the dictionary has entries |
| DocumentTools.SummaryCardLines | tools/document_tools.py:322-340 | the card ends with a line break and, when no field holds one, reads back as "### emoji title", a blank line, the two table-head lines, one table line per entry with its key and value in order, and an empty last line |
| DocumentTools.ValidateOutput | tools/document_tools.py:343-375 | an output passes exactly when its length is within the bounds, it carries neither the low-confidence marker nor an uncertainty phrase, and it is not repetitive (over 100 words, under 30% distinct); a pass says "通过验证"; the first failing check, in the order too short, too long, low-confidence marker, uncertainty phrase, repetition, gives the reason, the two length reasons reporting the length |
| DocumentTools.ValidateOutputMonotone | tools/document_tools.py:357-361 | widening the length bounds never turns an accepted output into a rejected one |
| DocumentTools.Render | tools/document_tools.py:244-262 | one section per part, in order, each with its title and its lines joined by line breaks |
| DocumentTools.MergeAt | tools/document_tools.py:255-257 | the first line, from a given one on, after which ten sections are closed and the index is past `len(lines) * 0.7` (in binary64), or the line count when there is none |
| DocumentTools.RunFlat | tools/document_tools.py:231-252 | the loop state after `k` lines holds exactly the first `k` stripped lines in order: the first section's lines, then each later title (its heading line) followed by its lines; with no section closed the title is "引言" |
| DocumentTools.FlatExtend | tools/document_tools.py:256 | the lines merged at the end are added after every line read |
| DocumentTools.CloseFlat | tools/document_tools.py:259-263 | closing keeps every line of the state except a dropped last section, whose heading and lines are dropped only when the section is empty or short and not the only one |
| DocumentTools.SectionsKeepLines | tools/document_tools.py:228-265 | the sections hold the text's lines in order and nothing else: the stripped lines up to the merge line, then the remaining lines unstripped, each heading that closed a section appearing as the next title and in no content; only the heading and lines of a short or empty last section go missing |
| DocumentTools.RunShape | tools/document_tools.py:231-252 | in every loop state the closed sections start with "引言", their later titles are headings and their texts reach `min_length`; the open title is "引言" or a heading; after a line the state is non-empty |
| DocumentTools.RunNoHeading | tools/document_tools.py:231-252 | until the first heading the state is the open "引言" section of every line read |
| DocumentTools.FinalShape | tools/document_tools.py:231-257 | the state the loop ends in has the shape of every loop state and holds a line |
| DocumentTools.CloseShape | tools/document_tools.py:259-263 | closing a state of that shape gives at least one section, the first "引言", later titles headings, each text reaching `min_length` unless it is the only section |
| DocumentTools.SectionsNoHeading | tools/document_tools.py:228-265 | a text with no heading line is one "引言" section of all its stripped lines, since no section closes and the merge never happens |
| DocumentTools.SectionsShape | tools/document_tools.py:228-265 | the sections of every text have that shape, and a heading-free text gives the single "引言" section |
| Doubles.Pow2Add | tools/document_tools.py:255 | `2^(a+b) == 2^a * 2^b` |
| Doubles.BitLength | tools/document_tools.py:255 | the number of binary digits of `x`: `x < 2^b`, and `2^(b-1) <= x` for positive `x` |
| Doubles.BitLengthIs | tools/document_tools.py:255 | a number between `2^(b-1)` and `2^b` has exactly `b` binary digits |
| Doubles.RoundAtNearest | tools/document_tools.py:255 | rounding to a multiple of `2^s` lands within half a step of the exact value, and a tie goes to the even multiple, as binary64 round-to-nearest-even does |
| Doubles.NinetyLines | tools/document_tools.py:255 | with 90 lines `90 * 0.7` is 62.99999999999999, so line 63 is already past seven tenths although `10 * 63 == 7 * 90` |
| Doubles.HundredLines | tools/document_tools.py:255 | with 100 lines the product is exactly 70.0: line 70 is not past it and line 71 is |
| DocumentTools.TakeLine | tools/document_tools.py:237-252 | one stripped line moves the loop state one step: a heading closes the open section exactly when that section is non-empty and its text reaches `min_length`, and then becomes the next title with no lines; any other line joins the open section |
| DocumentTools.SplitLines | tools/document_tools.py:228-265 | the splitting loop, for any heading test, computes the closed final state: the lines read step by step up to the first line after which ten sections exist and the index is past `len(lines) * 0.7`, the rest of the lines unstripped added to the open section, and the open section kept when it has lines and is long enough or alone; the result has the promised shape, and a text without headings is one "引言" section |
| DocumentTools.SplitIntoSections | tools/document_tools.py:205-265 | `split_into_sections` is `SplitLines` over the text's lines and those lines stripped, with the five heading patterns: the same final sections and shape, and a heading-free text gives one "引言" section holding all its stripped lines |
| ComplianceGraph.OptText | archive/graph/compliance_graph.py:28-50 | a present text prints as itself inside the prompt |
| ComplianceGraph.DraftPromptShape | archive/graph/compliance_graph.py:28-31 | the first prompt names the topic and does not depend on any feedback; every later prompt carries the feedback text and ends with the topic |
| ComplianceGraph.ComplianceState.constructor | archive/graph/compliance_graph.py:108-116 | the initial state has the topic, no content, review result or feedback, status drafting and count 0 |
| ComplianceGraph.ComplianceState.DraftContent | archive/graph/compliance_graph.py:22-40 | the content creator's answer becomes the content, the status becomes reviewing and the count rises by exactly one; a model error propagates and changes nothing |
| ComplianceGraph.ComplianceState.ComplianceReview | archive/graph/compliance_graph.py:42-68 | the officer's answer is always stored as the review result; it approves exactly when it contains "✅ 通过", and otherwise it becomes the feedback and the status returns to drafting |
| ComplianceGraph.ComplianceState.ShouldContinue | archive/graph/compliance_graph.py:70-79 | the loop ends exactly when the state is approved or at least three drafts have been written |
| ComplianceGraph.ComplianceState.Round | archive/graph/compliance_graph.py:89-90 | one draft-then-review pass keeps the topic and, without error, adds exactly one to the count and leaves a reviewed state |
| ComplianceGraph.ComplianceState.Run | archive/graph/compliance_graph.py:82-104 | the graph loop keeps the topic and each pass adds one to the count; without error it ends reviewed, either approved or at the third draft or later |
| ComplianceGraph.RunComplianceFlow | archive/graph/compliance_graph.py:106-120 | from the initial state the flow writes one to three drafts and ends approved, or unapproved and drafting after exactly three drafts |
| DocumentGraph.ProcessPromptOfContent | archive/graph/document_graph.py:47-84 | the agent sees the operation's prompt over the first 2000 characters of the file and nothing after them, because the 4000 and 8000 cuts further down never shorten the extracted text |
| DocumentGraph.OutputFilenameShape | archive/graph/document_graph.py:155 | the output name keeps the original name up to its extension and ends with "_operation_result.txt", so `name.ext` becomes `name_operation_result.txt` |
| DocumentGraph.ErrorReportNames | archive/graph/document_graph.py:191-203 | the failure report names the error and the file first, and ends with the operation and the advice |
| DocumentGraph.DocumentState.constructor | archive/graph/document_graph.py:302-315 | the initial state has the four inputs, no outputs, no error and `needs_review` false |
| DocumentGraph.DocumentState.ReadFile | archive/graph/document_graph.py:36-57 | the detected type is recorded; a successful read stores the content and its first 2000 characters, and a failed read stores the error message; nothing else changes |
| DocumentGraph.DocumentState.ValidateFile | archive/graph/document_graph.py:60-68 | missing or empty content becomes the "empty file" error unless an error is already recorded; nothing else changes |
| DocumentGraph.DocumentState.ProcessWithAgent | archive/graph/document_graph.py:71-129 | with an earlier error nothing changes; otherwise the agent's answer to the operation prompt becomes the result and sets `needs_review` when the answer is over 3000 characters, the operation is "generate" or the low-confidence marker occurs; a failing agent or a missing extracted text is recorded as the error |
| DocumentGraph.DocumentState.HumanReview | archive/graph/document_graph.py:132-145 | the node raises exactly when there is no error and no result to preview |
| DocumentGraph.DocumentState.ShouldReview | archive/graph/document_graph.py:214-220 | an error goes to the error handler; otherwise a result needing review goes to human review, and anything else is saved |
| DocumentGraph.DocumentState.ContinueAfterReview | archive/graph/document_graph.py:223-229 | the router never sends a result back to review; it goes to saving exactly when the review was approved, and to the error handler otherwise, without recording an error, because a router's write to the state is discarded |
| DocumentGraph.DocumentState.SaveResult | archive/graph/document_graph.py:148-185 | with an earlier error nothing changes; otherwise the metadata names the original file, operation, type, output file, result length and review flag; a missing result or a failed metadata write is recorded as the error |
| DocumentGraph.DocumentState.ErrorHandler | archive/graph/document_graph.py:188-210 | with an error, the failure report is saved as `uploads/root_error.txt`; without one nothing is written |
| DocumentGraph.DocumentState.Prepare | archive/graph/document_graph.py:244-246 | after read, validate and process, a failed read or empty content decides the error, a run without error has a result, and only a processed result can need review; after a non-empty read the result is the agent's reply to the prompt over the first 2000 characters and `needs_review` is decided from that reply, and a failing agent records "AI处理失败: " plus its error |
| DocumentGraph.DocumentState.Conclude | archive/graph/document_graph.py:214-273 | after processing, a result needing review ends with no error, no metadata and no failure report; otherwise the metadata, naming the file, operation, type, output name and result length, is stored exactly when no error remains, and every error except a failed metadata write produces its failure report |
| DocumentGraph.ProcessDocument | archive/graph/document_graph.py:280-336 | the original name defaults to the path's basename; after a non-empty read the final result is the agent's reply and `needs_review` is decided from it, while a failing agent leaves no result and the error "AI处理失败: " plus its error; since nothing sets `review_approved`, a result needing review ends with no error, no metadata and no report; any other run ends without error exactly when the metadata is stored, and every error except a failed metadata write produces the failure report |
| DailyTechGraph.SpaceEnd | graph/daily_tech_graph.py:35 | the greedy `\s*` run: every character in it is whitespace and the next one is not |
| DailyTechGraph.DateAt | graph/daily_tech_graph.py:35 | a match starting at a position is the `LATEST_DATE:` tag there followed by a date of the shape YYYY-MM-DD |
| DailyTechGraph.FirstDateFrom | graph/daily_tech_graph.py:35 | the search finds the leftmost match at or after the start, and no match lies before it |
| DailyTechGraph.LatestDate | graph/daily_tech_graph.py:35-37 | a found date has the shape YYYY-MM-DD |
| DailyTechGraph.LatestDateLeftmost | graph/daily_tech_graph.py:35-39 | a date is found exactly when some tag is followed by a date, and it is the date of the leftmost such tag |
| DailyTechGraph.LatestDateOfTaggedLine | graph/daily_tech_graph.py:31-37 | an answer that starts with the tag, optional whitespace and a date yields that date, whatever follows |
| DailyTechGraph.ReportDate | graph/daily_tech_graph.py:35-39 | the report date is the date found in the feed when there is one, and today otherwise |
| DailyTechGraph.Answer | graph/daily_tech_graph.py:33-106 | an agent's answer exists exactly when its model did not raise, and is then the model's text |
| DailyTechGraph.WritePromptCarries | graph/daily_tech_graph.py:85-94 | the writing prompt opens with the keyword line, carries the date right after it, and ends with the summary and charts section |
| DailyTechGraph.WriteBodyCarries | graph/daily_tech_graph.py:88-94 | after the instructions come the summary, then a blank line and the charts, which end the prompt |
| DailyTechGraph.DailyTechState.constructor | graph/daily_tech_graph.py:134-144 | the initial state has the three inputs and every output unset |
| DailyTechGraph.DailyTechState.Collect | graph/daily_tech_graph.py:23-40 | the data expert's answer becomes the raw feed and the report date is the date it announces, or today; a model error changes nothing; no other output changes |
| DailyTechGraph.DailyTechState.Cluster | graph/daily_tech_graph.py:43-52 | the analyst's answer to the clustering prompt over the raw feed becomes the clusters; nothing else changes |
| DailyTechGraph.DailyTechState.Summarize | graph/daily_tech_graph.py:55-64 | the analyst's answer to the summary prompt over the clusters becomes the summary; nothing else changes |
| DailyTechGraph.DailyTechState.Visualize | graph/daily_tech_graph.py:67-76 | the visualisation expert's answer to the chart prompt over the clusters becomes the charts; nothing else changes |
| DailyTechGraph.DailyTechState.DateLine | graph/daily_tech_graph.py:84 | the report date when it is set and non-empty, and today otherwise |
| DailyTechGraph.DailyTechState.Write | graph/daily_tech_graph.py:79-97 | the content creator's answer to the writing prompt (keywords, date, summary, charts) becomes the report; nothing else changes |
| DailyTechGraph.DailyTechState.Translate | graph/daily_tech_graph.py:100-108 | without `need_en` nothing changes; otherwise the translator's answer to the translation prompt over the report becomes the English version |
| DailyTechGraph.DailyTechState.Analyze | graph/daily_tech_graph.py:43-76 | the clusters come from the raw feed, and both the summary and the charts come from the clusters, not from each other |
| DailyTechGraph.DailyTechState.Run | graph/daily_tech_graph.py:111-126 | without a model error, each output is the named agent's answer to the prompt built from the outputs before it, the report is written for the announced date or today, and an English version is made only on request |
| DailyTechGraph.RunDailyTechFlow | graph/daily_tech_graph.py:129-147 | a run without model errors ends with a report, an English version exactly when one was asked for, and a report date that is either a YYYY-MM-DD date from the feed or today |
| PromptManager.Without | agents/prompt_manager.py:164 | the filter never lengthens the list and leaves no record with the id |
| PromptManager.WithoutCounts | agents/prompt_manager.py:164 | every record whose id differs is kept as often as it occurs, and no record with the id survives |
| PromptManager.WithoutShrinks | agents/prompt_manager.py:163-168 | the filter shortens the list exactly when some record has the id, and is the identity otherwise |
| PromptManager.WithoutIdempotent | agents/prompt_manager.py:161-168 | deleting the same id twice deletes nothing more |
| PromptManager.FirstWithId | agents/prompt_manager.py:172-173 | the update loop stops at the first record with the id, and finds none exactly when no record has it |
| PromptManager.EditKeepsPosition | agents/prompt_manager.py:170-179 | an edited record stays where a later update with the same id finds it, so updating twice edits the same record |
| PromptManager.PromptStore.constructor | agents/prompt_manager.py:125-132 | a missing file is created holding an empty list; an existing file is taken as it is |
| PromptManager.PromptStore.ListPrompts | agents/prompt_manager.py:134-146 | the saved prompts, or the empty list when the file cannot be read or parsed |
| PromptManager.PromptStore.SavePrompt | agents/prompt_manager.py:148-159 | exactly one record with the given fields is appended after the earlier ones and written back, and it is the record returned; with a fresh id it is the one later updates find |
| PromptManager.PromptStore.DeletePrompt | agents/prompt_manager.py:161-168 | every record with the id is removed; the answer is true exactly when some record had it, and only then is the file written |
| PromptManager.PromptStore.UpdatePrompt | agents/prompt_manager.py:170-179 | the first record with the id gets the new title, content and tags and is returned, every other record unchanged; without such a record the answer is None and nothing is written |
| PromptManager.LenientSearchNeverNeeded | agents/prompt_manager.py:215-219 | the lenient second brace search never finds a span the first one missed, so the span parsed is always the one cut from the newline-free answer |
| PromptManager.OptimizePrompt | agents/prompt_manager.py:184-240 | without the prompt engineer agent the answer is the error object; otherwise the agent is asked once, its failure propagates, and the answer is the object parsed from the brace span or the fallback object carrying the raw answer |
| AlphaFund.WebSources | agents/alphafund_agent.py:71-79 | every chunk whose `web` entry has a truthy uri and a truthy title contributes its title and uri as a source, and every source comes from such a chunk |
| AlphaFund.WebSourcesAppend | agents/alphafund_agent.py:71-79 | collecting sources over two runs of chunks is collecting over each, in order |
| AlphaFund.WebSourcesAround | agents/alphafund_agent.py:71-79 | each chunk contributes at its own place exactly one source when cited and none otherwise, so the sources are the cited chunks' sources in chunk order |
| AlphaFund.UrlIndex | agents/alphafund_agent.py:82 | the position of a url in the url-keyed dictionary, or -1 exactly when the url is absent |
| AlphaFund.FirstAt | agents/alphafund_agent.py:82 | the first position at which a url occurs in the source list |
| AlphaFund.DedupUrls | agents/alphafund_agent.py:82 | deduplication leaves no two sources with the same url, and loses or invents no url |
| AlphaFund.DedupLastWins | agents/alphafund_agent.py:82 | each kept source is the last one seen with its url, because a later duplicate overwrites the dictionary entry |
| AlphaFund.DedupFirstOrder | agents/alphafund_agent.py:82 | the kept sources are in the order in which their urls first appear, because the dictionary keeps first-insertion order |
| AlphaFund.CallGeminiWithSearch | agents/alphafund_agent.py:22-87 | without a key the "not configured" text and no sources; on a network error, a non-200 status (with status and first 200 characters of the body) or a decoding error, the matching warning text; otherwise the first candidate's part texts concatenated and its cited sources deduplicated; the sources never repeat a url |
| AlphaFund.ItemTexts | agents/alphafund_agent.py:116-124 | the list's texts are one per item, each item's own text, and exist exactly when every item gives a text |
| AlphaFund.ExtractText | agents/alphafund_agent.py:111-128 | a string is its own text; a list succeeds exactly when every item gives a text, and its text is the items' texts joined by newlines |
| AlphaFund.ExtractTextOfStrings | agents/alphafund_agent.py:115-124 | a list of plain strings gives those strings joined by newlines |
| AlphaFund.FormatContext | agents/alphafund_agent.py:106-109 | an empty history formats to the empty text |
| AlphaFund.MessageLinesOf | agents/alphafund_agent.py:130-134 | a team message contributes its header with name and role, its content, and the 60-dash rule |
| AlphaFund.FormatContextOfMessages | agents/alphafund_agent.py:106-135 | the team's own messages always format without raising, to the header, content and rule lines of each message in order, joined by newlines |
| AlphaFund.ContextGrows | agents/alphafund_agent.py:130-135 | appending a message to a non-empty history extends the context text by a newline and that message's three lines |
| AlphaFund.DropPrefix | agents/alphafund_agent.py:359-362 | the text without the prefix when it starts with it, and the text unchanged otherwise |
| AlphaFund.DropSuffix | agents/alphafund_agent.py:363-364 | the text without the suffix when it ends with it, and the text unchanged otherwise |
| AlphaFund.StripFences | agents/alphafund_agent.py:358-365 | the unfenced answer has no surrounding whitespace |
| AlphaFund.StripFencedJson | agents/alphafund_agent.py:358-365 | a JSON block fenced with "```json" and "```" on their own lines gives back exactly its stripped body |
| AlphaFund.StripUnfenced | agents/alphafund_agent.py:358-365 | a stripped text that neither starts nor ends with "```" passes through unchanged |
| AlphaFund.DeepCarriesTopic | agents/alphafund_agent.py:147-162 | the deep research prompt carries the topic right after its opening |
| AlphaFund.MarketCarriesContext | agents/alphafund_agent.py:191-213 | the market analyst's prompt carries the shared context verbatim, right after its opening |
| AlphaFund.QuantCarriesContext | agents/alphafund_agent.py:234-290 | the quant analyst's prompt carries the shared context verbatim, right after its opening |
| AlphaFund.ManagerCarriesContext | agents/alphafund_agent.py:324-352 | the portfolio manager's prompt carries the shared context verbatim, right after its opening |
| AlphaFund.ReviewersCarryContext | agents/alphafund_agent.py:398-476 | the critic's and the risk officer's prompts carry the shared context verbatim, right after their openings |
| AlphaFund.DeepResearcher | agents/alphafund_agent.py:137-179 | the deep researcher's message has role DEEP_RESEARCHER and carries no sources |
| AlphaFund.MarketAnalyst | agents/alphafund_agent.py:181-232 | the market analyst's message has role MARKET_ANALYST and carries a source list exactly when the key is configured |
| AlphaFund.QuantAnalyst | agents/alphafund_agent.py:234-313 | the quant analyst's message has role QUANT_ANALYST and carries a source list exactly when the key is configured |
| AlphaFund.PortfolioManager | agents/alphafund_agent.py:315-396 | the manager's message has role PORTFOLIO_MANAGER; without a key the title is "topic 投资分析" with the fixed thesis; with a key the memo is made of the unfenced answer to the prompt holding the context |
| AlphaFund.UnparsedMemo | agents/alphafund_agent.py:367-385 | an answer that does not parse becomes a memo titled "topic 投资分析报告" whose thesis is the text, and whose message shows both |
| AlphaFund.NonObjectMemo | agents/alphafund_agent.py:376-396 | a parsed answer that is not an object makes `.get` raise, and the memo reports the fault naming the value's type |
| AlphaFund.Critic | agents/alphafund_agent.py:398-443 | the critic's message has role CRITICAL_REVIEWER and carries no sources |
| AlphaFund.RiskOfficer | agents/alphafund_agent.py:445-506 | without a key, score 50 and not approved; with one, the parsed unfenced answer, or, when it does not parse, score 60, approved, and the text (or a fixed note when empty) as the critique |
| AlphaFund.Roles | agents/alphafund_agent.py:508-557 | one role per message |
| AlphaFund.TranscriptRoles | agents/alphafund_agent.py:519-557 | the shared context holds four messages, or five with deep research, in the fixed order deep researcher, market analyst, quant analyst, portfolio manager, critic |
| AlphaFund.TranscriptSteps | agents/alphafund_agent.py:519-557 | each agent's message is computed from exactly the messages before it in the shared context |
| AlphaFund.LastCompleteIsLast | agents/alphafund_agent.py:581-585 | there is a report exactly when some event is `complete`, and it is the report of the last such event |
| AlphaFund.AlphaFundAgent.constructor | agents/alphafund_agent.py:103-104 | a new workflow object has an empty shared context |
| AlphaFund.AlphaFundAgent.OpeningSteps | agents/alphafund_agent.py:510-534 | after the optional deep research and the market analysis, the shared context holds their messages, each with its own event; the deep research event's report holds its analysis only, and the market event's report adds the analysis and the analyst's sources; the topic and "in_progress" are set, and nothing else |
| AlphaFund.AlphaFundAgent.RunWorkflowStream | agents/alphafund_agent.py:508-568 | the shared context becomes the transcript of four messages, or five with deep research; there is one `agent_complete` event per message, in order, whose report holds the fields filled so far (deep research, market analysis and sources, quant analysis, the manager memo's title and thesis, critique); the last event is `complete` with all of them, status "completed", the risk assessment of the whole context and that context |
| AlphaFund.AlphaFundAgent.RunWorkflow | agents/alphafund_agent.py:579-585 | the report is completed, without error, for the topic; deep research is present exactly when requested; market analysis and sources, quant analysis and critique are the messages' contents; title and thesis come from the portfolio manager's memo over the messages before it; the risk assessment is the risk officer's over the whole shared context, which the report carries |
| AlphaFund.FindLastComplete | agents/alphafund_agent.py:581-584 | the report kept is that of the last `complete` event of the stream, and there is none exactly when no event is `complete` |
| RateLimiting.Prune | utils/rate_limiter.py:60 | pruning keeps exactly the recorded times less than one period before the reading, each as many times as it was recorded, and drops every other, never lengthening the list |
| RateLimiting.PruneAppend | utils/rate_limiter.py:60 | pruning two runs of call times is pruning each, in order |
| RateLimiting.PruneAround | utils/rate_limiter.py:60 | pruning is the order-preserving filter: each time stays at its own place exactly when it is inside the window |
| RateLimiting.Min | utils/rate_limiter.py:63 | the oldest entry is an entry, and no entry is older |
| RateLimiting.WaitExceedsMargin | utils/rate_limiter.py:60-64 | the oldest pruned entry lies inside the window, so every wait is longer than the 0.1-second margin and never negative |
| RateLimiting.PruneSorted | utils/rate_limiter.py:60 | pruning keeps the order of what it keeps |
| RateLimiting.SortedAppend | utils/rate_limiter.py:70 | appending a time no earlier than every entry keeps the list sorted |
| RateLimiting.PruneBelow | utils/rate_limiter.py:60 | pruning adds no time later than those recorded |
| RateLimiting.NextCallsSorted | utils/rate_limiter.py:57-70 | under a clock that does not run backwards the call list stays sorted, the appended reading being the newest |
| RateLimiting.PruneDrops | utils/rate_limiter.py:66-68 | pruning at a reading a full window past some entry drops that entry |
| RateLimiting.NextCallsBounded | utils/rate_limiter.py:57-70 | with `max_calls` at least one and a sleep at least as long as the wait, the window never holds more than `max_calls` entries, the new one included |
| RateLimiting.RateLimiter.constructor | utils/rate_limiter.py:12-20 | the quota and window are stored and the call list starts empty |
| RateLimiting.RateLimiter.WaitIfNeeded | utils/rate_limiter.py:40-70 | the call list becomes the pruned list plus the reading, pruned again after the sleep when the window was full; a full window asks for a wait longer than the margin, and an empty window under a quota of zero raises on `min` |
| RateLimiting.AdmitValid | utils/rate_limiter.py:57-70 | a call through a valid limiter always goes ahead and keeps it valid: sorted and within the quota |
| RateLimiting.GeminiLimiter | utils/rate_limiter.py:73 | the global limiter allows 350 calls per 60-second window and starts valid and empty |
| McpService.Utf8 | services/mcp_service.py:147 | a character encodes to one to four bytes, and an ASCII character to its own code |
| McpService.EscapeAll | services/mcp_service.py:147 | every byte becomes a three-character `%XX` escape |
| McpService.QuotePlus | services/mcp_service.py:147 | form encoding never shortens the text |
| McpService.QuotePlusSafe | services/mcp_service.py:147 | form-encoded text holds only letters, digits, `_.-~`, `+` and `%`, so the key cannot break out of the query |
| McpService.FormDecodeQuotePlus | services/mcp_service.py:147 | form decoding the encoded key gives back exactly its UTF-8 bytes |
| McpService.QuotePlusUnreserved | services/mcp_service.py:147 | a key of letters, digits and `_.-~` is written as it is |
| McpService.ArgIndex | services/mcp_service.py:137-139 | `args.index` finds the first occurrence of the flag, and -1 stands for its absence |
| McpService.ApiKey | services/mcp_service.py:136-141 | a key is found exactly when `--key` occurs and is not the last argument |
| McpService.BuildHttpUrl | services/mcp_service.py:126-147 | a URL is built exactly when the command is `npx`, `@aahl/mcp-aktools` is one of the arguments, and the argument after the first `--key` exists and is non-empty; the URL is the Smithery endpoint with `api_key=` and the form-encoded key |
| McpService.UrlCarriesKey | services/mcp_service.py:137-147 | the URL starts with the endpoint and its query value decodes to the argument right after the first `--key`; a later `--key` is ignored |
| McpService.SetupUrl | services/mcp_service.py:136 | the argument list the AKTools setup writes yields the endpoint with the key appended |
| McpService.Route | services/mcp_service.py:61-63 | HTTP is used exactly when a URL can be built, and then with that URL; otherwise the local process is started with the given command and arguments |
| McpService.ListTools | services/mcp_service.py:56-96 | one entry per tool the server lists over the chosen transport, in the server's order, with its name, description and input schema |
| McpService.CallTool | services/mcp_service.py:98-124 | the result is the session's answer over HTTP when a URL can be built, and over the local process otherwise |
| FileTools.MimeType | tools/file_tools.py:33-45 | a MIME type in the table maps to one of the seven type names, never to "unknown" |
| FileTools.ExtensionType | tools/file_tools.py:51-61 | an extension in the table maps to one of the seven type names, never to "unknown" |
| FileTools.DetectFileType | tools/file_tools.py:27-67 | the answer is a type name or "unknown"; it is "unknown" exactly when `libmagic` raises or both the MIME table and the lower-cased extension miss; a MIME type in the table decides the answer |
| FileTools.MimeEntries | tools/file_tools.py:33-43 | each of the nine MIME entries yields its type whatever the file is called, `application/vnd.ms-excel` giving xlsx and `text/x-python` giving txt |
| FileTools.ExtensionFallback | tools/file_tools.py:47-61 | with a MIME type outside the table, `name.ext` is typed by the lower-cased `.ext` through the extension table |
| FileTools.PythonSourceIsText | tools/file_tools.py:50-54 | a `.py` file in any letter case whose MIME type is not in the table is text |
| FileTools.NoExtensionUnknown | tools/file_tools.py:48-61 | a file without extension whose MIME type is not in the table is "unknown" |
| FileTools.ReaderFor | tools/file_tools.py:263-274 | the text reader is chosen exactly for names other than pdf, docx, xlsx, json and csv, "md" and "unknown" included; every other reader is registered under the name asked for |
| FileTools.ReaderForTypeName | tools/file_tools.py:263-273 | each reader is the one its own type name dispatches to |
| FileTools.ReadFile | tools/file_tools.py:246-274 | a given type picks the reader directly; with no type given and `libmagic` failing, the text reader reads the file |
| FileTools.DetectThenRead | tools/file_tools.py:257-258 | detecting the type first and passing it in reads the file exactly as leaving the type out does |
| FileTools.UnknownReadAsText | tools/file_tools.py:273 | a file whose type cannot be determined is read as text |
| FileTools.JsonPreview | tools/file_tools.py:229-238 | a list becomes an object with exactly the keys type, length and preview, in that order; any other value is rendered unchanged |
| FileTools.PreviewShape | tools/file_tools.py:230-234 | the preview of a list is tagged "list", records the full length, and keeps the first items in order, all of them up to ten and exactly ten beyond |
| FileTools.PreviewIdempotent | tools/file_tools.py:229-238 | rendering a preview again changes nothing |
| FileTools.ReadJsonFile | tools/file_tools.py:224-243 | a file that cannot be read or parsed falls back to the text reader's result; a parsed list is dumped as its preview, any other parsed value as itself |
| Paths.SplitExt | tools/file_tools.py:49 | `os.path.splitext` splits the path into a root and an extension that put back together give the path; the extension is empty or a single dot followed by a dot-free, slash-free tail |
| Paths.SplitExtOfName | archive/graph/document_graph.py:155 | a plain file name `name.ext` splits at its dot into `name` and `.ext`, and a dot-free name has no extension |
| Paths.Basename | archive/graph/document_graph.py:299 | the base name is the slash-free tail of the path, the whole path when it has no slash |
| Paths.JoinPath | archive/graph/document_graph.py:156 | `os.path.join` ends with the name; an absolute name replaces the directory, and otherwise a single slash separates them |
| JsonValues.Iterate | agents/multi_agents.py:862-866 | iterating succeeds exactly for a list, a string or a dict; a list yields its items and a string one item per character |
| JsonValues.BraceSpanMatches | agents/prompt_manager.py:215 | the greedy `\{.*\}` search matches exactly when some `{` comes before some `}`, and the span runs from the first `{` to the last `}` |
| JsonValues.BraceSpanSurvivesRemoval | agents/multi_agents.py:809-812 | removing a character other than a brace cannot destroy a match, so the fenced-block search tried after a failed greedy search never matches |
| JsonValues.Lookup | agents/multi_agents.py:819 | `dict.get` on a parsed object finds nothing exactly when no field has the key, and otherwise the value of the last field with that key, since `json.loads` keeps the last of repeated keys |
| Strings.Lower | tools/file_tools.py:50 | `lower()` keeps the length and lower-cases each character in place |
| Strings.Strip | tools/document_tools.py:233 | `strip()` gives the slice of the text left once the whitespace at both ends is cut off: it neither starts nor ends with whitespace, and only whitespace lies outside it |
| Strings.StripStable | tools/akshare_helper.py:23 | stripping twice strips nothing more |
| Strings.Take | tools/document_tools.py:28 | `s[:n]` is the prefix of length `n`, or the whole text when it is shorter |
| Strings.Split | tools/document_tools.py:231 | `split(sep)` gives at least one piece and no piece holds the separator |
| Strings.JoinSplit | tools/document_tools.py:231 | joining the pieces of a split with the separator gives back the text |
| Strings.SplitJoin | tools/document_tools.py:319 | splitting a join of separator-free pieces gives back the pieces |
| Strings.SplitWordsRuns | tools/document_tools.py:370 | `split()` gives exactly the maximal whitespace-free runs of the text, one per index where a word starts, in order |
| Strings.NatToString | tools/document_tools.py:358 | `str(n)` for a natural number is a non-empty run of decimal digits, without a leading zero unless it is "0", that denotes `n` |
| Strings.IntToString | agents/multi_agents.py:889 | `str(n)` has a minus sign exactly for negatives, followed by the digits of the absolute value |

## Left out

- Language models, HTTP requests, MCP sessions (`connect_stdio` and the stdio and streamable-HTTP clients) and the document agent's chains: these are foreign calls, and the model takes their answers as oracle parameters.
- File I/O, `libmagic`, the PDF, DOCX, Excel and CSV readers, `json.loads` and `json.dumps` (indentation, `ensure_ascii=False`): these are also oracle parameters. A file's contents, or the failure to read it, is an input.
- Clock readings, `uuid` values and today's date are inputs. History records carry no timestamp, because the source always stores `None` there.
- `print` logging and tracebacks: these have no effect on results.
- Floating point: JSON numbers are integers. The rate limiter's times are integer milliseconds, so the 0.1-second margin is 100. The section splitter's `i > len(lines) * 0.7` is modelled with binary64 rounding (`Doubles.PastSeventyPercent`). With 90 lines, for example, line 63 is already past the rounded product (`Doubles.NinetyLines`).
- DocumentTools.ValidateOutput: the repetition test `len(set(words)) / len(words) < 0.3` is stated as the integer comparison `10*u < 3*n`. The two differ only when `u/n` lies below 0.3 by less than 4·10^-17, where Python's quotient rounds up to the double nearest 0.3. That needs more than 10^15 words.
- Python regular expressions beyond the scans the core uses. `\s`, `strip()` and `split()` use Python's whitespace set, the characters for which `str.isspace()` holds (`Strings.IsSpace`), U+3000 and U+00A0 included. `\d` is taken over the ASCII digits, while Python also accepts other Unicode decimal digits.
- Strings.Lower: maps only the ASCII capitals. Python's `lower()` also maps other letters, and some of them become ASCII: the Kelvin sign U+212A lower-cases to "k".
- Strings.Upper: maps only the ASCII small letters. Python's `upper()` also maps "ſ" (U+017F) to "S", so Python's `"ſz".upper()` is "SZ" and an exchange suffix written that way counts as Shenzhen there but not in the model.
- `str()` of a JSON list or dict is approximated: the quoting and escaping of Python's `repr` is not reproduced character for character.
- Python's collapse of `1` and `True` as the same dictionary key is not modelled.
- The key order of tool-argument dictionaries is not modelled, since the arguments are maps.
- Lone surrogate characters: a Python string can hold them, and `urlencode` would raise on them. Dafny `char` values are Unicode scalar values, so `McpService.QuotePlus` never meets one.
- Concurrent callers of the rate limiter are not modelled. `RateLimiting.RateLimiter.WaitIfNeeded` is one call of `_wait_if_needed_sync`, or of the async `_wait_if_needed` run by one coroutine at a time. The async version awaits between pruning and appending, so two coroutines waiting on a full window both append after waking. With `max_calls = 1` the window then holds 2 entries, which `RateLimiting.NextCallsBounded` does not describe. The decorator `__call__` and the actual sleeping are left out: the sleep is the clock moving from `now` to `later`.
- LangGraph compilation and checkpointing (`MemorySaver`): each graph is the sequence or loop of node calls its edges define.
- In `agents/alphafund_agent.py`, `call_gemini_with_search` catches every exception and returns a text. So the `except` branches of the deep researcher, the market analyst, the quant analyst, the critic and the risk officer cannot be reached, and they are not modelled. The portfolio manager's `except` branch is reached when the parsed answer is not an object, and it is modelled (`AlphaFund.NonObjectMemo`). The workflow's error event (agents/alphafund_agent.py:570-577) cannot be reached either, because every agent returns normally.
- The AlphaFund report's `chartData` is not modelled: the quant analyst always sets it to `None`. The agents' message timestamps are left out as well.
- In `agents/prompt_manager.py`, `get_best_practices` returns a constant list and is not modelled. The lenient second brace search is modelled, and `PromptManager.LenientSearchNeverNeeded` shows it never changes the answer.
- The regex extractors (`extract_email_addresses`, `extract_phone_numbers`, `extract_dates`, `extract_amounts`), `calculate_statistics` and `markdown_to_docx` in `tools/document_tools.py` are not part of this model. They depend on Python's Unicode `\b` semantics and the python-docx library.
- `tools/mcp_server_fs.py`, `archive/app.py`, `services/qa_database.py`, `archive/tools/vector_store.py`, `tools/ppt_generator.py`, the tests and the UI files are not part of this model. They are web routes, SQL, embeddings, document rendering or UI.
- DocumentTools.TemplateFor: its contract speaks only of the generic template. The six fixed templates are the named constants it returns, and `DocumentTools.PromptShape` holds for all of them.
- MultiAgentSystem.StepOutcome: a plan step whose instruction is a JSON list fails in the model with the validation error. LangChain's `HumanMessage` accepts a list of strings and objects as multi-part content, and the step then runs. Messages in this model carry text only, so multi-part content is not modelled.
