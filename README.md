# Lead query agent and MCP dispatcher, modelled in Dafny

This project models the natural-language lead query agent of the
lead-automation repository. It covers:

- `LeadQueryAgent` in `mcp-lead-query/server.py`;
- the MCP-style dispatcher in `mcp-lead-query/mcp_server.py` that exposes the agent;
- the enrichment string helpers in `utils/enrichment.py`.

The agent works in four steps:

1. It turns a business question into one SQL statement, using ordered keyword tests (`translate_question`).
2. It checks that statement with a read-only gate and runs it (`execute_query`).
3. It formats the returned rows as a sentence or a table (`format_response`).
4. It turns a `ValueError` or any other exception into one of two reply texts (`answer_question`).

The dispatcher answers `tools/list` with its tool table. It answers `tools/call` by running `query_leads` or `get_lead_stats`. Any other request gets the JSON-RPC 2.0 "Method not found" error code −32601, from section 5.1 of the JSON-RPC 2.0 specification.

Modules, one per file:

| file | module | models |
|---|---|---|
| `strings.dfy` | `Strings` | the Python `str` operations used: `strip`, `lower`, `upper`, `in`, `startswith`, `join`, `replace`, slicing, `str(int)` |
| `runtime.dfy` | `Runtime` | the values a row can hold; the Python exceptions and their `str()`; `dict.get`; truthiness |
| `enrichment.dfy` | `Enrichment` | `extract_domain`, `is_public_email`, `PUBLIC_EMAIL_DOMAINS`, `extract_signals` |
| `query_gate.dfy` | `QueryGate` | the validation and result-building of `execute_query` |
| `translator.dfy` | `Translator` | `translate_question` |
| `timestamps.dfy` | `Timestamps` | the `created_at` cell: `datetime.fromisoformat`, then `strftime('%Y-%m-%d %H:%M')` or the 16-character fallback |
| `formatter.dfy` | `Formatter` | `format_response` |
| `agent.dfy` | `Agent` | `answer_question` |
| `json.dfy` | `Json` | JSON values as `json.loads` produces them; `dict.get` on them; `str()` and `type()` of them |
| `mcp_server.dfy` | `McpServer` | the tool table built by `__init__`, and `handle_request` with its stats loop |

How the model is built:

- **Store.** The database is a parameter: `QueryGate.Store` maps a statement's text to a table (column names and rows) or to a failure message.
- **Float rendering.** It is also a parameter: `Runtime.Floats` supplies `str(float)` and `{:.1f}`.
- **Dispatcher.** A request is handled by `McpServer.Handle`, a function to a reply from the request, the tool table, the agent's reply to a `question` value, the outcome of the `get_lead_stats` branch and the float rendering. `McpServer.Serve` fills in the agent (`McpServer.QuestionReply` over `Agent.Answer`) and the stats branch (`McpServer.StatsReply`) for one store. An exception that escapes `handle_request` is a `Failure`.
- **Imperative parts.** The parts that are imperative in the source are Dafny methods with loops, each proved equal to the function that defines it:
  - the pattern loop and row loop of `execute_query`: `QueryGate.CheckQuery`, `QueryGate.BuildRows` and `QueryGate.ExecuteQuery`;
  - the step-by-step building of the statement: `Translator.TranslateQuestion`, with one method per filter step;
  - the line loop of `format_response`: `Formatter.FormatResponse`;
  - the stats loop: `McpServer.CollectStats`;
  - the server object: `McpServer.LeadQueryServer`.

Notable behaviour of the code, which the model follows:

- **"how many".** A question is a count question when it *starts with* "how many" or contains "count" anywhere (mcp-lead-query/server.py:121). The repository's own test questions ask "How many …" only at the start (mcp-lead-query/test_agent.py:23-27). `Translator.HowManyOnlyAtStart` shows the consequence: "list how many hot leads" is not a count question.
- **Count questions about AI.** A count question keeps its filters, the AI filter `le.mentions_ai = 1` included, although the count selection has no `lead_enrichment` join (mcp-lead-query/server.py:105-122). `Translator.AiShape` states this.
- **Formatting errors.** A score that is `NULL`, or text other than `N/A`, raises when it is formatted with `{:.1f}` (mcp-lead-query/server.py:160-162). A non-zero numeric `created_at` fails on `replace` inside the `try`; the bare `except` catches that, and `created_at[:16]` then raises a `TypeError` in the `except` handler, where nothing catches it (mcp-lead-query/server.py:166-171). `Formatter.ScoreCell` and `Timestamps.TimeCellShape` state these error paths.
- **Missing `params`.** A `tools/call` without `params` gets `{}`, so the tool name is `None` and the reply is "Unknown tool: None" (mcp-lead-query/mcp_server.py:46-54, `McpServer.CallWithoutParams`). The blank-question prompt comes only when `params` names `query_leads` but has no `arguments` or no `question` (`McpServer.QueryWithoutArguments`).
- **Company names that are keywords.** The company filter copies the word after "from" into the statement (mcp-lead-query/server.py:99-102), and the gate then searches the whole statement (mcp-lead-query/server.py:33-41). So "Leads from insert" is answered with a query error naming `\bINSERT\b` (`Agent.CompanyNamedInsert`).

## Model

| member | source | states |
|---|---|---|
| Strings.Strip | mcp-lead-query/server.py:28 | the strip is empty exactly when every character is whitespace; otherwise it is the slice from the first to the last non-whitespace character |
| Strings.Lower | mcp-lead-query/server.py:65 | `lower()` keeps the length and maps each character on its own |
| Strings.Upper | mcp-lead-query/server.py:28 | `upper()` keeps the length and maps each character on its own |
| QueryGate.Gate | mcp-lead-query/server.py:25-41 | passes exactly when the upper-cased, stripped statement starts with `SELECT` and no forbidden pattern matches; fails with "Only SELECT queries are allowed" when it does not start with `SELECT`; otherwise fails naming the first pattern, in list order, that matches |
| QueryGate.Screen | mcp-lead-query/server.py:29-41 | on an already normalized statement: fails only with a `ValueError`; passes exactly when it starts with `SELECT` and no forbidden pattern matches; fails with "Only SELECT queries are allowed" when it does not start with `SELECT`; otherwise fails naming the first pattern, in list order, that matches |
| QueryGate.FirstMatchFrom | mcp-lead-query/server.py:39-41 | the index found is one whose pattern matches, and no earlier pattern matches |
| QueryGate.CheckQuery | mcp-lead-query/server.py:28-41 | the `startswith` test and the pattern loop with its early raise compute exactly `Gate` |
| QueryGate.BuildRows | mcp-lead-query/server.py:52-56 | the row loop appends exactly one zipped dictionary per fetched row, in order (`Rows`) |
| QueryGate.ExecuteQuery | mcp-lead-query/server.py:25-61 | the pattern loop with early raise and the row loop compute exactly `Execute`: the gate's error, or `Database error: ` plus the store's message, or one dictionary per row |
| QueryGate.Execute | mcp-lead-query/server.py:25-61 | the function form of `execute_query`, with no contract of its own: `ExecuteQuery` is proved to compute it, and `RejectedNeverReachesStore` shows that a rejected statement fails the same way whatever the store holds |
| QueryGate.RejectedNeverReachesStore | mcp-lead-query/server.py:28-46 | a statement the gate rejects gives the same error whatever the store holds, so no connection is needed |
| QueryGate.Rows | mcp-lead-query/server.py:52-56 | one dictionary per fetched row |
| QueryGate.ZipRowKeys | mcp-lead-query/server.py:55 | the keys of `dict(zip(columns, row))` are exactly the column names of the zipped pairs |
| QueryGate.ZipRowLastWins | mcp-lead-query/server.py:55 | a column name maps to the value at its last occurrence |
| QueryGate.KeywordAroundSeparator | mcp-lead-query/server.py:33-37 | a whole-word keyword match never spans a non-word character |
| QueryGate.KeywordInWord | mcp-lead-query/server.py:33-37 | inside one run of word characters, the only whole word is the run itself |
| QueryGate.PhraseNeedsSecondWord | mcp-lead-query/server.py:35-36 | a `CREATE\s+X` match contains a whole-word match of `X` |
| QueryGate.NoPatternAmongWords | mcp-lead-query/server.py:33-41 | a forbidden pattern does not match words joined by spaces when none of the words is its keyword |
| QueryGate.NotInWords | mcp-lead-query/server.py:33-37 | a keyword is not found in space-joined words that are all different from it |
| QueryGate.AnchorsAreWords | mcp-lead-query/server.py:33-37 | every forbidden keyword is a non-empty run of word characters |
| QueryGate.WordsPassScreen | mcp-lead-query/server.py:33-41 | no forbidden pattern matches words of word characters joined by single spaces when no word is a forbidden keyword |
| QueryGate.ScreenPasses | mcp-lead-query/server.py:28-42 | a `SELECT` statement that no pattern matches passes the gate |
| QueryGate.IdentifierIsNotKeyword | mcp-lead-query/server.py:28-41 | `SELECT update_count FROM leads` passes the gate, although `UPDATE` occurs in it |
| QueryGate.KeywordSurvivesNormalize | mcp-lead-query/server.py:28-37 | a word that upper-cases to a keyword, with a character on each side that is neither `\w` nor whitespace, is still a whole-word match after `upper().strip()` |
| QueryGate.SelectSurvivesNormalize | mcp-lead-query/server.py:28-31 | a statement of leading whitespace, then `SELECT`, then anything, passes the `startswith('SELECT')` test |
| QueryGate.FirstKeywordRefused | mcp-lead-query/server.py:28-41 | such a `SELECT` statement holding a word that upper-cases to `INSERT` fails naming `\bINSERT\b`, the first pattern of the list |
| Translator.NormalizeQuestion | mcp-lead-query/server.py:65 | the normalized question has no upper-case letter |
| Translator.SpaceRunEnd | mcp-lead-query/server.py:99 | the end of the `\s+` run: all whitespace before it, none at it |
| Translator.WordRunEnd | mcp-lead-query/server.py:99 | the end of the `(\w+)` run: all word characters before it, none at it |
| Translator.FirstCompanyMatch | mcp-lead-query/server.py:99 | the leftmost index where `from\s+\w` matches, or none when there is no match |
| Translator.CompanyToken | mcp-lead-query/server.py:99-101 | the token is a non-empty run of word characters |
| Translator.CompanyTokenIsFirstMatch | mcp-lead-query/server.py:99-101 | there is a token exactly when `from\s+(\w+)` matches; the token is the group of the leftmost match, with the whole whitespace run and the longest word run |
| Translator.CompanyTokenIsWord | mcp-lead-query/server.py:99-102 | the token has no quote, no `%` and no upper-case letter |
| Translator.AddDateFilter | mcp-lead-query/server.py:82-88 | appends the date filter the date tests choose, or nothing |
| Translator.AddCategoryFilter | mcp-lead-query/server.py:90-96 | appends the category filter the category tests choose, or nothing |
| Translator.AddCompanyFilter | mcp-lead-query/server.py:98-103 | appends `l.company LIKE '%token%'` for the token of the first `from` match, or nothing |
| Translator.AddAiFilter | mcp-lead-query/server.py:105-118 | for an AI question, appends `le.mentions_ai = 1` and switches to the enrichment selection; otherwise changes neither |
| Translator.OrderTail | mcp-lead-query/server.py:120-133 | the ordering tail is added exactly when the chosen selection is not the count selection |
| Translator.TranslateQuestion | mcp-lead-query/server.py:63-134 | the step-by-step construction, with its list appends and reassignments, produces exactly `Translate(question)` |
| Translator.Translate | mcp-lead-query/server.py:63-134 | the function form of `translate_question`, with no contract of its own: `TranslateQuestion` is proved to compute it, and its meaning is stated by `InConditions`, `ConditionsInOrder`, `WhereIffConditions`, `CountShape`, `AiShape` and `TranslateStartsWithSelection` |
| Translator.SelectionMarker | mcp-lead-query/server.py:120-131 | of the three selections, only the count selection contains `COUNT(*)` |
| Translator.InConditions | mcp-lead-query/server.py:80-118 | a filter is in the list exactly when one of the four steps chose it |
| Translator.ConditionsInOrder | mcp-lead-query/server.py:80-118 | the filters come in the order date, category, company, AI, each at most once |
| Translator.DateFilterPriority | mcp-lead-query/server.py:83-88 | today's filter iff "today"; yesterday's iff "yesterday" and not "today"; the 7-day filter iff "this week" or "last 7 days" and neither of those |
| Translator.CategoryFilterPriority | mcp-lead-query/server.py:91-96 | `'Hot'` iff "hot lead"; `'Warm'` iff "warm lead" and not "hot lead"; `'Cold'` iff "cold lead" and neither of those |
| Translator.WhereIffConditions | mcp-lead-query/server.py:124-127 | the statement contains `WHERE` exactly when some filter was chosen |
| Translator.CountShape | mcp-lead-query/server.py:120-133 | a count question starts with the `COUNT(*)` selection and has no `ORDER BY`; any other question ends with ` ORDER BY l.created_at DESC LIMIT 50` |
| Translator.AccountIsCount | mcp-lead-query/server.py:121 | a question containing "account" is a count question |
| Translator.AiFilterIsLast | mcp-lead-query/server.py:105-118 | the AI filter is chosen exactly for AI questions, and it is always the last filter |
| Translator.TranslateStartsWithSelection | mcp-lead-query/server.py:120-133 | every statement starts with the selection chosen for the question |
| Translator.CountAiEndsWithFilter | mcp-lead-query/server.py:105-133 | a count question about AI ends with `le.mentions_ai = 1`: nothing follows the filter |
| Translator.AiShape | mcp-lead-query/server.py:105-122 | an AI question selects with the enrichment join; an AI count question starts with the plain count selection and still ends with `le.mentions_ai = 1`; any other question selects the base columns |
| Translator.LeadsFromTodayExample | mcp-lead-query/server.py:83-102 | "Leads from today" gets today's filter and `l.company LIKE '%today%'`, in that order |
| Translator.LeadsFromInsertExample | mcp-lead-query/server.py:80-134 | "Leads from insert" gets only the company filter `l.company LIKE '%insert%'` and the ordering tail |
| Translator.HowManyOnlyAtStart | mcp-lead-query/server.py:121 | "list how many hot leads" is not a count question and keeps the ordering tail |
| Timestamps.ParseTime | mcp-lead-query/server.py:168 | the time part of `fromisoformat`, with no contract of its own: `ClockFields` and `SampleTime` state what it parses |
| Timestamps.Render | mcp-lead-query/server.py:169 | `strftime('%Y-%m-%d %H:%M')`, with no contract of its own: `RenderKeepsDateAndMinute` and `RenderLength` state its meaning |
| Timestamps.ParseDigits | mcp-lead-query/server.py:168 | a parsed digit field consists of digit characters only |
| Timestamps.ParseClock | mcp-lead-query/server.py:168 | the hour is the first two digits; after a `:` separator, the minute is the next two digits |
| Timestamps.FromIsoFormat | mcp-lead-query/server.py:168 | every accepted text yields a date and time within the `datetime` ranges |
| Timestamps.TwoDigitsRoundTrip | mcp-lead-query/server.py:168-169 | two parsed digits, zero-padded back, are the original two characters |
| Timestamps.FourDigitsRoundTrip | mcp-lead-query/server.py:168-169 | a four-digit year not starting with `0` prints back as itself |
| Timestamps.DateFields | mcp-lead-query/server.py:168-169 | the rendered date of a parsed text is its first ten characters |
| Timestamps.ClockFields | mcp-lead-query/server.py:168 | for a text with `HH:MM` after the separator, the parsed hour and minute are those digits |
| Timestamps.RenderKeepsDateAndMinute | mcp-lead-query/server.py:168-169 | a parsed timestamp renders as its own date, a space, and its own `HH:MM` |
| Timestamps.RenderLength | mcp-lead-query/server.py:169 | the rendering is at most 16 characters |
| Timestamps.TimeCell | mcp-lead-query/server.py:165-173 | the `created_at` cell, with no contract of its own: `TimeCellShape`, `TimeCellKeepsDateAndMinute` and `UnparsedTimeCell` state its meaning |
| Timestamps.TimeCellShape | mcp-lead-query/server.py:165-173 | the cell is at most 16 characters; it fails exactly for a non-zero number; a falsy `created_at` shows `N/A` |
| Timestamps.TimeCellKeepsDateAndMinute | mcp-lead-query/server.py:165-169 | an ISO timestamp given to the minute shows as `YYYY-MM-DD HH:MM` from its own characters |
| Timestamps.SampleTimeCell | mcp-lead-query/server.py:165-169 | `2024-01-15T10:30:00Z` shows as `2024-01-15 10:30` |
| Timestamps.UnparsedTimeCell | mcp-lead-query/server.py:166-171 | a non-empty text that does not parse shows its first 16 characters |
| Timestamps.FreeTextTimeCell | mcp-lead-query/server.py:166-171 | "yesterday afternoon" shows as "yesterday aftern" |
| Formatter.RuleLine | mcp-lead-query/server.py:152 | the rule is exactly 80 dashes |
| Formatter.ScoreCell | mcp-lead-query/server.py:160-162 | succeeds exactly for the `N/A` placeholder or a number; the placeholder stays; `NULL` raises a `TypeError`; any other text raises a `ValueError` |
| Formatter.Format | mcp-lead-query/server.py:136-177 | the function form of `format_response`, with no contract of its own: `FormatResponse` is proved to compute it, and `EmptyReply`, `CountReply`, `SingleLeadReply` and `TableReply` state its cases |
| Formatter.FormatResponse | mcp-lead-query/server.py:136-177 | the loop computes exactly `Format`: the reply text, or the error of the first lead whose line fails |
| Formatter.LinesSuccess | mcp-lead-query/server.py:155-175 | for any line function, the lines succeed exactly when every item's line does; then there is one line per item, in order |
| Formatter.LinesFailure | mcp-lead-query/server.py:155-175 | for any line function, a failure is the error of the first item whose line fails |
| Formatter.LeadLinesSuccess | mcp-lead-query/server.py:155-175 | the lines succeed exactly when every lead's line does; then there is one line per lead, in order |
| Formatter.LeadLinesFailure | mcp-lead-query/server.py:155-175 | a failure is the error of the first failing lead |
| Formatter.LeadLinesStep | mcp-lead-query/server.py:155-175 | a good line after good ones is appended to them |
| Formatter.LeadLinesStopsAtFailure | mcp-lead-query/server.py:155-175 | a failing line after good ones decides the outcome; later leads are not looked at |
| Formatter.LeadLine | mcp-lead-query/server.py:156-175 | one lead's line, with no contract of its own: `LeadLineCells` and `MissingFieldsShowPlaceholder` state its meaning |
| Formatter.LeadLineCells | mcp-lead-query/server.py:156-175 | a line is the name, e-mail, company, category, score and time cells joined by the space-bar-space separator; it fails exactly when the score or time cell fails, and a score error wins |
| Formatter.MissingFieldsShowPlaceholder | mcp-lead-query/server.py:156-173 | a missing field shows `N/A`, and so does a missing, `NULL` or empty timestamp |
| Formatter.NameOnlyLead | mcp-lead-query/server.py:156-175 | a lead with only a name shows its name followed by five `N/A` cells |
| Formatter.EmptyReply | mcp-lead-query/server.py:138-139 | no rows give "No matching leads found." |
| Formatter.CountReply | mcp-lead-query/server.py:142-144 | a lone row with a `count` gives "Found {count} matching leads." |
| Formatter.ZeroCountReply | mcp-lead-query/server.py:142-144 | a zero count gives "Found 0 matching leads.", not the no-match reply |
| Formatter.SingleLeadReply | mcp-lead-query/server.py:142-177 | a lone row without `count` is a one-lead table |
| Formatter.TableOfLines | mcp-lead-query/server.py:146-177 | a table reply succeeds exactly when its lead lines do; it is then the heading, the column line, the rule and the lead lines joined by newlines; otherwise it has their error |
| Formatter.TableSucceeds | mcp-lead-query/server.py:146-177 | a table reply succeeds exactly when every lead's line does |
| Formatter.TableFirstError | mcp-lead-query/server.py:155-177 | a failing table reply has the error of some lead's line |
| Formatter.TableReply | mcp-lead-query/server.py:146-177 | a table reply succeeds exactly when every line does; it is then the heading, the column line, the rule and one line per lead in order, joined by newlines; a failure is some lead's error |
| Formatter.TableEndsWithLastLead | mcp-lead-query/server.py:175-177 | a table reply ends with the last lead's line |
| Agent.ErrorReply | mcp-lead-query/server.py:197-200 | a `ValueError` becomes `Query error: ` plus its message; any other exception becomes the no-data prefix plus its `str()` |
| Agent.Answer | mcp-lead-query/server.py:179-200 | the function form of `answer_question`, with no contract of its own: `AnswerQuestion` is proved to compute it, and the `Agent` lemmas below state its replies |
| Agent.Respond | mcp-lead-query/server.py:186-200 | the `try` block and its two `except` clauses, with no contract of its own: `RejectedSql`, `StoreFailureSql` and `SuccessfulReply` state its three outcomes |
| Agent.AnswerQuestion | mcp-lead-query/server.py:179-200 | the step-by-step orchestration computes exactly `Answer` |
| Agent.BlankQuestionIgnoresStore | mcp-lead-query/server.py:183-184 | a blank question gets the prompt whatever the store holds |
| Agent.BlankMeansWhitespace | mcp-lead-query/server.py:183 | blank means empty or whitespace only |
| Agent.RejectedQuestion | mcp-lead-query/server.py:187-198 | a question whose statement the gate rejects gets `Query error: ` plus the gate's message |
| Agent.RejectedSql | mcp-lead-query/server.py:190-198 | a rejected statement gets `Query error: ` plus the gate's message |
| Agent.StoreFailureSql | mcp-lead-query/server.py:190-200 | a statement that passes the gate but fails in the store gets the no-data prefix, then `Database error: ` and the message |
| Agent.StoreFailureReply | mcp-lead-query/server.py:186-200 | a store failure reaches the user as the no-data prefix, then `Database error: ` and the message |
| Agent.SuccessfulReply | mcp-lead-query/server.py:186-195 | on success the reply is the formatted text, and it is "No matching leads found." exactly when there are no rows |
| Agent.NotNoMatches | mcp-lead-query/server.py:138-148 | a non-empty result never reads "No matching leads found." |
| Agent.FirstFailingLead | mcp-lead-query/server.py:155-175 | the error of the first failing lead is the error of the table |
| Agent.UnscoredLeadFails | mcp-lead-query/server.py:160-162 | a lead without a score row (`NULL` from the left join) makes the reply the no-data text with the `NoneType` format error |
| Agent.TextScoreIsQueryError | mcp-lead-query/server.py:160-162 | a text score other than `N/A` makes the reply a query error |
| Agent.CompanyNamedInsert | mcp-lead-query/server.py:179-200 | "Leads from insert" is answered with `Query error: Query contains forbidden pattern: \bINSERT\b`, because the company token is copied into the statement |
| Agent.InsertGate | mcp-lead-query/server.py:25-41 | the gate rejects the statement built for "Leads from insert", naming `\bINSERT\b` |
| Json.Lookup | mcp-lead-query/mcp_server.py:45-46 | absent exactly when no entry has the key; otherwise the value of the last entry with it |
| Json.LookupLastWins | mcp-lead-query/mcp_server.py:45-58 | of two entries for one key, the later is found |
| McpServer.LeadQueryServer.constructor | mcp-lead-query/mcp_server.py:15-41 | the tool table is the two entries built at start-up |
| McpServer.LeadQueryServer.HandleRequest | mcp-lead-query/mcp_server.py:43-118 | the reply is `Serve` of the request over the server's tool table, with the agent and the stats queries run against the store; the method modifies nothing, so the table is unchanged |
| McpServer.Handle | mcp-lead-query/mcp_server.py:43-118 | `handle_request` over its collaborators, with no contract of its own: `ReplyShapes`, `ListReply`, `UnknownMethodReply`, `UnknownToolReply`, `QueryReply` and `StatsCall` state its branches |
| McpServer.Serve | mcp-lead-query/mcp_server.py:43-118 | `Handle` with the agent and the stats queries of one store, with no contract of its own: `LeadQueryServer.HandleRequest` is proved to compute it, and `CallWithoutParams` and `ServeQueryWithoutArguments` state its replies |
| McpServer.ToolTableNames | mcp-lead-query/mcp_server.py:17-41 | the table holds two tools, `query_leads` then `get_lead_stats` |
| McpServer.ListReply | mcp-lead-query/mcp_server.py:48-51 | `tools/list` returns the tool table unchanged |
| McpServer.ListFromFreshServer | mcp-lead-query/mcp_server.py:15-51 | a fresh server lists exactly its two tools, in order |
| McpServer.UnknownMethodReply | mcp-lead-query/mcp_server.py:112-118 | an unknown method gets code −32601 and "Unknown method: " plus its `str()` |
| McpServer.MissingMethodReply | mcp-lead-query/mcp_server.py:45-118 | a request without a method gets "Unknown method: None" |
| McpServer.UnknownToolReply | mcp-lead-query/mcp_server.py:104-110 | an unknown tool gets code −32601 and "Unknown tool: " plus its `str()` |
| McpServer.CallWithoutParams | mcp-lead-query/mcp_server.py:46-110 | a call without `params` gets "Unknown tool: None" |
| McpServer.QueryReply | mcp-lead-query/mcp_server.py:57-67 | `query_leads` returns the agent's answer to `arguments.get("question", "")` as a single text content item |
| McpServer.QuestionReply | mcp-lead-query/mcp_server.py:58-59 | the call to `answer_question` with the question value, with no contract of its own: `TextQuestionReply` and `NonTextQuestion` state its cases |
| McpServer.TextQuestionReply | mcp-lead-query/mcp_server.py:58-59 | a text question is answered by `answer_question`; the empty one gets the blank-question prompt |
| McpServer.QueryWithoutArguments | mcp-lead-query/mcp_server.py:55-67 | `query_leads` without arguments asks the agent the empty question |
| McpServer.ServeQueryWithoutArguments | mcp-lead-query/mcp_server.py:46-67 | so the server answers it with the blank-question prompt |
| McpServer.NonTextQuestion | mcp-lead-query/mcp_server.py:58-59 | a truthy non-text question fails on `.strip()` and is answered with the no-data text naming its type |
| McpServer.StatsReply | mcp-lead-query/mcp_server.py:69-102 | the `get_lead_stats` branch, with no contract of its own: `StatsCall`, `StatsReplyIsText` and `EmptyStats` state its meaning |
| McpServer.StatsCall | mcp-lead-query/mcp_server.py:69-102 | `get_lead_stats` replies with the outcome of the stats branch, error or text |
| McpServer.StatsReplyIsText | mcp-lead-query/mcp_server.py:95-102 | the stats branch, when it succeeds, is one text content item |
| McpServer.ReplyShapes | mcp-lead-query/mcp_server.py:43-118 | every reply is the tool list, one text item, or a "Method not found" error, given a stats branch that replies with a text item |
| McpServer.TotalLeads | mcp-lead-query/mcp_server.py:82 | the total, with no contract of its own: `StatsTotalLeads` states it |
| McpServer.StatKey | mcp-lead-query/mcp_server.py:86 | the key a category row writes, with no contract of its own: `TallyKeys` states it |
| McpServer.Tally | mcp-lead-query/mcp_server.py:85-87 | the stats loop, with no contract of its own: `TallyKeys`, `TallyLastWins`, `TallyUntouched`, `TallyStopsAtFailure` and `TallyKeepsFailure` state its meaning |
| McpServer.Stats | mcp-lead-query/mcp_server.py:82-87 | the stats dictionary, with no contract of its own: `CollectStats` is proved to compute it, and `StatsTotalLeads` and `TallyKeys` state its contents |
| McpServer.CollectStats | mcp-lead-query/mcp_server.py:81-87 | the stats loop computes exactly `Stats`: the first row's total or 0, then each row's count under its key; or the first `KeyError` or `AttributeError` |
| McpServer.TallyStopsAtFailure | mcp-lead-query/mcp_server.py:85-87 | a bad row after good ones is the error of the whole loop |
| McpServer.TallyKeepsFailure | mcp-lead-query/mcp_server.py:85-87 | once the loop has failed, later rows change nothing |
| McpServer.TallyKeys | mcp-lead-query/mcp_server.py:85-87 | the loop succeeds exactly when every row has a text `category` and a `count`; the keys are then the initial ones plus `lower(category) + "_leads"` of each row |
| McpServer.TallyLastWins | mcp-lead-query/mcp_server.py:85-87 | a key holds the `count` of the last row that writes it |
| McpServer.TallyUntouched | mcp-lead-query/mcp_server.py:83-87 | a key no row writes keeps its initial value, or stays absent |
| McpServer.StatsTotalLeads | mcp-lead-query/mcp_server.py:82-87 | the total is the first row's `total`, or 0 when there is no row, unless a category row overwrites it |
| McpServer.AbsentCategoryShowsZero | mcp-lead-query/mcp_server.py:89-93 | a category no row names is shown as 0 |
| McpServer.EmptyStats | mcp-lead-query/mcp_server.py:82-93 | with no rows, the stats are a total of 0 and the text shows four zero counts in the order Total, Hot, Warm, Cold |
| McpServer.ZeroStatsText | mcp-lead-query/mcp_server.py:89-93 | a total of 0 and no categories give four zero lines under the title |
| McpServer.TotalCategoryOverwrites | mcp-lead-query/mcp_server.py:83-87 | a category spelled `total`, in any case, overwrites the total |
| Enrichment.Split | utils/enrichment.py:12 | `split` always gives at least one piece |
| Enrichment.SplitLast | utils/enrichment.py:12 | the last piece of `split` has no separator and is a suffix; it is the whole text, or it is preceded by a separator |
| Enrichment.ExtractDomain | utils/enrichment.py:11-12 | `extract_domain`, with no contract of its own: `ExtractDomainIsAfterLastAt`, `ExtractDomainShape` and `ExtractDomainIdempotent` state its meaning |
| Enrichment.ExtractDomainIsAfterLastAt | utils/enrichment.py:11-12 | the domain is the lower-cased text after the last `@`, or the whole address lower-cased when there is no `@` |
| Enrichment.ExtractDomainShape | utils/enrichment.py:11-12 | the domain contains no `@` and no upper-case letter |
| Enrichment.ExtractDomainIdempotent | utils/enrichment.py:11-12 | extracting twice is extracting once |
| Enrichment.ExtractDomainOfAddress | utils/enrichment.py:11-12 | the domain of `user@host` is `host` lower-cased |
| Enrichment.IsPublicEmail | utils/enrichment.py:14-15 | `is_public_email`, with no contract of its own: `PublicEmailIsCaseSensitive` and `PublicProviderAddress` state its meaning |
| Enrichment.PublicEmailIsCaseSensitive | utils/enrichment.py:3-15 | a domain with an upper-case letter is never public |
| Enrichment.PublicProviderAddress | utils/enrichment.py:3-15 | an address at one of the five providers is public, whatever its user part |
| Enrichment.Flag | utils/enrichment.py:25-30 | `int(bool)` is 0 or 1, and 1 exactly for `True` |
| Enrichment.ExtractSignals | utils/enrichment.py:25-30 | exactly the three keys, each 0 or 1; `has_pricing` iff "pricing"; `has_careers` iff "careers" or "jobs"; `mentions_ai` iff "ai" or "artificial intelligence" |
| Enrichment.SignalsMonotone | utils/enrichment.py:25-30 | a text's flags are at most those of any text containing it |
| Enrichment.SignalsAiIsSubstring | utils/enrichment.py:29 | any page saying "email" mentions AI |

## Left out

- The SQLite engine is not modelled. This covers `get_connection`, the cursor, what `DATE('now')` means and which statements SQLite rejects. The store is a parameter that returns a table or a failure message. Its failure stands for a `sqlite3.Error`.
- The `params` argument of `execute_query` is always empty in the core's callers, so it is not modelled.
- Regular expressions are not modelled as an engine. The `\b…\b` patterns, `\bCREATE\s+X\b` and `from\s+(\w+)` are written as string predicates and functions.
- Floating point is left out. `str(float)` and `{:.1f}` are the fields of `Floats`. An `int` score goes through `{:.1f}` as `fixed1(i as real)`, and the `OverflowError` Python raises for an `int` too large for a float is not modelled.
- `str()` of a JSON list or dictionary, in the "Unknown method/tool" messages, is a parameter `show`.
- Case mapping and `\w` are ASCII-only. Python maps non-ASCII letters too.
- A row value is `NULL`, an integer, a real or text. SQLite `BLOB` values (`bytes`) are not modelled.
- Timestamps.FromIsoFormat: models `datetime.fromisoformat` as CPython 3.7 to 3.10 implement it. The repository does not pin a Python version, and 3.11 and later accept more ISO 8601 forms.
- Timestamps.Render: the year is printed without padding below 1000, as glibc's `strftime` does.
- The JSON-RPC stdin loop of `mcp_server.py` is I/O around `json.loads`, so it is left out. This covers the line parsing, the `id` echo and the −32700 and −32603 envelopes.
- Also left out:
  - `check_website` (an HTTP request);
  - `mcp_client.py`, the interactive CLIs and the demo and test scripts;
  - `api.py`, `utils/ai.py`, the pipeline scripts and the frontend.
- `answer_question` is one function, `Agent.Answer`, over the `Result` of each step. The agent object itself is not modelled; its only field, `db_path`, is not used by the modelled code.
