# ServiceNow IT-help assistant — routing, slot filling and ticket submission

This project models the decision-making core of a Python IT-help assistant.
The assistant answers a support question by one of three agents: a ticket agent, an internal file search and a web search. When a ticket is wanted, it collects the ticket's details over several chat turns. It then submits an incident to ServiceNow. The model covers:

- **The keyword router** (`agent_orchestrator.py`). `analyze_request` labels a question TICKET, FILE_SEARCH or WEB_SEARCH by an ordered substring search over two phrase lists. `orchestrate_request` calls the one agent the label names and puts that agent's header on the answer.
- **The language-model orchestrator** (`llm_orchestrator.py`). It maps the routing model's reply to a label. A reply naming TICKET goes to the ticket agent. Every other reply goes to file search first. Web search is called only when the file answer says "not found". The streaming variant makes the same decisions and also passes progress notices to its callback.
- **Ticket submission** (`ticket_agent.py`). `newapp.py:100-197` holds the same code, word for word, and is modelled by the same members. The pieces are:
  - `_redact_secrets`: three case-insensitive regular expressions whose matches are masked character by character;
  - the idempotency tag: the first 12 hex digits of the SHA-256 digest of `caller|summary`;
  - `create_servicenow_incident`: a credentials guard, the payload, and at most three POST attempts with linear back-off.
- **The interpretation of ticket details** (`ticket_details_agent.py`). The model's JSON reply is cut out and decoded, and the four required fields are given defaults.
- **The Streamlit chat session** (`streamlit_ui.py`):
  - the conversation context and `handle_conversation_context`, which merges the details of each turn while waiting for a ticket and submits once the four required keys are present;
  - the rule-based detail parser and its language-model counterpart;
  - `create_ticket_with_details`, `format_message_for_ui` and `get_orchestrator_response`.

Python's `str` and `dict` behaviour is modelled in `py_text.dfy` and `py_dict.dfy`. This covers ASCII case folding, `strip`, `split`, `join` and substring search. A dict is an insertion-ordered list of entries, so `update` semantics and `repr` output order match Python.

Everything outside the process is a parameter of the model:

- the language models' replies and the agents' answers or exceptions;
- `json.loads`;
- SHA-256;
- the `SN_*` environment variables;
- what each HTTP POST returns;
- the Streamlit setting `use_llm_parsing`.

Waits are returned as values in tenths of a second instead of being slept.

The chat context is a class (`Session.ConversationContext`) whose methods update its three fields in place. Each method is proved against a function on the context's value (`HandleTurn`, `Respond`). The retry loop, the defaulting loop, the redaction loop and the rule-based word scan are methods with loops. Each is proved equal to a function (`Retry`, `FillFields`, `Redacted`, `WindowOrAbbreviation`), and the lemmas state what the source promises about those functions.

Some behaviours of the code are easy to miss. The model follows the code in each:

- **A turn completes on key presence alone.** Completion requires the four keys to be present. Their values may be empty (`Session.CompletesOnKeyPresence`).
- **Gathered details are not cleared on completion.** Completing a ticket resets the wait flag and the current agent, but the details are kept. They are cleared only when the ticket agent answers again.
- **A routing-model failure is not a fall-back to file search.** An exception from the routing model call is outside the orchestrator's `try`. The chat turns it into `❌ Error: …` (`LlmOrchestrator.RoutingFailurePropagates`, `Session.RoutingFailureReported`).
- **All-transient failures report no detail.** When all three attempts get a transient status, the last error stays `None`. The error then reads `… Detail: None` (`ServiceNow.AllTransient`).
- **The "missing fields" prompts are never reached.** Both ways of reading a turn always return all four required keys, so every waiting turn completes at once (`Session.WaitingTurnCompletes`).
- **The rule-based parser matches phrases as substrings.** Substring matching makes "slow" count as "low" (`DetailParser.SlowLaptopIsLowImpact`). Because words come from `split()`, the indicator "not working" can never match a single word (`DetailParser.NotWorkingNeverInOneWord`).

## Model

| member | source | states |
|---|---|---|
| `Agents.Dispatch` | agent_orchestrator.py:103-120 | exactly the named agent is called; its answer comes back under that agent's header, its exception as "❌ Error routing to … agent: …" |
| `KeywordRouter.AnalyzeRequest` | agent_orchestrator.py:64-92 | the label is always one of TICKET, FILE_SEARCH, WEB_SEARCH |
| `KeywordRouter.AnalyzeRequestSpec` | agent_orchestrator.py:66-92 | TICKET iff a ticket phrase occurs in the lower-cased question; FILE_SEARCH iff no ticket phrase but a file-search phrase does; WEB_SEARCH iff neither |
| `KeywordRouter.AnalyzeRequestCaseInsensitive` | agent_orchestrator.py:66 | routing a lower-cased question gives the same label |
| `KeywordRouter.TicketPhraseWins` | agent_orchestrator.py:76-89 | "Need help with company policy" is TICKET although "company" and "policy" are file-search phrases |
| `KeywordRouter.SystemNotWorkingIsTicket` | agent_orchestrator.py:69-85 | "System not working" is TICKET although "system" is a file-search phrase |
| `KeywordRouter.GreetingGoesToWeb` | agent_orchestrator.py:91-92 | a question with no phrase of either list ("hello") goes to web search |
| `KeywordRouter.DispatchKnownLabel` | agent_orchestrator.py:104-114 | each of the three labels reaches its own agent |
| `KeywordRouter.OrchestrateRequestSpec` | agent_orchestrator.py:94-120 | exactly one agent is called, the one the label names, so the unknown-agent branch is never taken; answer under its header, exception as a routing error |
| `LlmOrchestrator.RouteReply` | llm_orchestrator.py:91-102 | the label is TICKET iff the stripped, upper-cased reply contains "TICKET", and FILE_SEARCH otherwise |
| `LlmOrchestrator.NoTicketLetterGoesToFileSearch` | llm_orchestrator.py:94-102 | a reply without the letter k in either case goes to file search, so web search is never a route |
| `LlmOrchestrator.WebAndEmptyRepliesGoToFileSearch` | llm_orchestrator.py:98-102 | a reply naming the web-search agent and an empty reply both go to file search |
| `LlmOrchestrator.FallbackNeededIff` | llm_orchestrator.py:130 | the fallback test holds iff the lower-cased file answer contains "not found"; the "Not found in repository" test adds nothing |
| `LlmOrchestrator.RoutingFailurePropagates` | llm_orchestrator.py:113-115 | an exception from the routing call is outside the `try` and propagates |
| `LlmOrchestrator.TicketRoute` | llm_orchestrator.py:116-120 | a TICKET reply calls only the ticket agent and returns its answer under the ticket header, or its exception as a routing error |
| `LlmOrchestrator.FileSearchRoute` | llm_orchestrator.py:122-145 | any other reply calls file search first, and web search iff file search returned an answer containing "not found" in any case; an answer without it is shown under the file header alone; a file search that raises gives the FILE_SEARCH routing error after that single call, and so does a web search that raises after the fallback |
| `LlmOrchestrator.FileRoute` | llm_orchestrator.py:122-145 | a reply without "TICKET" is answered by the file-then-web branch |
| `LlmOrchestrator.FileThenWebCalls` | llm_orchestrator.py:126-135 | file search is called first; web search exactly when file search returned and its answer calls for the fallback |
| `LlmOrchestrator.FallbackOutput` | llm_orchestrator.py:130-136 | on fallback the answer is the file section followed by the web section, and both agents are called in that order |
| `LlmOrchestrator.NoFallbackOutput` | llm_orchestrator.py:137-139 | without fallback only the file section is returned and web search is not called |
| `LlmOrchestrator.StreamingAgrees` | llm_orchestrator.py:147-194 | the streaming variant returns the same strings after the same calls; without a callback it emits no notice |
| `LlmOrchestrator.StreamingNotices` | llm_orchestrator.py:152-193 | with a callback the analysis is announced first; the ticket routing notice comes second iff only the ticket agent is called; the fallback notice appears iff web search is called; every error notice carries the returned error text |
| `DetailParser.Level` | streamlit_ui.py:397-418 | an impact or urgency level is always "1", "2" or "3" |
| `DetailParser.LevelSpec` | streamlit_ui.py:397-418 | "1" iff a high phrase occurs; "3" iff no high and no medium phrase but a low phrase occurs; "2" otherwise |
| `DetailParser.FirstIndicator` | streamlit_ui.py:379-380 | the index of the first word holding a failure indicator: every earlier word holds none |
| `DetailParser.ScanWords` | streamlit_ui.py:378-387 | the `enumerate(words)` loop with `break` leaves exactly one entry: the window around the first indicator word, or the abbreviated input |
| `DetailParser.WindowSpec` | streamlit_ui.py:379-387 | when a word holds an indicator, the short description joins the words from two before to two after the first such word (1 to 5 words, that word included) and is non-empty; otherwise it is the abbreviated input |
| `DetailParser.ParseTicketDetailsSimple` | streamlit_ui.py:364-424 | the dictionary built field by field equals the four-field record, keys in insertion order |
| `DetailParser.SimpleDetailsFields` | streamlit_ui.py:364-424 | the result has exactly the four required keys, once each; the description is the input; impact and urgency are "1", "2" or "3" |
| `DetailParser.NotWorkingNeverInOneWord` | streamlit_ui.py:378-380 | the indicator "not working" never occurs in a word produced by `split()` |
| `DetailParser.LowAsSubstring` | streamlit_ui.py:398-403 | phrases match as substrings: an input containing "low" and none of the letters h, c, u, e is low impact |
| `DetailParser.SlowLaptopIsLowImpact` | streamlit_ui.py:402-403 | "slow laptop", in any letter case, is low impact |
| `Idempotency.Hex` | ticket_agent.py:81 | `hexdigest()` gives two lower-case hex digits per byte |
| `Idempotency.HexDecodes` | ticket_agent.py:81 | reading the two digits of each byte back gives that byte |
| `Idempotency.IdempotencyTag` | ticket_agent.py:76-81 | the tag is 12 lower-case hex digits |
| `Idempotency.TagDecodes` | ticket_agent.py:78-81 | the tag is the first six bytes of the SHA-256 digest of `caller|stripped summary` |
| `Idempotency.UnknownCaller` | ticket_agent.py:79 | a missing caller, an empty caller and the caller "unknown" hash the same text |
| `Idempotency.TagIgnoresPadding` | ticket_agent.py:79 | surrounding whitespace in the summary does not change the tag |
| `Redactor.Match` | ticket_agent.py:66-68 | a match found at an index ends within the text |
| `Redactor.MaskChar` | ticket_agent.py:72 | a masked character is unchanged or a bullet |
| `Redactor.Sub` | ticket_agent.py:72 | one `re.sub` pass keeps the text's length |
| `Redactor.RedactedPasses` | ticket_agent.py:65-72 | non-empty text goes through the three patterns in order, each applied to the previous output |
| `Redactor.RedactSecrets` | ticket_agent.py:60-73 | the loop's result is the three passes (empty text unchanged); it keeps the length, every whitespace character, every comma and semicolon, and changes other characters only to bullets |
| `Redactor.MatchStartsWithLetter` | ticket_agent.py:66-68 | every match of the three patterns starts on a letter |
| `Redactor.MatchHasNoDelimiter` | ticket_agent.py:66-68 | no match contains a comma or a semicolon |
| `Redactor.CoveredWitness` | ticket_agent.py:72 | a character the leftmost scan masks lies inside a match that begins at or before it |
| `Redactor.SubMasks` | ticket_agent.py:72 | one pass changes only non-whitespace characters other than commas and semicolons, and only to bullets |
| `Redactor.SubMasksMatchStart` | ticket_agent.py:72 | a match found by the leftmost scan shows a bullet where it starts |
| `Redactor.SubKeepsUncovered` | ticket_agent.py:72 | a character that no match covers is left as it was |
| `Redactor.SubIdentity` | ticket_agent.py:72 | a pass with a pattern that matches nowhere returns its input |
| `Redactor.MatchMasked` | ticket_agent.py:66-68 | a match in masked text was already a match, at the same index, before masking |
| `Redactor.SubMatchFree` | ticket_agent.py:72 | after one pass the pattern matches nowhere in the output |
| `Redactor.SubKeepsMatchFree` | ticket_agent.py:71-72 | a later pass does not bring back a match that an earlier pass removed |
| `Redactor.RedactedMasks` | ticket_agent.py:60-73 | redaction keeps the length and whitespace layout and only turns characters other than commas and semicolons into bullets |
| `Redactor.RedactedMatchFree` | ticket_agent.py:65-72 | none of the three patterns matches anywhere in redacted text |
| `Redactor.RedactIdempotent` | ticket_agent.py:60-73 | redacting redacted text changes nothing |
| `Redactor.RedactedMasksAssignments` | ticket_agent.py:66-72 | wherever a secret assignment matches the input, the redacted text shows a bullet |
| `Redactor.EmbeddedLabelMasked` | ticket_agent.py:66 | labels are not anchored to a word start: the `pass` inside `bypass=1` is masked |
| `ServiceNow.Retry` | ticket_agent.py:130-158 | at most three POSTs; all three unless an attempt succeeds; a success ends the run; one wait per POST except after the successful one |
| `ServiceNow.Attempt` | ticket_agent.py:134-155 | an attempt is transient iff the status is 429, 500, 502, 503 or 504; it succeeds iff the POST returned a status that is neither transient nor 4xx/5xx and a JSON object body; a raised POST, a 4xx/5xx status ("HTTPError: <status> Client/Server Error: <reason> for url: <url>"), a body that is not JSON ("JSONDecodeError: …") and JSON on which `.get` fails (a non-object body or `result`) each give their error text |
| `ServiceNow.PostWithRetries` | ticket_agent.py:130-156 | the `while attempts < 3` loop produces exactly the run `Retry` describes: success, POSTs made, waits and last error |
| `ServiceNow.BuildPayload` | ticket_agent.py:113-128 | the payload posted and the tag used are those of the redacted summary and description |
| `ServiceNow.CreateServicenowIncident` | ticket_agent.py:94-158 | missing credentials give the credentials error with no POST and no wait; otherwise the redacted payload is posted and the result is the created incident of the first successful attempt (with its link and tag), or "failed after retries" with the last error |
| `ServiceNow.WithOptionalShape` | ticket_agent.py:123-128 | an optional field adds its key only when its value is non-empty, keeps the earlier entries and repeats no key |
| `ServiceNow.WithOptionalGet` | ticket_agent.py:123-128 | an optional key holds its value exactly when that value is non-empty; other keys are untouched |
| `ServiceNow.PayloadFields` | ticket_agent.py:113-128 | the payload starts with the redacted summary, the redacted description with `[idempotency:<tag>]` appended, urgency and impact; caller, assignment group and category are present iff non-empty; no key repeats |
| `ServiceNow.FirstSuccessWins` | ticket_agent.py:143-153 | the first successful attempt ends the loop, its record is the result, and exactly that many POSTs were made |
| `ServiceNow.NoSuccessExhausts` | ticket_agent.py:132-158 | without a successful attempt nothing is created |
| `ServiceNow.TransientKeepsError` | ticket_agent.py:143-145 | transient statuses leave the last error as it was |
| `ServiceNow.LastFailureReported` | ticket_agent.py:154-158 | when the loop runs out, the error of the last failing attempt is the one reported |
| `ServiceNow.RetrySleeps` | ticket_agent.py:144-156 | the wait after attempt k is 1.5·k seconds after a transient status and 1.0·k seconds after an error |
| `ServiceNow.TwoTransientsThenSuccess` | ticket_agent.py:130-153 | two transient statuses then a success: created, three POSTs, waits of 1.5 s and 3.0 s |
| `ServiceNow.AllTransient` | ticket_agent.py:130-158 | three transient statuses: nothing created, three POSTs, waits of 1.5, 3.0 and 4.5 s, and the error detail is `None` |
| `ServiceNow.SubmittedSpec` | ticket_agent.py:148-158 | an incident is created iff some attempt succeeds; it carries the tag and the link for its `sys_id`; otherwise the error reports the last error |
| `TicketDetails.Find` | ticket_details_agent.py:101 | `find("{")` gives the first index of the brace |
| `TicketDetails.RFind` | ticket_details_agent.py:102 | `rfind("}")` gives the last index of the brace |
| `TicketDetails.Slice` | ticket_details_agent.py:103 | the slice is the stretch between the indices, or empty when the end is before the start |
| `TicketDetails.JsonSpanExact` | ticket_details_agent.py:97-103 | with both braces present, the decoded text runs from the first `{` to the last `}` inclusive, or is empty when the last `}` is before the first `{` |
| `TicketDetails.FillDefaults` | ticket_details_agent.py:109-120 | the `for field in required_fields` loop equals the defaulting function applied over the four fields in order |
| `TicketDetails.FillFieldsGet` | ticket_details_agent.py:110-120 | each required field keeps its value when true and gets its default otherwise; other keys keep their values |
| `TicketDetails.FillFieldsKeys` | ticket_details_agent.py:110-120 | the loop adds exactly the required keys and never repeats a key |
| `TicketDetails.InterpretTicketDetails` | ticket_details_agent.py:92-140 | the result is the defaulted decoded object, or the fixed fallback record when the call raised, no braces were found or decoding failed |
| `TicketDetails.InterpretedFields` | ticket_details_agent.py:92-140 | whatever the model replied, the result has all four required keys; without a decoded object it is the fallback record |
| `TicketDetails.InterpretedDecoded` | ticket_details_agent.py:106-122 | after a decode, a required field keeps any true value (unvalidated) and is defaulted otherwise; other decoded keys are kept |
| `TicketDetails.DefaultsSpec` | ticket_details_agent.py:113-120 | the defaults are the input cut to 50 characters plus "..." (at most 53), the input itself, and "2" for impact and urgency |
| `TicketDetails.NoJsonFallsBack` | ticket_details_agent.py:123-140 | a raised call or a reply without both braces gives the fallback record |
| `TicketDetails.InterpretedUnique` | ticket_details_agent.py:104-140 | when `json.loads` yields a dict, the interpreted details hold each key once, and so does the fallback record |
| `Session.Render` | streamlit_ui.py:357 | rendering the interpreter's values as text keeps the keys and their order |
| `Session.ParseTicketDetailsLlm` | streamlit_ui.py:349-362 | the rule-based parser when LLM parsing is off or the interpreter raised, otherwise the interpreter's result |
| `Session.ParsedHasRequiredKeys` | streamlit_ui.py:349-362 | whichever way a turn is read, the result holds the four required keys |
| `Session.ParsedUnique` | streamlit_ui.py:349-362 | whichever way a turn is read, the details hold each key once |
| `Session.AbsentSpec` | streamlit_ui.py:317-318 | a field is listed as missing iff it is required and its key is absent |
| `Session.MissingLines` | streamlit_ui.py:343-344 | one line per missing field, in order: the k-th line is "- " followed by the k-th field's title |
| `Session.MissingReplySpec` | streamlit_ui.py:336-346 | the reply opens with "Almost there!" iff exactly one field is missing, and then names it in bold; with several, every field's bullet line occurs in it; both end with the current details |
| `Session.OneMissingReply` | streamlit_ui.py:338-341 | one missing field: the "Almost there!" opening, the field's title in bold, the details at the end |
| `Session.SeveralMissingReply` | streamlit_ui.py:342-346 | several missing fields: not the "Almost there!" opening, a bullet per field, the details at the end |
| `Session.FieldTitleUnderscore` | streamlit_ui.py:339 | an underscore in a key becomes a space between two title-cased words |
| `Session.RequiredFieldTitles` | streamlit_ui.py:339 | the required keys are titled "Short Description", "Description", "Impact" and "Urgency" |
| `Session.ConversationContext.constructor` | streamlit_ui.py:137-143 | a new context has no agent, is not waiting and has no details |
| `Session.ConversationContext.HandleConversationContext` | streamlit_ui.py:304-347 | the reply, the handled flag and the new context are those of `HandleTurn` on the old context |
| `Session.ConversationContext.SubmitTicket` | streamlit_ui.py:320-335 | with nothing missing, the wait ends, the agent is reset, the details are kept and the reply is the summary followed by the ticket message |
| `Session.ConversationContext.ShowOrchestration` | streamlit_ui.py:458-466 | an answer containing the ticket label starts the wait with no details and the ticket agent current; the answer is formatted for the chat; a routing exception becomes "❌ Error: …" |
| `Session.ConversationContext.GetOrchestratorResponse` | streamlit_ui.py:448-468 | the reply and new context are those of `Respond`: a handled turn's reply, otherwise the orchestrator's answer entering the session |
| `Session.RespondCases` | streamlit_ui.py:452-458 | a turn is handled iff the context is waiting; otherwise the context is untouched and the orchestrator decides |
| `Session.CreateTicketWithDetails` | streamlit_ui.py:426-446 | the message is the one for what the incident tool returns for the details: "❌ Error creating ticket: " and the error, or the success line with the ticket number and URL |
| `Session.TicketReplySpec` | streamlit_ui.py:439-444 | a ticket message starts with the error prefix iff the tool returned an error; the error text follows the prefix; a created ticket shows "Ticket created successfully!", its number (`None` when absent) and its URL |
| `Session.NoCredentialsMessage` | streamlit_ui.py:439-441 | without ServiceNow credentials the message is the error prefix followed by the credentials error |
| `Session.NotWaitingPassesThrough` | streamlit_ui.py:309-347 | outside the ticket flow the input is passed on unhandled and the context does not change |
| `Session.MergeLastWriteWins` | streamlit_ui.py:311-314 | while waiting, a key given in the turn takes the turn's value, and every other key keeps its earlier value (with `json.loads` giving dicts, as it does) |
| `Session.CompletesOnKeyPresence` | streamlit_ui.py:316-323 | a waiting turn completes iff every required key is present after the merge; completion resets the agent and keeps the details; otherwise wait and agent are unchanged |
| `Session.CompletedReply` | streamlit_ui.py:325-335 | on completion the reply is the summary of the merged details followed by the ticket message |
| `Session.WaitingTurnCompletes` | streamlit_ui.py:309-335 | every waiting turn completes, ends the wait and resets the agent |
| `Session.TicketAnswerStartsWait` | streamlit_ui.py:458-466 | a ticket-agent answer starts the wait with no details and the ticket agent current, and the reply is the formatted answer |
| `Session.RoutingFailureReported` | streamlit_ui.py:467-468 | an exception from routing is returned as "❌ Error: …" and the context is kept |
| `Session.FormatPlainMessage` | streamlit_ui.py:231-242 | a reply containing none of the four console notices is only stripped of surrounding whitespace |
| `Session.NoticeDropped` | streamlit_ui.py:231-242 | a reply made of any one console notice followed by notice-free text is shown as that text, stripped |
| `Session.RemoveNotices` | streamlit_ui.py:233-237 | removing the four notices in order from one of them followed by notice-free text leaves exactly the text |
| `PyText.RemoveAllCanLeaveOccurrence` | streamlit_ui.py:234-237 | one `replace` pass can join the text around a removed occurrence into a new one: "aabb" without "ab" is "ab" |
| `Session.TicketArgsSpec` | streamlit_ui.py:432-437 | each field comes from the details when its key is present, otherwise from the defaults ("3" for urgency and impact); no caller, group or category is passed |

## Left out

- Agent, model and web calls (`Runner.run`, the file-search and web-search agents, the ticket agent run by the orchestrators) are not modelled. What they return or raise is an input.
- Console output is not modelled: the `print` notices of both orchestrators and the Streamlit debug output.
- The routing notice printed by `orchestrate_request` is not modelled.
- The streaming variant's own notices are modelled, but the notices the providers' streaming runs emit themselves are not.
- Prompts are not modelled: the text sent to the routing and extraction models, including `json.dumps` of the existing details.
- `json.loads` is a parameter. JSON arrays and objects keep only their size, which is all their truth value needs.
- SHA-256 is a parameter, `string -> 32 bytes`. The UTF-8 encoding before hashing is part of that parameter.
- The HTTP transport is a parameter: what each POST returns or raises. Request headers, authentication, the 15-second timeout and the JSON encoding of the payload are not modelled.
- `time.sleep` is not modelled. The waits are returned, in tenths of a second.
- Case mapping is ASCII only: `str.lower`, `str.upper` and `str.title` leave non-ASCII letters unchanged in the model. Whitespace is not: `\s`, `strip` and `split` use Python's full `str.isspace` set.
- Redactor.Match: `re.IGNORECASE` also folds some non-ASCII letters onto ASCII ones, such as U+017F LATIN SMALL LETTER LONG S onto `s` and U+212A KELVIN SIGN onto `k`. Python therefore masks the value in "paſſword=x", and the model's matchers, which fold ASCII case only, do not.
- JSON numbers are integers in the model (`TicketDetails.Value`). Decoded floats are not modelled: `0.0` is false in Python and a float prints as, for example, `2.0`.
- ServiceNow.Attempt: a created record's `number` and `sys_id` are modelled as strings or absent. Another JSON type there (a number, say) is not modelled; Python would show it through `str()`. The HTTP error text uses the request URL, while Python's `response.url` is the final URL after any redirect.
- The regular expressions are hand-written matchers for the three fixed patterns, not a general regex engine.
- Session.Render: a decoded value that is not a string is shown as text by a parameter. In the source, the raw value is used. A non-string summary or description would then make redaction raise, and `create_ticket_with_details` would report the exception text (streamlit_ui.py:445-446). That path is not modelled.
- `Session.ConversationContext` leaves out `conversation_history`, which is initialised but never used by the modelled code.
- The rest of the Streamlit page is not modelled: rendering, chat history, buttons, sidebar and the event loop.
- The command-line REPLs are not modelled.
- `CreateIncidentArgs` field validation (`max_length=200`, the `Literal["1","2","3"]` levels) is not modelled. It belongs to the tool schema the agent framework enforces, and `create_servicenow_incident` does not check it.
- Concurrency between chat sessions is not modelled. Each context is one object, updated one turn at a time.
