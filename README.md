# Bloom agent service and auth layer, modelled in Dafny

Bloom is a menopause-wellness assistant. Its Python agent service routes a user's question to one of four agents: basic query, consultation, diet or exercise. The service keeps a short per-user conversation history, and a WhatsApp webhook puts a small session state machine in front of it. A Node backend guards its routes with Descope bearer tokens, and the mobile client's `APIService` picks the Authorization header for each request.

This project models that logic and proves properties of it. Modules follow the program's files:

| module | file | models |
|---|---|---|
| `Wrappers`, `Strings` | wrappers.dfy, strings.dfy | `Option`/`Result`; Python's `strip`, `lower`, `upper`, `split`, `in`, `rfind`, `join` and run-collapsing `re.sub` |
| `AgentTypes` | agent_types.dfy | Python dictionary values, agent replies, the four categories, and the foreign calls (`Backend`) |
| `ConversationHistory` | history.dfy | the per-user history buffer shared by both orchestrators (`HistoryStore`) |
| `Routing` | routing.dfy | category selection, output extraction, `clean_response`, and the request and outcome of each orchestrator path |
| `Orchestrator` | orchestrator.dfy | the web orchestrator |
| `WhatsAppOrchestrator` | whatsapp_orchestrator.dfy | the WhatsApp orchestrator: anonymous basic queries and queries with symptoms |
| `WhatsAppBot` | whatsapp_bot.dfy | the webhook: sessions, the basic-query rule, truncation, the state machine |
| `BasicQuery` | basic_query.dfy | log summary, age, name default, short-reply test, greeting choice, `run` |
| `Consultation` | consultation.dfy | the answer post-processing and the result of `run` |
| `Diet` | diet.dfy | retrieval-snippet combining and the result of `run` |
| `App` | app.dfy | validation and JSON bodies of the Flask endpoints |
| `DescopeAuth` | descope_auth.dfy | the Express middleware `validateDescopeSession`, `optionalDescopeSession`, `requireAdmin` |
| `ApiService` | api_service.dfy | the client `APIService`: credentials, headers, register/login/logout |

How the model is built:
- Code that updates state in place is a class with `modifies` clauses. This covers the history dictionary, the WhatsApp session dictionary, the profile dictionary that `run` writes `age` into, the Express request, and the `APIService` token fields. Each method's `ensures` ties its result and new state to a specification function.
- Properties are proved about those functions: invariants, iff-characterisations, and frame conditions.
- Every call into code outside the model is a function parameter, and `None`/`Failure` stands for "raised". These calls are the LLM, the retriever, pandas lookups, regex deletions, `str()` of a dictionary, `validateSession` and `fetch`.

## Model

| member | source | states |
|---|---|---|
| AgentTypes.AnswerReply | Bloomagain/agenting/agents/consultation.py:111-115 | an agent's answer dictionary has exactly `output`, `agent_type` and `user_context_used` True, and no `error` |
| AgentTypes.FailureReply | Bloomagain/agenting/agents/consultation.py:116-121 | an agent's fallback dictionary has exactly `output`, `agent_type` and `error` True |
| ConversationHistory.Trimmed | Bloomagain/agenting/agents/orchestrator.py:103-105 | a history is cut to min(length, 20) messages, and those are its newest ones |
| ConversationHistory.SliceFrom | Bloomagain/agenting/agents/orchestrator.py:78 | Python's `h[-k:]` is a suffix of `h` |
| ConversationHistory.Saved | Bloomagain/agenting/agents/orchestrator.py:94-105 | after a save the user's list ends with `[query, response]`, has min(old+2, 20) messages and is the newest part of old+[query, response]; even lengths stay even; other users are untouched; the user is no longer "first" |
| ConversationHistory.SavedKeepsWellFormed | Bloomagain/agenting/agents/orchestrator.py:94-105 | saving keeps every stored history at most 20 messages long and of even length |
| ConversationHistory.ContextText | Bloomagain/agenting/agents/orchestrator.py:71-92 | an absent or empty history gives "No previous conversation history." |
| ConversationHistory.ContextLinesAt | Bloomagain/agenting/agents/orchestrator.py:83-92 | the context has two lines per complete pair: line 2j is "User previously asked: " + message 2j, line 2j+1 is "You previously responded: " + message 2j+1 |
| ConversationHistory.ContextLinesSnoc | Bloomagain/agenting/agents/orchestrator.py:84-90 | a pair appended to the window appends its two lines at the end |
| ConversationHistory.ContextLinesDropOdd | Bloomagain/agenting/agents/orchestrator.py:85 | an unpaired trailing message gives no line |
| ConversationHistory.RecentWindowIsNewest | Bloomagain/agenting/agents/orchestrator.py:78 | the window is the last 2·max_exchanges messages (the whole history when shorter, and also when max_exchanges is 0, as `h[-0:]` is `h`) |
| ConversationHistory.RecentWindow | Bloomagain/agenting/agents/orchestrator.py:78 | the window is a suffix of the history, never longer than it |
| ConversationHistory.ContextLines | Bloomagain/agenting/agents/orchestrator.py:83-90 | two lines per complete pair of the window: 2·⌊n/2⌋ lines for n messages |
| ConversationHistory.ContextRendersNewestPairs | Bloomagain/agenting/agents/orchestrator.py:76-92 | for a non-empty paired history the context is the newest ≤ max_exchanges pairs, oldest first, joined by newlines |
| ConversationHistory.HistoryStore.constructor | Bloomagain/agenting/agents/orchestrator.py:63 | the store starts empty |
| ConversationHistory.HistoryStore.SaveExchange | Bloomagain/agenting/agents/orchestrator.py:94-105 | the new dictionary is `Saved(old, …)`; all lists stay even-length and at most 20 |
| ConversationHistory.HistoryStore.GetContext | Bloomagain/agenting/agents/orchestrator.py:71-92 | the loop builds exactly `ContextText` |
| ConversationHistory.HistoryStore.IsFirstQuery | Bloomagain/agenting/agents/orchestrator.py:107-109 | true exactly when the user has no entry or an empty list |
| Routing.RouteCategory | Bloomagain/agenting/agents/orchestrator.py:207-210 | CONSULTATION iff that substring occurs; DIET iff not and "DIET" occurs; EXERCISE iff neither and "EXERCISE" occurs; BASIC_QUERY otherwise |
| Routing.CategoryText | Bloomagain/agenting/agents/orchestrator.py:199 | the normalised answer is no longer than the raw one, has no surrounding whitespace and no lower-case ASCII letter |
| Routing.CategoryTextIdempotent | Bloomagain/agenting/agents/orchestrator.py:199 | normalising an already normalised answer changes nothing |
| Routing.RouteRecognisesEachName | Bloomagain/agenting/agents/orchestrator.py:207-210 | each category's own name routes to that category |
| Routing.ResponseText | Bloomagain/agenting/agents/orchestrator.py:253-256 | a dict's string `output`, `str()` of a dict without one, the text of a plain reply |
| Routing.CleanResponse | Bloomagain/agenting/agents/orchestrator.py:111-132 | the cleaned text is trimmed and has no two consecutive newlines |
| Routing.PipelineRequest | Bloomagain/agenting/agents/orchestrator.py:214-216 | the agent gets the query, the user's rendered context and the first-query flag |
| Routing.PipelineOutcome | Bloomagain/agenting/agents/orchestrator.py:201-264 | a failure leaves the history alone; a reply is trimmed and is saved after the query |
| Routing.BasicQueryRequest | Bloomagain/agenting/whatsapp_connection/whatsapp_orchestrator.py:164-174 | without a user: no profile or logs, the fixed context, first query; with one: the same request as the pipeline |
| Routing.BasicQueryOutcome | Bloomagain/agenting/whatsapp_connection/whatsapp_orchestrator.py:159-192 | without a user or on failure the history is unchanged; a reply is trimmed and saved for a user |
| Orchestrator.Orchestrator.constructor | Bloomagain/agenting/agents/orchestrator.py:60-69 | a fresh, empty history |
| Orchestrator.Orchestrator.RunBasicQueryAgent | Bloomagain/agenting/agents/orchestrator.py:153-179 | reply and new history are `BasicQueryOutcome` for the user; the history invariant is kept |
| Orchestrator.Orchestrator.RunCategorizationPipeline | Bloomagain/agenting/agents/orchestrator.py:201-264 | reply and new history are `PipelineOutcome`; the history invariant is kept |
| WhatsAppOrchestrator.KnownUser | Bloomagain/agenting/whatsapp_connection/whatsapp_orchestrator.py:164 | a user id counts only when present and non-empty (Python truthiness) |
| WhatsAppOrchestrator.SymptomLogs | Bloomagain/agenting/whatsapp_connection/whatsapp_orchestrator.py:209-213 | exactly the keys current_symptoms, symptom_description, user_concerns, each mapped to the symptoms |
| WhatsAppOrchestrator.SymptomTurn | Bloomagain/agenting/whatsapp_connection/whatsapp_orchestrator.py:281 | the saved turn starts with the query and is 18 characters longer than query and symptoms together |
| WhatsAppOrchestrator.SymptomRequest | Bloomagain/agenting/whatsapp_connection/whatsapp_orchestrator.py:208-224 | no profile, the symptom logs; fixed context and first query without a user, the user's context otherwise |
| WhatsAppOrchestrator.SymptomReply | Bloomagain/agenting/whatsapp_connection/whatsapp_orchestrator.py:226-278 | a reply obtained with symptoms is trimmed and has no blank lines |
| WhatsAppOrchestrator.SymptomQueryOutcome | Bloomagain/agenting/whatsapp_connection/whatsapp_orchestrator.py:201-283 | nothing is saved without a user or on failure; with a user the saved pair is (query with symptoms, reply) and only that user's entry changes |
| WhatsAppOrchestrator.WhatsAppOrchestrator.constructor | Bloomagain/agenting/whatsapp_connection/whatsapp_orchestrator.py:66-75 | a fresh, empty history |
| WhatsAppOrchestrator.WhatsAppOrchestrator.RunBasicQueryAgent | Bloomagain/agenting/whatsapp_connection/whatsapp_orchestrator.py:159-192 | reply and history are `BasicQueryOutcome` for `KnownUser(user_id)` |
| WhatsAppOrchestrator.WhatsAppOrchestrator.RunBasicQueryWithoutUser | Bloomagain/agenting/whatsapp_connection/whatsapp_orchestrator.py:194-199 | the anonymous reply, and every history unchanged |
| WhatsAppOrchestrator.WhatsAppOrchestrator.RunQueryWithSymptoms | Bloomagain/agenting/whatsapp_connection/whatsapp_orchestrator.py:201-283 | reply and history are `SymptomQueryOutcome` |
| WhatsAppOrchestrator.RouteWithSymptoms | Bloomagain/agenting/whatsapp_connection/whatsapp_orchestrator.py:226-278 | categorising, routing, extracting and cleaning give exactly `SymptomReply` |
| WhatsAppOrchestrator.WhatsAppOrchestrator.RunCategorizationPipeline | Bloomagain/agenting/whatsapp_connection/whatsapp_orchestrator.py:305-368 | reply and history are `PipelineOutcome` |
| WhatsAppBot.BasicQueriesMentionMenopause | Bloomagain/agenting/whatsapp_connection/whatsapp_connection.py:249-274 | every message the basic-query rule accepts contains "menopause", "hot flash" or "night sweat" |
| WhatsAppBot.BasicQueryRule | Bloomagain/agenting/whatsapp_connection/whatsapp_connection.py:249-274 | the keyword rule on the lower-cased message: a basic keyword, or a general pattern together with a menopause term; `WhatsAppBot.WhatsAppBot.IsBasicQuery` is proved to compute it and `BasicQueriesMentionMenopause` bounds what it accepts |
| WhatsAppBot.KeywordTerm | Bloomagain/agenting/whatsapp_connection/whatsapp_connection.py:249-254 | each basic keyword contains one of those terms |
| WhatsAppBot.PrefixedMenopause | Bloomagain/agenting/whatsapp_connection/whatsapp_connection.py:269 | "perimenopause" and "postmenopause" contain "menopause" |
| WhatsAppBot.FindAny | Bloomagain/agenting/whatsapp_connection/whatsapp_connection.py:259-261 | the search loop answers whether any needle occurs in the text |
| WhatsAppBot.TruncateMessage | Bloomagain/agenting/whatsapp_connection/whatsapp_connection.py:288-302 | short messages are returned unchanged; a long one ends with the notice and keeps either a prefix ending at the last '.' or '\n' before 1500 (when that is past 1200) or the first 1500 characters plus "..." |
| WhatsAppBot.UserIdOf | Bloomagain/agenting/whatsapp_connection/whatsapp_connection.py:91 | the user id has no '+' |
| WhatsAppBot.WithSession | Bloomagain/agenting/whatsapp_connection/whatsapp_connection.py:229-239 | the default session is created only for an absent number; stored sessions are returned untouched |
| WhatsAppBot.Updated | Bloomagain/agenting/whatsapp_connection/whatsapp_connection.py:241-245 | only the keys in `updates` are overwritten; other keys and other numbers are unchanged |
| WhatsAppBot.ReplyText | Bloomagain/agenting/whatsapp_connection/whatsapp_connection.py:108-115 | an orchestrator failure gives the fixed apology; a reply within the limit is sent as is |
| WhatsAppBot.ReplyMessage | Bloomagain/agenting/whatsapp_connection/whatsapp_connection.py:78-185 | the text of an orchestrator result is the one `ReplyText` gives |
| WhatsAppBot.Transition | Bloomagain/agenting/whatsapp_connection/whatsapp_connection.py:66-185 | only the sender's session and the sender's history change; well-formed histories stay well-formed |
| WhatsAppBot.TransitionOfMessage | Bloomagain/agenting/whatsapp_connection/whatsapp_connection.py:76-90 | a message that is neither empty nor a greeting goes to the sender's session, created when missing |
| WhatsAppBot.SessionStep | Bloomagain/agenting/whatsapp_connection/whatsapp_connection.py:89-179 | the same framing for a message that reaches the session lookup |
| WhatsAppBot.WaitingStep | Bloomagain/agenting/whatsapp_connection/whatsapp_connection.py:94-125 | the same framing for the answer to the symptom question |
| WhatsAppBot.AnsweredSessions | Bloomagain/agenting/whatsapp_connection/whatsapp_connection.py:97-123 | after the answer to the symptom question, the sender's session holds the answer as `symptoms`, state INITIAL, no pending query and the flag True, keeping its other keys; no other session changes and no number is added or dropped |
| WhatsAppBot.RoutedStep | Bloomagain/agenting/whatsapp_connection/whatsapp_connection.py:142-179 | the same framing for a non-basic query |
| WhatsAppBot.TransitionKeepsValid | Bloomagain/agenting/whatsapp_connection/whatsapp_connection.py:66-185 | sessions the bot wrote stay well-formed: all five keys present, and either INITIAL or waiting with a string pending query |
| WhatsAppBot.SessionStepKeepsValid | Bloomagain/agenting/whatsapp_connection/whatsapp_connection.py:89-179 | the same for the session-lookup branch |
| WhatsAppBot.WaitingStepKeepsValid | Bloomagain/agenting/whatsapp_connection/whatsapp_connection.py:94-125 | the same for the waiting branch |
| WhatsAppBot.RoutedStepKeepsValid | Bloomagain/agenting/whatsapp_connection/whatsapp_connection.py:142-179 | the same for the routed branch |
| WhatsAppBot.SymptomsAnswerIsKept | Bloomagain/agenting/whatsapp_connection/whatsapp_connection.py:94-123 | the message answering the symptom question is stored as `symptoms`; the session ends INITIAL with no pending query and the flag True, even when the orchestrator fails |
| WhatsAppBot.WaitsOnlyWithoutSavedSymptoms | Bloomagain/agenting/whatsapp_connection/whatsapp_connection.py:143-179 | a session starts waiting for symptoms only when none are saved; the reply is then the symptom question and the history is unchanged |
| WhatsAppBot.WaitingRunsPendingQuery | Bloomagain/agenting/whatsapp_connection/whatsapp_connection.py:94-125 | the answer to the symptom question runs the pending query with that answer as the symptoms, for the sender's user id; the reply and the history are that run's |
| WhatsAppBot.NonBasicQueryWaitsForSymptoms | Bloomagain/agenting/whatsapp_connection/whatsapp_connection.py:128-179 | a message that is not a basic query or an update command, from a non-waiting session (or a new sender) without saved symptoms: the reply asks for symptoms, the history is untouched, and the session changes only to WAITING_FOR_SYMPTOMS with the message as the pending query |
| WhatsAppBot.UpdateCommandAsksAgain | Bloomagain/agenting/whatsapp_connection/whatsapp_connection.py:158-168 | an update command without saved symptoms: the reply asks for symptoms, the history is untouched, and the session changes only to WAITING_FOR_SYMPTOMS, pending "update symptoms request", flag False and symptoms None |
| WhatsAppBot.UpdateCommandIsNotBasic | Bloomagain/agenting/whatsapp_connection/whatsapp_connection.py:158 | an update command is neither empty nor a greeting and never passes the basic-query rule, so it always reaches the update branch |
| WhatsAppBot.SessionStepRoutes | Bloomagain/agenting/whatsapp_connection/whatsapp_connection.py:94-141 | a session that is not waiting hands a message that is not a basic query to the routed branch |
| WhatsAppBot.RoutedStepAsksForSymptoms | Bloomagain/agenting/whatsapp_connection/whatsapp_connection.py:170-179 | without saved symptoms, a message that is not an update command becomes the pending query while the bot asks for symptoms |
| WhatsAppBot.RoutedStepUpdates | Bloomagain/agenting/whatsapp_connection/whatsapp_connection.py:158-168 | without saved symptoms, an update command resets the symptoms and the flag and waits with the fixed pending request |
| WhatsAppBot.TransitionOfKnownSender | Bloomagain/agenting/whatsapp_connection/whatsapp_connection.py:89-90 | for a number that has a session, a message that changes it went through the session step unchanged |
| WhatsAppBot.SessionStepWaits | Bloomagain/agenting/whatsapp_connection/whatsapp_connection.py:127-179 | from INITIAL, only the non-basic (routed) branch can change the session |
| WhatsAppBot.RoutedStepWaits | Bloomagain/agenting/whatsapp_connection/whatsapp_connection.py:143-179 | the routed branch waits only when no symptoms are saved |
| WhatsAppBot.GreetingsChangeNothing | Bloomagain/agenting/whatsapp_connection/whatsapp_connection.py:78-87 | empty bodies and hi/hello/start/help get a fixed text and change no session and no history |
| WhatsAppBot.UpdateIgnoredWhileSymptomsSaved | Bloomagain/agenting/whatsapp_connection/whatsapp_connection.py:143-164 | "update symptoms" does not reset a session that has saved symptoms |
| WhatsAppBot.SavedSymptomsKeepSession | Bloomagain/agenting/whatsapp_connection/whatsapp_connection.py:127-164 | while symptoms are saved and the session is not waiting, no message changes any session |
| WhatsAppBot.RegisteredProfileIsRejected | Bloomagain/agenting/whatsapp_connection/whatsapp_connection.py:304-321 | after `register_user_profile` replaces a session with a profile that has no `state`, every later non-greeting message gets the generic error reply |
| WhatsAppBot.WhatsAppBot.constructor | Bloomagain/agenting/whatsapp_connection/whatsapp_connection.py:15-64 | no sessions, a fresh orchestrator with an empty history |
| WhatsAppBot.WhatsAppBot.GetUserSession | Bloomagain/agenting/whatsapp_connection/whatsapp_connection.py:229-239 | the sessions become `WithSession(old, phone)` and the stored record is returned |
| WhatsAppBot.WhatsAppBot.UpdateUserSession | Bloomagain/agenting/whatsapp_connection/whatsapp_connection.py:241-245 | the sessions become `Updated(old, phone, updates)` |
| WhatsAppBot.WhatsAppBot.GetUserData | Bloomagain/agenting/whatsapp_connection/whatsapp_connection.py:218-222 | the stored record of the number, or None |
| WhatsAppBot.WhatsAppBot.SaveUserData | Bloomagain/agenting/whatsapp_connection/whatsapp_connection.py:224-227 | the number's entry is replaced |
| WhatsAppBot.WhatsAppBot.RegisterUserProfile | Bloomagain/agenting/whatsapp_connection/whatsapp_connection.py:304-321 | the whole session is replaced by the profile; the result is True |
| WhatsAppBot.WhatsAppBot.IsBasicQuery | Bloomagain/agenting/whatsapp_connection/whatsapp_connection.py:247-274 | true iff the lower-cased message contains a basic keyword, or both a general pattern and a menopause term |
| WhatsAppBot.WhatsAppBot.ProcessWhatsAppMessage | Bloomagain/agenting/whatsapp_connection/whatsapp_connection.py:66-185 | the reply is the text of `Transition`'s reply; sessions and history are those of `Transition` |
| WhatsAppBot.WhatsAppBot.AnswerInSession | Bloomagain/agenting/whatsapp_connection/whatsapp_connection.py:89-179 | once the session exists, reply, sessions and history are those of `SessionStep` |
| WhatsAppBot.WhatsAppBot.AnswerSymptoms | Bloomagain/agenting/whatsapp_connection/whatsapp_connection.py:94-125 | for a session waiting for symptoms, reply, sessions and history are those of `WaitingStep` |
| WhatsAppBot.WhatsAppBot.AnswerRouted | Bloomagain/agenting/whatsapp_connection/whatsapp_connection.py:142-179 | for a non-basic message, reply, sessions and history are those of `RoutedStep` |
| BasicQuery.SymptomLinesExactly | Bloomagain/agenting/agents/basic_query.py:28-35 | every symptom column with a non-empty parsed list has its line, naming the column and the count; every line is such a column's line; there are no more lines than columns, and none exactly when no column is logged |
| BasicQuery.SymptomLines | Bloomagain/agenting/agents/basic_query.py:28-35 | one line per logged symptom column, in column order: `SymptomLinesAppend` and `SymptomLinesSnoc` fix order and multiplicity, `SymptomLinesExactly` which lines occur |
| BasicQuery.SymptomLinesAppend | Bloomagain/agenting/agents/basic_query.py:28-34 | the lines for two runs of columns are the first run's lines followed by the second's, so lines follow column order |
| BasicQuery.SymptomLinesSnoc | Bloomagain/agenting/agents/basic_query.py:28-34 | a further column adds exactly its one line at the end when it is logged, and nothing otherwise |
| BasicQuery.SymptomSummaryLines | Bloomagain/agenting/agents/basic_query.py:28-35 | the loop over the symptom columns gives exactly `SymptomLines` |
| BasicQuery.MoodLines | Bloomagain/agenting/agents/basic_query.py:36-41 | a mood line exactly when a non-empty mood object was parsed |
| BasicQuery.MoodLine | Bloomagain/agenting/agents/basic_query.py:36-41 | the mood line lists the parsed mood keys joined by ", "; `MoodLines` states when it appears |
| BasicQuery.LogSummary | Bloomagain/agenting/agents/basic_query.py:24-26 | missing or empty logs give "No recent logs found for this user." |
| BasicQuery.NothingLoggedExactly | Bloomagain/agenting/agents/basic_query.py:42-44 | for non-empty logs the summary is the "no specific symptoms" text iff no symptom and no mood was logged |
| BasicQuery.FirstLineIsBullet | Bloomagain/agenting/agents/basic_query.py:34-40 | the first summary line is non-empty and starts with '-', so a summary with lines never equals the "nothing logged" text |
| BasicQuery.SummarizeUserLogs | Bloomagain/agenting/agents/basic_query.py:24-44 | the loop's summary equals `LogSummary` |
| BasicQuery.Age | Bloomagain/agenting/agents/basic_query.py:65 | the age is the number of whole years: the age-th birthday is not after today, the next one is |
| BasicQuery.AgeMonotone | Bloomagain/agenting/agents/basic_query.py:65 | the age never decreases as time passes |
| BasicQuery.AgeValue | Bloomagain/agenting/agents/basic_query.py:63-68 | an integer age iff the dob is a parsable string, else "unknown" |
| BasicQuery.UserName | Bloomagain/agenting/agents/basic_query.py:59 | "there" without a profile or a name, otherwise the name |
| BasicQuery.ShortResponseIsListedReply | Bloomagain/agenting/agents/basic_query.py:76 | a query is a short response iff its stripped lower-case form is one of the eleven listed words (the three-word bound is implied) |
| BasicQuery.IsShortResponse | Bloomagain/agenting/agents/basic_query.py:76 | at most three words after stripping, and the stripped lower-case query is a listed reply; `ShortResponseIsListedReply` shows the word bound is implied |
| BasicQuery.ListedReplyIsOneWord | Bloomagain/agenting/agents/basic_query.py:76 | a listed reply splits into one word |
| BasicQuery.ListedReplyHasNoWhitespace | Bloomagain/agenting/agents/basic_query.py:76 | a listed reply contains no whitespace |
| BasicQuery.ShortRepliesAreLetters | Bloomagain/agenting/agents/basic_query.py:76 | the listed replies are lower-case letters only |
| BasicQuery.Greeting | Bloomagain/agenting/agents/basic_query.py:79-84 | first query first, then short response, then returning user |
| BasicQuery.ContextOrDefault | Bloomagain/agenting/agents/basic_query.py:91 | an empty or missing context becomes "No previous conversation history." |
| BasicQuery.ProfileDict.constructor | Bloomagain/agenting/agents/basic_query.py:52 | the dictionary the caller passes |
| BasicQuery.ProfileDict.RecordAge | Bloomagain/agenting/agents/basic_query.py:62-68 | `age` is written iff `dob` is present; nothing else changes |
| BasicQuery.Run | Bloomagain/agenting/agents/basic_query.py:52-119 | an empty profile is untouched; a profile without `dob` raises and is untouched; otherwise `age` is written into the caller's dictionary; the reply is the stripped LLM text |
| Consultation.StripBloomPrefix | Bloomagain/agenting/agents/consultation.py:44 | a leading "bloom:" in any case, the whitespace after it and one quote are removed; nothing else is |
| Consultation.StripTrailingQuote | Bloomagain/agenting/agents/consultation.py:47 | one final quote is removed (or one before a final newline) |
| Consultation.Tidy | Bloomagain/agenting/agents/consultation.py:62-65 | the text is trimmed, with no two consecutive whitespace characters and no two consecutive periods |
| Consultation.AddFollowUp | Bloomagain/agenting/agents/consultation.py:67-72 | texts of 30+ characters or ending in '?' are unchanged; others get ". " (unless empty or ending in '.') and the question; the result always has 30+ characters or ends in '?' |
| Consultation.Cleaned | Bloomagain/agenting/agents/consultation.py:39-74 | the cleaned answer has 30+ characters or ends in '?' |
| Consultation.CleanedNeverEmpty | Bloomagain/agenting/agents/consultation.py:67-72 | the cleaned answer is never empty |
| Consultation.CleanResponseAndAddFollowup | Bloomagain/agenting/agents/consultation.py:39-74 | the step-by-step cleaning with its disclaimer loop equals `Cleaned` |
| Consultation.RemoveDisclaimers | Bloomagain/agenting/agents/consultation.py:50-60 | the disclaimer loop applies the deletions in list order, as `ApplyAll` |
| Consultation.ApplyAll | Bloomagain/agenting/agents/consultation.py:50-60 | the given disclaimer deletions composed in list order, the first applied first; `RemoveDisclaimers` is proved to compute it |
| Consultation.PromptFor | Bloomagain/agenting/agents/consultation.py:80-82 | the fixed defaults for a missing profile, logs or context |
| Consultation.Run | Bloomagain/agenting/agents/consultation.py:76-121 | the cleaned answer with `user_context_used`, or the fixed apology with `error` when the LLM raises; `agent_type` "consultation" either way |
| Diet.Snippet | Bloomagain/agenting/agents/diet.py:204-206 | a document contributes iff its stripped content is longer than 50, and then at most its first 400 characters |
| Diet.Snippets | Bloomagain/agenting/agents/diet.py:203-206 | never more contributions than documents |
| Diet.SnippetsSnoc | Bloomagain/agenting/agents/diet.py:203-206 | documents contribute in retrieval order |
| Diet.SnippetsComeFromDocuments | Bloomagain/agenting/agents/diet.py:203-206 | every contribution is the snippet of a document |
| Diet.QualifyingDocumentsContribute | Bloomagain/agenting/agents/diet.py:203-206 | every qualifying document contributes |
| Diet.NoSnippetsExactly | Bloomagain/agenting/agents/diet.py:208 | there are no contributions iff no document qualifies |
| Diet.Combined | Bloomagain/agenting/agents/diet.py:208 | the text is "No relevant information found." exactly when no top document contributes, since every contribution is longer than that text |
| Diet.OnlyTopTwoCount | Bloomagain/agenting/agents/diet.py:203 | documents after the second never change the result |
| Diet.TwoQualifyingDocuments | Bloomagain/agenting/agents/diet.py:203-208 | two qualifying documents give their snippets joined by a blank line |
| Diet.OneQualifyingDocument | Bloomagain/agenting/agents/diet.py:203-208 | with exactly one qualifying document among the top two, the text is that snippet alone, without a separator |
| Diet.OnlySnippetOfTop | Bloomagain/agenting/agents/diet.py:203-207 | then that document's snippet is the only contribution |
| Diet.TopTwoSnippets | Bloomagain/agenting/agents/diet.py:203-207 | the contributions of the top two documents are each one's own contribution, in retrieval order |
| Diet.DietaryInformation | Bloomagain/agenting/agents/diet.py:191-211 | the fixed texts for no retriever, a failed retrieval and an empty one; otherwise the combined snippets |
| Diet.GetDietaryInformation | Bloomagain/agenting/agents/diet.py:191-211 | the loop over the top documents equals `DietaryInformation` |
| Diet.PromptFor | Bloomagain/agenting/agents/diet.py:217-219 | the fixed defaults for a missing profile, logs or context, `str()` otherwise |
| Diet.Run | Bloomagain/agenting/agents/diet.py:213-265 | the LLM's text with `user_context_used`, or the fixed apology with `error`; `agent_type` "diet_agent_simplified" either way |
| App.BadRequest | Bloomagain/agenting/app.py:50-51 | status 400 with only the error text |
| App.BadRequestWithStatus | Bloomagain/agenting/app.py:129-140 | status 400 with the error text and `status` "error" |
| App.ServerError | Bloomagain/agenting/app.py:75-80 | status 500, "Server error: " followed by the exception's text, `status` "error" |
| App.StrippedField | Bloomagain/agenting/app.py:53-54 | a string field is stripped; any other value raises |
| App.QueryAndUser | Bloomagain/agenting/app.py:50-57 | missing body or key gives 400 "Request must include …"; a non-string query (checked first), then a non-string user id, makes `.strip()` raise and gives the 500 for that error; accepted fields are the stripped, non-empty query and user id; other rejections are 400 "Empty query or user_id provided" |
| App.QueryOnly | Bloomagain/agenting/app.py:129-140 | a missing query gives 400 "No query provided", a blank one 400 "Empty query provided", a non-string one the 500 for the error `.strip()` raises; a string query that does not strip to nothing is accepted, stripped |
| App.ReplyValue | Bloomagain/agenting/app.py:150-153 | the dict's `output` whatever its type, else `str(result)`; agrees with the orchestrator's extraction |
| App.Chat | Bloomagain/agenting/app.py:43-80 | a rejected request gets the validation response; for an accepted one, a failing pipeline gives 500 "Server error: " and its error text, a returning one a 200 echoing the stripped user id and query with the pipeline's text and `status` "success"; statuses are 200, 400 or 500 |
| App.BasicQueryEndpoint | Bloomagain/agenting/app.py:82-119 | a 400 rejection is returned as is; a non-string field or a failing agent gives 500 with the fixed internal-error text; a returning agent gives 200, which also reports category BASIC_QUERY |
| App.AgentEndpoint | Bloomagain/agenting/app.py:123-259 | validation of `query` only; a failing agent gives 500 "Server error: " and its error text; a 200 carries the query, the agent's response and the endpoint's fixed category |
| App.AgentEndpointAnswers | Bloomagain/agenting/app.py:129-160 | a valid query whose agent returns gets 200 with the agent's reply under `response` |
| App.ChatIgnoresPadding | Bloomagain/agenting/app.py:53-57 | whitespace around the query and user id never changes the response |
| App.PaddingKeepsValidation | Bloomagain/agenting/app.py:53-57 | validating fields stripped in advance gives the same result as validating the originals |
| App.ValidationOfStrings | Bloomagain/agenting/app.py:50-57 | with both fields present as strings, validation fails (400 "Empty query or user_id provided") exactly when one strips to nothing, and otherwise yields both stripped |
| App.ConsultationEndpointAnswers | Bloomagain/agenting/app.py:145-160 | with the consultation agent, a non-blank query always gets 200 with the cleaned answer or the apology |
| App.DietEndpointAnswers | Bloomagain/agenting/app.py:237-252 | with the diet agent, a non-blank query always gets 200 with the LLM's text or the apology |
| DescopeAuth.Request.constructor | backend/middleware/descopeAuth.js:19 | a request carries its Authorization header and no user yet |
| DescopeAuth.Refusal | backend/middleware/descopeAuth.js:21-24 | the `{success: false, message}` answer |
| DescopeAuth.BearerToken | backend/middleware/descopeAuth.js:19-27 | a token exists iff the header starts with exactly "Bearer ", and the header is "Bearer " + token |
| DescopeAuth.BearerTokenRoundTrip | backend/middleware/descopeAuth.js:27 | extracting from "Bearer " + t gives back t |
| DescopeAuth.Authenticated | backend/middleware/descopeAuth.js:19-45 | claims and token exist iff the header is well-formed, the client exists and validation succeeds |
| DescopeAuth.SessionVerdict | backend/middleware/descopeAuth.js:16-55 | `next` iff authenticated; 401 for a bad header; 500 iff the header is good and the client is missing; a rejected token gives 401 with the error only in development |
| DescopeAuth.ValidateDescopeSession | backend/middleware/descopeAuth.js:16-55 | on `next`, `req.user` and `req.sessionToken` hold the claims and token; on refusal the request is untouched |
| DescopeAuth.OptionalDescopeSession | backend/middleware/descopeAuth.js:60-88 | always `next`; `req.user` is the claims on success and null otherwise; the token is set only on success |
| DescopeAuth.RequireAdmin | backend/middleware/descopeAuth.js:93-113 | 401 iff no user; `next` iff a role is exactly "admin" or "Admin"; 403 otherwise |
| DescopeAuth.ValidatedRequestsReachRoleCheck | backend/middleware/descopeAuth.js:42-45 | after successful validation `requireAdmin` never answers 401 |
| DescopeAuth.MissingRolesAreNotAdmin | backend/middleware/descopeAuth.js:102-103 | a user without roles is refused with 403 |
| DescopeAuth.Roles | backend/middleware/descopeAuth.js:102 | the roles claim, or an empty list when it is missing; `RequireAdmin` and `MissingRolesAreNotAdmin` state the admin test over it |
| ApiService.Show | services/api.js:45-47 | `String(v)` of a string is the string itself |
| ApiService.Prop | services/api.js:58 | reading a property of null or undefined throws a TypeError; an object gives its field |
| ApiService.OptionalProp | services/api.js:28 | `?.` gives undefined where `.` would throw |
| ApiService.AuthorizationFor | services/api.js:44-47 | "Bearer " + the Descope JWT when truthy, else "Bearer " + the stored token when truthy, else none |
| ApiService.ConfigFor | services/api.js:41-51 | Content-Type json and the chosen Authorization, unless the caller gives `headers`, which then replace them entirely |
| ApiService.RequestOutcome | services/api.js:53-65 | success iff fetch and parsing succeed and the response is ok; the result is then the parsed body |
| ApiService.RefusalMessages | services/api.js:57-59 | a refused response throws the server's message, or "HTTP error! status: N" when there is none |
| ApiService.TokenToStore | services/api.js:75-77 | a token is stored only when `success` and `data.token` are truthy |
| ApiService.SuccessWithoutDataThrows | services/api.js:75 | a success response without `data` makes register and login throw |
| ApiService.APIService.constructor | services/api.js:5-9 | base URL set; both credentials null |
| ApiService.APIService.SetToken | services/api.js:12-14 | only the token changes |
| ApiService.APIService.SetDescopeSession | services/api.js:17-19 | only the session changes |
| ApiService.APIService.GetToken | services/api.js:22-24 | the stored token |
| ApiService.APIService.GetDescopeSessionToken | services/api.js:27-29 | the session's JWT when truthy, otherwise null (also without a session) |
| ApiService.APIService.ClearToken | services/api.js:32-35 | both credentials become null |
| ApiService.APIService.Request | services/api.js:38-66 | the result is `RequestOutcome` for the configured headers; credentials are not changed |
| ApiService.APIService.Authenticate | services/api.js:69-93 | the shared body of register and login: the token changes only as `TokenToStore` says; a throw leaves it alone |
| ApiService.APIService.Register | services/api.js:69-80 | the token is set only from a successful response's truthy `data.token`; the result is the request's outcome (a thrown error, or the response, falsy `success` included), except that a `success` response without `data` throws the TypeError |
| ApiService.APIService.Login | services/api.js:82-93 | the same for login: the token only from a truthy `data.token`, and the result is the request's outcome or the TypeError of a `success` response without `data` |
| ApiService.APIService.Logout | services/api.js:95-103 | both credentials are cleared whether or not the request throws, and the throw is passed on |
| ApiService.APIService.ExampleProtectedFetch | services/api.js:136-152 | without a Descope JWT it throws "No Descope session available" without fetching; otherwise it sends only that JWT |
| ApiService.DescopeSessionTakesPrecedence | services/api.js:45-47 | a Descope JWT wins over any stored token |
| ApiService.ClearedCredentialsSendNoAuthorization | services/api.js:32-47 | after clearing, no Authorization header is sent |

## Left out

- BasicQuery.LogSummary: a symptom cell that decodes to a truthy value without a length (the text "5" or "True", say) makes `len(dates)` raise a TypeError, which `summarize_user_logs` does not catch and which escapes `run`; a `Parsed` cell always holds a list, so the model always yields a summary there.
- LLM calls, their prompt texts, and the LangChain memory in `BasicQueryAgent` are not modelled. Each LLM call is a parameter, and `None` means it raised.
- Retrieval setup is a parameter: WebBaseLoader, the splitter, Chroma and the embeddings. A retriever that could not be built is `None`.
- The pandas CSV loading and the `.loc` lookups are not modelled: profile and log rows are passed in as values. `pd.notna` and NaN are a cell kind (`NotANumber`).
- `ast.literal_eval` and `json.loads` in `summarize_user_logs` are not modelled. Cells arrive already parsed, or as `Unparseable`. A mood value that parses to something other than an object is not modelled.
- The current date and `strptime` are not modelled: the date is a parameter and parsing is a partial function.
- Regex semantics of the pattern deletions are not modelled. This covers the DOTALL/IGNORECASE patterns of `clean_response` and the consultation disclaimers; both are abstract string transforms (`Backend.removePatterns`, `Consultation.ApplyAll`). The collapsing steps after them are modelled.
- Strings.Lower and Strings.Upper: ASCII letters only. Python's full Unicode case mapping is not modelled.
- Twilio and Flask I/O are not modelled: MessagingResponse/TwiML, `request.form`, `send_whatsapp_message`, `jsonify`, and `request.get_json` errors. A body that is JSON but not an object is also not modelled.
- Exceptions with no modelled cause are not modelled. In the webhook's outer handler, only the cases reachable in the model lead to the generic reply: a missing `state` key, and a saved-symptoms check on a session without its keys.
- WhatsAppBot.Transition: a pending query or saved symptoms that is not a string is passed on as its `str()` (`ValueText`). The Python rendering of non-string values is not modelled beyond that.
- WhatsAppBot.TruncateMessage: only the default `max_length` of 1500 is modelled, which is the only value the callers use. The float comparison `break_point > 1500 * 0.8` is exact there (1200.0).
- A missing `From` field (`from_number` None) is not modelled: `.replace` on None raises, and the generic reply would follow.
- BasicQuery.Run: the profile-details text (`title()` of the keys) and the `ConversationBufferMemory` save are not modelled. The result states the age write-back and the reply.
- The `str()` of Python dictionaries is a parameter (`Backend.repr`), because its quoting and escaping are not modelled.
- ApiService.Json: JavaScript numbers are modelled as integers, and `Show` of an object is "[object Object]". A present-but-undefined `options.headers` is not distinguished from an absent one.
- DescopeAuth.ValidateDescopeSession: `validateSession` resolving to null is not modelled; the SDK resolves to claims or rejects. A `roles` claim that is not an array (where `includes` would test substrings) is not modelled either.
- `exercise.py` is not part of this model. It only assembles a prompt and calls the LLM, and reaches the model as the `Exercise` category of `runAgent`.
- The React Native screens, the calendar tab's date grid, backend/index.js, backend/routes/descopeAuth.js and the configuration files are not part of this model.
