# ThinkTrove core, modelled in Dafny

ThinkTrove is a tutoring service. A teacher stores lesson configurations, which are mystery-style science lessons. A student's chat is sent, under the lesson's system prompt, to the Groq chat-completion API, with two API keys used in rotation. This project models the service's core in Dafny and proves what each part promises.

The parts modelled:

- **Server gateway** (`groq.dfy`, module `Groq`):
  - the key rotation, as a class `GroqService` whose field `apiKeyIndex` each `GetNextApiKey` call updates;
  - prompt construction from a lesson, with its required-field loop;
  - conversation summarisation above a threshold;
  - response generation;
  - the classification of provider failures into error messages.
- **Prompt templates** (`system_prompt.dfy`): the three template versions.
  - `promptV2` is the active one. Like the other two it is trimmed, which takes off only its leading newline.
- **Validators** (`config_utils.dfy`).
- **Error utilities and handler** (`errors.dfy`), plus the route reply shape (`http.dfy`).
- **Chat route** (`chat_route.dfy`): maps gateway error messages to HTTP errors by the markers they contain.
- **Configuration routes** (`config_route.dfy`): the stored list is the `seq` field of a class `ConfigStore`. Its methods are proved against pure handler functions.
- **Client state updaters**:
  - `app.dfy`: the configuration list and the selection;
  - `teacher_view.dfy`: the lesson form and its create/edit/manage modes.

JavaScript values are a `Value` datatype, and objects are maps from keys to values (`js.dfy`). Truthiness, `||`, `===`, `String(v)`, `join`, `includes`, `trim` and `slice` with negative indices are written out there. Template literals are modelled as lists of literal and interpolated pieces. The prompt properties say that a labelled line, followed by the configuration's own text, occurs in the prompt.

Anything outside the process becomes a parameter of the model:

- what a network call returns (`GroqOutcome`);
- the contents of the configuration file;
- the environment settings (`GroqEnv`, `NODE_ENV`);
- generated ids and timestamps;
- the user's confirmation.

Two behaviours of the code run against its comments, and the model follows the code:

- `PUT /api/config/:id` keeps the stored `id` and `createdAt` only when the body does not send its own, although its comment says they are kept.
- The client's initial load reads the selection captured at mount, which is always null. So a non-empty load always selects the first configuration.

## Model

| member | source | states |
|---|---|---|
| Js.Or | server/src/services/groq.js:135 | `a || b` yields `a` when it is truthy and `b` otherwise |
| Js.Contains | server/src/routes/chat.js:53 | `String.prototype.includes`: true exactly when the text occurs at some position |
| Js.RelativeIndex | server/src/services/groq.js:174-175 | a negative `slice` index counts from the end and is clamped into `0..len` |
| Js.Trim | server/src/services/systemPrompt.js:28 | `trim` removes exactly the leading and trailing whitespace |
| Js.FindIndexById | server/src/routes/config.js:86 | `findIndex` by `===` on `id`: the first matching index, or -1 exactly when nothing matches |
| Js.FindById | server/src/routes/chat.js:29 | `find` by `===` on `id`: present exactly when some record matches, and then the first match |
| ConfigUtils.MissingFields | server/src/utils/config.js:68 | the filter keeps exactly the listed fields whose value is falsy |
| ConfigUtils.MissingFieldsAppend | server/src/utils/config.js:68 | the filter keeps list order: the result for `a + b` is the result for `a` followed by that for `b` |
| ConfigUtils.FirstMissingField | server/src/services/groq.js:69-73 | no result exactly when every field is truthy; otherwise the first listed field whose value is falsy: every field before it is truthy |
| ConfigUtils.FirstMissingFieldFrom | server/src/services/groq.js:69-73 | once a prefix is known to be present, the first missing field lies in the rest |
| ConfigUtils.MissingFieldsFirst | server/src/utils/config.js:68-71 | the filter is empty exactly when the loop finds nothing, and otherwise it begins with the field the loop stops at |
| ConfigUtils.ValidateConfig | server/src/utils/config.js:61-75 | accepts (returning true) exactly when all nine required fields are truthy |
| ConfigUtils.ValidateConfigNamesMissing | server/src/utils/config.js:68-72 | a falsy required field makes the check fail; the message holds all missing fields in order joined by ", ", including this one |
| ConfigUtils.ValidateChatRequest | server/src/utils/config.js:80-98 | accepts exactly a truthy configId with a message array whose every message has a truthy role and content; otherwise the first failed check picks the message |
| ConfigUtils.WellFormed | server/src/utils/config.js:91 | see `ConfigUtils.ValidateChatRequest`: a message passes exactly when role and content are both truthy |
| ConfigUtils.EmptyConversationAccepted | server/src/utils/config.js:87-95 | an empty message array passes |
| ConfigUtils.ValidatorsAgree | server/src/utils/config.js:62-68 | `validateConfig` accepts exactly the configs the prompt builder's field loop lets through |
| Errors.NewApiError | server/src/utils/errors.js:9-19 | keeps status and message; operational unless told otherwise; a non-empty stack is kept and an empty one is captured |
| Errors.Factories | server/src/utils/errors.js:25-69 | the seven factories: status codes 400, 401, 403, 404, 429, 500 and 502, their default messages, and that only 500 and 502 are not operational |
| Errors.ErrorHandler | server/src/utils/errors.js:74-95 | status defaults to 500 and message to "Internal Server Error"; the stack is shown exactly in development for an error that is not operational, where a missing flag counts as not operational |
| Errors.HandledApiError | server/src/utils/errors.js:84-93 | a factory-made error keeps its status and message through the handler; its stack is shown exactly in development for a non-operational one |
| Errors.HandledPlainError | server/src/utils/errors.js:84-93 | a plain `Error` becomes a 500 whose stack is shown in development |
| Http.FinalStatus | server/src/utils/errors.js:84-89 | the client sees the route's own status, or the forwarded error's status code |
| Groq.RotateKey | server/src/services/groq.js:23-35 | with no second key, the first key and no change; otherwise the index flips and selects key 1 at index 0 and key 2 at index 1 |
| Groq.Rotation | server/src/services/groq.js:23-35 | n calls give n keys |
| Groq.Advance | server/src/services/groq.js:23-35 | the rotation state stays valid after any number of calls |
| Groq.RotationAlternates | server/src/services/groq.js:29-34 | with two keys the calls alternate between them, and n calls move the index by n mod 2 |
| Groq.FreshRotation | server/src/services/groq.js:20-34 | because the index starts at 1, the first call uses the first key, the second call the second key, and so on |
| Groq.SingleKeyRotation | server/src/services/groq.js:24-27 | with no second key every call returns the first key and the index never moves |
| Groq.GroqService.constructor | server/src/services/groq.js:7-20 | the keys and settings are those given, the index is 1 and the rotation state is valid |
| Groq.GroqService.GetNextApiKey | server/src/services/groq.js:23-35 | the returned key and the new index are those of `RotateKey` applied to the old index |
| Groq.Classify | server/src/services/groq.js:326-359 | success exactly for a completed reply, with its content; 401, 429 and 5xx map to their fixed messages; other statuses give "Groq API error: " plus the detail; no response, and the other failures, each map to their fixed message |
| Groq.ErrorDetail | server/src/services/groq.js:351 | see `Groq.Classify`: the detail of an unclassified status is the error message when truthy, else the raw body |
| Groq.Summarization | server/src/services/groq.js:166-241 | at or under the threshold: the input, with no request and no key taken. Above it a key is taken, and a request is sent exactly when that key is non-empty. Only a completed reply changes the list, to one summary message followed by the recent part |
| Groq.RecentSplit | server/src/services/groq.js:174-175 | for k >= 1, `slice(0, -k)` and `slice(-k)` split the list, the second being the last min(k, n) messages |
| Groq.SummarySucceeds | server/src/services/groq.js:172-235 | a completed summary gives one summary message followed by the last min(k, n) messages; the request carries the older messages between the fixed instruction and request |
| Groq.SummaryPrompt | server/src/services/groq.js:176-189 | see `Groq.SummarySucceeds`: the older messages between the fixed system instruction and the fixed user request |
| Groq.SummaryMessage | server/src/services/groq.js:229-233 | see `Groq.SummarySucceeds` and `Groq.SummaryKeepsNonSystem`: an assistant message carrying the summary |
| Groq.SummaryFallsBack | server/src/services/groq.js:236-240 | a failed summary request, or a missing key, gives back the original list |
| Groq.GroqService.SummarizeConversation | server/src/services/groq.js:166-241 | result, request and new index are those `Summarization` specifies |
| Groq.FirstSystem | server/src/services/groq.js:285 | no result exactly when no message has the role "system"; a result is a system message |
| Groq.FirstSystemIsFirst | server/src/services/groq.js:285 | the result is the earliest system message |
| Groq.NonSystem | server/src/services/groq.js:286 | the result has no system message, and every message in it comes from the input |
| Groq.NonSystemAppend | server/src/services/groq.js:286 | the filter keeps order: the result for `a + b` is the result for `a` followed by that for `b` |
| Groq.NonSystemKeeps | server/src/services/groq.js:286 | a list without system messages passes the filter unchanged |
| Groq.Generation | server/src/services/groq.js:266-361 | the rotation state stays valid after the call |
| Groq.KeyTakenFirst | server/src/services/groq.js:268-276 | a missing key fails before the messages are checked; bad messages still advance the rotation |
| Groq.TestModeMocks | server/src/services/groq.js:278-282 | in test mode, with a key and a non-empty conversation, the reply is the mock text, no request is sent and the rotation has moved once |
| Groq.Assembly | server/src/services/groq.js:285-300 | the main request uses the key taken at entry; the list it sends is the first system message (if any) and then the non-system messages, summarised only above the threshold; no later system message survives; the result is the classified reply |
| Groq.SummaryUsesOtherKey | server/src/services/groq.js:192-268 | with two distinct keys, a call that summarises sends two requests with different keys and moves the rotation twice |
| Groq.GroqService.GenerateAIResponse | server/src/services/groq.js:266-361 | result, requests and new index are those `Generation` specifies |
| Groq.SystemPromptFor | server/src/services/groq.js:57-73 | a missing config is an error; a present config gives a prompt exactly when all nine fields are truthy, and otherwise "Missing required field in config: " followed by the first falsy field |
| Groq.CreateSystemPrompt | server/src/services/groq.js:57-98 | the loop gives what `SystemPromptFor` specifies: "Missing required field in config: " with the first falsy field in list order, or the prompt |
| Groq.EmptyPhasesPass | server/src/services/groq.js:69-73 | `phases: []` passes the field check because every array is truthy |
| Groq.PromptUntrimmed | server/src/services/groq.js:98-157 | `trim` removes only the layout whitespace of the template |
| Groq.HasTitleLine | server/src/services/groq.js:108 | the template has the line "- Title: " plus lessonTitle |
| Groq.PromptText | server/src/services/groq.js:98-157 | see `Groq.PromptUntrimmed` and the `Groq.Has*Line` lemmas: the trimmed template, equal to its pieces joined |
| Groq.HasSubjectLine | server/src/services/groq.js:109 | the template has the line "- Subject: " plus subject |
| Groq.HasGradeLine | server/src/services/groq.js:110 | the template has the line "- Grade Level: " plus gradeLevel |
| Groq.HasObjectiveLine | server/src/services/groq.js:111 | the template has the line "- Learning Objective: " plus learningObjective |
| Groq.HasHintLine | server/src/services/groq.js:131 | the template interpolates `hintLimit` into "Offer up to …" |
| Groq.HasToneLine | server/src/services/groq.js:135 | the template has "Maintain a " plus `tone || 'neutral'` |
| Groq.HasExploreLine | server/src/services/groq.js:139 | the template has "Explore: " plus validHypotheses |
| Groq.HasConsiderLine | server/src/services/groq.js:140 | the template has "Consider: " plus correctConcepts |
| Groq.HasConcludeLine | server/src/services/groq.js:143 | the template has "Conclude with: " plus reflectionPrompt |
| Groq.HasAdditionalLine | server/src/services/groq.js:152 | the template has "ADDITIONAL: " plus `additionalInstructions || 'No additional instructions.'` |
| Groq.PromptNamesLesson | server/src/services/groq.js:108-111 | the prompt contains title, subject, grade level and objective verbatim on their labelled lines |
| Groq.PromptNamesContent | server/src/services/groq.js:139-143 | the prompt contains validHypotheses, correctConcepts and reflectionPrompt verbatim on their labelled lines |
| Groq.PromptDefaults | server/src/services/groq.js:131-152 | the prompt carries the hint limit, the tone (with its fallback) and the additional instructions (with theirs) |
| Groq.HasNeutralTone | server/src/services/groq.js:135 | a falsy tone reads "neutral" in the template |
| Groq.HasNoAdditional | server/src/services/groq.js:152 | falsy additionalInstructions read "No additional instructions." in the template |
| Groq.PromptFallbacks | server/src/services/groq.js:135-152 | a falsy tone gives "Maintain a neutral"; falsy additionalInstructions give "ADDITIONAL: No additional instructions." |
| Groq.PromptIgnores | server/src/services/groq.js:98-157 | the prompt stays the same whatever phases, misconceptions and maxHints are |
| SystemPrompt.GenerateSystemPrompt | server/src/services/systemPrompt.js:1-3 | defined exactly when phases is an array, and then equal to promptV2 |
| SystemPrompt.PhasesText | server/src/services/systemPrompt.js:14 | an array is joined with ", "; any other value is inserted with `String(v)` |
| SystemPrompt.AdditionalLine | server/src/services/systemPrompt.js:27 | "Additional Instructions: " plus the value when it is truthy, and empty otherwise |
| SystemPrompt.V0HasObjectiveLine | server/src/services/systemPrompt.js:9 | the prompt has "LESSON OBJECTIVE: " plus learningObjective |
| SystemPrompt.PromptV0 | server/src/services/systemPrompt.js:5-29 | see the `SystemPrompt.V0*` lemmas: the trimmed template with every labelled line present |
| SystemPrompt.V0HasToneLine | server/src/services/systemPrompt.js:13 | the prompt has "Maintain a " plus `tone || 'neutral'` |
| SystemPrompt.V0HasPhasesLine | server/src/services/systemPrompt.js:14 | the prompt has the inquiry-process sentence followed by the phases text |
| SystemPrompt.V0HasNudgeLine | server/src/services/systemPrompt.js:15 | the prompt has the sentence that nudgeOnWrongAnswers selects |
| SystemPrompt.V0HasReinforceLine | server/src/services/systemPrompt.js:16 | the prompt has the sentence that reinforceGoodReasoning selects |
| SystemPrompt.V0HasHintsLine | server/src/services/systemPrompt.js:17 | the prompt has the sentence that offerHintsIfStuck selects; the "on" sentence embeds maxHints |
| SystemPrompt.V0HasScaffoldingLine | server/src/services/systemPrompt.js:18 | the prompt has "Provide scaffolding at a " plus `scaffoldingLevel || 'moderate'` |
| SystemPrompt.V0HasHypothesesLine | server/src/services/systemPrompt.js:21 | the prompt has the subject-knowledge sentence followed by validHypotheses |
| SystemPrompt.V0HasReflectionLine | server/src/services/systemPrompt.js:25 | with truthy additionalInstructions, the prompt has the conclusion sentence followed by reflectionPrompt |
| SystemPrompt.V0HasGradeSubject | server/src/services/systemPrompt.js:7 | the prompt has gradeLevel, a space and subject |
| SystemPrompt.V0HasTitle | server/src/services/systemPrompt.js:7 | the prompt has the title in quotes after "mystery lesson titled" |
| SystemPrompt.V0FlagSentences | server/src/services/systemPrompt.js:15-17 | each of the three flags selects exactly one of its two fixed sentences |
| SystemPrompt.V0Fallbacks | server/src/services/systemPrompt.js:13-18 | a falsy tone reads "neutral" and a falsy scaffolding level reads "moderate" |
| SystemPrompt.V0Phases | server/src/services/systemPrompt.js:14 | array phases are joined with ", "; a non-array value is inserted as it is |
| SystemPrompt.V0HintBudgetUnused | server/src/services/systemPrompt.js:17 | with offerHintsIfStuck falsy, the prompt does not depend on maxHints |
| SystemPrompt.V0FalsyAdditional | server/src/services/systemPrompt.js:27 | all falsy additionalInstructions give the same prompt |
| SystemPrompt.V0EndsWithAdditional | server/src/services/systemPrompt.js:27-28 | truthy additionalInstructions appear on their labelled line |
| SystemPrompt.V0ReadsOnly | server/src/services/systemPrompt.js:5-29 | changing any field outside the fourteen the template interpolates (V0Reads) leaves the prompt unchanged |
| SystemPrompt.V0Ignores | server/src/services/systemPrompt.js:5-29 | the prompt does not depend on hintLimit, misconceptions or correctConcepts |
| SystemPrompt.V1Untrimmed | server/src/services/systemPrompt.js:32-92 | `trim` removes only the leading newline of the template |
| SystemPrompt.V1Differs | server/src/services/systemPrompt.js:53-64 | promptV1 is the active groq.js template with only its inquiry-stage guideline block replaced |
| SystemPrompt.V1HasTitleLine | server/src/services/systemPrompt.js:42 | the template has "- Title: " plus lessonTitle |
| SystemPrompt.PromptV1 | server/src/services/systemPrompt.js:31-93 | see `SystemPrompt.V1Untrimmed` and `SystemPrompt.V1Differs`: the trimmed template, the active groq.js prompt with another guidelines block |
| SystemPrompt.V1HasSubjectLine | server/src/services/systemPrompt.js:43 | the template has "- Subject: " plus subject |
| SystemPrompt.V1HasGradeLine | server/src/services/systemPrompt.js:44 | the template has "- Grade Level: " plus gradeLevel |
| SystemPrompt.V1HasObjectiveLine | server/src/services/systemPrompt.js:45 | the template has "- Learning Objective: " plus learningObjective |
| SystemPrompt.V1HasHintLine | server/src/services/systemPrompt.js:67 | the template interpolates hintLimit |
| SystemPrompt.V1HasToneLine | server/src/services/systemPrompt.js:71 | the template has "Maintain a " plus `tone || 'neutral'` |
| SystemPrompt.V1HasExploreLine | server/src/services/systemPrompt.js:75 | the template has "Explore: " plus validHypotheses |
| SystemPrompt.V1HasConsiderLine | server/src/services/systemPrompt.js:76 | the template has "Consider: " plus correctConcepts |
| SystemPrompt.V1HasConcludeLine | server/src/services/systemPrompt.js:79 | the template has "Conclude with: " plus reflectionPrompt |
| SystemPrompt.V1HasAdditionalLine | server/src/services/systemPrompt.js:88 | the template has "ADDITIONAL: " plus the value or its fallback |
| SystemPrompt.V1NamesLesson | server/src/services/systemPrompt.js:42-45 | the prompt contains title, subject, grade level and objective on their labelled lines |
| SystemPrompt.V1NamesContent | server/src/services/systemPrompt.js:75-79 | the prompt contains validHypotheses, correctConcepts and reflectionPrompt on their labelled lines |
| SystemPrompt.V1Defaults | server/src/services/systemPrompt.js:67-88 | hint limit, tone and additional instructions appear with their fallbacks, in both branches |
| SystemPrompt.V1ReadsOnly | server/src/services/systemPrompt.js:31-93 | changing any field outside the ten the template interpolates (V1Reads) leaves the prompt unchanged |
| SystemPrompt.V1Ignores | server/src/services/systemPrompt.js:31-93 | the prompt does not depend on phases, misconceptions or maxHints |
| SystemPrompt.PromptV2 | server/src/services/systemPrompt.js:95-142 | defined exactly when phases is an array (`join` throws otherwise); the text is the trimmed template (`V2Text`) |
| SystemPrompt.V2Text | server/src/services/systemPrompt.js:96-141 | see `V2Untrimmed`: the trimmed template, which is exactly the concatenation of its pieces |
| SystemPrompt.V2Untrimmed | server/src/services/systemPrompt.js:96-141 | `trim` takes off only the leading newline: the prompt is the concatenation of the template pieces and opens with "You" |
| SystemPrompt.V2HeadLifts | server/src/services/systemPrompt.js:96-110 | text in the configuration block is text of the prompt |
| SystemPrompt.V2TailLifts | server/src/services/systemPrompt.js:112-141 | text in the rest of the template is text of the prompt |
| SystemPrompt.V2HasTitleLine | server/src/services/systemPrompt.js:102 | "Lesson Title: " plus lessonTitle |
| SystemPrompt.V2HasGradeLine | server/src/services/systemPrompt.js:103 | "Grade Level: " plus gradeLevel |
| SystemPrompt.V2HasSubjectLine | server/src/services/systemPrompt.js:104 | "Subject: " plus subject |
| SystemPrompt.V2HasTimeLine | server/src/services/systemPrompt.js:105 | "Estimated Time: " plus estimatedTime |
| SystemPrompt.V2HasObjectiveLine | server/src/services/systemPrompt.js:106 | "Learning Objective: " plus learningObjective |
| SystemPrompt.V2HasTagsLine | server/src/services/systemPrompt.js:107 | "Tags: " plus tags |
| SystemPrompt.V2HasToneLine | server/src/services/systemPrompt.js:108 | "Tone: " plus tone, with no fallback |
| SystemPrompt.V2HasScaffoldingLine | server/src/services/systemPrompt.js:109 | "Scaffolding Level: " plus scaffoldingLevel |
| SystemPrompt.V2HasMaxHintsLine | server/src/services/systemPrompt.js:110 | "Max Hints: " plus maxHints |
| SystemPrompt.V2HasPhasesLine | server/src/services/systemPrompt.js:112 | "Phases: " plus the phases joined with ", " |
| SystemPrompt.V2HasHypothesesLine | server/src/services/systemPrompt.js:113 | "Valid Hypotheses: " plus validHypotheses |
| SystemPrompt.V2HasMisconceptionsLine | server/src/services/systemPrompt.js:114 | "Misconceptions: " plus misconceptions |
| SystemPrompt.V2HasConceptsLine | server/src/services/systemPrompt.js:115 | "Correct Concepts: " plus correctConcepts |
| SystemPrompt.V2HasReflectionLine | server/src/services/systemPrompt.js:116 | "Reflection Prompt: " plus reflectionPrompt |
| SystemPrompt.V2HasAdditionalLine | server/src/services/systemPrompt.js:117 | "Additional Instructions: " plus the value or "None" |
| SystemPrompt.V2HasPhaseOrderLine | server/src/services/systemPrompt.js:123 | "4. Phases: Follow " plus the phases joined with " → " |
| SystemPrompt.V2NamesSettings | server/src/services/systemPrompt.js:102-110 | the prompt lists all nine lesson settings on their labelled lines |
| SystemPrompt.V2NamesContent | server/src/services/systemPrompt.js:113-116 | the prompt contains validHypotheses, misconceptions, correctConcepts and reflectionPrompt on their labelled lines |
| SystemPrompt.V2ListsPhases | server/src/services/systemPrompt.js:112-123 | the phases appear twice: joined with ", " and joined with " → " |
| SystemPrompt.V2Additional | server/src/services/systemPrompt.js:117 | truthy additionalInstructions appear verbatim; falsy ones read "None" |
| SystemPrompt.V2ReadsOnly | server/src/services/systemPrompt.js:95-142 | changing any field outside the fifteen the template reads (V2Reads) leaves the result unchanged, failure included |
| SystemPrompt.V2Ignores | server/src/services/systemPrompt.js:95-142 | the prompt does not depend on hintLimit or on any of the three behaviour flags |
| ChatRoute.RouteError | server/src/routes/chat.js:51-64 | the first marker found decides: "Authentication failed" gives a 401, "Rate limit" a 429, "Groq service error" a 502; anything else is a 500 |
| ChatRoute.ChatPost | server/src/routes/chat.js:16-66 | invalid body: 400 with its message. Unreadable store: 500. Unknown id: 404. Otherwise the gateway is called exactly when the prompt builds, with the prompt leading the client's messages; replies 200 with the response, or the mapped error |
| ChatRoute.FirstMatchUsed | server/src/routes/chat.js:29 | the lesson used is the first stored config whose id is `===` the request's |
| ChatRoute.AuthFailedMarked | server/src/services/groq.js:344 | the 401 message contains "Authentication failed" |
| ChatRoute.RateLimitedUnauthenticated | server/src/services/groq.js:346 | the 429 message lacks "Authentication failed" |
| ChatRoute.RateLimitedMarked | server/src/services/groq.js:346 | the 429 message contains "Rate limit" |
| ChatRoute.ServiceFailedUnauthenticated | server/src/services/groq.js:348 | the 5xx message lacks "Authentication failed" |
| ChatRoute.ServiceFailedUnlimited | server/src/services/groq.js:348 | the 5xx message lacks "Rate limit" |
| ChatRoute.ServiceFailedMarked | server/src/services/groq.js:348 | the 5xx message contains "Groq service error" |
| ChatRoute.NoResponseUnauthenticated | server/src/services/groq.js:354 | the no-response message lacks "Authentication failed" |
| ChatRoute.NoResponseUnlimited | server/src/services/groq.js:354 | the no-response message lacks "Rate limit" |
| ChatRoute.NoResponseUnserviced | server/src/services/groq.js:354 | the no-response message lacks "Groq service error" |
| ChatRoute.CommunicationFailedUnauthenticated | server/src/services/groq.js:358 | the setup-failure message lacks "Authentication failed" |
| ChatRoute.CommunicationFailedUnlimited | server/src/services/groq.js:358 | the setup-failure message lacks "Rate limit" |
| ChatRoute.CommunicationFailedUnserviced | server/src/services/groq.js:358 | the setup-failure message lacks "Groq service error" |
| ChatRoute.NoKeyUnauthenticated | server/src/services/groq.js:271 | the missing-key message lacks "Authentication failed" |
| ChatRoute.NoKeyUnlimited | server/src/services/groq.js:271 | the missing-key message lacks "Rate limit" |
| ChatRoute.NoKeyUnserviced | server/src/services/groq.js:271 | the missing-key message lacks "Groq service error" |
| ChatRoute.ProviderErrorMapping | server/src/routes/chat.js:53-64 | at the client, a provider 401 is a 401, a 429 is a 429 and a 5xx is a 502; no response, a malformed reply, a setup failure and a missing key are each a 500 |
| ChatRoute.DetailDecides | server/src/routes/chat.js:55 | any other provider status is mapped by its detail text: a 400 whose detail mentions "Rate limit" becomes a 429 |
| ChatRoute.FieldNamesLowerCaseA | server/src/services/groq.js:63-64 | the first three required field names have no capital A, R or G |
| ChatRoute.FieldNamesLowerCaseB | server/src/services/groq.js:63-65 | the next three required field names have no capital A, R or G |
| ChatRoute.FieldNamesLowerCaseC | server/src/services/groq.js:65-66 | the last three required field names have no capital A, R or G |
| ChatRoute.FieldNamesLowerCase | server/src/services/groq.js:63-66 | no required field name has a capital A, R or G |
| ChatRoute.MissingFieldUnauthenticated | server/src/services/groq.js:71 | a missing-field message lacks "Authentication failed" when the field name has no capital A |
| ChatRoute.MissingFieldUnlimited | server/src/services/groq.js:71 | a missing-field message lacks "Rate limit" when the field name has no capital R |
| ChatRoute.MissingFieldUnserviced | server/src/services/groq.js:71 | a missing-field message lacks "Groq service error" when the field name has no capital G |
| ChatRoute.MissingFieldIsServerError | server/src/routes/chat.js:37-64 | a prompt-builder failure maps to the 500 "Failed to process chat message" |
| ChatRoute.IncompleteLessonRejected | server/src/routes/chat.js:35-64 | a stored lesson missing a required field never reaches the gateway, takes no key and is answered with a 500 |
| ChatRoute.PromptLeads | server/src/routes/chat.js:40-46 | the lesson's prompt is the first message the provider receives, and no system message of the client's gets through after it |
| ChatRoute.AnswerReturned | server/src/routes/chat.js:50 | a completed provider call answers 200 with `{ response: content }` |
| ConfigRoute.NewConfigRecord | server/src/routes/config.js:37-41 | the body's keys plus id and createdAt; createdAt is the new timestamp; the id is the body's own if it sends one, the generated one otherwise; other body fields are kept |
| ConfigRoute.UpdatedConfigRecord | server/src/routes/config.js:93-97 | the union of the stored and body keys plus updatedAt; body fields win over stored ones; stored fields the body lacks are kept |
| ConfigRoute.GetAllConfigs | server/src/routes/config.js:16-23 | GET answers 200 with the whole stored list |
| ConfigRoute.PostConfig | server/src/routes/config.js:26-52 | an invalid body gives a 400 with the validator's message and no change; a valid one appends the new record and answers 201 with it |
| ConfigRoute.GetConfig | server/src/routes/config.js:55-70 | found exactly when some record's id is `===` the string id, and then the first match; otherwise a 404 |
| ConfigRoute.PutConfig | server/src/routes/config.js:73-107 | the length never changes; validation comes before lookup (400, then 404); a match is replaced by its merge with the body, answered 200 |
| ConfigRoute.DeleteConfig | server/src/routes/config.js:110-129 | an unknown id gives a 404; otherwise the first match is spliced out and a fixed message is answered |
| ConfigRoute.PostThenGet | server/src/routes/config.js:37-60 | a posted record with a fresh id and no id of its own is found again by that id |
| ConfigRoute.PostThenDelete | server/src/routes/config.js:37-121 | deleting a just-posted record by its fresh id restores the list |
| ConfigRoute.PutTouchesOnlyMatch | server/src/routes/config.js:86-99 | an update changes no record except the first match |
| ConfigRoute.PutKeepsIdentity | server/src/routes/config.js:92-97 | the stored id and createdAt survive an update exactly when the body does not send its own; otherwise the body's values win |
| ConfigRoute.PutThenGet | server/src/routes/config.js:93-99 | after an update whose body has no id, the record is found again in its merged form |
| ConfigRoute.DeleteRemovesFirstMatch | server/src/routes/config.js:115-121 | one record fewer, the first match removed, and the others kept in order |
| ConfigRoute.ConfigStore.constructor | server/src/utils/config.js:33-36 | a store with no file holds the empty list |
| ConfigRoute.ConfigStore.GetAll | server/src/routes/config.js:16-19 | the reply `GetAllConfigs` gives for the stored list |
| ConfigRoute.ConfigStore.Post | server/src/routes/config.js:26-48 | the new stored list and the reply are those `PostConfig` gives |
| ConfigRoute.ConfigStore.GetById | server/src/routes/config.js:55-66 | the reply `GetConfig` gives for the stored list |
| ConfigRoute.ConfigStore.Put | server/src/routes/config.js:73-103 | the new stored list and the reply are those `PutConfig` gives |
| ConfigRoute.ConfigStore.Delete | server/src/routes/config.js:110-125 | the new stored list and the reply are those `DeleteConfig` gives |
| App.WithoutId | client/src/App.jsx:49 | keeps exactly the configs whose id is not `===` the given id, and no more than there were |
| App.WithoutIdAppend | client/src/App.jsx:49 | the filter keeps order: the result for `a + b` is the result for `a` followed by that for `b` |
| App.WithoutIdAbsent | client/src/App.jsx:49 | a list without that id passes the filter unchanged |
| App.ConfigSaved | client/src/App.jsx:31-46 | an existing id replaces the element at the first match; length and other elements are unchanged. A new id appends at the end. The selection becomes the saved id in both cases |
| App.ConfigDeleted | client/src/App.jsx:48-54 | every config with that id is removed. If it was selected, the selection becomes the first remaining id, or null. Otherwise the selection stays |
| App.ConfigsLoaded | client/src/App.jsx:14-29 | a failed load changes nothing. A successful one takes the list, and with no selection seen at mount selects the first id if the list is non-empty |
| App.LoadSelectsFirst | client/src/App.jsx:11-22 | after mount, a non-empty load selects its first config, since the effect only sees the initial null selection |
| App.SaveThenDelete | client/src/App.jsx:31-54 | saving a config with a fresh id and then deleting that id gives back the original list |
| App.SaveExistingKeepsLength | client/src/App.jsx:34-39 | saving a config whose id is already listed keeps the list length |
| TeacherView.InputChanged | client/src/components/teacher/TeacherView.jsx:35-41 | only the named field changes: a checkbox takes `checked`, any other input `value` |
| TeacherView.WithoutPhase | client/src/components/teacher/TeacherView.jsx:46 | keeps exactly the phases not `===` the given one, so none of them remains |
| TeacherView.HasPhase | client/src/components/teacher/TeacherView.jsx:45 | see `TeacherView.TogglePhase` and `TeacherView.TogglePresent`: some element of the list is `===` the phase |
| TeacherView.WithoutPhaseAppend | client/src/components/teacher/TeacherView.jsx:46 | the filter keeps order: the result for `a + b` is the result for `a` followed by that for `b` |
| TeacherView.WithoutPhaseAbsent | client/src/components/teacher/TeacherView.jsx:46 | a list without the phase passes the filter unchanged |
| TeacherView.WithoutPhaseShorter | client/src/components/teacher/TeacherView.jsx:45-46 | removing a phase that occurs shortens the list |
| TeacherView.TogglePhase | client/src/components/teacher/TeacherView.jsx:45-48 | a present phase is removed altogether, so the list gets shorter; an absent phase is appended at the end |
| TeacherView.PhasesChanged | client/src/components/teacher/TeacherView.jsx:43-51 | succeeds exactly when phases is an array, and then only phases changes, to the toggled list |
| TeacherView.TogglePresent | client/src/components/teacher/TeacherView.jsx:45-46 | toggling a present phase removes every occurrence and keeps the others in order |
| TeacherView.ToggleTwice | client/src/components/teacher/TeacherView.jsx:43-51 | toggling an absent phase twice restores the original list |
| TeacherView.SubmitRequest | client/src/components/teacher/TeacherView.jsx:61-67 | an update happens exactly in edit mode with a truthy selection, and then for that id; otherwise a create. The form is the body |
| TeacherView.Submitted | client/src/components/teacher/TeacherView.jsx:53-82 | the request is the one `SubmitRequest` picks. On success: the matching success message, a cleared error, and edit mode moves to manage. On failure: the fixed error, a cleared success message, the mode unchanged. isSubmitting ends false |
| TeacherView.Edited | client/src/components/teacher/TeacherView.jsx:84-90 | edit mode; the lesson becomes the form, the edited lesson and (by its id) the selection |
| TeacherView.FormReset | client/src/components/teacher/TeacherView.jsx:115-139 | the blank form, create mode, nothing selected or edited |
| TeacherView.EditCancelled | client/src/components/teacher/TeacherView.jsx:141-145 | manage mode, nothing selected or edited, the form kept |
| TeacherView.BlankTextFields | client/src/components/teacher/TeacherView.jsx:116-134 | the reset form has every text field empty |
| TeacherView.BlankFlags | client/src/components/teacher/TeacherView.jsx:128-130 | the reset form has all three flags true |
| TeacherView.BlankSettings | client/src/components/teacher/TeacherView.jsx:123-132 | the reset form has all six phases, the tone "Socratic but friendly", scaffolding "Moderate" and maxHints "2" |
| TeacherView.EditThenSubmitUpdates | client/src/components/teacher/TeacherView.jsx:84-88 | submitting a lesson opened for editing that has an id updates that id with the form |
| TeacherView.EditWithoutIdSavesNew | client/src/components/teacher/TeacherView.jsx:61-75 | a lesson with no id opened for editing is saved as a new one, and success still leaves edit mode for manage |
| TeacherView.ResetOrCancelSavesNew | client/src/components/teacher/TeacherView.jsx:136-145 | after a reset or a cancelled edit, the next submission creates |
| TeacherView.Deleted | client/src/components/teacher/TeacherView.jsx:92-113 | unconfirmed: nothing happens. Confirmed: the request is sent and loading ends, while the form, mode, edited lesson and submitting flag stay. On success the parent is told, the success message is set and the selection is cleared when it was this lesson. On failure the error message is set |
| TeacherView.DeleteEditedThenSubmitSavesNew | client/src/components/teacher/TeacherView.jsx:102-104 | deleting the lesson being edited clears its id but leaves edit mode, so the next submission creates |

## Left out

- File and directory I/O of the configuration store (`ensureDataDirectory`, `readConfigurations`, `writeConfigurations`): `ConfigStore` holds the list in memory. So the 500 replies "Failed to get/save/update/delete configuration(s)" on file errors are not modelled. The chat route does model an unreadable store (`configs == None`), answered with its 500.
- HTTP transport, axios instances, request timeouts, the model name, temperature and max-token settings: these are request parameters with no logic that concerns this model.
- Logging (`console.log`, `logTokenUsage`) and the key prefix/suffix printed in logs: output only.
- Concurrency: Node serialises the handlers, so every operation is modelled as one sequential step.
- `Number`: numbers are integers; floats and `parseInt`/`parseFloat` of the environment are left out. The environment settings are taken as already parsed.
- Environment keys: an unset key is the empty string (both are falsy in the source).
- JSON details: `JSON.stringify(data)` in the provider error detail is an opaque string parameter. Object key order is not modelled, since objects are maps.
- Non-object messages: messages are records with `role` and `content`, so a message that is not an object is not represented.
- The route-not-found middleware in `server/src/middleware/errorMiddleware.js` is not part of this model.
- Browser and React specifics (`window.confirm`, `scrollTo`, JSX rendering, the client's `api.js` requests): the user's answer and each request's outcome are parameters.
- Errors.ErrorHandler: `err.message` is a string, where an empty string stands for a missing message.
- TeacherView.PhasesChanged: a `phases` value that is not an array is treated as a failure. JavaScript would search and spread a string value character by character.
- TeacherView.HasPhase: `includes` uses SameValueZero, while the model uses `===`. The two differ only on `NaN`, which phase strings never are.
- SystemPrompt.V0HasReflectionLine: proved only when additionalInstructions is truthy. With falsy instructions, `trim` may shorten a reflection prompt that ends in whitespace.
- SystemPrompt.V0EndsWithAdditional: proved only for instructions whose last character is not whitespace, for the same reason.
- Groq.Generation: its own contract states only that the rotation stays valid. Its results are stated by `Groq.KeyTakenFirst`, `Groq.TestModeMocks`, `Groq.Assembly` and `Groq.SummaryUsesOtherKey`, and for the route by `ChatRoute.ChatPost`.
