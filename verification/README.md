# EduSphere.ai orchestration core in Dafny

EduSphere.ai turns a teacher's free-text prompt into a quiz pipeline. The
FastAPI backend parses the prompt's intent with keyword scoring. For a quiz it
then runs the content agent, the quiz agent (backed by the Gemini service or
its mock generator), the forms service and the classroom agent, and answers in
one JSON body (`/orchestrate`) or as a server-sent event stream
(`/orchestrate/stream`). The other intents go to the learning, analytics and
workflow agents. The Next.js front end relays both endpoints through two API
routes, with a mock answer or a synthetic error frame when the backend is down,
and drives a five-stage timeline, a run history and a quiz preview.

This project models that core as pure functions over immutable datatypes:

- one module per source file: `IntentAgent`, `QuizAgent`, `ContentAgent`,
  `ClassroomAgent`, `AnalyticsAgent`, `WorkflowAgent`, `LearningAgent`,
  `GeminiService`, `FormsService`, `CalendarService`, `Auth`, `Schemas`,
  `Orchestrator` (for `main.py`), `SyncRoute`, `StreamRoute`, `ClientTypes`,
  `Page` and `QuizPreview`;
- shared helpers: `Wrappers` (`Option`, `Result`), `Text` (Python `strip`,
  JavaScript `trim`, ASCII `lower`, substrings, decimal text), `Patterns` (the
  three regular expressions, as scanners proved equal to their declarative
  match), `Fences` (Markdown code-fence removal), `Json` (the text `json.dumps`
  writes) and `ServerSentEvents` (the `sse()` frame and a reader that follows
  the event-stream parsing rules of section 9.2 of the WHATWG HTML Standard).

Everything the code gets from outside is a parameter. That covers the Gemini
client library and the model's reply, `json.loads`, Python's `hash`, the
clock, `fetch`, and environment variables. The main results are:

- the stream and the JSON endpoint agree on every request (same Gemini state,
  an error frame exactly when the endpoint answers 500, with the error mapped
  from the very message the stream sends);
- every stream rendered by the backend reads back, frame by frame, as the
  events it was built from, because `json.dumps` never writes a line break;
- the front-end route's synthetic error frame is byte for byte the frame the
  backend writes for the same message;
- the quiz always has exactly the clamped number of four-option questions;
- the schedule sort is a stable sort;
- the page's state stays settled whatever the user does.

## Model

| member | source | states |
|---|---|---|
| IntentAgent.Score | backend/agents/intent_agent.py:38-41 | a category's score never exceeds its number of keywords |
| IntentAgent.ScoreCountsKeywordsFound | backend/agents/intent_agent.py:33-41 | for a keyword list without repeats, the score is the number of distinct keywords the lower-cased prompt contains |
| IntentAgent.KeywordListsDistinct | backend/agents/intent_agent.py:33-36 | none of the four keyword lists repeats a keyword, so every score counts distinct keywords |
| IntentAgent.MaxScore | backend/agents/intent_agent.py:50 | the maximum is an upper bound of the four scores and is attained by one of them |
| IntentAgent.PickIntent | backend/agents/intent_agent.py:43-50 | the chosen intent has the maximal score, and every category earlier in dict order scores strictly less (Python's `max` keeps the first maximum) |
| IntentAgent.Confidence | backend/agents/intent_agent.py:52-57 | `min(0.9, 0.6 + 0.1 * max)`: 0.5 exactly when no keyword occurs, 0.7 for one hit, 0.8 for two, 0.9 from three on |
| IntentAgent.ConfidenceMonotone | backend/agents/intent_agent.py:52-57 | more keyword hits never lower the confidence, and below the cap each extra hit adds 0.1 |
| IntentAgent.SourceTestsSubsumed | backend/agents/intent_agent.py:59-65 | the second test of each source pair ("google classroom", "document") can never decide anything the first does not |
| IntentAgent.DetectSource | backend/agents/intent_agent.py:59-65 | classroom exactly when "classroom" occurs, docs exactly when "doc" occurs without it, manual text otherwise |
| IntentAgent.DetectTarget | backend/agents/intent_agent.py:67-73 | forms whenever "form" occurs; classroom exactly for "classroom" and "assign" without "form"; calendar exactly for "calendar" or "schedule" otherwise; forms by default |
| IntentAgent.ExtractCount | backend/agents/intent_agent.py:75-84 | the count is the number the count pattern captures; failing that, the number after a create/make/generate verb; `None` exactly when neither pattern matches |
| IntentAgent.ParseIntent | backend/agents/intent_agent.py:22-92 | the parsed intent has maximal score and wins ties by dict order, its confidence is the one its best score fixes (0.5, 0.7, 0.8 or 0.9), and source, target and count are those of the lower-cased prompt |
| IntentAgent.NoKeywordMeansQuizCreation | backend/agents/intent_agent.py:50-57 | a prompt with no keyword is a quiz-creation request with confidence 0.5 |
| Patterns.DigitRunEnd | backend/agents/intent_agent.py:77 | `\d+` at a position consumes exactly the maximal run of ASCII digits |
| Patterns.SpaceRunEnd | backend/agents/intent_agent.py:77 | `\s*` consumes exactly the maximal run of Python white space |
| Patterns.DigitRunEndInside | backend/agents/intent_agent.py:77 | every position inside a digit run ends at the same place |
| Patterns.CountMatchIffGreedy | backend/agents/intent_agent.py:77 | backtracking cannot help: `(\d+)\s*(?:question\|q\|quiz\|test)` matches at a position exactly when its greedy reading does |
| Patterns.CountMatchIsGreedy | backend/agents/intent_agent.py:77 | any way of matching the count pattern at a position captures the maximal digit run |
| Patterns.FindCount | backend/agents/intent_agent.py:77 | the scan returns the leftmost position where the count pattern matches, or none when it matches nowhere |
| Patterns.SearchCount | backend/agents/intent_agent.py:77-80 | `re.search(...).group(1)`: the digits of the leftmost match, or `None` |
| Patterns.KeywordMatchIffGreedy | backend/agents/intent_agent.py:82 | `kw\s*(\d+)` matches at a position exactly when the greedy reading does |
| Patterns.FirstKeywordAt | backend/agents/intent_agent.py:82 | the first alternative, in pattern order, that matches at a position |
| Patterns.FindKeyword | backend/agents/intent_agent.py:82 | the leftmost position where some alternative matches |
| Patterns.SearchKeywordNumber | backend/agents/intent_agent.py:82-84 | the digits captured by the leftmost match of the verb pattern, or `None` |
| QuizAgent.ClampCount | backend/agents/quiz_agent.py:25-30 | the count is always in 1..50: missing or non-positive gives 5, above 50 gives 50, otherwise the request |
| QuizAgent.FourOptions | backend/agents/quiz_agent.py:56-60 | exactly four options: the given ones first, padding named "Option <letter of its position>" |
| QuizAgent.ValidItems | backend/agents/quiz_agent.py:50-66 | at most one question per parsed item, each with four options |
| QuizAgent.ValidItemsKeepsCompleteOnes | backend/agents/quiz_agent.py:50-66 | the kept questions are exactly the items carrying all three keys, in order, each with its options normalised |
| QuizAgent.Filter | backend/agents/quiz_agent.py:51-53 | an item is kept exactly when it is complete (kept items are complete and from the input, every complete item is kept), and a list of complete items is kept whole |
| QuizAgent.FilterConcat | backend/agents/quiz_agent.py:51-53 | filtering distributes over concatenation, so kept items keep their relative order |
| QuizAgent.FilterSingle | backend/agents/quiz_agent.py:53 | a single item is kept exactly when it carries all three keys |
| QuizAgent.AdditionalQuestion | backend/agents/quiz_agent.py:68-76 | a padding question is well formed: four standard options, the first one correct |
| QuizAgent.FitCount | backend/agents/quiz_agent.py:68-76 | exactly `n` questions: the parsed ones first, then numbered padding questions |
| QuizAgent.FallbackQuiz | backend/agents/quiz_agent.py:87-96 | the fallback has exactly `n` well-formed questions |
| QuizAgent.QuestionsFrom | backend/agents/quiz_agent.py:47-84 | decoded items give their complete, normalised questions first, then padding or truncation to exactly `n`; text that is not JSON gives the fallback quiz; only a shape error escapes |
| QuizAgent.GenerateQuiz | backend/agents/quiz_agent.py:10-96 | the Gemini state is the one the call leaves; the step fails exactly when the cleaned reply decodes to the wrong shape; text that is not JSON gives the fallback quiz; decoded items come first, fitted to the clamped count; any quiz has that count of four-option questions |
| QuizAgent.ValidItemsOfAsRaw | backend/agents/quiz_agent.py:50-66 | complete four-option questions pass the normalisation unchanged |
| QuizAgent.QuestionsFromComplete | backend/agents/quiz_agent.py:50-76 | complete four-option questions decode back to themselves, with no padding |
| QuizAgent.NoKeyQuizFromMockText | backend/agents/quiz_agent.py:33-47 | without a key the quiz is built from the mock generator's text, which fence cleaning leaves unchanged |
| QuizAgent.MockModeQuiz | backend/agents/quiz_agent.py:33-76 | in mock mode, when `json.loads` inverts `json.dumps`, the quiz is exactly the mock generator's questions |
| QuizAgent.QuestionsFromMock | backend/agents/quiz_agent.py:47-76 | the mock text, decoded, gives back the mock questions |
| Fences.DropOpeningFence | backend/agents/quiz_agent.py:39-42 | a leading "```json" is removed when present, and then, as a separate test, a leading "```", so "```json```x" becomes "x"; the result is a suffix of the input and equals it when it does not start with a fence |
| Fences.DropOpeningFenceOfJsonFenced | backend/agents/quiz_agent.py:39-42 | "```json" before a text that does not start another fence is the only text removed |
| Fences.DropClosingFence | backend/agents/quiz_agent.py:43-44 | when the text ends with "```" the result followed by "```" is the text; otherwise the text is unchanged |
| Fences.DropClosingFenceOfFenced | backend/agents/quiz_agent.py:43-44 | appending a closing fence and dropping it gives the text back |
| Fences.CleanFences | backend/agents/quiz_agent.py:37-45 | the result is stripped of white space at both ends |
| Fences.StripTrimmed | backend/agents/quiz_agent.py:38 | stripping a text whose ends are not white space changes nothing |
| Fences.CleanFencesUnwrapsJsonBlock | backend/agents/quiz_agent.py:37-45 | a "```json" block gives back its stripped body |
| Fences.CleanFencesKeepsUnfenced | backend/agents/quiz_agent.py:37-45 | a stripped reply that neither starts nor ends with a fence passes through unchanged |
| Fences.CleanFencesKeepsBareArray | backend/agents/quiz_agent.py:37-45 | a reply that starts with `[` and ends with `]` passes through unchanged |
| GeminiService.TryInitialize | backend/services/gemini_service.py:39-66 | the service is ready exactly when it has a key, the library and a configuration that did not raise; mock mode is on exactly when it is not ready; key and library are kept |
| GeminiService.Create | backend/services/gemini_service.py:26-37 | the argument key wins over the environment's, and the new service is ready exactly when key, library and configuration allow it |
| GeminiService.MockQuestion | backend/services/gemini_service.py:140-161 | each mock question has four options, the first being the answer |
| GeminiService.MockQuestions | backend/services/gemini_service.py:140-161 | `range(n)`: none for a negative count, otherwise `n` numbered well-formed questions |
| GeminiService.GenerateQuizQuestions | backend/services/gemini_service.py:68-138 | the model answers exactly when it was ready or the retry made it ready, with a stripped text; otherwise the mock text; an unready service with key and library leaves mock mode exactly when the retry succeeds and stays ready unless the call then raises a connection error; a connection error drops the model; nothing else changes a ready service |
| GeminiService.OtherErrorIsLikeNoReply | backend/services/gemini_service.py:124-138 | an error that is not a connection error has the same effect as a reply without text: mock text, and the service as the retry left it |
| GeminiService.ConnectionErrorRecovers | backend/services/gemini_service.py:79-90 | after a connection error, the next request whose re-initialisation succeeds reaches the model again |
| GeminiService.NoKeyAlwaysMock | backend/services/gemini_service.py:71-77 | a service without a key always answers with the mock text |
| GeminiService.MockQuizTextIsArray | backend/services/gemini_service.py:161 | the mock reply is a JSON array text: it starts with `[` and ends with `]` |
| ContentAgent.ContentJson | backend/agents/content_agent.py:12-22 | the dump has the two fields of `ContentOutput` |
| ContentAgent.EffectiveNotes | backend/agents/content_agent.py:44-45 | the caller's notes are used exactly when they strip to at least 20 characters; otherwise the subject's mock notes, with Physics for an unknown subject |
| ContentAgent.FallbackTopics | backend/agents/content_agent.py:181-189 | four Physics topics, three for every other subject, generic ones for an unknown subject |
| ContentAgent.ExtractContent | backend/agents/content_agent.py:25-103 | never fails and never returns empty topics or an empty summary; a parsed reply fills missing parts with defaults; a failed call or parse gives the fallback output |
| ContentAgent.DeployedContentIsFallback | backend/agents/content_agent.py:71-103 | with the service the backend really passes, the agent always returns the fallback topics and the "Academic concepts" summary |
| ClassroomAgent.DeliveryJson | backend/agents/classroom_agent.py:30-38 | the dump has the six fields of `DeliveryOutput` |
| ClassroomAgent.AssignmentHead | backend/agents/classroom_agent.py:71-74 | the message without the form note starts with the quiz and its count, and cannot be mistaken for one ending in the note |
| ClassroomAgent.AssignToClassroom | backend/agents/classroom_agent.py:41-83 | the delivery is "assigned" in demo mode; its URL is the demo class-and-assignment address built from the timestamp and ends in its assignment id; the message names the quiz, its count and the class, and ends with the form note exactly when a non-empty form URL was given |
| ClassroomAgent.AssignmentMessageDeterminesClass | backend/agents/classroom_agent.py:71-74 | the message names the class: for the same quiz, count and form link, equal messages mean the same class |
| ClassroomAgent.GetClassroomStatus | backend/agents/classroom_agent.py:86-102 | a disconnected demo listing of three non-empty classes with ids demo_class_1 to demo_class_3 |
| ClassroomAgent.DemoModeEverywhere | backend/agents/classroom_agent.py:41-128 | the status listing, every assignment and every notification agree on demo mode, and the listing is never connected |
| ClassroomAgent.SimulateNotification | backend/agents/classroom_agent.py:105-128 | the notification is sent in demo mode to the given number of students, for the given assignment and class, with the message "Notification simulated for <count> students in <class> (Demo Mode)" |
| ClassroomAgent.SimulateNotificationDefault | backend/agents/classroom_agent.py:105-109 | leaving out the count notifies 25 students |
| ClassroomAgent.DefaultNotificationHead | backend/agents/classroom_agent.py:108 | the default message reads "25 students" |
| ClassroomAgent.NotificationMessageDeterminesCount | backend/agents/classroom_agent.py:127 | for one class, the message alone tells how many students were notified |
| FormsService.FormId | backend/services/forms_service.py:37 | the id is the fixed prefix followed by the decimal text of the title hash modulo 10000: one to four digits denoting that value, with no leading zero |
| FormsService.NatToStringLength | backend/services/forms_service.py:37 | numbers below 10000 have at most four digits |
| FormsService.CreateQuizForm | backend/services/forms_service.py:25-46 | the form keeps title and question count, is "created", and its view and edit URLs are built from its id |
| FormsService.FormIdFromUrl | backend/services/forms_service.py:42 | any id read back from a URL rebuilds that same URL |
| FormsService.FormUrlRoundTrip | backend/services/forms_service.py:42 | the view URL gives back the form id it was built from |
| FormsService.DistinctHashesDistinctUrls | backend/services/forms_service.py:37-42 | titles whose hashes differ modulo 10000 get different form URLs |
| FormsService.FormFieldsJson | backend/main.py:276-287 | the stream passes on two fields of the form result |
| CalendarService.CreateSchedule | backend/services/calendar_service.py:25-50 | one created event per input, in order, with a positional id, the title or "Event", and the times passed through |
| CalendarService.EventIdsDistinct | backend/services/calendar_service.py:41-48 | no two events of one call share an id |
| AnalyticsAgent.Scores | backend/agents/analytics_agent.py:28-29 | one score per result row, 0 when the row has none |
| AnalyticsAgent.Max | backend/agents/analytics_agent.py:32 | the maximum is a score and bounds every score from above |
| AnalyticsAgent.Min | backend/agents/analytics_agent.py:33 | the minimum is a score and bounds every score from below |
| AnalyticsAgent.SumBounds | backend/agents/analytics_agent.py:31 | bounds on every score carry over to the sum, times the count |
| AnalyticsAgent.AverageTimesCount | backend/agents/analytics_agent.py:31 | the average times the count is the sum |
| AnalyticsAgent.AverageBetweenMinAndMax | backend/agents/analytics_agent.py:31-33 | the average lies between the smallest and the largest score |
| AnalyticsAgent.ThresholdOnSum | backend/agents/analytics_agent.py:36-44 | the average reaches a whole-number threshold exactly when the sum reaches threshold times count |
| AnalyticsAgent.LevelFor | backend/agents/analytics_agent.py:36-38 | "excellent" exactly from 90 on, "good" exactly from 75 to below 90, "fair" exactly from 60 to below 75, "needs_improvement" exactly below 60 |
| AnalyticsAgent.LevelMonotone | backend/agents/analytics_agent.py:36-38 | a higher average never gives a worse level |
| AnalyticsAgent.SuggestionsFor | backend/agents/analytics_agent.py:46-51 | two suggestions below 75, one from 90 on, none in between |
| AnalyticsAgent.StatisticsOf | backend/agents/analytics_agent.py:28-33 | the student count is the number of rows; the question count is the first row's total or 100; min and max are attained scores bounding every score; the average lies between them |
| AnalyticsAgent.AnalyzeQuizResults | backend/agents/analytics_agent.py:9-64 | an error exactly for no results; otherwise the statistics, the level for the average, the two fixed weak topics exactly below 80 (none otherwise), and the matching suggestions |
| AnalyticsAgent.LevelOnTotals | backend/agents/analytics_agent.py:36-44 | level and weak topics follow from the score total against 90, 60 and 80 per student |
| WorkflowAgent.IndexOfName | backend/agents/workflow_agent.py:25 | the first position holding a name, or none when no task has it |
| WorkflowAgent.LastIndexOfName | backend/agents/workflow_agent.py:25-26 | the last position holding a name, or none when no task has it |
| WorkflowAgent.TaskDictNames | backend/agents/workflow_agent.py:25 | the dict comprehension keeps each task name once, and exactly the names of the tasks |
| WorkflowAgent.TaskDictValues | backend/agents/workflow_agent.py:25 | each name maps to the last task carrying it |
| WorkflowAgent.TaskDictOrder | backend/agents/workflow_agent.py:25 | the keys keep the order of their first occurrence |
| WorkflowAgent.LastDeadlineIndex | backend/agents/workflow_agent.py:26 | the last deadline naming a task, or none |
| WorkflowAgent.DeadlineDictLastWins | backend/agents/workflow_agent.py:26 | each named task's due date is that of its last deadline |
| WorkflowAgent.PriorityRank | backend/agents/workflow_agent.py:41-44 | the rank is at most 2, and 0 exactly for "high" |
| WorkflowAgent.Entries | backend/agents/workflow_agent.py:29-38 | one entry per dict key, in order, with the task's fields and its due date |
| WorkflowAgent.InsertStable | backend/agents/workflow_agent.py:41-44 | insertion adds exactly the new entry to the list |
| WorkflowAgent.SortStable | backend/agents/workflow_agent.py:41-44 | the sorted list is a permutation of its input |
| WorkflowAgent.InsertStableSorted | backend/agents/workflow_agent.py:41-44 | inserting into a sorted list keeps it sorted |
| WorkflowAgent.InsertStableWithKey | backend/agents/workflow_agent.py:41-44 | inserting adds the entry after every entry with the same key |
| WorkflowAgent.SortStableSorted | backend/agents/workflow_agent.py:41-44 | the result is sorted by (priority rank, due date, missing dates last) |
| WorkflowAgent.SortStableWithKey | backend/agents/workflow_agent.py:41-44 | for every key, the entries carrying it keep their original order |
| WorkflowAgent.SortStableCorrect | backend/agents/workflow_agent.py:41-44 | the sort is `list.sort`: sorted, and for every key the entries carrying it keep their order |
| WorkflowAgent.OptimizeSchedule | backend/agents/workflow_agent.py:10-54 | the schedule is a stable sort of the deduplicated entries by (priority, due date); its count is the number of entries, at most the number of tasks; only high-priority tasks go in the morning |
| WorkflowAgent.ScheduleCoversTasks | backend/agents/workflow_agent.py:25-44 | every task's name gets an entry |
| WorkflowAgent.ScheduleNamesDistinct | backend/agents/workflow_agent.py:25-44 | no name gets two entries |
| WorkflowAgent.ScheduleEntryFields | backend/agents/workflow_agent.py:25-38 | each entry holds the fields of the last task of its name and the due date of the last deadline naming it |
| WorkflowAgent.PermutationOfDistinct | backend/agents/workflow_agent.py:41-44 | a permutation of a list without repeats has no repeats |
| LearningAgent.GenerateLearningPlan | backend/agents/learning_agent.py:24-66 | three topics of distinct difficulty; the level is the one given, or "intermediate" |
| LearningAgent.SyllabusIgnored | backend/agents/learning_agent.py:24-66 | the plan does not depend on the syllabus: two syllabi with the same level give the same plan |
| LearningAgent.PlanTotalIsSum | backend/agents/learning_agent.py:41-65 | the advertised total is the sum of the topic estimates, and the plan goes from beginner to advanced |
| Auth.GetGoogleCredentials | backend/utils/auth.py:11-43 | no credentials exactly when neither token is given; a given token wins, with the five scopes; the test token comes without scopes; the token is never empty |
| Auth.GivenTokenTakesPrecedence | backend/utils/auth.py:24-36 | a provided token always takes precedence: the result does not depend on the environment's test token |
| Auth.EmptyTokenIsNoToken | backend/utils/auth.py:24-41 | an empty token counts as no token, so the test token decides alone |
| Auth.ScopesIffProvided | backend/utils/auth.py:24-41 | credentials carry scopes exactly when they come from a provided token |
| Schemas.RequestFor | backend/schemas/models.py:29-32 | a request built from a prompt has no user token |
| Schemas.ResponseOf | backend/schemas/models.py:35-40 | a response carries its flag and message, no data and no intent |
| Schemas.ConfidenceText | backend/schemas/models.py:14 | a confidence is written as a decimal with one leading digit |
| Schemas.IntentJson | backend/schemas/models.py:8-14 | the dump of an intent has its five fields |
| Schemas.QuestionJson | backend/schemas/models.py:17-21 | the dump of a question has its three fields |
| Schemas.QuestionsJson | backend/schemas/models.py:24-26 | one dumped question per question |
| Json.Hex4 | backend/main.py:195-196 | `\u` escapes carry four lower-case hexadecimal digits |
| Json.EscapeChar | backend/main.py:195-196 | the escape of one character is printable ASCII |
| Json.EscapeString | backend/main.py:195-196 | an escaped string is printable ASCII |
| Json.EscapePlain | backend/main.py:195-196 | plain characters are written as they are |
| Json.DumpsOneField | backend/main.py:195-196 | a one-field object is written as the quoted key, `": "` and the value, in braces |
| Json.DumpsPrintable | backend/main.py:195-196 | `json.dumps` never writes a line feed or a carriage return, so the data fits on one `data:` line |
| ServerSentEvents.SseText | backend/main.py:195-196 | a frame is an event line, a data line holding the JSON text, and a blank line |
| ServerSentEvents.ReadLine | backend/main.py:195-196 | a line read contains no line break, and reading moves past it |
| ServerSentEvents.ReadBlockOfSse | backend/main.py:195-196 | a frame reads back as one event carrying the event name and the JSON text exactly, whatever follows it |
| ServerSentEvents.FrameBlocks | backend/main.py:195-196 | one event per frame, in order |
| ServerSentEvents.ReadStream | backend/main.py:195-196 | a consumer reading a whole stream recovers every frame, in order |
| Text.Lower | backend/agents/intent_agent.py:23 | lower-casing keeps the length and lower-cases each character on its own |
| Text.ContainsTransitive | backend/agents/intent_agent.py:60-62 | a substring of a substring is a substring |
| Text.TrimPadded | frontend-next/src/app/page.tsx:76 | trimming removes exactly the white-space padding around a trimmed core |
| Text.NatToString | backend/services/forms_service.py:37 | the decimal text of a number is a non-empty run of digits with no leading zero |
| Text.DigitsValueOfNatToString | backend/agents/intent_agent.py:80-84 | reading back a number's decimal text gives the number |
| Text.NatToStringInjective | backend/services/calendar_service.py:41-48 | distinct numbers have distinct decimal texts |
| Text.IntToStringInjective | backend/agents/classroom_agent.py:127 | distinct integers, negative ones included, have distinct decimal texts |
| Orchestrator.Capitalize | backend/main.py:166 | capitalising keeps the length |
| Orchestrator.SubjectNamesAreTitles | backend/main.py:162-169 | capitalising each subject word, with "math" widened to "Mathematics", gives the subject table |
| Orchestrator.FirstSubject | backend/main.py:162-169 | the first listed subject word the prompt contains, or none when it contains none |
| Orchestrator.ExtractSubject | backend/main.py:157-169 | the subject is the first listed word found in the lower-cased prompt, capitalised, or "Physics" when none occurs |
| Orchestrator.ExtractChapter | backend/main.py:172-175 | the chapter is "Chapter " followed by digits |
| Orchestrator.ChapterWithoutMatch | backend/main.py:172-175 | without a `chapter\s*(\d+)` match the chapter is "Chapter 1" |
| Orchestrator.ChapterFromLeftmostMatch | backend/main.py:172-175 | with a match, the chapter number is the digit run of the leftmost one, leading zeros kept |
| Orchestrator.ErrorFor | backend/main.py:390-410 | every exception becomes a 500 with one of two fixed details, "unavailable" exactly for a "Request ID" or "connection" message |
| Orchestrator.UnavailableIsConnectionError | backend/main.py:396-404 | what the endpoint reports as unavailable, the Gemini service also treats as a connection error |
| Orchestrator.NetworkErrorIsInternal | backend/main.py:396-404 | a "network" error resets the Gemini service but is reported as an internal error |
| Orchestrator.RequestedCountRedundant | backend/main.py:263 | `num_questions or 5` changes nothing, since the quiz agent already reads a missing or zero count as 5 |
| Orchestrator.RunQuizPipeline | backend/main.py:413-462 | the pipeline fails exactly when the quiz step raises; otherwise it has the clamped count of four-option questions, a created form with that count, and an assigned delivery whose message names the quiz and carries the form note |
| Orchestrator.HandleLearningPlan | backend/main.py:477-489 | a successful plan answer for an "intermediate" student, with three topics |
| Orchestrator.HandleAnalytics | backend/main.py:492-505 | a successful analytics answer, holding the agent's error exactly when there are no rows |
| Orchestrator.CalendarEventsFor | backend/main.py:524-534 | one calendar event per schedule entry |
| Orchestrator.HandleScheduling | backend/main.py:508-541 | a successful schedule answer, with calendar events exactly for a calendar target, one per entry, titled by its task, with positional ids and no times |
| Orchestrator.HandleQuizCreation | backend/main.py:413-474 | a successful answer holds the intent and the clamped number of questions, and its message counts them |
| Orchestrator.Orchestrate | backend/main.py:356-410 | errors are always 500 with a fixed detail; a success always carries data; every intent other than quiz creation succeeds, leaves the Gemini service alone and echoes the intent |
| Orchestrator.IntentEvents | backend/main.py:202-212 | the stream opens with the intent stage's start and completion |
| Orchestrator.QuizEvents | backend/main.py:217-336 | a successful run sends nine more events ending in `complete`, with the question count and the delivery; a failed quiz step sends four ending in `error` with the exception's message |
| Orchestrator.TraceConcat | backend/main.py:198-336 | the intent events followed by events continuing the stage order form a well-formed stream |
| Orchestrator.QuizTrace | backend/main.py:198-325 | the quiz stream is well formed, with eleven events ending in `complete` or six ending in `error` |
| Orchestrator.EventsOfRun | backend/main.py:198-336 | whatever the pipeline produced, the quiz stream has one of those two shapes |
| Orchestrator.OtherTrace | backend/main.py:326-333 | every other intent streams its two intent events and a `complete` carrying the intent alone |
| Orchestrator.OrchestrateStream | backend/main.py:195-336 | every stream starts with the stage events in order and ends in exactly one terminal event; the shapes above for each intent |
| Orchestrator.Frames | backend/main.py:195-196 | one frame per event, carrying its name and payload |
| Orchestrator.EventBlocks | backend/main.py:195-196 | what a consumer should read: one block per event, with its name and JSON text |
| Orchestrator.StreamAgreesWithOrchestrate | backend/main.py:198-474 | the stream and the JSON endpoint leave the same Gemini state; the stream ends in an error exactly when the endpoint answers with an HTTP error, and that error is the mapping of the stream's message; a quiz answer and the stream carry the same delivery |
| Orchestrator.RunAgreement | backend/main.py:217-336 | the handler's result and the stream's events agree on every pipeline run |
| Orchestrator.RenderReadsBack | backend/main.py:195-196 | any stream of events reads back event by event |
| Orchestrator.StreamReadsBack | backend/main.py:195-342 | a client reading the stream's text by the event-stream rules gets back, in order, one event per stream entry with its type and JSON data |
| SyncRoute.BaseUrl | frontend-next/src/app/api/orchestrate/route.ts:7 | the backend URL is the environment's when it is non-empty, else the local default |
| SyncRoute.Post | frontend-next/src/app/api/orchestrate/route.ts:4-45 | a request is forwarded exactly when its body is JSON; a backend answer is passed through with its status; an unreachable backend gives the mock with status 200; a non-JSON request throws |
| SyncRoute.MockShape | frontend-next/src/app/api/orchestrate/route.ts:22-41 | the mock is a successful quiz-creation answer with confidence 0.72 and one well-formed question |
| SyncRoute.MockIndependentOfRequest | frontend-next/src/app/api/orchestrate/route.ts:20-43 | when the backend is down, the answer depends neither on the request nor on the backend URL |
| SyncRoute.JsonRequestAlwaysAnswered | frontend-next/src/app/api/orchestrate/route.ts:4-45 | every JSON request gets an answer |
| StreamRoute.Post | frontend-next/src/app/api/orchestrate-stream/route.ts:3-29 | a request is forwarded exactly when its body is JSON; the relay always has status 200 and an event-stream content type; a connected backend's body is relayed unchanged; an unreachable one gives the synthetic error frame |
| StreamRoute.ErrorFrameIsSse | frontend-next/src/app/api/orchestrate-stream/route.ts:22-28 | the literal error frame is exactly what the backend's `sse` writes for the same message |
| StreamRoute.ErrorFrameIsBackendError | frontend-next/src/app/api/orchestrate-stream/route.ts:22-28 | it is the same text the backend sends when its own pipeline fails with that message |
| StreamRoute.BackendErrorReadsBack | backend/main.py:335-336 | the backend's error frame reads back as one `error` event carrying its JSON, whatever the message |
| StreamRoute.ErrorFrameReadsBack | frontend-next/src/app/api/orchestrate-stream/route.ts:24 | a consumer reads the synthetic frame as exactly one `error` event carrying the message's JSON |
| StreamRoute.StagesAreAgentKeys | frontend-next/src/lib/types.ts:1 | the stage keys the client knows are the agent names the backend's events carry, in the same order |
| ClientTypes.AgentKeysExact | frontend-next/src/lib/types.ts:1 | the key type is exactly the five stage names, each once, in timeline order |
| ClientTypes.ResponseWith | frontend-next/src/lib/types.ts:32-46 | a response carries its flag and message, and nothing optional |
| Page.InitialSteps | frontend-next/src/app/page.tsx:26-59 | every stage, in timeline order, pending, with its default subtitle |
| Page.Index | frontend-next/src/app/page.tsx:26-59 | each stage's position in the timeline |
| Page.Merge | frontend-next/src/app/page.tsx:83-87 | a field the update carries replaces the step's; key and title never change |
| Page.UpdateStep | frontend-next/src/app/page.tsx:83-87 | the steps with that key are merged, the others kept, the order too |
| Page.UpdateStepIdempotent | frontend-next/src/app/page.tsx:83-87 | applying the same update twice is applying it once |
| Page.UpdatesCommute | frontend-next/src/app/page.tsx:83-87 | updates of different stages commute |
| Page.BlankPromptCannotRun | frontend-next/src/app/page.tsx:76 | a prompt of white space alone never runs |
| Page.PaddingDoesNotMatter | frontend-next/src/app/page.tsx:76 | a prompt can run exactly when its trimmed core is non-empty and nothing is loading |
| Page.CompletedSteps | frontend-next/src/app/page.tsx:120-178 | after a response every stage is completed, in order, with its run subtitle or its default |
| Page.CompletedStepsAreTheUpdates | frontend-next/src/app/page.tsx:120-178 | that timeline is what the run's five updates, one per stage, make of fresh steps |
| Page.CompletedSubtitles | frontend-next/src/app/page.tsx:120-178 | each stage shows its message exactly when its part of the data is there (a truthy link for forms), else the default |
| Page.PushHistory | frontend-next/src/app/page.tsx:184-194 | the new entry goes first and at most ten entries are kept, the rest being the newest earlier ones |
| Page.RunAgents | frontend-next/src/app/page.tsx:89-202 | a prompt that cannot run changes nothing; otherwise the run ends not loading, with the steps in order; a failed fetch sets the error and leaves the output empty; a response completes every stage, sets the questions, content and delivery it carries, the total duration, and a history entry in front |
| Page.ErrorBodyCompletesEveryStage | frontend-next/src/app/page.tsx:113-194 | the backend's `{"detail": ...}` error body still completes every stage with its default subtitle, shows no output and no confetti, and logs an unsuccessful entry |
| Page.ConfettiIffAssigned | frontend-next/src/app/page.tsx:165-178 | confetti is shown exactly when the response carries a delivery whose status is "assigned" |
| Page.FormLinkOfRun | frontend-next/src/app/page.tsx:151-161 | the form link is kept only when truthy, with the id falling back to "unknown" |
| Page.HistoryEntryOfRun | frontend-next/src/app/page.tsx:184-194 | the history entry records the prompt and what the response said, as it said it |
| Page.ClearHistory | frontend-next/src/app/page.tsx:318 | clearing empties the history and touches nothing else |
| Page.ApplySettled | frontend-next/src/app/page.tsx:89-202 | any one user action keeps the page settled |
| Page.AlwaysSettled | frontend-next/src/app/page.tsx:89-202 | whatever the user does, no stage is left running or failed, the stages stay in timeline order, and the history never exceeds ten entries |
| Page.RunOnMock | frontend-next/src/app/page.tsx:120-194 | on the route's mock, the run shows one question, keeps the other stages' default subtitles, shows no confetti, and logs a successful entry with no form link |
| QuizPreview.ToggleReveal | frontend-next/src/components/QuizPreview.tsx:11-18 | toggling shows a hidden answer and hides a shown one, touching no other question |
| QuizPreview.ToggleTwice | frontend-next/src/components/QuizPreview.tsx:11-18 | toggling the same question twice changes nothing |
| QuizPreview.AllIndicesSize | frontend-next/src/components/QuizPreview.tsx:39-45 | there are exactly as many positions as questions |
| QuizPreview.RevealAll | frontend-next/src/components/QuizPreview.tsx:39-45 | the button hides every answer when as many are shown as there are questions, else shows them all |
| QuizPreview.SubsetOfSameSize | frontend-next/src/components/QuizPreview.tsx:39-45 | a subset as large as its superset is the superset |
| QuizPreview.RevealAllMeaning | frontend-next/src/components/QuizPreview.tsx:39-45 | with every revealed index a question's position, the button hides everything exactly when everything is shown, and otherwise shows everything |
| QuizPreview.InRangeKept | frontend-next/src/components/QuizPreview.tsx:11-45 | toggling a question on screen and pressing reveal-all keep every revealed index a question's position |
| QuizPreview.SelectOption | frontend-next/src/components/QuizPreview.tsx:20-22 | a choice is recorded for that question only |
| QuizPreview.SelectOverwrites | frontend-next/src/components/QuizPreview.tsx:20-22 | a later choice for the same question replaces the earlier one |
| QuizPreview.SelectionsCommute | frontend-next/src/components/QuizPreview.tsx:20-22 | choices for different questions do not interfere |
| QuizPreview.CorrectAfterSelect | frontend-next/src/components/QuizPreview.tsx:54-56 | right after a choice the question is correct exactly when the chosen option is the answer, and no other question changes |
| QuizPreview.OptionLetter | frontend-next/src/components/QuizPreview.tsx:83 | option `k` is lettered with the `k`-th letter after A |
| QuizPreview.FourLetters | frontend-next/src/components/QuizPreview.tsx:83 | four options are lettered A to D, each letter different |
| QuizPreview.PaddingLabelsMatchLetters | frontend-next/src/components/QuizPreview.tsx:83 | the labels the quiz agent pads options with name the letter the preview shows at that position |

## Left out

- I/O: the HTTP servers, `fetch`, the network and the React rendering are not modelled. Each outcome (answered, unreachable, parsed, threw) is a parameter.
- `json.loads` and `response.json()` are parameters (decode oracles). Only `json.dumps` is modelled, with its default separators and `ensure_ascii` escaping.
- The Gemini client library, its configuration and the remote model are parameters. The prompts sent to the model are not modelled, nor is the content agent's prompt wording.
- Python's `hash()` is randomised per process, so the form id takes the title's hash as an input.
- Timestamps (`datetime.now()`, `Date.now()`) are abstract strings. Durations and the `round(..., 2)` texts are opaque inputs, because floating point is not modelled.
- The `asyncio.sleep` pauses of the stream and the `setTimeout` pauses of the page only delay events, so they are left out.
- The mock notes of the content agent are not modelled as text. Only which subject's notes are chosen is modelled, since the notes only feed the prompt.
- The OAuth endpoints and the token file of `main.py` are not part of this model. The same goes for the health and status endpoints, and for the docs, classroom and sheets services; the analytics handler takes its rows as a parameter.
- The presentational components, the other pages and the older `frontend/` app are not part of this model. They only render state.
- The backend's `StreamingResponse` headers are not modelled. The relay's headers are.
- AnalyticsAgent.StatisticsOf: the average is the exact quotient; `round(avg, 2)` is not modelled. Level, weak topics and suggestions are decided on the unrounded value, as in the source.
- Text.Lower: ASCII only. `str.lower()` on other scripts, and `\d` on non-ASCII digits, are not modelled.
- IntentAgent.Confidence: kept in hundredths (50, 70, 80, 90), so that the front end's mock value 0.72 is also exact.
- QuizPreview.OptionLetter: requires `65 + k` below the surrogate range; JavaScript's 16-bit wrap of `fromCharCode` is not modelled.
- SyncRoute.Post: an upstream body that is not JSON is treated as an unreachable backend. The route's `await res.json()` throws inside the `try`, so the mock is served then too.
- GeminiService.Gemini: the consistency invariant `Valid` is a ghost predicate over the service state. The source keeps no such invariant explicitly; it holds for every state the constructor and the calls produce.
- ServerSentEvents.ReadStream: the page's stream consumer is not part of the code. The reader is a reference implementation of the event-stream parsing rules, restricted to the `event` and `data` fields the backend writes.
- Page.RunAgents: the backend's error answer is a 500 with a `{"detail": ...}` body, which the sync route passes on and the page parses without checking the status. The model reads that body as a response with `success` false, an empty message and no data. The source stores `success` as `undefined` (falsy), and the `detail` text reaches no state the page shows.
- The client's stream event types (`AgentStartEvent`, `AgentCompleteEvent`, `StreamCompleteEvent`, `StreamErrorEvent`) are not modelled: no client code in this model reads the stream. The backend's events and their read-back are modelled on the backend side.
- WorkflowAgent.OptimizeSchedule: due dates are integers standing for `datetime` values. A missing date sorts after every present one, as `datetime.max` does.
