# Adaptive quiz: session controller and question proxies, in Dafny

This project models the logic of a multiple-choice quiz on the OECD Transfer
Pricing Guidelines whose questions come from a generative model:

- the **quiz session controller** (`Quiz.tsx`): seven state fields, a load that
  clears the per-question state and ends in a question or an error, locking in
  one answer and updating the consecutive-correct streak, the rule that gates
  the difficulty selector, and how the view marks options and shows the
  explanation;
- the **question-request contract** (`api.ts`): the ten-chapter list, the random
  chapter, the POST body, the endpoint and the rule that a non-OK reply fails;
- the **two proxies** that serve `/api/generate` (the Express route in
  `server/index.ts` and the Netlify function in `netlify/functions/generate.ts`):
  a pure map from (method, API key, request body, model outcome) to an HTTP
  status and body.

Modules, one per file:

| file | module | models |
|---|---|---|
| `js_runtime.dfy` | `JsRuntime` | absent values, thrown errors, `String.prototype.includes` |
| `quiz_types.dfy` | `QuizTypes` | `Difficulty` and `Question` (`types.ts`) |
| `api.dfy` | `Api` | `api.ts` |
| `quiz.dfy` | `Quiz` | `Quiz.tsx`: the `Session` value and its transition functions, the view rules, and the class `QuizSession` whose methods update the fields one by one and are proved against those functions |
| `upstream.dfy` | `Upstream` | what both proxies share: body fields and truthiness, the API key, the model outcome, the response, the 429/"Quota" rule |
| `express_server.dfy` | `ExpressServer` | the Express route |
| `netlify_function.dfy` | `NetlifyFunction` | the Netlify function |
| `end_to_end.dfy` | `EndToEnd` | how the client's requests and the proxies' answers fit together |

Effects are parameters. `Math.random()` is a real `r` in [0, 1). `fetch` is a
function from the request to a reply or a thrown error. The model call is a
function from the prompt values to an `Outcome`: a text, or an error with its
`message` and its `toString()` form. `JSON.parse` is a function from the text
to the serialised JSON or a thrown error. A load is two atomic steps: start,
then complete.

Behaviour the model keeps from the code:
- The initial state is not loading. The mount effect (`Quiz.tsx:35-37`) then
  starts the first load.
- A reply is not checked for shape (`api.ts:37`). `correctOptionIndex` may be
  out of range, and then no option is marked correct.
- The Express route's catch-block bodies carry `details` equal to the error's
  message, omitted when it has none. Its missing-key 500 and its 400 carry
  `error` only.

## Model

| member | source | states |
|---|---|---|
| `Quiz.Initial` | client/src/components/Quiz.tsx:11-17 | the initial state is consistent, shows no panel and leaves the difficulty selector enabled |
| `Quiz.QuizSession.constructor` | client/src/components/Quiz.tsx:11-17 | the fields start as Medium, streak 0, no question, not loading, no selection, no verdict and no error |
| `Quiz.LoadStarted` | client/src/components/Quiz.tsx:19-24 | starting a load always gives a consistent state that shows the loader and disables the selector; streak and difficulty are kept |
| `Quiz.QuizSession.StartLoad` | client/src/components/Quiz.tsx:19-26 | sets loading and clears error, question, selection and verdict, keeping the invariant, and issues the question request for the current difficulty |
| `Quiz.LoadRequest` | client/src/components/Quiz.tsx:26 | the request a load sends asks for the session's difficulty and a listed chapter |
| `Quiz.Loaded` | client/src/components/Quiz.tsx:19-33 | a whole load ends consistent and not loading, streak and difficulty kept, on either the error panel or a question that an OK reply to the request at the session's difficulty carried |
| `Quiz.QuizSession.LoadQuestion` | client/src/components/Quiz.tsx:19-33 | the fields end as `Loaded` says for the request sent and the reply `fetchQuestion` reads, keeping the invariant |
| `Quiz.ReloadAsksCurrentDifficulty` | client/src/components/Quiz.tsx:88 | "Retry" and "Next Question" reload at the current difficulty, keeping the streak |
| `Quiz.LoadCompleted` | client/src/components/Quiz.tsx:25-32 | completing a load ends loading; success stores the question and shows it; failure stores only the fixed message and shows the error panel; the selector is enabled and streak and difficulty are kept |
| `Quiz.QuizSession.CompleteLoad` | client/src/components/Quiz.tsx:25-32 | updates the fields as `LoadCompleted` says, keeping the invariant |
| `Quiz.NextStreak` | client/src/components/Quiz.tsx:46-50 | the streak grows by one on a correct answer and is zero exactly after a wrong one |
| `Quiz.OptionSelected` | client/src/components/Quiz.tsx:39-51 | the first click locks in option i, records whether i is `correctOptionIndex` and updates the streak, changing nothing else; later clicks change nothing; the invariant is kept |
| `Quiz.QuizSession.SelectOption` | client/src/components/Quiz.tsx:39-51 | updates the fields as `OptionSelected` says, keeping the invariant |
| `Quiz.SelectionLocksIn` | client/src/components/Quiz.tsx:40-42 | after a click the option buttons are disabled, and while they are, a click on any option leaves the state unchanged |
| `Quiz.GatingRule` | client/src/components/Quiz.tsx:60 | the selector is disabled exactly while loading or when the selected option is not the correct one; it is enabled before an answer and on the error panel |
| `Quiz.DifficultyChosen` | client/src/components/Quiz.tsx:35-37 | a difficulty click changes the state exactly when the selector is enabled and the value differs; then it sets the difficulty and starts a load; the streak is always kept |
| `Quiz.QuizSession.ChangeDifficulty` | client/src/components/Quiz.tsx:57-61 | updates the fields as `DifficultyChosen` says and returns a request exactly when a load was started, that request asking for the new difficulty |
| `Quiz.DifficultyChangeAsksNewDifficulty` | client/src/components/Quiz.tsx:35-37 | a difficulty change that goes through starts a load whose request asks for the new difficulty |
| `Quiz.DifficultyAfterAnswer` | client/src/components/Quiz.tsx:60 | after a wrong answer a difficulty click does nothing; after a right one it sets the new difficulty and starts loading with the streak kept |
| `Quiz.ViewReflectsState` | client/src/components/Quiz.tsx:68-94 | in a consistent state the loader, error and question panels are each shown exactly when their state is present |
| `Quiz.MarksOfOption` | client/src/components/Quiz.tsx:110-137 | before an answer no option is marked; after one, only `correctOptionIndex` is marked correct, the selection is marked wrong iff it is not that index, every other option is dimmed, and the icons agree |
| `Quiz.MarkCounts` | client/src/components/Quiz.tsx:110-123 | after an answer exactly one option is marked correct when `correctOptionIndex` is in range and none otherwise; at most one is marked wrong |
| `Quiz.MarkCountsExample` | client/src/components/Quiz.tsx:110-123 | with four options and correct index 2, after any pick exactly option 2 is marked correct |
| `Quiz.ExplanationRule` | client/src/components/Quiz.tsx:145-153 | the explanation shows exactly when an answer is selected, and is green exactly when the answer is correct |
| `Quiz.Trajectory` | client/src/components/Quiz.tsx:46-50 | the streak shown after each answer of a sequence is the streak after that prefix of answers |
| `Quiz.TrailingRun` | client/src/components/Quiz.tsx:46-50 | the counted answers at the end are all right and the answer just before them, if any, is wrong |
| `Quiz.StreakIsTrailingRun` | client/src/components/Quiz.tsx:46-50 | the streak after a sequence of answers is the final run of right answers, plus the starting streak when none was wrong |
| `Quiz.StreakExample` | client/src/components/Quiz.tsx:46-50 | right, right, wrong, right from zero gives streaks 1, 2, 0, 1 |
| `Quiz.PlayStreak` | client/src/components/Quiz.tsx:19-51 | over any sequence of load-then-answer cycles the difficulty is kept, the state stays consistent and the streak equals the streak of the answers' outcomes |
| `QuizTypes.Name` | client/src/types.ts:1 | a difficulty is sent as one of "Easy", "Medium", "Hard" |
| `QuizTypes.NameInjective` | client/src/types.ts:1 | two difficulties have the same name only if they are equal |
| `Api.ApiUrl` | client/src/api.ts:3 | the endpoint is `/api/generate` exactly in production, else the local server's URL |
| `Api.ChaptersAreTen` | client/src/api.ts:5-16 | there are exactly ten distinct chapters |
| `Api.ChapterIndex` | client/src/api.ts:18 | the drawn index is always a valid chapter index |
| `Api.ChapterIndexBand` | client/src/api.ts:18 | index k is drawn exactly for the draws in [k/10, (k+1)/10), so the choice is uniform |
| `Api.RandomChapter` | client/src/api.ts:18 | the drawn chapter is always one of the list |
| `Api.QuestionRequest` | client/src/api.ts:20-31 | the request is a JSON POST to the endpoint, with a listed chapter, the difficulty unchanged and the description "Generate a <difficulty> question." |
| `Api.FetchQuestion` | client/src/api.ts:20-38 | a question is only delivered from an OK reply to the built request; transport errors pass through; a non-OK reply gives the fixed error |
| `Upstream.ResolvedKeyConfigured` | server/index.ts:17 | the key counts as configured exactly when one of the two variables is non-empty |
| `Upstream.ErrorStatus` | server/index.ts:97-103 | a caught error gets 429 exactly when its message contains "429" or its string form contains "Quota", else 500 |
| `Upstream.ErrorMessage` | netlify/functions/generate.ts:93-99 | a caught error's message is "API Limit Exceeded" for the rate-limit case and "Internal Server Error" otherwise |
| `Upstream.EmptyMessageLacks429` | server/index.ts:89 | the empty-response error's message has no "429" in it |
| `Upstream.EmptyShownLacksQuota` | server/index.ts:89 | the empty-response error's string form has no "Quota" in it |
| `Upstream.EmptyResponseIsInternal` | server/index.ts:87-103 | the error thrown for an empty model text is not a rate-limit error, so it maps to 500 "Internal Server Error" |
| `Upstream.QuotaErrorIsRateLimit` | server/index.ts:100 | an error whose message starts "Quota exceeded" maps to 429 |
| `ExpressServer.TryBlock` | server/index.ts:29-93 | a body error escapes as it is; the try block answers only 200 or 400; 400 exactly for falsy required fields; 200 only with non-empty model text that parses, sending the parse; empty text throws the "Empty response" error |
| `ExpressServer.Generate` | server/index.ts:23-107 | a missing key gives 500 before the body is read; statuses are 200, 400, 429 or 500, always JSON; 400 exactly for falsy required fields; 429 exactly for a caught rate-limit error; the missing-key and 400 bodies carry `error` only; catch-block bodies carry `details` equal to the error's message, omitted when it has none |
| `ExpressServer.EmptyTextIsInternalError` | server/index.ts:87-105 | empty model text gives 500 "Internal Server Error" with details "Empty response from Gemini" |
| `ExpressServer.ModelFailureIsCaught` | server/index.ts:94-105 | a failed model call gives 429 "API Limit Exceeded" or 500 "Internal Server Error" by the rule, with its message as details |
| `ExpressServer.ParseFailureIsCaught` | server/index.ts:92-105 | text that does not parse falls into the catch block and maps by the rule |
| `ExpressServer.SuccessPassesThrough` | server/index.ts:92 | non-empty text that parses is sent back as parsed with 200 |
| `NetlifyFunction.TryBlock` | netlify/functions/generate.ts:19-88 | a body error escapes as it is; the try block answers only 200 or 400; 400 exactly for falsy required fields; 200 only with non-empty model text, sent verbatim; empty text throws the "Empty response" error |
| `NetlifyFunction.Generate` | netlify/functions/generate.ts:6-106 | 405 exactly for a method other than POST, before any other check; then a missing key gives 500; 400 exactly for falsy required fields; 429 exactly for a caught rate-limit error; no error body has `details` |
| `NetlifyFunction.UnreadableBodyIsCaught` | netlify/functions/generate.ts:19-21 | a body that cannot be read or destructured is answered by the catch block |
| `NetlifyFunction.EmptyTextIsInternalError` | netlify/functions/generate.ts:81-99 | empty model text gives 500 "Internal Server Error" |
| `NetlifyFunction.SuccessIsVerbatim` | netlify/functions/generate.ts:86-88 | non-empty model text is returned verbatim with 200 and a JSON content type |
| `EndToEnd.FieldsOf` | client/src/api.ts:26-30 | the proxies read back exactly the three strings the client sent |
| `EndToEnd.ChaptersNonEmpty` | client/src/api.ts:5-16 | no chapter title is empty |
| `EndToEnd.ClientRequestsPassValidation` | client/src/api.ts:26-30 | every request the client builds has truthy required fields and description: no 400 from either proxy, no 405, and the Express route uses the client's description |
| `EndToEnd.ProxiesAgree` | netlify/functions/generate.ts:6-106 | with a truthy description the two proxies send the same prompt and, when the Express route can parse the text, answer with the same status |
| `EndToEnd.MissingDescriptionGuidance` | server/index.ts:53 | without a description the Express route says "Standard difficulty" and the Netlify function writes "undefined" |
| `EndToEnd.ProxyErrorReachesQuiz` | client/src/api.ts:33-35 | any non-200 Express answer makes the client fail with its fixed error, and the quiz then shows its error panel, keeping streak and difficulty |

## Left out

- Rendering: JSX layout, animation, class strings and icons beyond the check and cross rule, `StreakCounter.tsx`, `App.tsx` and the `DifficultySelector.tsx` wrapper (its three-value list is the `Difficulty` datatype and its `disabled` is `Quiz.DifficultyDisabled`).
- React scheduling: `useEffect`, batched and asynchronous state updates and `await`. A load is two atomic steps with one request in flight. Two clicks landing before a re-render are not modelled.
- `Quiz.QuizSession.SelectOption`: requires a shown question, because its only caller is an option button, which is rendered only with a question. The `question?.` branch for a missing question is therefore not modelled.
- `Quiz.QuizSession.CompleteLoad`: requires a pending load, because it is the completion of one.
- The model call's prompt text, system instruction and response schema, and the SDK itself. The call is a function from the prompt values to an outcome.
- `JSON.parse`, `JSON.stringify`, `response.json()` and `fetch`. They are function parameters or an abstract reply. How a JSON value is serialised is not modelled, and a reply of the wrong shape is not distinguished from a well-formed question.
- `Api.ChapterIndex`: computed on exact reals, not IEEE doubles. `Math.random()` is a parameter.
- Express and CORS setup, dotenv, static serving, `listen`, and the body-parser middleware that rejects malformed JSON before the route runs. The Netlify `Response` and `Context` APIs are left out too, apart from status, content type and body.
- Logging (`console.error`, `console.warn`).
- A thrown value that is `null` or `undefined`, on which the catch blocks' `error.message` would itself throw.
