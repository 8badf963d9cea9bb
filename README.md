# Quiz data client: question edits and error mapping

This project is a Dafny model of the data-access layer of a Vue quiz application
(`src/services/quizService.ts`). It covers two parts of that layer:

- **The question-list edits.** `addQuestion`, `updateQuestion` and `deleteQuestion` each
  fetch a quiz, edit its question list in place and save the quiz back. The model has
  pure functions on the list (`QuestionList`), a class for the parsed quiz object whose
  methods make the in-place edits (`QuizRecords.QuizRecord`), and a class for the server's
  store of quizzes whose methods run the fetch-edit-save workflows (`QuizService.QuizStore`).
- **Response handling and error classification.** This covers `handleResponse`, what
  each request can end with, and how every operation's `catch` block turns a failure into
  the message the caller sees (`Http`, `ErrorMapping`).

The records (`Question`, `QuizData`, `QuizAttempt`) mirror `src/types/quiz.ts` in
`QuizTypes`. The network is a parameter. Each request's outcome is a `Transport` value:
a response (status, body text, parsed body), the 5000 ms abort, or a network failure.
The browser's online flag is a boolean parameter.

## Where the code differs from its apparent intent

Every operation looks as if it replaces every failure with its own fixed message. The
code does not. The single-request operations (`getAllQuizzes`, `getQuizById`,
`createQuiz`, `saveQuiz`, `saveAttempt`, `getAttempts`) write `return handleResponse(response)`
inside their `try` block, with no `await`. The promise is handed back before it settles,
so a rejection from `handleResponse` never reaches the `catch`. The caller then sees the
error body text, or `HTTP error! status: <code>`, or the JSON parser's error. Only the
abort and the network failure of `fetchWithTimeout` get mapped. The model follows the
code (`ErrorMapping.Perform`, `ErrorMapping.HttpFailureEscapesCatch`). The four
workflows `await` their inner calls, so they do wrap every failure.

## Model

| member | source | states |
|---|---|---|
| `Http.HandleResponse` | src/services/quizService.ts:6-12 | Succeeds exactly for a 2xx status with a parseable body, yielding that body. A non-ok response fails with a non-empty message: the body text, or, when the body is empty, exactly `HTTP error! status: <code>`, from which the status is read back. A 2xx response with an unparseable body fails as the JSON parser does. |
| `Http.HttpErrorMessage` | src/services/quizService.ts:9 | The generic message starts with `HTTP error! status: `, and reading the digits after it back gives the status. |
| `Http.StatusNamedInHttpErrorMessage` | src/services/quizService.ts:9 | `HTTP error! status: <code>` names its status: reading the digits back gives the status, so different statuses give different messages. |
| `Http.DecimalRoundTrip` | src/services/quizService.ts:9 | Reading back the decimal rendering of a status gives the status. |
| `Http.Settle` | src/services/quizService.ts:188-189 | `fetchWithTimeout(...).then(handleResponse)` with no catch: an abort rejects with AbortError, a network failure with the network error, and a response settles as handleResponse does. |
| `ErrorMapping.CatchRequest` | src/services/quizService.ts:36-44 | A single-request catch block. An abort always gives the timeout message, and nothing else does. The offline message comes exactly for getAllQuizzes, a non-abort error and an offline browser. Every other error gives the operation's own message. |
| `ErrorMapping.Perform` | src/services/quizService.ts:47-56 | A single-request operation as written. It succeeds exactly when the request settles successfully, with the same body. An abort gives the timeout message for every operation. A network failure gives the offline message exactly for getAllQuizzes while offline, and otherwise the operation's own message. A response's own failure passes through as handleResponse's error. |
| `ErrorMapping.HttpFailureEscapesCatch` | src/services/quizService.ts:48-50 | An empty-bodied non-ok reply reaches the caller as `HTTP error! status: <code>`. That message is neither the operation's own message nor the timeout message. |
| `ErrorMapping.OnlineReadOnlyByGetAllQuizzes` | src/services/quizService.ts:40-42 | Every operation other than getAllQuizzes gives the same outcome whether the browser is online or not. |
| `ErrorMapping.OfflineOnlyAfterNetworkFailure` | src/services/quizService.ts:37-43 | For a failed fetch, the offline message comes exactly from getAllQuizzes after a network failure while offline. The abort check comes first, so a timeout is never reported as offline. |
| `ErrorMapping.FixedMessagesDistinct` | src/services/quizService.ts:36-56 | The ten operation messages, the timeout message, the offline message and "Question not found" are pairwise different. |
| `ErrorMapping.Rewrap` | src/services/quizService.ts:103-105 | A workflow's catch keeps a success as it is and turns every failure into the workflow's own message. |
| `ErrorMapping.WorkflowHidesInnerFailure` | src/services/quizService.ts:112-119 | Any inner failure becomes the workflow's message. This includes a timeout and "Question not found", which therefore never reach the caller. |
| `ErrorMapping.DeleteAll` | src/services/quizService.ts:186-191 | The deletions succeed exactly when every listed attempt's DELETE settles successfully. Otherwise they fail with the error of one of the failed deletions. |
| `ErrorMapping.ClearAllAttempts` | src/services/quizService.ts:183-196 | clearAttempts succeeds exactly when listing the attempts and every deletion succeed. Any failure gives the clear-attempts message. |
| `QuestionList.MaxId` | src/services/quizService.ts:98 | The value is at least 0 and at least every id. It is 0 or the id of some question, so it is max(ids, 0). |
| `QuestionList.NextId` | src/services/quizService.ts:98-99 | The new id is at least 1, strictly greater than every existing id, and exactly 1 for a quiz with no questions. |
| `QuestionList.FindIndex` | src/services/quizService.ts:111 | The value is -1 exactly when no question has the id. Otherwise it is a position holding the id, and no earlier position holds it. |
| `QuestionList.WithoutId` | src/services/quizService.ts:126 | No kept question has the id, and a question is kept exactly when it was in the list with a different id. |
| `QuestionList.Added` | src/services/quizService.ts:98-100 | Adding grows the list by one. Earlier questions are unchanged and in order. The last is the caller's question with only its id changed, to NextId, an id of at least 1 that no earlier question has. |
| `QuestionList.AddedKeepsIdsUnique` | src/services/quizService.ts:98-100 | If ids were unique before adding, they are unique after, whatever id the caller's question carried. |
| `QuestionList.Replaced` | src/services/quizService.ts:111-115 | Updating with an absent id leaves the list unchanged. Otherwise only the first matching position is overwritten; the length and every other position stay as they were. |
| `QuestionList.ReplacedKeepsIdsUnique` | src/services/quizService.ts:111-115 | With unique ids, the first match is the only match, and the list after the update still has unique ids. |
| `QuestionList.WithoutAbsentId` | src/services/quizService.ts:126 | Deleting an id no question has leaves the list unchanged. |
| `QuestionList.WithoutIdIdempotent` | src/services/quizService.ts:126 | Deleting the same id twice gives the same list as deleting it once. |
| `QuestionList.WithoutIdDistributes` | src/services/quizService.ts:126 | Deleting from a concatenation gives the concatenation of the two parts with the id deleted, so the kept questions stay in their original relative order. |
| `QuestionList.WithoutIdOnOne` | src/services/quizService.ts:126 | A single question is kept exactly when its id differs. |
| `QuestionList.WithoutIdKeepsIdsUnique` | src/services/quizService.ts:126 | If ids were unique before deleting, they are unique after. |
| `QuizRecords.QuizRecord.AddQuestion` | src/services/quizService.ts:98-100 | The question list becomes the old list plus the question with id NextId (at least 1, held by no earlier question). The method returns that id, and no other field of the quiz changes. |
| `QuizRecords.QuizRecord.ReplaceQuestion` | src/services/quizService.ts:111-115 | Reports found exactly when some question has the id. If found, the first match is overwritten in place; if not, nothing changes. No other field changes. |
| `QuizRecords.QuizRecord.RemoveQuestion` | src/services/quizService.ts:126 | The list becomes the filtered list, so no question with the id is left. No other field changes. |
| `QuizService.QuizStore.GetQuizById` | src/services/quizService.ts:47-56 | The outcome is the single-request outcome of the GET. When the server serves its store, a success is the stored quiz. |
| `QuizService.QuizStore.SaveQuiz` | src/services/quizService.ts:77-93 | The outcome is the single-request outcome of the PUT. The store holds the quiz under its own id exactly when the server answered 2xx; otherwise the store is unchanged. |
| `QuizService.QuizStore.AddQuestion` | src/services/quizService.ts:95-106 | Succeeds with true exactly when the fetch and the save succeed; any failure gives the add-question message. The store changes only when the fetch succeeded and the save was accepted, to the fetched quiz with the question appended under a fresh id. Unique ids stay unique. |
| `QuizService.QuizStore.UpdateQuestion` | src/services/quizService.ts:108-121 | Succeeds exactly when the fetch succeeds, some question has the id and the save succeeds; any failure gives the update-question message. An absent id fails before any save and leaves the store unchanged. Otherwise the store gets the quiz with the first match replaced, and unique ids stay unique. |
| `QuizService.QuizStore.DeleteQuestion` | src/services/quizService.ts:123-132 | Succeeds exactly when the fetch and the save succeed, even for an absent id; any failure gives the delete-question message. An accepted save leaves no question with the id. An absent id saves the quiz unchanged, so the store is unchanged when the GET delivered the stored quiz. Unique ids stay unique. |

## Left out

- The timer and abort machinery of `fetchWithTimeout` and the real `fetch` (src/services/quizService.ts:14-29): only their outcome is modelled, as the `Transport` value.
- JSON serialisation and parsing, headers and URL construction, including `getAttempts`' choice of query string. The model takes what `response.text()` and `response.json()` yield as two independent fields of the response.
- A well-formed JSON body of the wrong shape: `response.json()` checks only syntax, so such a 2xx body would be accepted as it is. The model has no such body and conflates it with a parse failure.
- `navigator.onLine` is a boolean parameter, not browser state.
- The concurrency of `Promise.all` in `clearAttempts`: the model states only which combinations of outcomes succeed. Which deletions happened before a failure is not modelled.
- `saveAttempt` building the attempt record: the clock-dependent `date` and the floating-point `percentage` (which divides by zero when `totalQuestions` is 0) are not modelled. Only the operation's error mapping is, through `ErrorMapping.Perform`.
- What the server does with `createQuiz`, `saveAttempt` and `getAttempts` (id assignment, filtering attempts by quiz) belongs to the API server. Only `saveQuiz`'s effect on the stored quizzes is modelled, because the workflows depend on it.
- A request that the server carried out but whose reply was lost (an abort after the write) is not modelled. A write that does not get a 2xx reply leaves the store as it was.
- Lost updates between concurrent read-modify-write callers: each workflow runs against the store on its own.
- `console.error` logging.
- JavaScript numbers: ids, scores and statuses are unbounded integers. Fractional or NaN ids are not modelled.
- QuizRecords.QuizRecord.AddQuestion: `addQuestion` also overwrites the `id` of the caller's own question object and pushes that same object, so the caller sees the new id. The model copies the question and returns the new id instead, so this aliasing is not captured.
