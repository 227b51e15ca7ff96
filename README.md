# learn-ai study tools: a Dafny model of their logic

learn-ai is a study-aid web application: a user hands it a YouTube video or a
PDF, and the dashboard offers flashcards, a quiz and a streaming chat tutor
about that document. Most of the repository is view code and calls to a
backend that wraps an LLM and a database. This project models the pieces
of it that are logic rather than glue, and proves what they promise:

- **Quiz runner** (`quiz.dfy`, module `Quiz`): the class `QuizRunner` holds the
  question list, the cursor, the selected answer, the checked flag, the score,
  the loading flag and the finished flag. Its methods are the view's handlers:
  select an option, check the answer, go to the next question, retake. The
  buttons the view shows in each state become `requires` clauses. Its
  invariant keeps the cursor on a question. It also keeps the score equal to
  the number of correct answers among the questions checked so far, so the
  score is at most the number of questions.
- **Chat transcript reducer** (`chat.dfy`, module `Chat`): the pure
  `setMessages` updaters are functions on a sequence of turns. One appends a
  chunk to the last turn, one overwrites the last turn with the apology, and
  `FoldChunks` runs the chunk updaters in delivery order. JavaScript's
  `String.prototype.trim` is modelled too. The class `ChatSession` holds
  `messages`, `input` and `isTyping`. `handleSubmit` becomes `BeginSubmit`,
  the read loop `StreamChunks`, and the `catch`/`finally` part `Finish`.
  `Submit` composes them against a `Response`: the already-decoded chunks,
  followed by a normal end or a failure.
- **Flashcard viewer** (`flashcards.dfy`, module `Flashcards`): the class
  `FlashcardViewer` covers the fetch as two steps (start, then finish with an
  outcome passed in), plus retry, clamped next/previous and the card flip.
  The ids of the requests made are kept in a ghost field, so retry can be
  shown to repeat the same request.
- **YouTube id extraction and transcript errors** (`chunking.dfy`, module
  `Chunking`): `extract_youtube_video_id` is modelled as the leftmost-match
  search of the pattern `(?:v=|/)([0-9A-Za-z_-]{11}).*`. The `except` branch of
  `get_youtube_transcript` is modelled as a function of the exception's text.

- **YouTube submission and its error hint** (`upload.dfy`, module `Upload`):
  the first two checks of `process_video`, the error text the upload form
  stores for the reply, and the form's "YouTube is blocking" hint test.

`wrappers.dfy` holds the `Option` and `Result` datatypes.

Every handler is an atomic step, run one after another. An asynchronous
handler is split at its `await` into the steps the user can observe.

A few behaviours of the program that the model keeps exactly:

- The chat request's `history` is `messages.slice(1)` of the transcript as it
  was before the submit. It holds neither the greeting nor the new user turn
  nor the empty assistant placeholder.
- The open assistant turn is simply the last turn of the transcript; turns
  carry no open/closed mark. The invariant `ChatSession.Valid` states that
  while a request is in flight the last two turns are the user's message and
  the assistant's turn.
- Within one attempt the quiz score only grows (`Quiz.QuizRunner.Evaluate`);
  "Retake Quiz" resets it to 0.
- The quiz's "no selection" test is JavaScript truthiness (`!selectedAnswer`).
  Selecting an option whose text is empty therefore also makes "Check Answer"
  a no-op (`Quiz.IsAnswerChosen`).
- The upload form replaces the reply of any failed `/process-video` request
  by the fixed text "Failed to process video", so the backend's blocking
  message never reaches the form and its "YouTube is blocking" hint never
  shows (module `Upload`, `upload.dfy`; see "## Findings").

## Model

| member | source | states |
|---|---|---|
| `Quiz.IsAnswerChosen` | frontend/src/components/Quiz.tsx:95 | the `!selectedAnswer` guard: an answer counts as chosen only when one is selected and its text is non-empty |
| `Quiz.CountCorrectBound` | frontend/src/components/Quiz.tsx:94-100 | the number of correctly answered questions among those checked never exceeds the number checked |
| `Quiz.QuizRunner.constructor` | frontend/src/components/Quiz.tsx:15-21 | a mounted quiz is loading, with no questions, cursor 0, no selection, unchecked, score 0, not finished |
| `Quiz.QuizRunner.FinishLoading` | frontend/src/components/Quiz.tsx:23-41 | the fetch's end sets the questions to the reply's list (empty when the field is absent, unchanged on failure) and ends loading; it only runs for a non-empty document id |
| `Quiz.QuizRunner.CurrentQuestion` | frontend/src/components/Quiz.tsx:87 | the question shown is one of the quiz's questions, the one under the cursor |
| `Quiz.QuizRunner.Select` | frontend/src/components/Quiz.tsx:89-92 | once the question is checked, selecting changes nothing; otherwise the option becomes the selection and nothing else changes |
| `Quiz.QuizRunner.Evaluate` | frontend/src/components/Quiz.tsx:94-100 | allowed only while unchecked (the button at 157-164); with no truthy selection it is a no-op; otherwise it marks the question checked, keeps the selection, adds exactly 1 to the score iff the selection equals the correct answer, and the score stays within the number of checked questions |
| `Quiz.QuizRunner.Next` | frontend/src/components/Quiz.tsx:102-110 | allowed only once checked (the button at 165-171); before the last question it moves the cursor by one and clears selection and check; on the last it only sets finished; the cursor stays in range |
| `Quiz.QuizRunner.Results` | frontend/src/components/Quiz.tsx:54-60 | the finished view reports the score out of the (non-zero) number of questions, every question having been checked once, and the score is at most that number |
| `Quiz.QuizRunner.Retake` | frontend/src/components/Quiz.tsx:72-78 | cursor, score, finished, selection and check return to their initial values; the questions are kept |
| `Chat.TrimStart` | frontend/src/components/Chat.tsx:30 | the leading-whitespace removal of `trim` keeps a suffix, drops only whitespace and does not start with whitespace |
| `Chat.TrimEnd` | frontend/src/components/Chat.tsx:30 | the trailing-whitespace removal of `trim` keeps a prefix, drops only whitespace and does not end with whitespace |
| `Chat.Trim` | frontend/src/components/Chat.tsx:30-32 | `input.trim()` is no longer than the input and neither starts nor ends with whitespace |
| `Chat.TrimSpec` | frontend/src/components/Chat.tsx:30-32 | `trim` keeps a contiguous piece of the input, drops only whitespace around it, and the piece neither starts nor ends with whitespace |
| `Chat.TrimBounds` | frontend/src/components/Chat.tsx:30-32 | the trimmed input is the piece of the input between two bounds, with only whitespace before and after it |
| `Chat.TrimStartAllWhitespace` | frontend/src/components/Chat.tsx:30 | leading-whitespace removal empties a string made only of whitespace |
| `Chat.TrimEmptyIff` | frontend/src/components/Chat.tsx:30 | the input trims to "" exactly when it is all whitespace, which is when the submit guard refuses it |
| `Chat.TrimUntouched` | frontend/src/components/Chat.tsx:32 | a message with no whitespace at either end is sent as typed |
| `Chat.TrimIdempotent` | frontend/src/components/Chat.tsx:30-32 | trimming the trimmed message changes nothing |
| `Chat.AppendToLast` | frontend/src/components/Chat.tsx:68-74 | a chunk's updater keeps the length, every earlier turn and the last turn's role, and appends the chunk to the last turn's text |
| `Chat.ReplaceLast` | frontend/src/components/Chat.tsx:79-85 | the failure updater keeps the length, every earlier turn and the last turn's role, and sets the last turn's text to exactly the given text, discarding what had streamed in |
| `Chat.AppendTwice` | frontend/src/components/Chat.tsx:68-74 | two chunk updaters in a row equal one updater with both chunks in order |
| `Chat.AppendChunksInOrder` | frontend/src/components/Chat.tsx:62-76 | running the updaters of a chunk sequence (empty chunks skipped) equals appending the concatenation of all chunks, in delivery order, to the last turn only |
| `Chat.FoldChunks` | frontend/src/components/Chat.tsx:62-76 | the chunk updaters never change the transcript's length |
| `Chat.UpdateAppended` | frontend/src/components/Chat.tsx:68-85 | on a transcript built as earlier turns plus a last turn, both updaters touch that last turn only |
| `Chat.SubmittedTranscript` | frontend/src/components/Chat.tsx:36-88 | an accepted submit turns transcript T into T, the user's turn, and an assistant turn holding either all chunks in order or the apology |
| `Chat.ChatSession.constructor` | frontend/src/components/Chat.tsx:13-17 | the chat starts with the greeting as its only turn, an empty input and no request in flight |
| `Chat.ChatSession.Type` | frontend/src/components/Chat.tsx:132-133 | typing (disabled while a request is in flight) sets the input and changes nothing else |
| `Chat.ChatSession.BeginSubmit` | frontend/src/components/Chat.tsx:30-51 | refused (nothing changes, no request) when the trimmed input is empty or a request is in flight; otherwise appends the user's trimmed message and an empty assistant turn, clears the input, sets the guard, and sends the pre-submit transcript without its greeting as history |
| `Chat.ChatSession.ReceiveChunk` | frontend/src/components/Chat.tsx:65-75 | a non-empty chunk is appended to the last turn through its updater; an empty one changes nothing |
| `Chat.ChatSession.StreamChunks` | frontend/src/components/Chat.tsx:62-76 | the read loop leaves the transcript equal to the chunk updaters applied in delivery order, guard still set |
| `Chat.ChatSession.Finish` | frontend/src/components/Chat.tsx:77-88 | on failure the last turn becomes the apology; the guard is cleared whether the stream succeeded or failed |
| `Chat.ChatSession.Submit` | frontend/src/components/Chat.tsx:28-89 | a whole submit: refused ones change nothing; an accepted one leaves T, the user's turn, and the assistant's turn with all chunks in order (or the apology), the input empty, and the guard clear |
| `Flashcards.ErrorText` | frontend/src/components/Flashcards.tsx:35 | the error shown is never empty: the failure's message, or "Failed to load flashcards." when that is empty |
| `Flashcards.NextIndex` | frontend/src/components/Flashcards.tsx:72 | the cursor advances by one exactly when it is before the last card, otherwise stays, and never leaves the list |
| `Flashcards.PrevIndex` | frontend/src/components/Flashcards.tsx:79 | the cursor goes back by one exactly when it is past the first card, otherwise stays |
| `Flashcards.FlashcardViewer.constructor` | frontend/src/components/Flashcards.tsx:14-18 | a mounted viewer is loading, with no cards, cursor 0, front side up, no error |
| `Flashcards.FlashcardViewer.StartFetch` | frontend/src/components/Flashcards.tsx:21-22 | a fetch starts loading, clears the error and sends a request for this document |
| `Flashcards.FlashcardViewer.FinishFetch` | frontend/src/components/Flashcards.tsx:23-38 | success sets the cards (empty when absent), cursor 0, front side up, no error; failure sets the error text and leaves cards and cursor; loading ends either way |
| `Flashcards.FlashcardViewer.FetchCards` | frontend/src/components/Flashcards.tsx:20-39 | the whole load cycle: loading, then ready with the reply's cards or an error, one request for this document |
| `Flashcards.FlashcardViewer.Retry` | frontend/src/components/Flashcards.tsx:56-63 | offered on the error view, it repeats the same request for the same document with the same effects as the first |
| `Flashcards.FlashcardViewer.Next` | frontend/src/components/Flashcards.tsx:69-74 | the card shows its front and the cursor moves on by the clamped rule; the cursor stays on a card |
| `Flashcards.FlashcardViewer.Prev` | frontend/src/components/Flashcards.tsx:76-81 | the card shows its front and the cursor moves back by the clamped rule; the cursor stays on a card |
| `Flashcards.FlashcardViewer.Flip` | frontend/src/components/Flashcards.tsx:99 | a click toggles which side shows and changes nothing else |
| `Chunking.MatchAt` | backend/utils/chunking.py:8 | the pattern tried at one position yields, when it matches, an 11-character id from `[0-9A-Za-z_-]` |
| `Chunking.SearchFrom` | backend/utils/chunking.py:8-11 | the search from a position returns "" or an 11-character id |
| `Chunking.SearchFromFindsLeftmost` | backend/utils/chunking.py:8-11 | the search from a position returns "" exactly when no later position matches, and otherwise the group of a match with no match between the start and it |
| `Chunking.ExtractYoutubeVideoId` | backend/utils/chunking.py:6-11 | the result is "" or 11 id characters; it is "" exactly when no position matches; otherwise it is the group after the `v=` or `/` of the leftmost match |
| `Chunking.SearchFromSkips` | backend/utils/chunking.py:8 | positions that do not match are passed over by the search |
| `Chunking.LeftmostMatchIsResult` | backend/utils/chunking.py:8-9 | conversely, a match with no match before it is the result |
| `Chunking.MatchInside` | backend/utils/chunking.py:8 | a match starts inside the URL |
| `Chunking.MatchAtPrefix` | backend/utils/chunking.py:8 | whether a position matches depends only on the 13 characters from there on |
| `Chunking.MatchSurvivesAppend` | backend/utils/chunking.py:8 | a match found in a URL is still a match once text is appended |
| `Chunking.TrailingTextIgnored` | backend/utils/chunking.py:8 | once a URL yields an id, appending any text yields the same id (the trailing `.*`) |
| `Chunking.NoMarkerAt` | backend/utils/chunking.py:8 | no match starts at a character other than `v` or `/` |
| `Chunking.SlashWithoutId` | backend/utils/chunking.py:8 | a `/` followed within 11 characters by a non-id character does not match |
| `Chunking.WatchUrlMatch` | backend/test_api.py:9 | the smoke-script URL matches at its `v=` |
| `Chunking.WatchUrlNoEarlierMatch` | backend/test_api.py:9 | none of the smoke-script URL's slashes before the `v=` matches |
| `Chunking.WatchUrlExample` | backend/test_api.py:9 | `https://www.youtube.com/watch?v=M988_fsOSWo` yields `M988_fsOSWo` |
| `Chunking.ValidateVideoUrl` | backend/routes/processing.py:13-15 | a URL without a match is rejected as "Invalid YouTube URL"; otherwise the id goes on, and it is well formed |
| `Chunking.TranscriptFailure` | backend/utils/chunking.py:23-28 | on a fetch error the transcript is ""; the message is the blocking text exactly when the error contains "YouTube is blocking requests" or "cloud provider", and the subtitles text otherwise |
| `Chunking.AbsentFirstChar` | backend/utils/chunking.py:26 | a pattern whose first character is absent from a string does not occur in it |
| `Chunking.IsBlockingError` | backend/utils/chunking.py:26 | an exception text is classified as blocking when it contains "YouTube is blocking requests" or "cloud provider" |
| `Chunking.BlockingPhraseExactlyWhenBlocked` | backend/utils/chunking.py:26-28 | of the two messages, only the blocking one contains "YouTube is blocking", so the message contains that phrase exactly when the error was classified as blocking |
| `Upload.GetTranscript` | backend/utils/chunking.py:15-28 | a fetched transcript comes with an empty message; a failed fetch gives an empty transcript and a non-empty message |
| `Upload.ReplyFor` | backend/routes/processing.py:13-19 | a URL without an id is refused as "Invalid YouTube URL"; otherwise an empty transcript is refused with the transcript's message as its detail |
| `Upload.ShowsBlockingHint` | frontend/src/components/UploadSection.tsx:133 | the form's hint test: the error text contains "YouTube is blocking" |
| `Upload.FormErrorAsWritten` | frontend/src/components/UploadSection.tsx:26-40 | the form's error is empty exactly after a success, and is "Failed to process video" after every error status |
| `Upload.NoHintAfterRefusal` | frontend/src/components/UploadSection.tsx:35 | as written, no error status brings up the hint, whatever detail the backend sent |
| `Upload.BlockedVideoShowsNoHint` | backend/routes/processing.py:17-19 | the smoke-script URL with a "cloud provider" fetch error is refused with the blocking message, yet the form shows no hint |
| `Upload.FormError` | frontend/src/components/UploadSection.tsx:35-40 | corrected: an error status shows the backend's detail, or "Failed to process video" when the detail is empty |
| `Upload.ShortContains` | frontend/src/components/UploadSection.tsx:133 | a string no longer than a pattern contains it only by being equal to it |
| `Upload.HintShownExactlyWhenBlocked` | frontend/src/components/UploadSection.tsx:133 | with the detail shown, the hint appears exactly when the URL has an id and its transcript fetch failed with an error classified as blocking |

## Left out

- HTTP requests, JSON parsing and status checks: each request's outcome is a parameter (`FetchOutcome`, `LoadOutcome`, `Response`). The chat's request body is returned as a `ChatRequest` value.
- `TextDecoder` and `reader.read()`: each chunk arrives already decoded as a string. How multi-byte characters are buffered across chunks is not modelled.
- Rendering, animation, styling and scroll-to-bottom are not modelled, and neither is the `console.error` / `print` logging.
- Flashcards.FlashcardViewer.Next: `handleNext` clears the flip flag at once and moves the cursor 150 ms later (`setTimeout`). The model does both in one step, so a click during those 150 ms is not modelled. The same holds for `Flashcards.FlashcardViewer.Prev`.
- React state updates are taken to apply in program order, one handler at a time. Batching and re-renders are not modelled. A fetch still in flight when the component remounts for another document is not modelled either.
- The quiz's percentage and its colour thresholds (`Math.round` on a floating-point ratio) are left out. The integer bound `score <= questions.length` is proved instead (`Quiz.QuizRunner.Results`).
- The transcript fetch of `get_youtube_transcript` is a network call through `YouTubeTranscriptApi`: its outcome is a parameter (`Upload.TranscriptFetch`), the joined transcript text or the exception's text. `extract_text_from_pdf` (PyPDF2) and `chunk_text` (langchain) are foreign libraries and are left out too.
- The backend routes (`processing.py`, `generation.py`, `chat.py`) are database inserts, LLM calls and a streaming generator, and are not part of this model. The exception is the first two checks of `process_video`: the "Invalid YouTube URL" check (`Chunking.ValidateVideoUrl`) and the empty-transcript refusal (`Upload.ReplyFor`). `services/gemini.py` and `services/supabase_client.py` are SDK wrappers and are not part of this model.
- The upload form's PDF path, tab switching and file picking, the page shell, layout, app setup, request models and smoke script are not part of this model. The exceptions are the form's YouTube submit and hint test (module `Upload`) and the smoke script's URL (`Chunking.WatchUrlExample`).
- `process_video` after its two checks (the document insert, chunking and embedding) is not part of this model: `Upload.ReplyFor` answers `Processed` there.
- Chat.FoldChunks: its own contract states only that the length is kept. What it computes is stated by `Chat.AppendChunksInOrder`.

## Findings

| source | as written | input that shows it | evidently intended | confidence | as-written member | corrected member |
|---|---|---|---|---|---|---|
| frontend/src/components/UploadSection.tsx:35 | any error status throws `new Error("Failed to process video")` before the body is read, so the `detail` of `process_video` never reaches `error`, and the hint test at line 133 is never true after a reply | `https://www.youtube.com/watch?v=M988_fsOSWo` whose transcript fetch fails with "cloud provider": the backend answers 400 with the blocking message, the form shows "Failed to process video" and no hint | the reply's `detail` becomes the form's error, so the hint shows exactly for the blocking branch of `get_youtube_transcript` | high, not executed | `Upload.FormErrorAsWritten`, `Upload.NoHintAfterRefusal`, `Upload.BlockedVideoShowsNoHint` | `Upload.FormError`, `Upload.HintShownExactlyWhenBlocked` |
