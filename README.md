# Study assistant: session state machines and quiz evaluator

A Dafny model of the stateful part of a document study assistant. A user uploads a document,
then chats about it, takes a generated multiple-choice quiz, or browses generated flashcards.

The model covers these parts:

- **Quiz session** (`QuizSession`, from `QuizInterface.js`). It turns the generated payload into
  questions: the answer letter becomes an index, and each option gets its `X) ` prefix. Every
  failure path falls back to one placeholder question. It records answers in a sparse
  index-to-choice map and moves forward and back with guards. Submitting from the last question
  evaluates the quiz, with a local tally when remote evaluation fails. It also guards the
  mistake analysis and can restart.
- **Quiz evaluator** (`QuizGrading`, from `QuizResultController.java`). It builds the ordered
  wrong-answer list and the correct count. It writes an option index as `K) text`. It
  short-circuits the mistake analysis when there are no mistakes. Otherwise it builds the analysis
  prompt by template substitution.
- **Agreement** (`ScoreAgreement`). Client and server give the same correct count for the same
  submission and map letters and indices inversely. When a question has all four option keys,
  they also show the same option texts. A missing key is shown as `undefined` by the client and
  as `null` by the server.
- **Flashcard session** (`FlashCards`, from `FlashCardInterface.js`). It has the guarded
  generation request, the request chat, circular browsing with a flip state, and the way back to
  the chat.
- **Q&A chat** (`Chat`, from `ChatInterface.js`). It has the send guard and the append-only
  message log. Simulated streaming is a tick that shows one more word; the tick after the last
  word commits the whole reply.
- **Upload gates** (`UploadRules`, `LandingPage`, `DocumentUpload`). A file passes a four-type
  allow-list first and then a size limit of 10 MiB, before any request is made.
- **App router** (`App`, from `App.js`). It holds five views and one stored document.
- **Runtime text operations** (`Text`). These are JavaScript `trim` and `split(' ')`, joining,
  and Java's decimal rendering of an `Integer` as `StringBuilder` writes it.

Each React component is a class. Its `useState` variables are fields and its handlers are
methods. Each awaited remote call is one atomic step. Its result is a method parameter of an
outcome datatype, for example `Received(data) | ParseFailure | NetworkFailure`, so every outcome
is covered. The network, the chat model and the file contents are not modelled; these parameters
stand for them.

The model follows the code in these respects:

- The code lets the quiz be submitted from the last question whether or not every question is
  answered. Only the Next button's `disabled` attribute waits for the current question.
- The local fallback's result has an empty wrong-answer list. It does not list "not answered"
  entries.
- Mistake analysis starts from a button, not by itself. On the client an empty wrong list sends
  no analysis request. The results screen then shows the client's own congratulation panel
  instead. After the local fallback the wrong list is always empty, so that panel appears
  whatever the score. The server's congratulation text is returned only when the analysis
  endpoint is called with no mistakes.
- Restarting does not regenerate the questions.
- There is no report saving, no jump-to-question and no web-resource lookup.

## Model

| member | source | states |
|---|---|---|
| QuizSession.AnswerIndex | frontend/src/components/QuizInterface.js:40-43 | the index is in 0..3; an index below 3 means the letter was exactly that key (A, B, C); every other value gives 3 |
| QuizSession.ConvertQuestion | frontend/src/components/QuizInterface.js:37-58 | four options; option k starts with key k and `) `, and the rest is that key's option text (`undefined` when missing); the correct index is the letter's index; the question text and the original options are kept |
| QuizSession.ConvertAll | frontend/src/components/QuizInterface.js:36-61 | conversion succeeds exactly when every question has an options object; it then keeps the number and the order of the questions and converts each one |
| QuizSession.DefaultQuestions | frontend/src/components/QuizInterface.js:80-98 | the fallback set is exactly one question with four options and correct index 0 |
| QuizSession.GenerationKeepsQuestions | frontend/src/components/QuizInterface.js:36-62 | a payload with no truthy error and a well-formed questions array stores its questions converted, in the same number and order |
| QuizSession.GenerationFallsBack | frontend/src/components/QuizInterface.js:26-74 | an error field, a missing or non-array `questions`, a question without options, a parse failure and a network failure each store exactly the one default question, with correct index 0 |
| QuizSession.QuestionsFrom | frontend/src/components/QuizInterface.js:26-74 | the stored questions are either the single default question or, for a received payload with no truthy error and a `questions` array, exactly that array converted |
| QuizSession.ForBackend | frontend/src/components/QuizInterface.js:126-130 | the evaluation request carries one entry per question, in order, with its text, original options and correct index |
| QuizSession.CorrectCount | frontend/src/components/QuizInterface.js:140-145 | the tally over a prefix never exceeds the prefix length |
| QuizSession.CorrectCountIsCardinality | frontend/src/components/QuizInterface.js:140-145 | the tally equals the number of indices whose recorded answer equals the correct index; a missing answer never counts |
| QuizSession.CountCorrectAnswers | frontend/src/components/QuizInterface.js:140-145 | the fallback loop returns the number of correctly answered indices, between 0 and the question count |
| QuizSession.LocalResult | frontend/src/components/QuizInterface.js:147-152 | the fallback result totals the question count; its correct count is the number of correctly answered indices; the wrong count is non-negative, correct plus wrong equals the total, and the wrong list is empty |
| QuizSession.EvaluationResult | frontend/src/components/QuizInterface.js:132-152 | a remote result is stored as received; after a failed request the result totals the question count, counts the correctly answered indices, has correct plus wrong equal to the total, and an empty wrong list |
| QuizSession.QuizInterface.constructor | frontend/src/components/QuizInterface.js:5-12 | the mount state: generating, no questions, index 0, no answers, no results, no analysis |
| QuizSession.QuizInterface.GenerateQuiz | frontend/src/components/QuizInterface.js:18-78 | the stored questions are those of the outcome, `isGenerating` is false after every outcome, and the index invariant holds |
| QuizSession.QuizInterface.HandleAnswerSelect | frontend/src/components/QuizInterface.js:100-105 | the current index now maps to the choice, overwriting any earlier one; every other key keeps its value; no key is lost or invented |
| QuizSession.QuizInterface.HandleNext | frontend/src/components/QuizInterface.js:107-113 | before the last question the index goes up by one, results stay and no request is sent; on the last (or with no questions) the evaluation request is sent, the index stays and the evaluation result is stored; the index stays in range |
| QuizSession.QuizInterface.HandlePrevious | frontend/src/components/QuizInterface.js:115-119 | the index goes down by one only when above 0, and stays in range |
| QuizSession.QuizInterface.EvaluateQuiz | frontend/src/components/QuizInterface.js:121-155 | the request carries the questions in the server's shape and the recorded answer map; results are shown; the stored result is the remote one, or the local tally when the request fails |
| QuizSession.QuizInterface.AnalyzeMistakes | frontend/src/components/QuizInterface.js:157-173 | with no result or an empty wrong list no request is sent and nothing changes; otherwise the stored wrong list is sent, the analysis is the remote text or the fixed error text, and `isAnalyzing` ends false |
| QuizSession.QuizInterface.RestartQuiz | frontend/src/components/QuizInterface.js:175-181 | index 0, no answers, no results, no result value and no analysis; the questions are untouched |
| QuizGrading.GetAnswerText | src/main/java/com/burak/openai/controller/QuizResultController.java:118-125 | for k in 0..3 the text starts with key k and `) `, and the rest is that key's option (`null` when missing); any other k gives "Unknown answer" |
| QuizGrading.AnswerTextRoundTrip | src/main/java/com/burak/openai/controller/QuizResultController.java:118-125 | reading the leading key back from an answer text gives the index it was written for, and none for "Unknown answer"; so different indices in 0..3 never give the same text, and none of them gives "Unknown answer" |
| QuizGrading.IsWrong | src/main/java/com/burak/openai/controller/QuizResultController.java:43-45 | a question is wrong when its index has no answer or the answer is not the correct index (a predicate; its meaning is proved in `QuizGrading.WrongListMembership`) |
| QuizGrading.EntryFor | src/main/java/com/burak/openai/controller/QuizResultController.java:46-51 | the entry for index i is numbered i + 1 and carries the question's text; its student text is "Not answered" exactly when the index has no answer |
| QuizGrading.AnswerTextIsNotNotAnswered | src/main/java/com/burak/openai/controller/QuizResultController.java:50 | no answer text the server writes equals "Not answered", so an unanswered question is always told apart from an answered one |
| QuizGrading.WrongAnswers | src/main/java/com/burak/openai/controller/QuizResultController.java:41-54 | the wrong list is no longer than the questions; every entry is numbered within 1..n, belongs to a question that is unanswered or answered wrongly, and carries that question's text, correct text and student text ("Not answered" when missing); numbers strictly increase |
| QuizGrading.WrongAnswersComplete | src/main/java/com/burak/openai/controller/QuizResultController.java:41-54 | every wrong question in a prefix has an entry numbered index + 1 |
| QuizGrading.WrongListMembership | src/main/java/com/burak/openai/controller/QuizResultController.java:41-54 | question i is in the wrong list, numbered i + 1, exactly when its answer is missing or differs from the correct index |
| QuizGrading.CorrectCount | src/main/java/com/burak/openai/controller/QuizResultController.java:45-57 | the count of correct answers over a prefix never exceeds the prefix length |
| QuizGrading.CorrectPlusWrong | src/main/java/com/burak/openai/controller/QuizResultController.java:57-64 | correct count plus wrong-list length equals the number of questions |
| QuizGrading.Graded | src/main/java/com/burak/openai/controller/QuizResultController.java:57-64 | in the response, correct plus wrong equals the total, which is the question count, and the wrong count is the list's length |
| QuizGrading.EvaluateQuiz | src/main/java/com/burak/openai/controller/QuizResultController.java:35-71 | a missing question list, or a missing answer map once the loop reads it, gives 500; otherwise the response has the wrong list above, and the correct count is the number of questions answered correctly |
| QuizGrading.EntryTexts | src/main/java/com/burak/openai/controller/QuizResultController.java:91-96 | one three-line block per wrong answer, in list order |
| QuizGrading.EntryText | src/main/java/com/burak/openai/controller/QuizResultController.java:92-95 | the block of one entry: the question line with its number in decimal, the correct-answer line and the student-answer line, then a blank line (a definition; what is proved about it is in `QuizGrading.EntryTexts` and `QuizGrading.WrongAnswersTextAppend`) |
| QuizGrading.WrongAnswersText | src/main/java/com/burak/openai/controller/QuizResultController.java:90-96 | the blocks of all entries, concatenated in list order (a definition; its properties are proved in `QuizGrading.WrongAnswersTextAppend` and `QuizGrading.WrongAnswersTextSnoc`) |
| QuizGrading.WrongAnswersTextSnoc | src/main/java/com/burak/openai/controller/QuizResultController.java:91-96 | appending one entry appends exactly that entry's block to the text |
| QuizGrading.BuildWrongAnswersText | src/main/java/com/burak/openai/controller/QuizResultController.java:90-96 | the loop's text is the blocks of all entries, in list order |
| QuizGrading.WrongAnswersTextAppend | src/main/java/com/burak/openai/controller/QuizResultController.java:90-96 | the prompt text of a list is the in-order concatenation of the texts of its parts |
| QuizGrading.ReplaceAll | src/main/java/com/burak/openai/controller/QuizResultController.java:100 | Java's `String.replace`: scanning left to right, each non-overlapping occurrence of the target is replaced and the rest is copied (a definition; its properties are proved in `QuizGrading.ReplaceSkipsBraceFree` and `QuizGrading.ReplaceFillsEveryPlaceholder`) |
| QuizGrading.ReplaceSkipsBraceFree | src/main/java/com/burak/openai/controller/QuizResultController.java:100 | template text without an opening brace passes through the substitution unchanged |
| QuizGrading.ReplaceFillsEveryPlaceholder | src/main/java/com/burak/openai/controller/QuizResultController.java:100 | a template of brace-free text and placeholders becomes the same text with every placeholder replaced by the wrong-answer text |
| QuizGrading.AnalyzeMistakes | src/main/java/com/burak/openai/controller/QuizResultController.java:73-116 | an absent or empty wrong list gives 200 with the congratulation and no chat call; otherwise the prompt sent is the template with the placeholder replaced by the wrong-answer text; an unreadable template or a failed chat call gives 500 with the fixed error text |
| ScoreAgreement.CountsAgree | src/main/java/com/burak/openai/controller/QuizResultController.java:45-57 | the server's correct count of the questions the client sends equals the client's local tally, over every prefix |
| ScoreAgreement.LocalFallbackMatchesServer | frontend/src/components/QuizInterface.js:140-153 | the local fallback result equals the server's response for the same submission, with only the wrong list emptied |
| ScoreAgreement.EvaluateBothWays | frontend/src/components/QuizInterface.js:121-154 | submitting the client's questions and answers to the server succeeds, and its correct count equals the local fallback loop's count |
| ScoreAgreement.AnswerLetterRoundTrip | src/main/java/com/burak/openai/controller/QuizResultController.java:118-123 | the client turns each key the server writes for index k back into k |
| ScoreAgreement.DisplayedOptionIsAnswerText | frontend/src/components/QuizInterface.js:47-52 | when all four keys are present, each option the client shows is exactly the server's answer text for that index |
| FlashCards.NextIndex | frontend/src/components/FlashCardInterface.js:71-74 | next stays within the deck and goes to 0 from the last card, otherwise one on |
| FlashCards.PrevIndex | frontend/src/components/FlashCardInterface.js:76-79 | previous stays within the deck and goes to the last card from 0, otherwise one back |
| FlashCards.NextPrevInverse | frontend/src/components/FlashCardInterface.js:71-79 | previous after next restores the index, and so does next after previous |
| FlashCards.NextTimes | frontend/src/components/FlashCardInterface.js:72 | any number of next presses stays within the deck |
| FlashCards.NextTimesWithinLap | frontend/src/components/FlashCardInterface.js:72 | within one lap, k presses of next move k places and wrap past the last card at most once |
| FlashCards.NextTimesCompose | frontend/src/components/FlashCardInterface.js:72 | pressing next a times and then b times is pressing it a + b times |
| FlashCards.FullCycleReturns | frontend/src/components/FlashCardInterface.js:71-74 | one press per card returns to the starting card; navigation repeats with the deck length as period |
| FlashCards.BotReplies | frontend/src/components/FlashCardInterface.js:32-64 | an outcome adds at most one bot turn, and none exactly when a deck arrives |
| FlashCards.DeckArrived | frontend/src/components/FlashCardInterface.js:32-47 | a deck arrives when the request succeeds, the error field is not truthy, and the deck is non-empty (a definition; its use is proved in `FlashCards.BotReplies` and `FlashCards.FlashCardInterface.ApplyGenerateOutcome`) |
| FlashCards.FailureReply | frontend/src/components/FlashCardInterface.js:32-64 | the bot turn when no deck arrives: the truthy error text, the empty-deck text, or the failed-request text (a definition; its use is proved in `FlashCards.FlashCardInterface.ApplyGenerateOutcome`) |
| FlashCards.FlashCardInterface.constructor | frontend/src/components/FlashCardInterface.js:6-12 | chat view, empty message, not generating, empty deck, index 0, unflipped, empty history |
| FlashCards.FlashCardInterface.SetMessage | frontend/src/components/FlashCardInterface.js:189 | the message is the typed text |
| FlashCards.FlashCardInterface.HandleGenerateFlashCards | frontend/src/components/FlashCardInterface.js:14-69 | a blank message or a request in flight changes nothing and sends nothing; otherwise the message is sent, one user turn with it is appended, then at most one bot turn; a deck that arrives replaces the cards and opens the cards view at index 0, unflipped; an error field, an empty deck or a failure keeps view and deck; `isGenerating` ends false and the message empty |
| FlashCards.FlashCardInterface.ApplyGenerateOutcome | frontend/src/components/FlashCardInterface.js:29-64 | a truthy error adds it as a bot turn; a non-empty deck replaces the cards and opens the cards view at index 0, unflipped, adding no turn; an empty deck or a failed request adds its fixed bot turn and keeps view and deck |
| FlashCards.FlashCardInterface.NextCard | frontend/src/components/FlashCardInterface.js:71-74 | the index becomes the next index round the deck, and the card shows its front |
| FlashCards.FlashCardInterface.PrevCard | frontend/src/components/FlashCardInterface.js:76-79 | the index becomes the previous index round the deck, and the card shows its front |
| FlashCards.FlashCardInterface.FlipCard | frontend/src/components/FlashCardInterface.js:81-83 | the flip state toggles; deck and index are untouched |
| FlashCards.FlashCardInterface.BackToChat | frontend/src/components/FlashCardInterface.js:85-90 | chat view, empty deck, index 0, unflipped; the chat history is untouched |
| Chat.Streamed | frontend/src/components/ChatInterface.js:22-28 | after k ticks the streamed text is the first k words joined by single spaces |
| Chat.StreamedAllWords | frontend/src/components/ChatInterface.js:22-37 | after every word the streamed text is the whole reply, so the committed message equals what was streamed |
| Chat.ChatInterface.constructor | frontend/src/components/ChatInterface.js:5-8 | no messages, empty input, not loading, nothing streaming |
| Chat.ChatInterface.SetInputMessage | frontend/src/components/ChatInterface.js:176 | the input is the typed text |
| Chat.ChatInterface.HandleSendMessage | frontend/src/components/ChatInterface.js:44-72 | a blank input or a send while loading changes nothing; otherwise the request carries the input, one user message with that text is appended and the input cleared; a reply starts streaming from its first word while loading; a failure appends the fixed error message and stops loading |
| Chat.ChatInterface.Tick | frontend/src/components/ChatInterface.js:25-41 | while words remain, one more word is shown and the log is unchanged; the tick after the last word appends one bot message with the full reply (equal to what was shown), clears the streamed text, stops loading and ends the stream |
| Text.TrimStart | frontend/src/components/FlashCardInterface.js:16 | JavaScript's `trimStart`, removing leading white space one character at a time (a definition; proved in `Text.TrimStartStrips`) |
| Text.TrimEnd | frontend/src/components/ChatInterface.js:46 | JavaScript's `trimEnd`, removing trailing white space one character at a time (a definition; proved in `Text.TrimEndStrips`) |
| Text.Trim | frontend/src/components/ChatInterface.js:46 | JavaScript's `trim` as `trimEnd` after `trimStart` (a definition; proved in `Text.BlankIffAllWhiteSpace`) |
| Text.IsBlank | frontend/src/components/FlashCardInterface.js:16 | the guard `!s.trim()`: the trimmed text is the empty string (a definition; proved in `Text.BlankIffAllWhiteSpace`) |
| Text.TrimStartStrips | frontend/src/components/FlashCardInterface.js:16 | `trimStart` gives a suffix, every removed character is white space, and the result does not start with white space |
| Text.TrimEndStrips | frontend/src/components/ChatInterface.js:46 | `trimEnd` gives a prefix, every removed character is white space, and the result does not end with white space |
| Text.BlankIffAllWhiteSpace | frontend/src/components/ChatInterface.js:46 | the send guard's blank test holds exactly when every character is white space |
| Text.Split | frontend/src/components/ChatInterface.js:23 | splitting gives at least one word, none containing the separator |
| Text.JoinSplit | frontend/src/components/ChatInterface.js:23-27 | joining the split words with the separator gives back the text |
| Text.JoinWithSnoc | frontend/src/components/ChatInterface.js:27 | adding a last word to a joined text adds the separator and the word |
| Text.DecimalString | src/main/java/com/burak/openai/controller/QuizResultController.java:92 | Java's decimal text of an `Integer`: a minus sign for a negative value, then the digits with no leading zeros (a definition, used for the question numbers of the prompt) |
| Text.ConcatAppend | src/main/java/com/burak/openai/controller/QuizResultController.java:90-96 | concatenating a list of texts is concatenating its two parts |
| UploadRules.Check | frontend/src/components/LandingPage.js:12-29 | a file is accepted exactly when its type is allowed and its size is at most 10485760 bytes; it is a type rejection exactly when the type is not allowed, whatever its size |
| UploadRules.RejectionStatus | frontend/src/components/LandingPage.js:14-29 | a rejection is shown as an error status |
| UploadRules.SizeBoundary | frontend/src/components/DocumentUpload.js:18-34 | exactly 10 MiB of an allowed type passes, one byte more is too large, and a disallowed type is reported as such whatever its size |
| LandingPage.LandingPage.constructor | frontend/src/components/LandingPage.js:5-6 | not uploading, no status |
| LandingPage.LandingPage.HandleFileSelect | frontend/src/components/LandingPage.js:8-53 | no file changes nothing; a rejected file sets the error status and issues no upload; an accepted file is uploaded; success hands the name, size and type to the callback and leaves no status; failure sets the error status and calls nothing; uploading ends false |
| DocumentUpload.UploadedNotice | frontend/src/components/DocumentUpload.js:47 | the notice for the parent contains the file name, right after the icon |
| DocumentUpload.DocumentUpload.constructor | frontend/src/components/DocumentUpload.js:5-7 | not uploading, no status, empty input |
| DocumentUpload.DocumentUpload.HandleFileChange | frontend/src/components/DocumentUpload.js:13-66 | no file changes nothing; a rejected file sets the error status, issues no upload and stays selected in the input; an accepted file is uploaded; success sets a success status naming the file and hands the notice to the parent; failure sets the error status and notifies nobody; for an accepted file uploading ends false and the input is cleared |
| App.Rendered | frontend/src/App.js:33-68 | a rendered screen is always the one whose view value was given |
| App.RenderSelectsByName | frontend/src/App.js:33-68 | each of the five view values renders exactly its own screen, by string equality, and any other value renders none |
| App.App.constructor | frontend/src/App.js:10-11 | the landing view and no document |
| App.App.HandleDocumentUploaded | frontend/src/App.js:13-16 | the document is stored and the options view shown |
| App.App.HandleOptionSelect | frontend/src/App.js:18-20 | the view becomes the chosen option; the document is untouched |
| App.App.HandleBackToOptions | frontend/src/App.js:22-24 | the options view is shown; the document is untouched |
| App.App.HandleStartOver | frontend/src/App.js:26-29 | the document is dropped and the landing view shown |

## Left out

- QuizController, FlashCardController, QuizChatClientConfig, MCPClientController and HelpDeskTicketRepository: these are calls to the chat model, Spring wiring and a JPA interface, with no session logic.
- DocumentService: document parsing, splitting, the vector store, UUIDs and the clock are I/O.
- api.js and the remote service: every awaited call is an outcome parameter. The model texts (generated questions, the analysis, chat replies) are opaque. `generateQuizRAG`, `evaluateQuiz`, `analyzeMistakes` and `generateFlashCards` are not defined in api.js, so the model treats their results as any outcome.
- OptionSelector and Message: these are markup, floating-point file-size formatting and locale time formatting.
- Prompt template files: their text is a parameter (`template`) of `QuizGrading.AnalyzeMistakes`.
- Rendering, styling, scrolling, message ids, timestamps, the document's `uploadedAt`, and the 3-second status timeout.
- The score percentage and its colour tiers: these are floating-point presentation.
- Concurrency: each await is one atomic step. So the `isGenerating` guard of the flashcard request never sees a request in flight. Stale responses after a restart are not modelled. Buttons disabled in markup are not handler preconditions.
- The fixed user name and the retriever's current-user setting are request plumbing.
- JSON values of other types (a number or object in a string field, a `null` question, an answer map that is not an object, entries with missing keys sent to the mistake analysis) are not modelled. Neither are the exceptions they would raise.
- Java `int` overflow: question counts are assumed below 2^31.
- QuizSession.QuizInterface.GenerateQuiz: requires index 0. The source runs it only from the mount effect, before any navigation. A later run that shrank the questions could leave the index out of range, and that case is not modelled.
- FlashCards.FlashCardInterface.NextCard: requires the cards view. Next on an empty deck would give `NaN` in JavaScript, but the button exists only in the cards view, whose deck `Valid()` proves non-empty.
- FlashCards.FlashCardInterface.PrevCard: requires the cards view, for the same reason.
- Chat.ChatInterface.Tick: the interval's `setStreamingMessage(prev => …)` updater closes over the mutable `index`, and `index++` runs right after the call. The model runs the updater at the call, with the index of that moment. That is React 17's behaviour for state updates outside event handlers, and React 18's when it computes the new state eagerly. Where React 18 batches and runs the updater later, at the next render, the updater sees the already-incremented index. The text shown while streaming then differs: for "a b" it is " b", then " b undefined". The committed bot message is the full reply either way, since it is built from `text`. That deferred ordering is not modelled.
- ScoreAgreement.CountsAgree, ScoreAgreement.LocalFallbackMatchesServer and ScoreAgreement.EvaluateBothWays: the answer map the server receives is modelled as a map from question index to choice (`map<int, int>`). The Java request class is not part of this model. These lemmas hold only if its `answers` field is a `Map<Integer, Integer>`, so that the JSON object's string keys are read as integers and `getAnswers().get(i)` finds them. With `Map<String, Integer>` the server would report every question as "Not answered".
- DocumentUpload.DocumentUpload.HandleFileChange: the input's value is modelled as the selected file's name; browsers write a path such as `C:\fakepath\<name>`. When no file comes with the change event, the modelled input keeps its earlier value.
- Chat.ChatInterface.HandleSendMessage: a reply that is not a string (where `split` throws into the error path) is not modelled.
