# Study-assistant front end: a verified model of its state logic

The application is a single-page study assistant for a public-finance course. The student keeps a list of course notes, the knowledge base. Notes are typed in by hand or extracted from an uploaded PDF or text file. Three study modes forward the notes to a hosted language model:

- a tutoring chat;
- a multiple-choice quiz;
- a generated numeric exercise.

This project models the logic around the user interface:

- the knowledge list and the context string made from it;
- the ingestion helpers;
- the state machines of the three modes;
- how the query facade shapes its request and absorbs failures.

The hosted model, the PDF decoder, the UUID source and the clock are all replaced by parameters. The model and the decoder become oracle inputs.

One Dafny module per source file:

| module | source |
|---|---|
| `Types` | `types.ts` (records), plus an `Option` wrapper |
| `Text` | JavaScript `String.prototype.trim` and `Array.prototype.join`, as the components use them |
| `KnowledgeStore` | `App.tsx`: flatten, add, delete, import |
| `Ingestion` | `components/KnowledgeBase.tsx`: manual form, file upload, title derivation, PDF page text |
| `GeminiService` | `services/geminiService.ts`: request contents, reply mapping, failure values |
| `Chat` | `components/ChatInterface.tsx` |
| `Quiz` | `components/QuizMode.tsx` |
| `ExerciseMode` | `components/ExerciseMode.tsx` |

The handlers `startQuiz`, `createExercise` and `handleSend` each await one call. Each is split at that `await`:

- a *begin* step runs the code before the call;
- a *finish* step runs the code after it and takes `Option<result>`, where `None` means the awaited call threw;
- a composite method runs both steps with the oracle in between.

The upload handler `handleFileUpload` awaits several reads: the file buffer, the document, each page and its text, or the file text. It is modelled as one step, `HandleFileUpload`, whose readers are replaced by their results.

The facade functions `generateQuiz` and `generateExercise` catch every exception and return a fixed value. `askGemini` does the same for every exception the SDK raises as an `Error` object. Because of that, the composites always pass `Some(...)`, and the quiz and exercise `None` branches model `catch` blocks that are never reached. The chat's `catch` (`components/ChatInterface.tsx:39-40`) is reachable only when the thrown value is `null` or `undefined`. In that case reading `error.message` inside the facade's own `catch` throws again (`services/geminiService.ts:55`). `Complete(None)` models that path, but `Send` does not produce it.

Facts of the code the model follows:

- The store starts empty (`App.tsx:12`). There is no local-storage persistence and no default seed list, because `data.ts` is unused.
- Ingestion accepts any text with a non-whitespace character (`components/KnowledgeBase.tsx:49`). No minimum-length threshold exists.
- Each PDF page contributes its line followed by `"\n"` (`components/KnowledgeBase.tsx:43`). The newline ends every page, including the last, so it is a terminator rather than a separator.
- Each flattened entry is `"Tema: " + title + "\n" + content` (`App.tsx:15`).
- A missing API key only triggers a warning, and the call goes ahead. Responses get no schema validation.
- A manually added item has a non-blank title. An uploaded file named only by its extension (".txt") gets an empty title (`ExtensionOnlyNameGivesEmptyTitle`, `components/KnowledgeBase.tsx:50`).
- Import skips ids already in the store, but not ids repeated inside the pack (`DuplicateInPackSurvives`, `App.tsx:35-36`).

## Model

| member | source | states |
|---|---|---|
| Text.LeadingWhitespace | components/KnowledgeBase.tsx:21 | counts the whitespace `trim` removes at the start: every counted character is whitespace and the next one is not |
| Text.TrailingWhitespace | components/KnowledgeBase.tsx:21 | counts the whitespace `trim` removes at the end: every counted character is whitespace and the one before them is not |
| Text.Trim | components/KnowledgeBase.tsx:21 | `trim()` keeps the middle of the string unchanged, everything it drops is whitespace, and neither end of the result is whitespace |
| Text.IsBlank | components/KnowledgeBase.tsx:21 | `!s.trim()` holds exactly when every character is whitespace (both directions) |
| Text.Join | App.tsx:15 | `join` of no parts is the empty string, and otherwise it starts with the first part |
| Text.JoinAppend | App.tsx:15 | joining a concatenation joins the two halves with exactly one separator between them |
| Text.JoinAllWhitespace | components/KnowledgeBase.tsx:43 | joining blank parts with a blank separator gives a blank string |
| KnowledgeStore.Entries | App.tsx:15 | one entry per item, in list order, each `"Tema: " + title + "\n" + content` |
| KnowledgeStore.Flatten | App.tsx:14-16 | the context string opens with the newest item's entry |
| KnowledgeStore.FlattenEmptyIff | App.tsx:14-16 | the context is empty exactly when the list is empty |
| KnowledgeStore.FlattenPrepend | App.tsx:15 | after a prepend, the context is the new entry, one separator, then the old context (newest first) |
| KnowledgeStore.EntryOffsetIncreasing | App.tsx:15 | item i's entry starts before item j's entry whenever i < j, so flattening keeps list order |
| KnowledgeStore.FlattenEntryAt | App.tsx:15 | each item's entry appears verbatim in the context at its offset |
| KnowledgeStore.PrependUnique | App.tsx:18-26 | prepending keeps ids unique exactly when the new id is fresh |
| KnowledgeStore.WithoutId | App.tsx:29 | the result keeps exactly the items whose id differs from the deleted one, and is never longer |
| KnowledgeStore.WithoutIdAppend | App.tsx:29 | delete distributes over concatenation, so the kept items stay in their original order |
| KnowledgeStore.WithoutAbsentId | App.tsx:29 | deleting an id that is not present leaves the list unchanged |
| KnowledgeStore.DeleteIdempotent | App.tsx:28-30 | the id set loses exactly the deleted id, and deleting twice equals deleting once |
| KnowledgeStore.WithoutIdUnique | App.tsx:29 | delete keeps ids unique |
| KnowledgeStore.Unseen | App.tsx:35-36 | the filtered pack holds exactly the pack items whose id is not already present |
| KnowledgeStore.UnseenAppend | App.tsx:36 | filtering distributes over concatenation, so the unseen items keep the pack's order and multiplicity |
| KnowledgeStore.Merge | App.tsx:34-38 | after an import the store holds exactly the ids of the old store and of the pack |
| KnowledgeStore.MergeAddsOnlyNewIds | App.tsx:34-38 | import puts only pack items with ids new to the store in front, and keeps the current list as an unchanged suffix |
| KnowledgeStore.MergeIntoEmpty | App.tsx:34-38 | importing into an empty store yields the pack verbatim |
| KnowledgeStore.MergeIdempotent | App.tsx:33-37 | importing the same pack twice equals importing it once |
| KnowledgeStore.UnseenUnique | App.tsx:36 | filtering a pack with distinct ids keeps them distinct |
| KnowledgeStore.MergeUnique | App.tsx:34-38 | ids stay unique after import exactly when the store and the unseen part of the pack each have none repeated; a unique store plus a distinct pack stays unique |
| KnowledgeStore.DuplicateInPackSurvives | App.tsx:36 | a pack that repeats a new id brings in both copies, because duplicates inside the pack are not filtered |
| KnowledgeStore.Store.constructor | App.tsx:12 | the store starts empty |
| KnowledgeStore.Store.Add | App.tsx:18-26 | the new item with the given fresh id and time is prepended; the old list is the suffix; unique ids are preserved |
| KnowledgeStore.Store.Delete | App.tsx:28-30 | the list becomes `WithoutId` of the old list, the id is gone, and unique ids are preserved |
| KnowledgeStore.Store.Import | App.tsx:32-39 | the list becomes the unseen pack items followed by the old list; unique ids are preserved when the pack's ids are distinct |
| Ingestion.ExtensionDotFrom | components/KnowledgeBase.tsx:50 | the backward scan finds the dot where `/\.[^/.]+$/` matches, or proves that no match exists |
| Ingestion.DeriveTitle | components/KnowledgeBase.tsx:50 | the title is a prefix of the file name: the name cut at the matching dot, or the whole name when the pattern does not match |
| Ingestion.PageLine | components/KnowledgeBase.tsx:43 | a page line ends with its newline and starts with the page's first item |
| Ingestion.PagesText | components/KnowledgeBase.tsx:40-44 | every page contributes at least one character, and the text of a PDF with pages ends with a newline |
| Ingestion.PagesTextAppend | components/KnowledgeBase.tsx:40-44 | the text of two page runs is the first run's text followed by the second's (page order) |
| Ingestion.BlankPagesText | components/KnowledgeBase.tsx:40-44 | pages whose items are all blank give blank text |
| Ingestion.ExtractPdfText | components/KnowledgeBase.tsx:36-44 | the loop over pages 1..numPages yields `PagesText`: each page's items joined by single spaces plus `"\n"`, in page order |
| Ingestion.Extracted | components/KnowledgeBase.tsx:36-47 | extraction fails exactly for an unreadable file; a text file's text passes unchanged; a PDF's text ends with a newline when it has pages |
| Ingestion.ExtractText | components/KnowledgeBase.tsx:36-47 | the reading step yields exactly `Extracted` of the file: the page loop for a PDF, the text otherwise, nothing on failure |
| Ingestion.UploadedItem | components/KnowledgeBase.tsx:37-52 | an item is produced exactly when extraction succeeded and the text has a non-whitespace character; its title is `DeriveTitle` of the file name and its content is the extracted text |
| Ingestion.ExtensionOnlyNameGivesEmptyTitle | components/KnowledgeBase.tsx:50 | an upload named `"." + ext`, for any non-empty `ext` with no dot or slash, creates an item whose title is empty |
| Ingestion.BlankPdfAddsNothing | components/KnowledgeBase.tsx:40-52 | a PDF whose pages carry only blank items (a scanned PDF has none) produces no item |
| Ingestion.KnowledgeForm.constructor | components/KnowledgeBase.tsx:13-16 | the form starts empty and closed, and is not processing |
| Ingestion.KnowledgeForm.Open | components/KnowledgeBase.tsx:98 | the card opens the form and keeps the typed text |
| Ingestion.KnowledgeForm.Close | components/KnowledgeBase.tsx:111 | the close button hides the form and keeps the typed text |
| Ingestion.KnowledgeForm.HandleSubmit | components/KnowledgeBase.tsx:19-28 | an item is added exactly when both trimmed fields are non-empty, and then both fields are emptied and the form closes; otherwise nothing changes |
| Ingestion.KnowledgeForm.HandleFileUpload | components/KnowledgeBase.tsx:30-59 | with no file nothing changes; otherwise the store gains exactly `UploadedItem`, or is unchanged on blank text or failure, and the processing flag ends cleared |
| GeminiService.Notes | services/geminiService.ts:34 | the notes are never empty; they are the knowledge text exactly when it is non-empty, and the fixed "No hay apuntes específicos subidos." otherwise |
| GeminiService.PromptText | services/geminiService.ts:34 | the final turn's text has the length of header, notes, question header and question together, and starts with the context header |
| GeminiService.PromptTextLayout | services/geminiService.ts:34 | the notes follow the context header, the question header follows the notes, and the question ends the text |
| GeminiService.HistoryTurn | services/geminiService.ts:30 | a prior message becomes a `user` turn exactly when its role is `user`, carrying its text as the one part |
| GeminiService.Contents | services/geminiService.ts:29-37 | `|history| + 1` turns; history turns first and in order, with role `user` exactly when the message role is `user` and the text kept; the last turn is the user's prompt |
| GeminiService.Apology | services/geminiService.ts:55 | the apology is the fixed head, the error message, then the fixed tail |
| GeminiService.AnswerOf | services/geminiService.ts:49-56 | the answer text is never empty: empty text becomes the fixed fallback, missing grounding becomes `[]`, and a failure becomes the apology with no sources |
| GeminiService.AskGemini | services/geminiService.ts:26-57 | the answer is `AnswerOf` the reply to exactly `Contents(prompt, knowledge, history)`: the reply text or the fallback with its grounding sources, or the apology; it is never empty |
| GeminiService.GenerateQuiz | services/geminiService.ts:59-88 | a failure yields `[]`; otherwise the generated questions |
| GeminiService.GenerateExercise | services/geminiService.ts:90-116 | a failure yields the sentinel titled "Error" with no steps and an empty solution; otherwise the generated exercise |
| Chat.AsHistory | components/ChatInterface.tsx:34 | one history entry per message, same order, role name and text |
| Chat.RoleName | components/ChatInterface.tsx:34 | a message's role string is `"user"` exactly for the user's messages |
| Chat.HistoryTurnsMatchTranscript | components/ChatInterface.tsx:34 | every transcript message reaches the model as a turn with the same role and text, in order, followed by the question |
| Chat.ChatSession.constructor | components/ChatInterface.tsx:11-16 | the transcript is exactly the welcome message from the model; no sources, empty input, not loading |
| Chat.ChatSession.SetInput | components/ChatInterface.tsx:102 | typing replaces the input |
| Chat.ChatSession.Accept | components/ChatInterface.tsx:26-31 | blank input or loading changes nothing; otherwise one user message with the input is appended, the input cleared and loading set; the pre-send transcript is handed on |
| Chat.ChatSession.Complete | components/ChatInterface.tsx:35-42 | exactly one model message is appended (the answer, or the connection-error text); sources grow only by a non-empty list; loading is cleared |
| Chat.ChatSession.Send | components/ChatInterface.tsx:25-44 | the transcript and sources only grow; an accepted send appends exactly the user message and the non-empty answer the service gave for the pre-send transcript |
| Quiz.QuizContext | components/QuizMode.tsx:23 | the generator gets the knowledge text exactly when it is longer than 50 characters, and the generic topic otherwise |
| Quiz.CorrectCountsHits | components/QuizMode.tsx:42-44 | the running score equals the number of questions whose pick equals `correctAnswerIndex` |
| Quiz.Correct | components/QuizMode.tsx:42-44 | the running score never exceeds the number of answers given |
| Quiz.QuizRunner.constructor | components/QuizMode.tsx:11-17 | no questions, index 0, no selection, score 0, not finished, and the invariant holds |
| Quiz.QuizRunner.ScoreBounded | components/QuizMode.tsx:79 | score <= answers <= questions; when finished, every question is answered and the score counts the correct ones |
| Quiz.QuizRunner.BeginStart | components/QuizMode.tsx:20 | starting shows the loading screen |
| Quiz.QuizRunner.FinishStart | components/QuizMode.tsx:24-35 | new questions reset to index 0, with no selection, explanation hidden, score 0 and not finished; a thrown call changes only loading |
| Quiz.QuizRunner.StartQuiz | components/QuizMode.tsx:19-36 | the questions are the generator's result for `QuizContext`, and the run starts fresh |
| Quiz.QuizRunner.HandleAnswer | components/QuizMode.tsx:38-45 | a second answer changes nothing; the first is locked in, shows the explanation and raises the score by exactly 1 exactly when it is correct; the invariant is kept |
| Quiz.QuizRunner.HandleNext | components/QuizMode.tsx:47-55 | before the last question the index advances by 1 and the selection and explanation are cleared; on the last question the quiz finishes and the index stays |
| ExerciseMode.ExerciseContext | components/ExerciseMode.tsx:19 | the generator gets the knowledge text exactly when it is longer than 50 characters, and the generic topic otherwise |
| ExerciseMode.ExerciseSession.constructor | components/ExerciseMode.tsx:11-13 | no exercise, not loading, solution hidden |
| ExerciseMode.ExerciseSession.View | components/ExerciseMode.tsx:29-57 | the loading screen shows exactly while loading; the start screen shows exactly when no exercise is loaded, whatever the solution flag says |
| ExerciseMode.ExerciseSession.BeginCreate | components/ExerciseMode.tsx:16-17 | starting generation sets loading and hides the solution |
| ExerciseMode.ExerciseSession.FinishCreate | components/ExerciseMode.tsx:20-25 | the exercise is replaced only by a result and kept if the call threw; loading is cleared |
| ExerciseMode.ExerciseSession.CreateExercise | components/ExerciseMode.tsx:15-27 | the exercise becomes the facade's result for `ExerciseContext` (the sentinel on failure), shown with the solution hidden |
| ExerciseMode.ExerciseSession.ShowSolution | components/ExerciseMode.tsx:95 | the solution flag becomes true, whatever it was before |
| ExerciseMode.ExerciseSession.HideSolution | components/ExerciseMode.tsx:107 | the solution flag becomes false, whatever it was before |

## Left out

- Rendering, styling, scrolling, `alert` messages and the clipboard export with its generated code string. These are presentation or browser I/O.
- `components/Library.tsx`, `components/Sidebar.tsx` and `data.ts`. They only render or hold a seed list the application never reads.
- The network call itself, the system prompt, the model name, temperature and tools. The model is an oracle parameter.
- `JSON.parse` of generated text. The oracle returns the parsed value. The code validates nothing, so a response of `"{}"` would give an incomplete exercise that this typed model cannot represent.
- The API key lookup. It only warns and carries on with an empty key.
- The PDF decoder and the file reader. Their results (the page item strings, the file text, or a failure) are inputs.
- `crypto.randomUUID` and `Date.now`. They are parameters, and the add operations require the id to be fresh.
- The quiz percentage and the progress-bar width. These are floating point.
- React's state batching and the interleaving of asynchronous handlers. Each handler is modelled as the atomic steps described above.
- Quiz.QuizContext: measures length in Unicode code points, while JavaScript's `length` counts UTF-16 code units. The two disagree only for characters outside the Basic Multilingual Plane.
- ExerciseMode.ExerciseContext: measures length in code points, for the same reason.
- `importKnowledge` has no caller on any screen, so `Store.Import` is modelled as a standalone operation.
- The memoised `fullKnowledgeText` (`App.tsx:14-16`) and its passing to the screens as a prop. The screens' `knowledge` parameter stands for `Flatten` of the store's list.
- Chat.ChatSession.Send: does not model a thrown `null` or `undefined`, which makes the facade's own `catch` throw. That path is `Complete(None)`, which appends the connection-error message.
