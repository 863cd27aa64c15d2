# study-buddy in Dafny

study-buddy turns an uploaded document into study material. A browser page
sends the first chosen file to a server function, `process-files`. That
function classifies the file by media type and cuts its text to 10000
characters. It then asks a language model for a study guide, a set of
flashcards and a quiz. From each free-text reply it scrapes a JSON candidate:
first a fenced ```` ```json ```` block, otherwise the span from the first `{` to
the last `}`. When there is no candidate, or the candidate does not parse, it
falls back to a fixed placeholder. The page fills in a placeholder for any
artifact the reply lacks. Once processing completes, the page shows four
tabs: a study-guide viewer, a flashcard deck, a quiz with a score, and an
audio player.

The model has one module per source file:

- `ProcessFiles` models the server function: media-type classification, truncation, the two regular expressions, the placeholders, and the request handler as one method.
- `FileUploadView` models the upload list, the drop filter and the drag flag.
- `ProcessingOverlay` models the progress interval and the stage list.
- `IndexPage` models the page: the invocation, the stage timers, the defaults and completion.
- `StudyGuideView` models the copy-to-clipboard text, the section selection and the bookmark.
- `FlashcardView` models the card index, the flip flag and the known and to-review lists.
- `QuizView` models the answer records, the score, its rounded percentage and the verdict band.
- `AudioPlayerView` models the clock text, the skips, speech generation and URL adoption.

Two support modules sit beside them. `Text` holds the JavaScript string and
array operations the source calls (`includes`, `join`, `filter`, decimal
rendering in template literals). It also holds `IndexOf` and `LastIndexOf`,
which the source never calls; they serve the model of the two regular
expressions. `Artifacts` holds the four artifact records.

Components whose fields change step by step are classes. Each React state
variable is a field, and each handler is a method whose `ensures` clauses
give every field it may change. State setters are applied in order. A
closure's captured copy of a list therefore equals the value before the
handler ran. The server's parsing and placeholder logic is made of pure
functions. Every placeholder the server builds has at least one entry. The
exception is the study guide's heading-split path, which can yield none
(`ProcessFiles.HeadinglessReplyGivesEmptyGuide`). The page keeps such a guide,
and the study-guide view, the default tab, then has no section to show; its
render throws (`IndexPage.HeadinglessUploadShowsNoSection`).

## Model

| member | source | states |
|---|---|---|
| `Text.IndexOf` | supabase/functions/process-files/index.ts:33-35 | the first occurrence at or after the start index; `None` only when the pattern occurs nowhere after it |
| `Text.ContainsIff` | supabase/functions/process-files/index.ts:33-35 | `includes` holds exactly when the pattern occurs at some index |
| `Text.LastIndexOf` | supabase/functions/process-files/index.ts:104 | the index of the last occurrence of the character, none after it; `None` only when it does not occur |
| `Text.JoinConcat` | src/components/StudyGuide.tsx:20-22 | joining two non-empty lists is the two joins around one separator |
| `Text.JoinStartsWithFirst` | src/components/StudyGuide.tsx:20-22 | a join begins with its first element |
| `Text.NatToString` | src/pages/Index.tsx:155 | decimal rendering is a non-empty run of digits with no leading zero; one digit exactly below 10, two from 10 to 99 |
| `Text.ParseNatToString` | src/components/AudioPlayer.tsx:87 | reading a rendered number back gives the number |
| `Text.ParseNatLeadingZero` | src/components/AudioPlayer.tsx:87 | the `'0'` pad does not change the value of the seconds field |
| `Text.Filter` | src/components/FileUpload.tsx:40-45 | `filter` keeps exactly the elements that pass, each as many times as in the input, in input order |
| `ProcessFiles.Classify` | supabase/functions/process-files/index.ts:26-42 | PDF exactly for `application/pdf`; plain text exactly when the type is not PDF and mentions `text`; Word exactly when neither holds and the type mentions `word` or `openxmlformats`; `Unsupported file type` otherwise |
| `ProcessFiles.PlainTextMentionsText` | supabase/functions/process-files/index.ts:33 | the `text/plain` test is subsumed by the `includes('text')` test |
| `ProcessFiles.Truncate` | supabase/functions/process-files/index.ts:44-49 | the text sent on is a prefix of at most 10000 characters: the whole text when short enough, exactly 10000 otherwise |
| `ProcessFiles.FindFence` | supabase/functions/process-files/index.ts:103 | the leftmost position with an opener and a later closer; no earlier position has one |
| `ProcessFiles.FencedMatch` | supabase/functions/process-files/index.ts:103 | no match exactly when no position has an opener followed by a closer; a match is opener, body and closer, starts at the leftmost such position, and its lazy body holds no closer |
| `ProcessFiles.FenceSlices` | supabase/functions/process-files/index.ts:103 | the text matched at a position is the opener, the body up to the first closer, and that closer |
| `ProcessFiles.BodyHasNoCloser` | supabase/functions/process-files/index.ts:103 | the body before the first closer contains no closer |
| `ProcessFiles.BracedMatch` | supabase/functions/process-files/index.ts:104 | the greedy match runs from the first `{` to the last `}` after it; no match exactly when no `}` follows a `{` |
| `ProcessFiles.FirstBraceIsFirst` | supabase/functions/process-files/index.ts:104 | the index found for `{` holds a brace and no earlier index does; when none is found there is no brace |
| `ProcessFiles.JsonMatch` | supabase/functions/process-files/index.ts:103-104 | no match exactly when no opener has a later closer and no `}` follows a `{`; the match has a capture group exactly when some fence exists, and then starts at the leftmost fence; otherwise it runs from the first `{` to the last `}` |
| `ProcessFiles.FencedBodyIsParsed` | supabase/functions/process-files/index.ts:106-107 | a non-empty fenced body is what `JSON.parse` receives, without the fence |
| `ProcessFiles.EmptyFenceParsesWholeMatch` | supabase/functions/process-files/index.ts:107 | an empty fenced body is falsy, so the whole match, backticks included, is what `JSON.parse` receives |
| `ProcessFiles.BracedSpanIsParsed` | supabase/functions/process-files/index.ts:103-107 | without a fence the parsed candidate is the brace span, which opens with `{` and closes with `}` |
| `ProcessFiles.BracedSpanEnds` | supabase/functions/process-files/index.ts:104 | a brace span has at least two characters, a `{` first and a `}` last |
| `ProcessFiles.FallbackFlashcards` | supabase/functions/process-files/index.ts:191-210 | the placeholder deck is titled after the file and has five cards with ids 1 to 5, all distinct |
| `ProcessFiles.FallbackQuiz` | supabase/functions/process-files/index.ts:268-289 | the placeholder quiz is titled after the file and has three questions with ids 1 to 3, options A to D, and a correct index in [0, 3] |
| `ProcessFiles.GuideFromText` | supabase/functions/process-files/index.ts:108-122 | the heading-split guide keeps the split's title and its first sections, at most five, in order |
| `ProcessFiles.GuideAfterError` | supabase/functions/process-files/index.ts:124-134 | the error placeholder is titled after the file and has one "Main Concepts" section with two key points |
| `ProcessFiles.StudyGuideArtifact` | supabase/functions/process-files/index.ts:97-135 | the parsed guide when the candidate parses; the heading split when there is no candidate; the error placeholder when the text is unreadable or the candidate does not parse |
| `ProcessFiles.FlashcardsArtifact` | supabase/functions/process-files/index.ts:177-211 | the parsed deck when the candidate parses, otherwise the five-card placeholder (worded "about the content" only on the no-candidate path) |
| `ProcessFiles.QuizArtifact` | supabase/functions/process-files/index.ts:254-290 | the parsed quiz when the candidate parses, otherwise the three-question placeholder (worded "about the material" only on the no-candidate path) |
| `ProcessFiles.DegradedRepliesYieldPlaceholders` | supabase/functions/process-files/index.ts:177-290 | whatever the reply, flashcards and quizzes that were not parsed are titled and well-formed, with distinct ids and at least one entry; an unreadable study-guide reply gives one section |
| `ProcessFiles.HeadinglessReplyGivesEmptyGuide` | supabase/functions/process-files/index.ts:106-122 | the reply "ok" has no JSON candidate and no heading, so the study guide has no sections at all |
| `ProcessFiles.HandleRequest` | supabase/functions/process-files/index.ts:16-325 | a missing or non-file field, an unsupported type and a missing key each fail with their own message, in that order; the first model call that fails ends the request with its prefixed error text; otherwise the response is the three artifacts of the truncated text plus the audio placeholder |
| `FileUploadView.ValidDrops` | src/components/FileUpload.tsx:39-45 | the dropped files that pass the type allowlist, each as often as dropped, in drop order |
| `FileUploadView.RemoveAll` | src/components/FileUpload.tsx:62 | removal drops every entry that is the file and keeps every other entry, in order |
| `FileUploadView.DropAllowedIsServerAccepted` | src/components/FileUpload.tsx:40-45 | every type the drop filter admits is one the server accepts |
| `FileUploadView.ServerAcceptsMoreThanDrop` | supabase/functions/process-files/index.ts:33 | the converse fails: the server accepts `text/html`, which the drop filter rejects |
| `FileUploadView.FileUpload.constructor` | src/components/FileUpload.tsx:10-12 | the list starts empty and not highlighted |
| `FileUploadView.FileUpload.DragEnter` | src/components/FileUpload.tsx:14-18 | entering highlights the drop zone |
| `FileUploadView.FileUpload.DragOver` | src/components/FileUpload.tsx:26-32 | dragging over keeps the zone highlighted |
| `FileUploadView.FileUpload.DragLeave` | src/components/FileUpload.tsx:20-24 | leaving clears the highlight |
| `FileUploadView.FileUpload.Drop` | src/components/FileUpload.tsx:34-51 | the highlight clears; if any dropped file passes the allowlist, the passing files are appended and the page gets the new list; otherwise the list is unchanged and nobody is notified |
| `FileUploadView.FileUpload.FileInputChange` | src/components/FileUpload.tsx:53-59 | every picked file is appended unfiltered and the page gets the new list; no selection changes nothing |
| `FileUploadView.FileUpload.RemoveFile` | src/components/FileUpload.tsx:61-65 | the list loses every entry that is the file, and the page gets the rest |
| `ProcessingOverlay.Heading` | src/components/AIProcessing.tsx:59-61 | the heading names exactly one entry of the stage list, the current stage's (the four labels are distinct) |
| `ProcessingOverlay.StatusClassification` | src/components/AIProcessing.tsx:84-98 | stages before the current one are done; later ones are pending; the current one is done at 100 % and current before that; at most one stage is current |
| `ProcessingOverlay.AfterTicks` | src/components/AIProcessing.tsx:23-32 | progress climbs by one per tick and then stays at 100 |
| `ProcessingOverlay.FirstFiringTick` | src/components/AIProcessing.tsx:23-32 | completion fires first on tick 101 minus the starting progress, and on no earlier tick |
| `ProcessingOverlay.FirstAndSecondRun` | src/components/AIProcessing.tsx:12-35 | a first run from 0 completes on tick 101; progress is never reset, so a later run (on the page, one after a failed upload) resumes where the last stopped and completes on tick 101 - p (`FirstFiringTick`); from 100 that is its first tick |
| `ProcessingOverlay.AIProcessing.constructor` | src/components/AIProcessing.tsx:12 | progress starts at 0 with no interval |
| `ProcessingOverlay.AIProcessing.ProcessingChanged` | src/components/AIProcessing.tsx:20-35 | an interval runs exactly while processing, and progress is kept |
| `ProcessingOverlay.AIProcessing.Tick` | src/components/AIProcessing.tsx:23-32 | below 100 a tick adds one; at 100 it stops the interval and reports completion |
| `IndexPage.PlaceholdersAreShowable` | src/pages/Index.tsx:90-123 | each page default has one entry its view can show: one section, one card, one well-formed question answered by the first option, and an audio resource with no URL |
| `IndexPage.ReplyFor` | supabase/functions/process-files/index.ts:300-324 | a failed response reaches the page as an invocation error; a generated one as a body carrying all four artifacts |
| `IndexPage.ScoreMessageReadsBack` | src/pages/Index.tsx:151-157 | the score toast names the score and the total, and both read back from it |
| `IndexPage.TextToSpeechResult` | src/pages/Index.tsx:159-177 | an invocation error yields null and a destructive toast with the prefixed message; otherwise the body's URL is returned |
| `IndexPage.Index.constructor` | src/pages/Index.tsx:17-55 | the page starts idle at stage 0 with no artifacts and no score |
| `IndexPage.Index.FilesSelected` | src/pages/Index.tsx:57-64 | an empty list changes nothing; otherwise processing starts at stage 0 and only the first file is sent |
| `IndexPage.Index.StageTimerFired` | src/pages/Index.tsx:69-72 | the 2 s and 4 s timers move the overlay to stages 1 and 2 while the request is in flight |
| `IndexPage.Index.InvocationSettled` | src/pages/Index.tsx:75-141 | an error stops processing, shows "Error processing file: …" and stores nothing; success moves to stage 3, stores each member of a present body or its default, and schedules completion even when the body is null |
| `IndexPage.Index.ProcessingComplete` | src/pages/Index.tsx:146-149 | processing ends and the tabs replace the upload view |
| `IndexPage.Index.CompletionTimerFired` | src/pages/Index.tsx:126-132 | the 1.5 s timer completes processing and shows the success toast |
| `IndexPage.Index.QuizComplete` | src/pages/Index.tsx:151-157 | the score and total are stored and announced |
| `IndexPage.ServeAccepted` | supabase/functions/process-files/index.ts:16-311 | a file the drop filter admits, with the key set and every model call delivered, always gets generated artifacts |
| `IndexPage.UploadThenComplete` | src/pages/Index.tsx:57-149 | end to end: such an upload, once completed, leaves the page showing exactly the artifacts the function generated |
| `IndexPage.ServeHeadingless` | supabase/functions/process-files/index.ts:97-122 | a study-guide reply "ok" (no JSON candidate, no heading) is served as a study guide with no sections |
| `IndexPage.HeadinglessUploadShowsNoSection` | src/pages/Index.tsx:90-98 | the page stores that empty guide, since `studyGuide \|\| {…}` replaces only a missing one, and the study-guide tab then has no section to show (src/components/StudyGuide.tsx:94 throws) |
| `StudyGuideView.CopyTextConcat` | src/components/StudyGuide.tsx:20-22 | the copied text of two non-empty parts is their texts joined by a blank line |
| `StudyGuideView.CopyTextSmall` | src/components/StudyGuide.tsx:20-22 | empty content copies nothing; one section copies its own text |
| `StudyGuideView.CopyTextStartsWithFirstSection` | src/components/StudyGuide.tsx:20-22 | the copied text begins with the first section's text |
| `StudyGuideView.SectionTextStartsWithTitle` | src/components/StudyGuide.tsx:21 | each section's text begins with its title and a blank line |
| `StudyGuideView.StudyGuidePanel.constructor` | src/components/StudyGuide.tsx:15-17 | the first section is active and the guide is not bookmarked |
| `StudyGuideView.StudyGuidePanel.SelectSection` | src/components/StudyGuide.tsx:75-78 | a click on an entry of the contents list makes that section active |
| `StudyGuideView.StudyGuidePanel.ToggleBookmark` | src/components/StudyGuide.tsx:40 | the bookmark flag flips |
| `StudyGuideView.StudyGuidePanel.Displayed` | src/components/StudyGuide.tsx:91-106 | the section on display is the active element of the content; with no sections there is none, where the render's `content[activeSection].section` throws |
| `FlashcardView.Without` | src/components/FlashcardViewer.tsx:44 | the filtered id list drops every copy of the id; every other id keeps its count and its order, so the "Known" and "To Review" lengths are preserved for them |
| `FlashcardView.MarkKeepsDisjoint` | src/components/FlashcardViewer.tsx:41-53 | marking a card known or to review never leaves an id in both lists |
| `FlashcardView.FlashcardViewer.constructor` | src/components/FlashcardViewer.tsx:17-21 | the deck opens on the first card, question side up, with both lists empty |
| `FlashcardView.FlashcardViewer.Next` | src/components/FlashcardViewer.tsx:23-28 | moves forward and shows the question side, except on the last card, where nothing changes |
| `FlashcardView.FlashcardViewer.Previous` | src/components/FlashcardViewer.tsx:30-35 | moves back and shows the question side, except on the first card, where nothing changes |
| `FlashcardView.FlashcardViewer.Flip` | src/components/FlashcardViewer.tsx:37-39 | the card turns over |
| `FlashcardView.FlashcardViewer.MarkAsKnown` | src/components/FlashcardViewer.tsx:41-46 | the current id is appended to the known list, leaves the review list, and the deck advances; the lists stay disjoint |
| `FlashcardView.FlashcardViewer.MarkAsUnknown` | src/components/FlashcardViewer.tsx:48-53 | the mirror image: appended to the review list and removed from the known list |
| `FlashcardView.MarkLastCardTwice` | src/components/FlashcardViewer.tsx:41-46 | marking the last card known twice counts it twice, because the known list keeps repeats |
| `QuizView.CorrectCount` | src/components/QuizGenerator.tsx:61 | the number of correct records never exceeds the number of records |
| `QuizView.CorrectCountIsFilterLength` | src/components/QuizGenerator.tsx:61 | the count is the length of the filtered list of correct records |
| `QuizView.CorrectCountAppend` | src/components/QuizGenerator.tsx:48 | appending a record adds one to the count exactly when the record is correct |
| `QuizView.ScoreCountsMatches` | src/components/QuizGenerator.tsx:38-61 | the reported score is the number of questions answered with their correct index |
| `QuizView.Percentage` | src/components/QuizGenerator.tsx:76 | the percentage is 100 × correct / total rounded half up, and at most 100 |
| `QuizView.ThresholdIff` | src/components/QuizGenerator.tsx:114-116 | a rounded percentage reaches a threshold exactly when the raw ratio reaches the threshold minus one half |
| `QuizView.BandOfScore` | src/components/QuizGenerator.tsx:114-118 | "Excellent" exactly when 200 × correct ≥ 159 × total; "needs more study" exactly when 200 × correct < 119 × total |
| `QuizView.QuizGenerator.constructor` | src/components/QuizGenerator.tsx:19-28 | the quiz opens on the first question with nothing selected or recorded |
| `QuizView.QuizGenerator.SelectOption` | src/components/QuizGenerator.tsx:32-36 | a selection is taken only before submitting |
| `QuizView.QuizGenerator.SubmitAnswer` | src/components/QuizGenerator.tsx:38-50 | with a selection, the record for the current question is appended and the answer locked; without one nothing changes |
| `QuizView.QuizGenerator.NextQuestion` | src/components/QuizGenerator.tsx:52-64 | clears the selection and moves on; leaving the last question completes the quiz and reports the number of correctly answered questions and the total |
| `QuizView.QuizGenerator.RestartQuiz` | src/components/QuizGenerator.tsx:66-72 | everything returns to the opening state |
| `QuizView.QuizGenerator.Summary` | src/components/QuizGenerator.tsx:74-118 | the completed screen shows the correct count, its rounded percentage (at most 100) and the band of that percentage |
| `AudioPlayerView.FloorParts` | src/components/AudioPlayer.tsx:84-86 | the minutes and seconds shown are those of the whole seconds elapsed |
| `AudioPlayerView.FormatTimeRoundTrip` | src/components/AudioPlayer.tsx:84-88 | the clock text reads back as the whole seconds elapsed, with exactly two digits after the colon |
| `AudioPlayerView.SecondsFieldReadsBack` | src/components/AudioPlayer.tsx:87 | the seconds field always has two digits and reads back as the seconds |
| `AudioPlayerView.SkipBack` | src/components/AudioPlayer.tsx:216 | ten seconds back, never below zero |
| `AudioPlayerView.SkipForward` | src/components/AudioPlayer.tsx:249-252 | ten seconds forward, never past the duration |
| `AudioPlayerView.SkipsStayInTrack` | src/components/AudioPlayer.tsx:214-253 | from a position within the track, both skips stay within the track |
| `AudioPlayerView.SpeechTextAppendPoint` | src/components/AudioPlayer.tsx:104 | the speech text reads the key points in order, separated by ". " |
| `AudioPlayerView.AdoptedUrl` | src/components/AudioPlayer.tsx:52-56 | the URL changes exactly when the new one is non-empty and different |
| `AudioPlayerView.AdoptedUrlIdempotent` | src/components/AudioPlayer.tsx:52-56 | adopting the same URL twice is adopting it once |
| `AudioPlayerView.AudioPlayer.constructor` | src/components/AudioPlayer.tsx:18-31 | the player starts stopped at 0 on the given URL, first section selected |
| `AudioPlayerView.AudioPlayer.TogglePlayPause` | src/components/AudioPlayer.tsx:58-74 | the playing flag flips whenever the audio element exists, whether or not playback later fails |
| `AudioPlayerView.AudioPlayer.SkipBackPressed` | src/components/AudioPlayer.tsx:214-218 | the position becomes the skip-back position |
| `AudioPlayerView.AudioPlayer.SkipForwardPressed` | src/components/AudioPlayer.tsx:247-253 | the position becomes the skip-forward position and does not pass the duration |
| `AudioPlayerView.AudioPlayer.PropUrlChanged` | src/components/AudioPlayer.tsx:51-56 | a new URL from the page is adopted only when it is non-empty and different |
| `AudioPlayerView.AudioPlayer.Seek` | src/components/AudioPlayer.tsx:76-82 | the seek bar's value becomes the position |
| `AudioPlayerView.AudioPlayer.MetadataLoaded` | src/components/AudioPlayer.tsx:33-35 | the element's duration is taken over |
| `AudioPlayerView.AudioPlayer.TimeUpdated` | src/components/AudioPlayer.tsx:37-39 | the element's time is taken over |
| `AudioPlayerView.AudioPlayer.Ended` | src/components/AudioPlayer.tsx:41-43 | the end of the track stops playback |
| `AudioPlayerView.AudioPlayer.GenerateAudioForSection` | src/components/AudioPlayer.tsx:90-136 | with no content or no generator nothing happens; otherwise playback stops and rewinds and the section's speech text is sent; a non-empty URL is adopted with its section and autoplay scheduled; a null or empty URL, or a rejection, keeps both and reports the failure message; loading always ends |
| `AudioPlayerView.AudioPlayer.AutoplayFired` | src/components/AudioPlayer.tsx:117-122 | the autoplay timer starts playback when the element exists |

## Left out

- Network calls, the language model and `JSON.parse` are parameters. The model is a function of the task and the truncated text; the parsers return `None` where `JSON.parse` throws. The prompt templates (index.ts:58-77, 138-157, 214-234) and the generation settings are not modelled.
- Parsed JSON is taken as the parser's typed value. The source never checks the parsed object's shape, so whatever the model wrote is passed through.
- The heading split of the study-guide text path (index.ts:111-121) is a parameter. Its key-point regular expression, the 200-character summary cut and its `"..."` suffix are therefore not modelled, only the five-section limit and the title.
- File decoding (`TextDecoder` on PDF and Word bytes, `file.text()`) is an input: the file's decoded text. Lengths count characters, not UTF-16 code units.
- `Math.random` for the placeholder quiz's correct index is an input `picks`, with each pick in [0, 3].
- The CORS preflight answer (index.ts:12-14), the response headers and the HTTP status codes are not modelled. The page sees a failed response only as an invocation error whose message comes from the client library. Failures the outer catch turns into an unprefixed error (index.ts:313-324) are not modelled as their own cases: `req.formData()` rejecting, `fetch` rejecting, and `response.json()` throwing on a 2xx reply. The page would see each as an invocation error, as it sees any failed response.
- The text-to-speech server function is not part of this model. Only the page's callback around it is modelled (`IndexPage.TextToSpeechResult`).
- Timers (`setTimeout`, `setInterval`) are methods the environment calls, such as `Tick`, `StageTimerFired`, `CompletionTimerFired` and `AutoplayFired`. Their timing and interleaving are not modelled, except that the overlay may complete before the reply arrives (`ProcessingComplete` has no precondition on the request).
- Overlapping uploads are not modelled: `FilesSelected` requires that no request is in flight, because the overlay covers the upload view.
- `QuizView.Percentage`: computed on exact rationals. `Math.round` of a floating-point quotient could differ at an exact half only through rounding error.
- `AudioPlayerView.FormatTime` is modelled on real, non-negative times. A `NaN` duration is shown as `--:--` by the caller (AudioPlayer.tsx:195); that guard is not modelled.
- `AudioPlayerView.AudioPlayer.TogglePlayPause`: the "Playback failed" toast after a rejected `play()` is not modelled. The flag flips regardless, as in the source.
- `AudioPlayerView.AudioPlayer.GenerateAudioForSection`: the informational "Generating audio" toast is not modelled. Re-creating the audio element when the URL changes (AudioPlayer.tsx:29-49) is also not modelled; the element is a flag that exists from mount.
- The skip buttons set the element's time; the model writes the position field directly, which the element's `timeupdate` event copies back in the source.
- `AudioPlayerView.AudioPlayer.SkipForwardPressed`: clamps against the state copy of the duration. The source clamps against the element's own duration (AudioPlayer.tsx:249-252), which is `NaN` until the metadata loads; then `Math.min` gives `NaN`, the assignment throws, and the position stays put, whereas the model moves it to 0.
- Rendering (icons, class names, progress widths, the numbered key points, disabled buttons) is not modelled. Where a render indexes `xs[i]` the model requires non-empty content: the quiz questions and the flashcards when marking. The study-guide view instead reports empty content as having no displayed section. That input is reachable: a headingless study-guide reply yields a guide with no sections, the page keeps it, and StudyGuide.tsx:94 throws on it (`IndexPage.HeadinglessUploadShowsNoSection`). Handlers offered only in one UI state require that state, such as submitting only before submission and "next" only after.
- Header, Hero, Layout and the mock data module are not part of this model.
