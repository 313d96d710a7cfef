# SAHAYAK teaching assistant: the page logic, modelled in Dafny

SAHAYAK is a browser UI for teachers. Every hard capability belongs to an AI
client that this model does not contain. What the pages do themselves is modelled here.
Each awaited call to a collaborator is an `Outcome` (resolved with a value or
rejected with whatever was thrown). Each clock read (`Date.now()`, `new Date()`) is its own number passed in.

- `Library` (lib/firestore.ts): the mock store. It is a class whose `storage` sequence
  `saveToLibrary` appends to and `deleteLibraryItem` filters. `getLibraryItems`
  is the user's items sorted newest first, and `getLibraryItem` finds the first item
  with an id.
- `Worksheet` (app/multigrade-worksheet/page.tsx): the twelve-grade registry,
  the upload and grade-checkbox handlers, the staged run with its progress
  checkpoints, the per-grade loop (a `for` loop filling a map), and the fallback
  worksheet template.
- `History` (app/history/page.tsx): the library view. It has the search and type
  filters, delete-after-success and the download file name.
- `Reading` (app/reading-assessment/page.tsx): the recording state machine. It has the
  recorders the page creates, the running intervals, the `audioBlob`, the
  analysis with its fallback result, the simulated transcription and `m:ss`.
- `Chat` (app/ai-assistant/page.tsx): the message list, the send handler with
  its blank-input gate, the reset, and the plain-text transcript.
- `VisualAid` (app/visual-aid/page.tsx): the placeholder URL, the generation
  handler, the download name and the saved library entry.
- `Uri`: JavaScript's `encodeURIComponent` as ECMA-262 defines it. It is stated on UTF-16
  code units, where a lone surrogate throws `URIError`, and on Unicode scalar
  values. There is also a decoder that inverts it, `substring` counted in code units, and a
  truncation that keeps whole characters.
- `Text`: the string operations the pages use. These are `trim` (the ECMAScript
  white-space set), `toLowerCase`, `includes`, `replace(/\s+/g, "-")`, decimal
  `toString`, `padStart`, the JavaScript string comparison `<=` and `join`.
- `Outcomes`: `Outcome`, `Option`, and the pages' `err instanceof Error ?
  err.message : fallback`.

The worksheet fallback chooses its variants with `grade <= "3"` and
`grade <= "5"`. These compare strings, and the model keeps them as written.
`Worksheet.TwoDigitGradesTakeSmallVariants` and `Worksheet.RegistryBuckets`
state where this departs from numeric order. Grades 10, 11 and 12 get the
small-number problems meant for grades 1 to 3 and the word problem meant for
grades 1 to 5. The answer key is chosen by the same comparisons, so it always
matches the problems shown (`Worksheet.FallbackArithmeticKeyCorrect`).

## Model

| member | source | states |
|---|---|---|
| Library.OwnedBy | lib/firestore.ts:62-63 | the user filter keeps exactly the items of that user, as an order-preserving subsequence of the store |
| Library.Without | lib/firestore.ts:71 | the id filter keeps exactly the items with another id, in their order |
| Library.FindById | lib/firestore.ts:78 | `find` returns nothing exactly when no item has the id, and otherwise the item at the first position holding it |
| Library.InsertByDate | lib/firestore.ts:64 | one step of the sort: the result is a permutation of the input plus the new item, and newest-first order is preserved |
| Library.NewestFirst | lib/firestore.ts:64 | the sort by `createdAt` descending is a permutation of its input and is ordered newest first |
| Library.LibraryStore.constructor | lib/firestore.ts:13-41 | the store starts with the three seed items |
| Library.LibraryStore.SaveToLibrary | lib/firestore.ts:43-56 | exactly one item is appended at the end with the caller's fields, id the decimal text of the `Date.now()` read, creation time the separate `new Date()` read, user "user1"; earlier items unchanged; the returned id is the new item's id |
| Library.LibraryStore.GetLibraryItems | lib/firestore.ts:58-65 | returns exactly the stored items of the user, as a permutation of the filtered store ordered newest first; the store is not modified |
| Library.LibraryStore.DeleteLibraryItem | lib/firestore.ts:67-72 | the store becomes the order-preserving removal of every item with the id |
| Library.LibraryStore.GetLibraryItem | lib/firestore.ts:74-79 | null exactly when no item has the id, otherwise the first item with it; the store is not modified |
| Library.WithoutAbsent | lib/firestore.ts:71 | deleting an id that is not stored changes nothing |
| Library.WithoutIdempotent | lib/firestore.ts:71 | deleting twice equals deleting once |
| Library.DeleteThenGet | lib/firestore.ts:71-78 | after deleting an id, finding it returns null |
| Library.SaveThenGet | lib/firestore.ts:47-55 | after a save whose id was not already stored, finding that id returns the saved item |
| Library.DeleteKeepsOthers | lib/firestore.ts:71-78 | deleting one id leaves every other id's lookup unchanged |
| Library.NewestFirstAppend | lib/firestore.ts:54-64 | the listing is a stable sort: a newly saved item is listed after every stored item not older than it |
| Library.InsertCommutes | lib/firestore.ts:64 | inserting by date and placing a newer-or-equal item after its ties commute |
| Worksheet.GradeRegistry | app/multigrade-worksheet/page.tsx:18-31 | twelve grades in order, value `n`, id "grade<n>", label "Grade <n>", band Primary 1-5, Middle School 6-8, Secondary 9-10, Higher Secondary 11-12; values distinct |
| Worksheet.RemoveGradeMeaning | app/multigrade-worksheet/page.tsx:79 | unchecking removes every occurrence of the value and keeps every other grade with its multiplicity; the result is a subsequence of the selection, so the order is kept |
| Worksheet.WorksheetPage.HandleFileUpload | app/multigrade-worksheet/page.tsx:55-73 | the first file is accepted, and the error cleared, only when its type starts with "image/"; otherwise nothing changes |
| Worksheet.WorksheetPage.HandleGradeChange | app/multigrade-worksheet/page.tsx:75-81 | checking appends the value at the end; unchecking removes every occurrence; nothing else changes |
| Worksheet.WorksheetPage.constructor | app/multigrade-worksheet/page.tsx:47-52 | the page starts with no file, no grades, progress 0, no worksheets, no error |
| Worksheet.WorksheetPage.HandleGenerateWorksheets | app/multigrade-worksheet/page.tsx:108-216 | no file or no grade leaves every field unchanged; a rejected extraction shows its message, leaves no worksheets and stops progress at 0, 25, 50; a run that extracts text ends with one entry per selected grade and progress 0, 25, 50, 75, 90, 100; the progress a run adds never decreases and reaches 100 exactly when extraction succeeds; processing always ends false |
| Worksheet.WorksheetPage.SetProgress | app/multigrade-worksheet/page.tsx:128 | progress takes the value, which is recorded at the end of the progress log; nothing else changes |
| Worksheet.RunProgress | app/multigrade-worksheet/page.tsx:128-199 | after any earlier log, the steps a run appends are non-decreasing and contain 100 exactly when the run completes |
| Worksheet.WorksheetPage.HandleSaveWorksheet | app/multigrade-worksheet/page.tsx:226-247 | saves one "worksheet" item with the grade's title and content and metadata grade and subject "General"; a missing grade or a failed save leaves the store as it was |
| Worksheet.GenerateForGrades | app/multigrade-worksheet/page.tsx:148-196 | the loop's map equals the reference `Generated` for all selected grades, and its keys are exactly the selected grades |
| Worksheet.GeneratedKeys | app/multigrade-worksheet/page.tsx:150-157 | after n iterations the keys are the first n grades; each entry has `grade == key` and title "Grade <key> Worksheet - Mathematics" |
| Worksheet.GeneratedLastCall | app/multigrade-worksheet/page.tsx:151-194 | a grade's entry comes from the last call made for it: the content if it resolved, the fallback if it was rejected |
| Worksheet.GeneratedIsolation | app/multigrade-worksheet/page.tsx:150-196 | a grade's entry depends only on the calls for that grade, so a failure for one grade neither removes nor alters another's |
| Worksheet.CompletedRun | app/multigrade-worksheet/page.tsx:148-198 | after the loop the key set equals the set of selected grade values |
| Worksheet.FallbackArithmeticKeyCorrect | app/multigrade-worksheet/page.tsx:169-190 | for every grade string, the key lines "1." and "2." hold the true answers of the addition and subtraction problems shown |
| Worksheet.FallbackPatternKeyCorrect | app/multigrade-worksheet/page.tsx:186-192 | the key line "4." continues the counting pattern shown |
| Worksheet.FallbackWordKeyCorrect | app/multigrade-worksheet/page.tsx:177-191 | the key line "3." answers the word problem shown (12 - 5 mangoes or 250 - 180 items) |
| Worksheet.SmallAdditionRenders | app/multigrade-worksheet/page.tsx:170-189 | the small additions render as the template's lines and sum to "8, 9" |
| Worksheet.SmallSubtractionRenders | app/multigrade-worksheet/page.tsx:174-190 | the small subtractions render as the template's lines and give "5, 5" |
| Worksheet.SmallPatternRenders | app/multigrade-worksheet/page.tsx:186-192 | the pattern 2, 4, 6 continues with "8, 10" |
| Worksheet.Render125 | app/multigrade-worksheet/page.tsx:170 | the problem 125 + 78 renders as the template's line |
| Worksheet.Render234 | app/multigrade-worksheet/page.tsx:171 | the problem 234 + 156 renders as the template's line |
| Worksheet.Render200 | app/multigrade-worksheet/page.tsx:174 | the problem 200 - 85 renders as the template's line |
| Worksheet.Render345 | app/multigrade-worksheet/page.tsx:175 | the problem 345 - 167 renders as the template's line |
| Worksheet.LargeAdditionKey | app/multigrade-worksheet/page.tsx:189 | "203, 390" are the sums of the large additions |
| Worksheet.LargeSubtractionKey | app/multigrade-worksheet/page.tsx:190 | "115, 178" are the differences of the large subtractions |
| Worksheet.LargePatternRenders | app/multigrade-worksheet/page.tsx:186 | the pattern 5, 10, 15 renders as the template's line |
| Worksheet.LargePatternKey | app/multigrade-worksheet/page.tsx:192 | the pattern 5, 10, 15 continues with "20, 25" |
| Worksheet.TwoDigitGradesTakeSmallVariants | app/multigrade-worksheet/page.tsx:170-192 | every two-digit grade starting with "1" (numerically at least 10) passes both `<= "3"` and `<= "5"` |
| Worksheet.OneDigitGradesCompareNumerically | app/multigrade-worksheet/page.tsx:170-192 | for one-digit grades the string comparisons agree with numeric `<= 3` and `<= 5`, both directions |
| Worksheet.RegistryBuckets | app/multigrade-worksheet/page.tsx:18-31 | over the registry the small arithmetic goes exactly to grades 1-3 and 10-12, the small word problem exactly to 1-5 and 10-12 |
| History.ShownItems | app/history/page.tsx:68-84 | the single-pass reference filter: an order-preserving subsequence holding exactly the items that pass both tests |
| History.TypeAfterSearch | app/history/page.tsx:71-81 | search then type filter equals the combined filter |
| History.SearchOnly | app/history/page.tsx:71-77 | the search filter alone equals the combined filter with type "all" |
| History.TypeOnly | app/history/page.tsx:79-81 | the type filter alone equals the combined filter with an empty term |
| History.NoFilter | app/history/page.tsx:69-83 | an empty term and type "all" keep the list as it is |
| History.FilterItemsMeaning | app/history/page.tsx:68-84 | `filterItems` is an order-preserving subsequence; an item is kept exactly when its lower-cased title or content contains the lower-cased term (if any) and its type is the chosen one (unless "all"); no filter keeps everything |
| History.DownloadFilenameShape | app/history/page.tsx:108 | the file name has no white space and ends in ".txt"; a title without white space is only lower-cased |
| History.HistoryView.constructor | app/history/page.tsx:36-42 | the view starts loading, with no items, no search term and type "all", and the displayed list derived from them |
| History.HistoryView.LoadItems | app/history/page.tsx:52-66 | on success the items are the user's items newest first, on failure they stay; loading ends false; the displayed list stays derived |
| History.HistoryView.SetSearchTerm | app/history/page.tsx:48-50 | changing the term re-derives the displayed list |
| History.HistoryView.SetFilterType | app/history/page.tsx:48-50 | changing the type re-derives the displayed list |
| History.HistoryView.HandleDelete | app/history/page.tsx:86-101 | only after the store deletes are the items with the id dropped from the list; on failure neither the list nor the store changes |
| Reading.FindLanguage | app/reading-assessment/page.tsx:23-33 | a found entry has the value looked up; none is found only when no language has that value |
| Reading.FindIn | app/reading-assessment/page.tsx:23-33 | a found entry is in the list with that value; none only when no entry has it |
| Reading.FindLanguageValue | app/reading-assessment/page.tsx:23-33 | every language is found by its own value (the values are distinct) |
| Reading.TranscriptionFallback | app/reading-assessment/page.tsx:214-230 | Hindi, Marathi, Tamil and English get their own sample and every other language the English one |
| Reading.FallbackResultFor | app/reading-assessment/page.tsx:262-286 | the fallback scores 82 overall, reads ten words per minute below the language's expected rate (60 to 110), and names the language's label |
| Reading.FormatTimeMeaning | app/reading-assessment/page.tsx:330-334 | the display is decimal minutes, ":", and exactly two digits of seconds below 60, and it reads back as the time |
| Reading.FormatTimeInjective | app/reading-assessment/page.tsx:330-334 | distinct times are displayed differently |
| Reading.FormatTimeExamples | app/reading-assessment/page.tsx:330-334 | 65 displays "1:05", 60 "1:00", 9 "0:09" |
| Reading.ReadingAssessment.constructor | app/reading-assessment/page.tsx:129-137 | the page starts idle in Hindi with no recorder, blob, result or timer |
| Reading.ReadingAssessment.HandleLanguageChange | app/reading-assessment/page.tsx:142-151 | selects the language and resets both recording flags, the result, the time, the error and the blob |
| Reading.ReadingAssessment.HandleStartRecording | app/reading-assessment/page.tsx:153-200 | a microphone failure sets the error only; otherwise a new recording recorder becomes current, the time is 0 and an interval starts that sees the previous `mediaRecorder` |
| Reading.ReadingAssessment.StopWith | app/reading-assessment/page.tsx:202-207 | a recording recorder is stopped and becomes the blob; then not recording and has a recording |
| Reading.ReadingAssessment.HandleStopRecording | app/reading-assessment/page.tsx:202-212 | stopping leaves `isRecording` false and `hasRecording` true, and stops the current recorder if it records |
| Reading.ReadingAssessment.Tick | app/reading-assessment/page.tsx:176-186 | below 60 the time goes up by one and never exceeds 60; at 60 the interval is cleared and the stop of the starting render runs |
| Reading.ReadingAssessment.TickLiveStop | app/reading-assessment/page.tsx:176-186 | the same tick with the current recorder stopped at 60, after which no current recorder records |
| Reading.ReadingAssessment.HandleAnalyzeReading | app/reading-assessment/page.tsx:232-296 | without a recording or a blob nothing changes; otherwise the language's transcript is analysed, and the result is shown, or on failure the message and the fallback result; analysing ends false |
| Reading.ReadingAssessment.HandleReset | app/reading-assessment/page.tsx:306-320 | back to idle: not recording, no recording, no result, time 0, no error, no blob, no recorder |
| Reading.AutoStopAsWritten | app/reading-assessment/page.tsx:153-212 | a first recording left to the auto-stop ends with the recorder still recording, no blob, and analysis refused |
| Reading.AutoStopIntended | app/reading-assessment/page.tsx:176-186 | with the current recorder stopped, the same run ends with the recording as the blob and analysis allowed |
| Chat.Reply | app/ai-assistant/page.tsx:98-125 | the reply is the assistant's, with id the decimal text of its own `Date.now()` read plus 1 and timestamp its own `new Date()` read; its content is the response, or on failure ends in "Error: " and the message |
| Chat.RenderAll | app/ai-assistant/page.tsx:157-158 | one rendering per message, in order |
| Chat.TranscriptAppend | app/ai-assistant/page.tsx:157-159 | a new message adds a blank line and its rendering at the end of the transcript, which is otherwise unchanged |
| Chat.RenderMessageSender | app/ai-assistant/page.tsx:158 | a rendering starts with "You: " exactly for the user and "SAHAYAK: " exactly for the assistant, followed by the content |
| Chat.SendExtendsTranscript | app/ai-assistant/page.tsx:83-159 | an accepted send adds exactly "You: " with the user's text and "SAHAYAK: " with the reply to the transcript |
| Chat.BeforeT | app/ai-assistant/page.tsx:165 | `split("T")[0]` is the longest prefix without "T", ending where the first "T" is |
| Chat.ConversationFilenameDate | app/ai-assistant/page.tsx:165 | an ISO timestamp names the file after its date part |
| Chat.ChatPage.constructor | app/ai-assistant/page.tsx:42-61 | the page starts with the single welcome message, id "1", and empty input |
| Chat.ChatPage.HandleSendMessage | app/ai-assistant/page.tsx:73-135 | blank input changes nothing; otherwise the trimmed text is appended as the user's message (id and timestamp from two separate clock reads), followed by exactly one reply (two more reads), earlier messages unchanged; the input is cleared, loading ends false and the error is the failure's message |
| Chat.ChatPage.HandleQuickPrompt | app/ai-assistant/page.tsx:137-139 | the prompt becomes the input; nothing else changes |
| Chat.ChatPage.ClearConversation | app/ai-assistant/page.tsx:177-190 | exactly one message remains: the assistant's, id "1", the short greeting |
| Text.TrimIsSlice | app/ai-assistant/page.tsx:74-86 | `trim()` is a contiguous slice with only white space cut off on either side |
| Text.TrimEnds | app/ai-assistant/page.tsx:86 | a trimmed text is empty or starts and ends with a non-space character |
| Text.TrimEmptyIffAllSpace | app/visual-aid/page.tsx:59 | `trim()` is empty exactly when the text is all white space |
| Text.ToLower | app/history/page.tsx:74-75 | lower-casing keeps the length and maps each character |
| Text.ToLowerIdempotent | app/history/page.tsx:74-75 | lower-casing twice is lower-casing once |
| Text.Includes | app/history/page.tsx:74-75 | `includes` holds exactly when the term occurs at some position |
| Text.ReplaceRunsFrom | app/history/page.tsx:108 | replacing white-space runs leaves no white space and never lengthens the text |
| Text.ReplaceSpaceRunsNoSpace | app/history/page.tsx:108 | a text without white space is left as it is |
| Text.ReplaceSpaceRunsSplit | app/history/page.tsx:108 | a run of white space between two texts becomes one "-" |
| Text.SlugShape | app/visual-aid/page.tsx:108 | the slug has no white space, and a text without white space is only lower-cased |
| Text.SlugRun | app/visual-aid/page.tsx:108 | a white-space run inside the text becomes one "-" in the slug |
| Text.NatToString | lib/firestore.ts:49 | `toString()` is at least one decimal digit, with no leading zero unless the number is 0 |
| Text.ParseNatToString | lib/firestore.ts:49 | the digits read back as the number |
| Text.NatToStringInjective | lib/firestore.ts:49 | distinct numbers get distinct ids |
| Text.PadStart2 | app/reading-assessment/page.tsx:333 | `padStart(2, "0")` yields two characters, or the text's own length when it is longer |
| Text.PadStart2Zeros | app/reading-assessment/page.tsx:333 | the padded text ends with the original text and everything in front of it is '0' |
| Text.LexLessEqTotal | app/multigrade-worksheet/page.tsx:170 | the string comparison is total |
| Text.LexLessEqSameLength | app/multigrade-worksheet/page.tsx:170 | on digit strings of equal length it is the numeric order |
| Text.LexPrefix | app/multigrade-worksheet/page.tsx:170 | on equally long texts, `<=` is decided by the texts without their last characters, or by the last characters when the rest is equal |
| Text.JoinWithAppend | app/ai-assistant/page.tsx:159 | joining one more element adds the separator and the element at the end |
| VisualAid.FindType | app/visual-aid/page.tsx:54 | a found type has the value looked up; none is found only when no type has it |
| VisualAid.TypeEmojiTable | app/visual-aid/page.tsx:33-54 | each listed type shows its own icon and any other value shows the default chart emoji |
| VisualAid.PlaceholderReadsBack | app/visual-aid/page.tsx:51-56 | the URL is the fixed prefix, the emoji and "+", then an encoding free of "&" and "#" that decodes to the prompt's longest whole-character start within 50 code units |
| VisualAid.PlaceholderAgrees | app/visual-aid/page.tsx:53 | unless the cut at 50 code units splits a surrogate pair, the URL as written equals the whole-character URL |
| VisualAid.PlaceholderThrows | app/visual-aid/page.tsx:53 | when the cut splits a surrogate pair, `encodeURIComponent` throws "URI malformed" |
| VisualAid.PlaceholderBmp | app/visual-aid/page.tsx:53 | a prompt in the Basic Multilingual Plane never splits a pair and keeps its first 50 characters |
| VisualAid.TruncateAtAstral | app/visual-aid/page.tsx:53 | an astral character starting at code unit 49 ends the truncation before it |
| VisualAid.SplitPairExample | app/visual-aid/page.tsx:53 | 49 letters and a globe emoji make the URL as written throw, while the whole-character URL keeps the letters |
| VisualAid.DownloadNameShape | app/visual-aid/page.tsx:103-108 | a download happens exactly when there is an image; the name is "visual-aid-", a space-free slug, ".png" |
| VisualAid.SaveContent | app/visual-aid/page.tsx:125 | the content is never empty: the prompt, or "Visual aid for <topic>" when the prompt is empty |
| VisualAid.VisualAidPage.constructor | app/visual-aid/page.tsx:43-48 | the page starts with no topic, type "diagram", no image, prompt or error |
| VisualAid.VisualAidPage.HandleGenerateVisualAid | app/visual-aid/page.tsx:58-101 | as written: a blank topic changes nothing; otherwise on success the prompt is kept, and the image is the placeholder of the topic (not of the prompt) unless the 50-unit cut splits a surrogate pair, in which case the image is empty and the error is "URI malformed"; on failure image and prompt are empty and the error is the message; generating ends false |
| VisualAid.VisualAidPage.HandleGenerateWholeCharacters | app/visual-aid/page.tsx:58-101 | corrected: the same handler with a placeholder that keeps whole characters, so a resolved prompt always yields the topic's placeholder and no error |
| VisualAid.VisualAidPage.HandleSaveVisualAid | app/visual-aid/page.tsx:120-140 | one "visual-aid" item titled "Visual Aid: <topic>" with the content choice and topic, type and URL as metadata; a failed save leaves the store as it was |
| Uri.Utf8 | app/visual-aid/page.tsx:53 | one to four bytes, continuation bytes in 0x80-0xBF, one byte exactly for ASCII, and the lead byte announces the length |
| Uri.HexRoundTrip | app/visual-aid/page.tsx:53 | a hexadecimal digit reads back as its value |
| Uri.EncodeAlphabet | app/visual-aid/page.tsx:53-55 | an encoding has no "&", "#", "+", space, "=" or "?" |
| Uri.EncodeUnreserved | app/visual-aid/page.tsx:53 | a text of unreserved characters is its own encoding |
| Uri.DecodeEncode | app/visual-aid/page.tsx:53 | decoding the encoding gives the text back, so encoding is injective |
| Uri.DecodeChar | app/visual-aid/page.tsx:53 | one character's encoding decodes to it, whatever follows |
| Uri.EscapeRoundTrip | app/visual-aid/page.tsx:53 | the escaped UTF-8 bytes of a character read back as that character |
| Uri.Utf8Fold | app/visual-aid/page.tsx:53 | the payload bits of the UTF-8 bytes reassemble the code point |
| Uri.Utf16 | app/visual-aid/page.tsx:53 | an astral character is a leading and a trailing surrogate, any other a single non-surrogate unit equal to it |
| Uri.ToUtf16Append | app/visual-aid/page.tsx:53 | the code units of a concatenation are the concatenated code units |
| Uri.EncodeUnitsAppend | app/visual-aid/page.tsx:53 | the code units of a text encode as the text does, whatever follows them |
| Uri.EncodeUnitsWellFormed | app/visual-aid/page.tsx:53 | a string holding whole characters never makes `encodeURIComponent` throw |
| Uri.EncodeUnitsLoneLeading | app/visual-aid/page.tsx:53 | a string ending in the first half of a surrogate pair makes it throw "URI malformed" |
| Uri.Substring | app/visual-aid/page.tsx:53 | `substring(0, n)` keeps min(n, length) code units |
| Uri.Truncate | app/visual-aid/page.tsx:53 | the truncation is a prefix of the text that fits in n code units |
| Uri.TruncateMaximal | app/visual-aid/page.tsx:53 | the truncation is the whole text or the next character would not fit |
| Uri.SubstringCases | app/visual-aid/page.tsx:53 | `substring` at n is the truncation's code units, or those plus the first half of the next character's pair |
| Uri.TruncateBmp | app/visual-aid/page.tsx:53 | on text without astral characters truncation is `substring` |
| Uri.LexLessEqUnits | app/multigrade-worksheet/page.tsx:170 | on text inside the Basic Multilingual Plane the code-point order equals JavaScript's UTF-16 code-unit order, in both directions |
| Uri.LexLessEqAstral | app/multigrade-worksheet/page.tsx:170 | above it they differ: U+FFFF precedes U+10000 by code point but not by code unit |

## Left out

- Delays (`setTimeout`), toasts, `console.error`, scrolling, JSX rendering and styling: display only.
- `handleDownloadPDF`, `handleSaveResult` and `handlePlaySample` only show a toast. `handleCopyMessage` writes to the clipboard, and `handleKeyPress` only forwards Enter to `handleSendMessage`. `handleGenerateVideo` only shows a toast. None of them changes state.
- The Blob, object URL and anchor click of the downloads are I/O. The file names they use are modelled.
- The AI client (lib/gemini) is not part of this model. `generateWorksheet`, `analyzeReadingWithLanguage`, `generateGeneralResponse` and `generateImagePrompt` are function parameters returning an `Outcome`. `saveToLibrary` and `deleteLibraryItem` failures are boolean parameters.
- app/generate-story/page.tsx, app/settings/page.tsx, app/dashboard/page.tsx and components/navigation.tsx are not part of this model.
- `Date.now()`, `new Date()` and `toISOString()` are parameters, one per call. `createdAt` and `timestamp` are milliseconds; a `Date.now()` id and the `new Date()` beside it are two independent numbers.
- The file-size display is floating point.
- The quick-prompt list and the reading passages' texts are display data. Their titles, difficulties and expected rates are modelled.
- Text.LexLessEq: compares code points, while JavaScript's `<=` compares UTF-16 code units. They agree inside the Basic Multilingual Plane (Uri.LexLessEqUnits) and differ above it (Uri.LexLessEqAstral); the grade values compared are ASCII digits.
- Uri.EncodeUnits: the `URIError` carries V8's message "URI malformed" (Chrome, Node). ECMA-262 leaves the wording to the engine; Firefox says "malformed URI sequence".
- Text.ToLower: lower-cases ASCII only. The JavaScript one applies the full Unicode case mapping.
- Reading.SimulateTranscription: a transcript is identified by its language. The sample sentences are kept beside it.
- Reading.ReadingAssessment.HandleStopRecording: the recorder's `onstop` (the blob) is modelled as running at once, not after the recorder flushes.
- Reading.ReadingAssessment.HandleLanguageChange: the language is one of the nine listed. The select menu offers nothing else.
- Reading.ReadingAssessment.Tick: the interval is cleared only by its own auto-stop, as in the source. Timers of earlier recordings keep ticking on the shared time, as `setInterval` does, but their interleaving with renders is one step per tick.
- Worksheet.WorksheetPage.HandleGenerateWorksheets: the extraction outcome is a parameter. `simulateOCR` always resolves with fixed text (`Worksheet.SimulateOcr`), so the fatal path is reachable only through a different extractor.
- Worksheet.WorksheetPage.HandleFileUpload: the file size is kept but not displayed.
- Library.SavedItem: `metadata` is a map from strings to strings, which covers every value the pages store. `userId` is always "user1".
- Uri.Decode: it is a reference decoder used to state that encoding loses nothing. It is not `decodeURIComponent`, because it accepts some overlong or malformed escapes that the latter rejects.
- React re-render timing: each handler is one sequential step. Overlapping runs of one handler are not modelled. The exception is the timer closure, which keeps the `mediaRecorder` of its render.

## Findings

| source | as written | input that shows it | evidently intended | confidence | as-written member | corrected member |
|---|---|---|---|---|---|---|
| app/reading-assessment/page.tsx:176-186 | The interval's auto-stop calls the `handleStopRecording` of the render that started it. That render's `mediaRecorder` is the one before `setMediaRecorder(recorder)`, which is null on a first recording. So at 60 seconds the recorder is not stopped, `onstop` never sets `audioBlob`, yet the page shows a finished recording. | A fresh page: start recording, then 61 ticks. Afterwards `hasRecording` is true, the recorder is still recording, `audioBlob` is null, and "Analyze Reading" is refused. | At 60 seconds the current recorder is stopped ("Auto-stop after 60 seconds"). Its recording becomes the blob, and analysis can proceed. | not executed | Reading.AutoStopAsWritten | Reading.AutoStopIntended |
| app/visual-aid/page.tsx:53 | `prompt.substring(0, 50)` counts UTF-16 code units, so it can keep only the first half of a surrogate pair. `encodeURIComponent` then throws `URIError` "URI malformed", and generation fails with that message. | A topic of 49 letters followed by an emoji outside the Basic Multilingual Plane (for instance U+1F30D). | The placeholder keeps the topic's first whole characters that fit in 50 code units, and building the URL never fails. | not executed | VisualAid.SplitPairExample | VisualAid.PlaceholderReadsBack |
