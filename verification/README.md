# moodify core, modelled in Dafny

moodify is an Android app for mood journaling, task suggestions and sleep
tracking, backed by Firebase (Auth and Firestore) and by hosted language
models. This project models the app's core logic and proves properties
about it:

- **Task suggestions** (`TasksViewModel`). A chat model's reply is cleaned
  down to a JSON array of tasks. If anything fails, six placeholder tasks are
  used instead. The user then "spins" up to three times, and each spin draws
  a not-yet-chosen task. The choice is saved to and loaded from Firestore as
  loose records.
- **Journal analysis** (`retryOn503`, `EmotionViewModel`). Two inference
  calls are made, each retried with exponential backoff while the server
  answers HTTP 503. The view model updates its state accordingly and builds
  the journal entry it saves.
- **Sleep data** (`SleepRepository`). Schedules are saved as new or
  overwritten documents. Bedtime and wake-up are merge-written into one log
  document per UTC day. Both collections are streamed back to the UI.
- **Sleep schedule screen** (`SleepScheduleScreen`). Covers the card title
  of a schedule, the add/edit dialog's state and the schedule it saves, and
  the strings exchanged with the date and time pickers.

The modules are laid out as follows:

- `Wrappers`: `Option`.
- `KotlinInts`: `Int`/`Long` widths, wrap-around and saturating conversions.
- `KotlinStrings`: `trim`, `replace`, `indexOf`, `split`, `toIntOrNull` and
  `"%0Nd"`.
- `Timestamps`: a Firestore `Timestamp`, represented by its UTC calendar
  fields, and its `Instant.toString()` rendering.
- `Firestore`: field values, and merge writes.
- `Tasks`, `Journal`, `SleepData` and `SleepUi`: one module per core source
  file.

Only a few things stay external, and each becomes a parameter of the model:

- the signed-in user (`Option<string>`);
- the current time;
- network outcomes;
- the JSON decoder.

A random pick becomes a nondeterministic choice. A coroutine's `delay` is
recorded as a wait instead of suspending. Classes mirror the view models
and the schedule dialog, whose state the source updates in place. The
repository's own fields never change; its class holds two maps that stand
for the Firestore collections it writes.

## Model

| member | source | states |
|---|---|---|
| KotlinInts.Wrap32 | app/src/main/java/com/example/moodify/journal/Journal.kt:83 | `Int` arithmetic: the result is the `Int` congruent to the exact value modulo 2^32, and equals it when it is in range |
| KotlinInts.LongToInt | app/src/main/java/com/example/moodify/tasks/TasksViewModel.kt:148 | `Long.toInt()` keeps the value when it fits and is congruent to it modulo 2^32 otherwise |
| KotlinInts.SaturateToLong | app/src/main/java/com/example/moodify/journal/Journal.kt:89 | `Double.toLong()` of an integral value keeps it in range and clamps to `Long.MIN_VALUE`/`Long.MAX_VALUE` outside |
| KotlinInts.DoubleToInt | app/src/main/java/com/example/moodify/tasks/TasksViewModel.kt:148 | `Double.toInt()` truncates toward zero (bounds for both signs) and saturates at the `Int` bounds |
| KotlinStrings.IsWhitespace | app/src/main/java/com/example/moodify/tasks/TasksViewModel.kt:81 | Kotlin's `isWhitespace()`: the Unicode space separators and the control characters U+0009..U+000D and U+001C..U+001F |
| KotlinStrings.IsBlank | app/src/main/java/com/example/moodify/journal/Journal.kt:124 | `isBlank()`: every character is whitespace |
| KotlinStrings.Trim | app/src/main/java/com/example/moodify/tasks/TasksViewModel.kt:81 | `trim()` returns a slice of its input whose removed head and tail are blank; it is empty exactly for blank input and leaves no whitespace at either end |
| KotlinStrings.TrimIdempotent | app/src/main/java/com/example/moodify/tasks/TasksViewModel.kt:81 | trimming twice is trimming once |
| KotlinStrings.RemoveAll | app/src/main/java/com/example/moodify/tasks/TasksViewModel.kt:81 | `replace(pat, "")` never lengthens and introduces no character; RemoveAllNoOccurrence and RemoveAllFirstOccurrence fix it as the left-to-right removal of non-overlapping occurrences, so pattern characters outside an occurrence (a lone backtick) are kept |
| KotlinStrings.RemoveAllKeepsOthers | app/src/main/java/com/example/moodify/tasks/TasksViewModel.kt:81 | setting aside the pattern's characters, the result of `replace(pat, "")` and its input are the same string |
| KotlinStrings.RemoveAllNoOccurrence | app/src/main/java/com/example/moodify/tasks/TasksViewModel.kt:81 | where the pattern never occurs, `replace(pat, "")` returns its input unchanged |
| KotlinStrings.RemoveAllFirstOccurrence | app/src/main/java/com/example/moodify/tasks/TasksViewModel.kt:81 | the first occurrence is removed, the text before it kept as it is, and the scan resumes after it |
| KotlinStrings.RemoveFencesLeavesNone | app/src/main/java/com/example/moodify/tasks/TasksViewModel.kt:81 | after `replace("```", "")` no three backticks remain in a row, even where removal joins two runs |
| KotlinStrings.IndexOf | app/src/main/java/com/example/moodify/tasks/TasksViewModel.kt:82 | `indexOf(c)` is -1 exactly when `c` is absent, else a position holding `c` with no earlier `c` |
| KotlinStrings.LastIndexOf | app/src/main/java/com/example/moodify/tasks/TasksViewModel.kt:83 | `lastIndexOf(c)` is -1 exactly when `c` is absent, else a position holding `c` with no later `c` |
| KotlinStrings.Split | app/src/main/java/com/example/moodify/sleepLog/ui/SleepScheduleScreen.kt:566 | `split(sep)` returns at least one piece, and no piece contains the separator |
| KotlinStrings.SplitWhole | app/src/main/java/com/example/moodify/sleepLog/ui/SleepScheduleScreen.kt:566 | a string without the separator splits into itself alone |
| KotlinStrings.SplitAt | app/src/main/java/com/example/moodify/sleepLog/ui/SleepScheduleScreen.kt:546 | the first separator ends the first piece; the rest splits independently |
| KotlinStrings.Pad | app/src/main/java/com/example/moodify/sleepLog/ui/SleepScheduleScreen.kt:453 | `"%0Nd"` renders digits only, at least N of them |
| KotlinStrings.DecimalRoundTrip | app/src/main/java/com/example/moodify/sleepLog/ui/SleepScheduleScreen.kt:453 | the digits of the decimal rendering denote the number |
| KotlinStrings.PadRoundTrip | app/src/main/java/com/example/moodify/sleepLog/ui/SleepScheduleScreen.kt:453 | leading zeros do not change the value read back |
| KotlinStrings.PadWidth | app/src/main/java/com/example/moodify/sleepLog/ui/SleepScheduleScreen.kt:553 | a number below 10^N fills exactly N characters |
| KotlinStrings.ToIntOrNull | app/src/main/java/com/example/moodify/sleepLog/ui/SleepScheduleScreen.kt:566 | `toIntOrNull()` succeeds only on an optional sign followed by digits; an unsigned or `+` number in `Int` range gives its value, a `-` number in range its negation, and a number outside the `Int` range null |
| KotlinStrings.ParsePadded | app/src/main/java/com/example/moodify/sleepLog/ui/SleepScheduleScreen.kt:566 | every zero-padded rendering of an `Int`-sized number parses back to it |
| Timestamps.DateKey | app/src/main/java/com/example/moodify/sleepLog/data/SleepRepository.kt:54 | the first ten characters of `Instant.toString()` are exactly the ISO date YYYY-MM-DD of the UTC day |
| Timestamps.InstantString | app/src/main/java/com/example/moodify/sleepLog/data/SleepRepository.kt:54 | `Instant.toString()` starts with the ISO date and a 'T' and ends with 'Z', at least twenty characters |
| Timestamps.IsoDatePieces | app/src/main/java/com/example/moodify/sleepLog/ui/SleepScheduleScreen.kt:546 | splitting an ISO date on '-' gives its three padded fields |
| Timestamps.IsoDateInjective | app/src/main/java/com/example/moodify/sleepLog/ui/SleepScheduleScreen.kt:553 | two ISO dates are equal if and only if year, month and day are |
| Timestamps.DateKeySameDay | app/src/main/java/com/example/moodify/sleepLog/data/SleepRepository.kt:54 | two timestamps get the same log document if and only if they fall on the same UTC day |
| Firestore.MergeSet | app/src/main/java/com/example/moodify/sleepLog/data/SleepRepository.kt:56-57 | a merge write sets the named fields and keeps every other stored field |
| Tasks.CleanAiText | app/src/main/java/com/example/moodify/tasks/TasksViewModel.kt:81 | the cleaned reply has no fence, no new characters and no whitespace at its ends; leaving backticks aside it is the raw reply less a blank head and tail; a reply without a fence is only trimmed, so its lone backticks stay |
| Tasks.ExtractJsonArray | app/src/main/java/com/example/moodify/tasks/TasksViewModel.kt:82-85 | an array is cut out if and only if some '[' precedes some ']'; it runs from the first '[' to the last ']' |
| Tasks.CleanedArrayFound | app/src/main/java/com/example/moodify/tasks/TasksViewModel.kt:81-85 | an array is found in the cleaned reply if and only if the raw reply has a '[' before a ']': fences and surrounding whitespace neither hide nor make one |
| Tasks.PlaceholdersShape | app/src/main/java/com/example/moodify/tasks/TasksViewModel.kt:95-101 | the fallback is six distinct tasks "Task #1" to "Task #6" with priority 0 and empty description |
| Tasks.Placeholders | app/src/main/java/com/example/moodify/tasks/TasksViewModel.kt:95-101 | six tasks, each with priority 0 and an empty description |
| Tasks.GeneratedTasks | app/src/main/java/com/example/moodify/tasks/TasksViewModel.kt:72-101 | the candidates are either the placeholders or exactly what the decoder made of the extracted array |
| Tasks.ProseFallsBack | app/src/main/java/com/example/moodify/tasks/TasksViewModel.kt:84 | a reply with no '[', or no content at all, yields the placeholders whatever the decoder does |
| Tasks.DecodedWhenArrayFound | app/src/main/java/com/example/moodify/tasks/TasksViewModel.kt:89-90 | a reply whose extracted array decodes yields the decoded tasks |
| Tasks.Remaining | app/src/main/java/com/example/moodify/tasks/TasksViewModel.kt:164 | a task remains if and only if it is a candidate and not yet selected |
| Tasks.DistinctCount | app/src/main/java/com/example/moodify/tasks/TasksViewModel.kt:164 | a list without duplicates has as many distinct elements as entries |
| Tasks.RemainingNonEmpty | app/src/main/java/com/example/moodify/tasks/TasksViewModel.kt:165 | while fewer distinct tasks are selected than there are candidates, a spin has something to draw |
| Tasks.Take3 | app/src/main/java/com/example/moodify/tasks/TasksViewModel.kt:113 | `take(3)` is the prefix of length min(3, size) |
| Tasks.PriorityOf | app/src/main/java/com/example/moodify/tasks/TasksViewModel.kt:148 | a missing or non-numeric priority is 0; a stored `Long` gives its low 32 bits (itself when in `Int` range) and a stored `Double` its truncation saturated to `Int` |
| Tasks.RecordTask | app/src/main/java/com/example/moodify/tasks/TasksViewModel.kt:146-151 | a record is kept if and only if its "task" is a string; the description defaults to "" |
| Tasks.RecordTasks | app/src/main/java/com/example/moodify/tasks/TasksViewModel.kt:145-151 | loading succeeds if and only if every element is a map, and never yields more tasks than records; with RecordTasksSingle and RecordTasksAppend, it is the per-record mapping in order |
| Tasks.RecordTasksAppend | app/src/main/java/com/example/moodify/tasks/TasksViewModel.kt:146 | the mapping works record by record, so it distributes over concatenation |
| Tasks.RecordTasksSingle | app/src/main/java/com/example/moodify/tasks/TasksViewModel.kt:146-151 | a single map record yields its task when it has a string "task" and nothing otherwise |
| Tasks.TasksList | app/src/main/java/com/example/moodify/tasks/TasksViewModel.kt:145 | the stored list when the "tasks" field is a list, else the empty list |
| Tasks.EncodeTask | app/src/main/java/com/example/moodify/tasks/TasksViewModel.kt:113-119 | a task is written as a map of exactly "task", "priority" and "description", which reads back as that task |
| Tasks.EncodeTasks | app/src/main/java/com/example/moodify/tasks/TasksViewModel.kt:113-119 | one map record per task, in order |
| Tasks.SaveLoadRoundTrip | app/src/main/java/com/example/moodify/tasks/TasksViewModel.kt:113-151 | loading saved records gives back exactly the saved tasks |
| Tasks.TasksViewModel.constructor | app/src/main/java/com/example/moodify/tasks/TasksViewModel.kt:33-42 | empty candidates and selection, no spins, and the spin invariant holds |
| Tasks.TasksViewModel.Spin | app/src/main/java/com/example/moodify/tasks/TasksViewModel.kt:162-169 | when a guard fails nothing changes; otherwise one candidate not selected before is appended and the count goes up by one; candidates never change; the invariant (distinct selected candidates, one per spin, at most 3) is kept |
| Tasks.TasksViewModel.GenerateTasks | app/src/main/java/com/example/moodify/tasks/TasksViewModel.kt:89-105 | the candidates become the generated tasks and the spinner is reset, re-establishing the invariant |
| Tasks.TasksViewModel.LoadSavedTasks | app/src/main/java/com/example/moodify/tasks/TasksViewModel.kt:134-161 | on success the loaded tasks become candidates, the first three the selection, and no further spin can draw; without a user, on a failed fetch or a non-map record nothing changes |
| Tasks.TasksViewModel.SaveSelectedTasks | app/src/main/java/com/example/moodify/tasks/TasksViewModel.kt:108-133 | without a user nothing is written and false is reported; otherwise the written document stamps the time and loads back as the first three selected tasks, and the write's success is reported |
| Tasks.SpinsAfterFallback | app/src/main/java/com/example/moodify/tasks/TasksViewModel.kt:92-169 | after a failed generation three spins pick three different placeholders and a fourth changes nothing |
| Journal.AsWrittenWrapsAtMinInt | app/src/main/java/com/example/moodify/journal/Journal.kt:83 | at `times = Int.MIN_VALUE` the guarded loop would run `Int.MAX_VALUE` times |
| Journal.GuardedAttempts | app/src/main/java/com/example/moodify/journal/Journal.kt:76-93 | one fewer guarded attempt than `times`, and none when `times <= 1` |
| Journal.GuardedAttemptsAgree | app/src/main/java/com/example/moodify/journal/Journal.kt:83 | the written and intended counts agree for every `times` except `Int.MIN_VALUE` |
| Journal.CallsMade | app/src/main/java/com/example/moodify/journal/Journal.kt:83-92 | the block runs until its first non-503 outcome among the guarded attempts, otherwise once more unguarded; every earlier outcome was a 503 |
| Journal.Backoff | app/src/main/java/com/example/moodify/journal/Journal.kt:82-89 | the waits start at `initialDelayMs`, stay non-negative from a non-negative start, and with a factor of at least 1 never fall below the first |
| Journal.BackoffGrows | app/src/main/java/com/example/moodify/journal/Journal.kt:89 | with a non-negative start and a factor of at least 1 each wait is at least the one before |
| Journal.BackoffGeometric | app/src/main/java/com/example/moodify/journal/Journal.kt:82-89 | without saturation the i-th wait is `initialDelayMs * factor^i` |
| Journal.DefaultBackoff | app/src/main/java/com/example/moodify/journal/Journal.kt:77-79 | with the defaults the waits are 1000 ms and then 2000 ms |
| Journal.RetryWaits | app/src/main/java/com/example/moodify/journal/Journal.kt:88 | one wait per 503 on a guarded attempt |
| Journal.RetryOutcome | app/src/main/java/com/example/moodify/journal/Journal.kt:83-92 | the result is the outcome of some attempt k within the guarded count, all earlier ones 503, and not a 503 when k is guarded; it is a 503 if and only if every attempt was |
| Journal.RetryOn503 | app/src/main/java/com/example/moodify/journal/Journal.kt:76-93 | calls made, outcome and waits match the retry contract: at most `max(times, 1)` calls, all but the last a 503, the last outcome returned or thrown, a 503 propagating only after all attempts, waits growing by the factor |
| Journal.Flatten | app/src/main/java/com/example/moodify/journal/Journal.kt:134 | an element is in the flattened list if and only if it is in one of the inner lists; no lists flatten to none and a single list to itself |
| Journal.FlattenAppend | app/src/main/java/com/example/moodify/journal/Journal.kt:134 | flattening keeps the order of the inner lists |
| Journal.FirstReply | app/src/main/java/com/example/moodify/journal/Journal.kt:141 | no reply exactly for an empty response list, else the first element's generated text |
| Journal.EmotionViewModel.constructor | app/src/main/java/com/example/moodify/journal/Journal.kt:98-108 | empty input and results, no reply, not loading |
| Journal.EmotionViewModel.OnInputChange | app/src/main/java/com/example/moodify/journal/Journal.kt:118-120 | only the input text changes |
| Journal.EmotionViewModel.AnalyzeAndSave | app/src/main/java/com/example/moodify/journal/Journal.kt:122-127 | the job is launched if and only if a user is signed in and the input is not blank; only then loading starts |
| Journal.EmotionViewModel.AnalysisJob | app/src/main/java/com/example/moodify/journal/Journal.kt:127-165 | when both retried calls succeed the results are the flattened labels, the reply the first generated text, and the entry holds text, time, labels, reply and no tasks; otherwise the results are the single "Error" label, no reply and no entry; the blender call is only made after the emotion call succeeds; loading always ends |
| SleepData.IsNullOrBlank | app/src/main/java/com/example/moodify/sleepLog/data/SleepRepository.kt:26 | `isNullOrBlank()`: no id, or an id of whitespace only |
| SleepData.ScheduleView | app/src/main/java/com/example/moodify/sleepLog/data/SleepRepository.kt:41-43 | every stored schedule is listed, carrying its document id and otherwise unchanged |
| SleepData.ScheduleViewAfterSet | app/src/main/java/com/example/moodify/sleepLog/data/SleepRepository.kt:31-42 | after storing a schedule under an id, the listing shows it with that id there and nothing else changes |
| SleepData.FreshIdExists | app/src/main/java/com/example/moodify/sleepLog/data/SleepRepository.kt:28 | a collection always has an unused non-blank document id for `add` |
| SleepData.MergeAtCommute | app/src/main/java/com/example/moodify/sleepLog/data/SleepRepository.kt:56-66 | merge writes of disjoint field sets commute |
| SleepData.MergeAtOverwrites | app/src/main/java/com/example/moodify/sleepLog/data/SleepRepository.kt:56-57 | a merge write naming every field of an earlier one on the same document hides it |
| SleepData.WithSleepStart | app/src/main/java/com/example/moodify/sleepLog/data/SleepRepository.kt:51-58 | the day's document gets the date and bedtime; its other fields and all other documents are kept |
| SleepData.WithWakeTime | app/src/main/java/com/example/moodify/sleepLog/data/SleepRepository.kt:62-67 | the day's document gets the wake-up time; its other fields and all other documents are kept |
| SleepData.ToSleepLog | app/src/main/java/com/example/moodify/sleepLog/data/SleepLog.kt:7-11 | a document reads back as a log if and only if it has a string date and two timestamps, which the log carries |
| SleepData.LogView | app/src/main/java/com/example/moodify/sleepLog/data/SleepRepository.kt:74-76 | exactly the documents that read back as logs are listed |
| SleepData.LogViewAsWritten | app/src/main/java/com/example/moodify/sleepLog/data/SleepRepository.kt:74-76 | as written the mapper throws on any document: a list is delivered only for an empty collection, and then it is empty |
| SleepData.AsWrittenLogsNeverListed | app/src/main/java/com/example/moodify/sleepLog/data/SleepRepository.kt:51-76 | as written, once a bedtime has been recorded the logs are never delivered |
| SleepData.WritesKeepKeyedByDate | app/src/main/java/com/example/moodify/sleepLog/data/SleepRepository.kt:53-57 | both writes keep every dated log document stored under its own date |
| SleepData.LogDatesMatchKeys | app/src/main/java/com/example/moodify/sleepLog/data/SleepRepository.kt:70-80 | in a date-keyed collection every listed log's date is its document id |
| SleepData.StartAndWakeCommute | app/src/main/java/com/example/moodify/sleepLog/data/SleepRepository.kt:51-67 | recording bedtime and wake-up in either order gives the same logs |
| SleepData.LaterStartWins | app/src/main/java/com/example/moodify/sleepLog/data/SleepRepository.kt:51-58 | a second bedtime on the same UTC day replaces the first |
| SleepData.SameDayNightLogged | app/src/main/java/com/example/moodify/sleepLog/data/SleepRepository.kt:51-80 | bedtime and wake-up on the same UTC day produce the log (day, bedtime, wake-up) |
| SleepData.NightAcrossMidnightSplit | app/src/main/java/com/example/moodify/sleepLog/data/SleepRepository.kt:51-80 | a night crossing UTC midnight lands in two documents, one with only the bedtime and one with only the wake-up, and on a fresh collection no log is listed |
| SleepData.SleepRepository.constructor | app/src/main/java/com/example/moodify/sleepLog/data/SleepRepository.kt:15-17 | empty store; logs keyed by date |
| SleepData.SleepRepository.SaveSchedule | app/src/main/java/com/example/moodify/sleepLog/data/SleepRepository.kt:20-33 | without a user nothing changes; a null or blank id adds the schedule under a new non-blank id; any other id overwrites exactly that document; logs untouched |
| SleepData.SleepRepository.RecordSleepStart | app/src/main/java/com/example/moodify/sleepLog/data/SleepRepository.kt:51-58 | without a user nothing changes; otherwise only that user's logs change, by the bedtime merge; schedules untouched; logs stay keyed by date |
| SleepData.SleepRepository.RecordWakeTime | app/src/main/java/com/example/moodify/sleepLog/data/SleepRepository.kt:62-67 | without a user nothing changes; otherwise only that user's logs change, by the wake-up merge; schedules untouched; logs stay keyed by date |
| SleepData.SleepRepository.SchedulesFlow | app/src/main/java/com/example/moodify/sleepLog/data/SleepRepository.kt:37-47 | no list without a user; otherwise exactly the schedule view of the user's collection: one schedule per document, each carrying its document id |
| SleepData.SleepRepository.SleepLogsFlow | app/src/main/java/com/example/moodify/sleepLog/data/SleepRepository.kt:70-80 | no list without a user; otherwise exactly the log view of the user's collection, each log dated by its document id |
| SleepUi.ScheduleInfo | app/src/main/java/com/example/moodify/sleepLog/ui/SleepScheduleScreen.kt:146-156 | no title if and only if the type is null; an out-of-bounds index if and only if a weekly schedule stores a weekday outside 1..7; "Every day", "Weekdays (Mon-Fri)" and "Weekends (Sat-Sun)" for those types; "Once on " and the date (or nothing) for one-off schedules; "Every " and the weekday's name for weekly ones, Monday when none is stored; unknown types shown as they are |
| SleepUi.InitialTypeIndex | app/src/main/java/com/example/moodify/sleepLog/ui/SleepScheduleScreen.kt:277-281 | the chip of the stored type, or the first chip when the type is null or unknown |
| SleepUi.InitialDayIndex | app/src/main/java/com/example/moodify/sleepLog/ui/SleepScheduleScreen.kt:286-290 | a valid weekday index: the stored weekday's when it is in 1..7, 0 when there is none or it is below 1, 6 when it is above 7 (and at `Int.MIN_VALUE`, where `it - 1` wraps) |
| SleepUi.InitialDateIso | app/src/main/java/com/example/moodify/sleepLog/ui/SleepScheduleScreen.kt:293-295 | the stored date, else today's |
| SleepUi.InitialBedtime | app/src/main/java/com/example/moodify/sleepLog/ui/SleepScheduleScreen.kt:306 | the stored bedtime, else "22:30" |
| SleepUi.InitialWakeup | app/src/main/java/com/example/moodify/sleepLog/ui/SleepScheduleScreen.kt:307 | the stored wake-up, else "06:30" |
| SleepUi.BuildSchedule | app/src/main/java/com/example/moodify/sleepLog/ui/SleepScheduleScreen.kt:516-524 | the saved schedule keeps the id, has a weekday if and only if weekly (in 1..7) and a date if and only if one-off |
| SleepUi.ScheduleDialog.constructor | app/src/main/java/com/example/moodify/sleepLog/ui/SleepScheduleScreen.kt:276-307 | the dialog opens on the initial choices above |
| SleepUi.ScheduleDialog.SelectType | app/src/main/java/com/example/moodify/sleepLog/ui/SleepScheduleScreen.kt:341 | only the type choice changes |
| SleepUi.ScheduleDialog.SelectDay | app/src/main/java/com/example/moodify/sleepLog/ui/SleepScheduleScreen.kt:371-383 | only the weekday choice changes |
| SleepUi.ScheduleDialog.OnDatePicked | app/src/main/java/com/example/moodify/sleepLog/ui/SleepScheduleScreen.kt:411-413 | only the date changes, to the picked date's ISO form |
| SleepUi.ScheduleDialog.OnBedtimePicked | app/src/main/java/com/example/moodify/sleepLog/ui/SleepScheduleScreen.kt:452-454 | only the bedtime changes, to "HH:MM" |
| SleepUi.ScheduleDialog.OnWakeupPicked | app/src/main/java/com/example/moodify/sleepLog/ui/SleepScheduleScreen.kt:484-486 | only the wake-up changes, to "HH:MM" |
| SleepUi.ScheduleDialog.Save | app/src/main/java/com/example/moodify/sleepLog/ui/SleepScheduleScreen.kt:516-524 | the saved schedule keeps the edited document's id, carries the selected type, the selected weekday + 1 only for weekly, the selected date only for one-off, both times, and always has a card title |
| SleepUi.FormatTime | app/src/main/java/com/example/moodify/sleepLog/ui/SleepScheduleScreen.kt:452-454 | "HH:MM": splits at ':' into the two padded fields, five characters for values below 100 |
| SleepUi.FormatDate | app/src/main/java/com/example/moodify/sleepLog/ui/SleepScheduleScreen.kt:553 | "YYYY-MM-DD" with the month plus one: splits at '-' into the three padded fields, ten characters when they fit |
| SleepUi.TimePickerStart | app/src/main/java/com/example/moodify/sleepLog/ui/SleepScheduleScreen.kt:566-571 | the hour is the first piece as an `Int`, or 0; the minute the second piece as an `Int` (0 when it is not one), or 30 when there is no second piece |
| SleepUi.ParseInts | app/src/main/java/com/example/moodify/sleepLog/ui/SleepScheduleScreen.kt:546 | the pieces parse if and only if each is an `Int`, and then piece by piece |
| SleepUi.DatePickerStart | app/src/main/java/com/example/moodify/sleepLog/ui/SleepScheduleScreen.kt:544-548 | a date is set if and only if every piece is an `Int` and there are at least three; it is then (first piece, second piece - 1, third piece) |
| SleepUi.TimeRoundTrip | app/src/main/java/com/example/moodify/sleepLog/ui/SleepScheduleScreen.kt:452-571 | a time the picker wrote opens the picker on that time again |
| SleepUi.TimeWithoutColon | app/src/main/java/com/example/moodify/sleepLog/ui/SleepScheduleScreen.kt:566-571 | `split` never returns an empty list, so the hour default 22 is never used: "" opens at 00:30 |
| SleepUi.DateRoundTrip | app/src/main/java/com/example/moodify/sleepLog/ui/SleepScheduleScreen.kt:546-553 | a date the picker wrote opens the picker on that date again |
| SleepUi.ParseIntsCons | app/src/main/java/com/example/moodify/sleepLog/ui/SleepScheduleScreen.kt:546 | parsing a list parses its head and then its tail |
| SleepUi.BuiltScheduleHasTitle | app/src/main/java/com/example/moodify/sleepLog/ui/SleepScheduleScreen.kt:146-156 | every schedule the dialog saves has a card title; a weekly one names the chosen day |
| SleepUi.ReopenRestores | app/src/main/java/com/example/moodify/sleepLog/ui/SleepScheduleScreen.kt:276-307 | reopening the dialog on a schedule it saved restores the type, the weekday (weekly), the date (one-off) and both times |
| SleepUi.CardAndDialogAgreeOnDay | app/src/main/java/com/example/moodify/sleepLog/ui/SleepScheduleScreen.kt:149-151 | for a stored weekday in 1..7 the card and the dialog show the same day |
| SleepUi.OutOfRangeDay | app/src/main/java/com/example/moodify/sleepLog/ui/SleepScheduleScreen.kt:151 | a stored weekday outside 1..7 makes the card's lookup fail, while the dialog clamps it to Monday or Sunday |

## Left out

- The Compose layout, styling, labels and navigation are not modelled. The dialog's display rendering of the date (`SimpleDateFormat("EEE, MMM d, yyyy")`) is locale-dependent and left out too.
- The HTTP transport is not modelled: Retrofit, the auth headers, and the prompts sent to the chat and inference models. Each call's outcome is a parameter.
- kotlinx.serialization's JSON decoding of generated tasks is an opaque `decode` parameter. The JSON grammar is not modelled.
- `randomOrNull` is a nondeterministic choice. The distribution is not modelled.
- `Timestamp.now()` and `Date()` are parameters. A timestamp is given by its UTC calendar fields, so the conversion from epoch seconds is not modelled.
- Coroutines and concurrency are not modelled. In particular, the input text may change while the journal job runs, and the model reads it once.
- Journal.EmotionViewModel.AnalysisJob: the journal entry is returned as the value handed to Firestore's `add`. The success or failure of `add` is only logged by the source and is not modelled.
- Journal.RetryOn503: the backoff factor is a natural number. A fractional `Double` factor and floating-point rounding are not modelled.
- KotlinStrings.ToIntOrNull: accepts ASCII digits only. Kotlin also accepts other Unicode decimal digits.
- SleepData.ToSleepLog reads a document field by field, and LogView drops a document that lacks the date or either timestamp. Both are this model's choice: the source's `toObject(SleepLog::class.java)` throws on every document, because `SleepLog` has no no-argument constructor (see Findings). A mapper that could build a `SleepLog` would leave missing fields null instead of dropping the document. NightAcrossMidnightSplit's "no log is listed" rests on this choice.
- KotlinStrings.Pad, SleepUi.FormatTime and SleepUi.FormatDate write ASCII digits. `"%02d".format` and `String.format` use the default locale, which can print other digits (Arabic-Indic, say); the round-trip lemmas assume ASCII.
- Tasks.PriorityOf: a stored `Double` is a `real`, so NaN and the infinities are not modelled (`Double.NaN.toInt()` is 0, and the infinities saturate).
- SleepData.SleepRepository.SchedulesFlow: the listener's list order and the flow's lifecycle are not modelled; a collection is a map. Reading a stored schedule whose fields have the wrong types is not modelled either.
- SleepUi.DatePickerStart: the picker opens on the (year, month, day) that is set into the `Calendar`, and on today's date when parsing fails. The calendar's lenient normalisation of out-of-range fields is not modelled.
- The `TimePickerDialog`'s handling of an out-of-range initial hour or minute is not modelled.
- Only the sleep schedule screen is modelled. `SleepScheduleViewModel` (which forwards saves to the repository), the notification scheduling, the auth, account and start screens, and `MainActivity` are not part of this model.

## Findings

| source | as written | input that shows it | evidently intended | confidence | as-written member | corrected member |
|---|---|---|---|---|---|---|
| app/src/main/java/com/example/moodify/sleepLog/data/SleepRepository.kt:75 | `toObject(SleepLog::class.java)` on each log document; `SleepLog` (sleepLog/data/SleepLog.kt:7-11) declares no defaults, so it has no no-argument constructor for Firestore's mapper | any non-empty `sleepLogs` collection, e.g. after one `recordSleepStart`: the mapper throws inside the snapshot listener and no list is sent | every recorded night is listed as a `SleepLog` | not executed | SleepData.AsWrittenLogsNeverListed | SleepData.LogView |
| app/src/main/java/com/example/moodify/journal/Journal.kt:83 | `repeat(times - 1)` computes `times - 1` in `Int` arithmetic, which wraps | `times = Int.MIN_VALUE`: `times - 1` is `Int.MAX_VALUE`, so up to 2^31-1 guarded attempts | at most `max(times, 1)` calls, no guarded attempt for `times <= 1` | not executed | Journal.AsWrittenWrapsAtMinInt | Journal.GuardedAttempts |
