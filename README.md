# Video processing bot: a Dafny model

The repository is a Telegram bot that converts, cuts, merges and renames
media files for its users. Each user chats with the bot. A user uploads a
video or a document, which the bot downloads and *stages* as that user's
current file. The user then picks an operation from inline keyboards.
Some operations need more input: split asks for two times, rename for a new
name, merge for more files. For these the bot keeps a per-user
conversational *state* in a process-wide `UserManager`. That store also
keeps a per-user merge queue of staged files, the last progress record and
a registry of locks. `VideoProcessor` does the media work through moviepy.
Each of its methods writes to a path derived from its input. It reports
fixed progress percentages to an optional callback, and returns the output
path.

This project models three parts of it:

- `UserManager` as a class with map fields.
- The `VideoProcessor` output naming and progress schedules: pure path
  functions, plus methods that build the reported sequence step by step.
- The bot's handlers as a class, with two fields: the per-user staged file
  and the shared `UserManager`.

Modules:

| file | module | models |
|---|---|---|
| `wrappers.dfy` | `Wrappers` | `Option` |
| `config.dfy` | `Config` | `TEMP_DIR` and the two extension lists of config.py |
| `text.dfy` | `Text` | the Python string operations used: `lower`, `split()`, `split('.')[0]`, `replace(p, "")`, `startswith`, `str(int)` |
| `paths.dfy` | `Paths` | POSIX `os.path.basename`, `os.path.join` and `os.path.splitext(...)[1]` |
| `user_manager.dfy` | `Users` | user_manager.py |
| `video_processor.dfy` | `VideoProcessor` | video_processor.py |
| `routing.dfy` | `Routing` | the pure decisions of bot.py: classification, staged names, payload routing, split-time reading |
| `bot.dfy` | `Bot` | the handlers of bot.py and the replies they make |

## How the model works

- **Toolkit failure.** Each moviepy or shutil call is one opaque step that
  returns or raises. A method takes `fails: Option<nat>`, the index (from 0)
  of the toolkit call that raises, if any. A close call is folded into the
  write call before it; both run only after the previous call returned.
- **Progress plans.** A method's progress behaviour is a `Plan`:
  `Report(p, next)` calls the callback (when there is one), and `Call(next)`
  is one toolkit call. `Run(plan, callback, fails, 0)` gives the
  percentages reported and whether the method returned. Each method is
  proved to produce exactly `Run` of its plan. The properties of the
  schedules are proved about the plans, once: `ScheduleGuarantees`.
- **Replies.** A chat reply is a `Reply`:
  - a notice, named by what it says;
  - a progress edit;
  - a delivered file, with its channel, path and display name;
  - the deletion of the status message.

  `Delivered(rs)` says that a file reaches the chat.
- **What the bot expects of the user.** The bot never checks the state on
  uploads. It never checks the file kind before converting. It never
  handles the merge keyboard's buttons.

Where the repository's own description and the code disagree, the model
follows the code:

- No button payload `process_merge` or `add_more_merge` is handled. Merge
  never runs, and `merge_videos` and `merge_video_audio` are never called
  from the bot (`Routing.RouteMergeKeyboard`, `Bot.MergeKeyboardInert`).
- An upload in `awaiting_merge_files` or `awaiting_audio_merge` only
  restages the file. It does not enqueue and does not merge
  (`Bot.UploadDuringMerge`).
- Leaving merge mode, which any text message does, does not clear the
  queue (`Bot.MergeModeEnds`).
- The store keeps whatever progress value was last reported, lower or not
  (`Users.ProgressRegression`).

## Model

| member | source | states |
|---|---|---|
| Text.LowerChar | bot.py:105 | the A-Z and Kelvin-sign part of `c.lower()` for one character (see "## Left out"): A-Z and U+212A KELVIN SIGN fold to ASCII lower case, everything else is kept; the result is an ASCII lower-case letter exactly when the input is one, an ASCII upper-case letter or the Kelvin sign |
| Text.Lower | bot.py:105 | the A-Z and Kelvin-sign part of `s.lower()` (see "## Left out"), character by character: same length, each character lowered by `LowerChar` |
| Text.LowerIdempotent | bot.py:105 | lower-casing twice is lower-casing once |
| Text.LowerConcat | bot.py:105 | lower-casing works piecewise over a concatenation |
| Text.StartsWith | bot.py:150-154 | definition of `s.startswith(p)`: `p` is a prefix of `s` |
| Text.FirstDotStem | video_processor.py:13 | `s.split('.')[0]` is a prefix of `s` with no '.', followed in `s` by a '.' when shorter |
| Text.NatToDecimal | bot.py:85 | a numeral is non-empty digits, one digit exactly for numbers below 10 |
| Text.IntToDecimal | bot.py:85 | `str(n)` is digits and '-', starting with '-' exactly for negative numbers |
| Text.NatToDecimalInjective | bot.py:85 | different naturals have different numerals |
| Text.IntToDecimalInjective | bot.py:117 | different user ids print differently |
| Text.IsSpace | bot.py:309 | definition of the characters `str.isspace` accepts, the separators of `split()`; `Word`, `WhitespaceSplit` and the split lemmas rest on it |
| Text.Word | bot.py:309 | the longest white-space-free prefix: a prefix, without white space, followed by white space when shorter |
| Text.WhitespaceSplit | bot.py:309 | `split()` yields only non-empty tokens without white space |
| Text.SplitSkipsLeadingSpace | bot.py:309 | leading white space does not change the tokens |
| Text.SplitOneWord | bot.py:309 | a single word is one token |
| Text.SplitTwoWords | bot.py:309 | two words around one white-space character are exactly those two tokens |
| Text.RemoveAll | bot.py:151 | `replace(p, "")` never lengthens the text |
| Text.RemoveAllAbsent | bot.py:151 | a text without the pattern is unchanged by `replace(p, "")` |
| Text.RemoveAllLeading | bot.py:155 | a leading occurrence is removed and the rest is processed the same way |
| Text.ShiftAbsent | bot.py:151 | proof helper, models no line by itself: a head character that starts no occurrence is kept, and the absence of occurrences moves to the tail |
| Text.RemoveAllFirst | bot.py:151 | the first occurrence is removed wherever it stands: the text before it is kept and the scan goes on after it |
| Paths.SuffixTransitive | bot.py:105 | proof helper, models no line by itself: a suffix of a suffix is a suffix |
| Paths.Basename | video_processor.py:13 | `basename` is a suffix without '/', preceded by '/' when shorter than the path |
| Paths.BasenameOfName | video_processor.py:13 | a name without '/' is its own basename |
| Paths.BasenameAfterSlash | video_processor.py:13 | the basename of `dir/name` is `name` |
| Paths.Join | video_processor.py:13 | `join` ends with the name, keeps the directory in front for a relative name, and gives an absolute name unchanged |
| Paths.JoinBasename | video_processor.py:13 | the basename of `join(dir, name)` is `name` for a plain name |
| Paths.DropLeadingDots | bot.py:105 | the leading dots are dropped, leaving a suffix |
| Paths.FromLastDot | bot.py:105 | the text from the last '.' is empty or one '.' then no other '.', and a suffix |
| Paths.NoSlashInSuffix | bot.py:105 | proof helper, models no line by itself: a suffix of a text without '/' has none either |
| Paths.Ext | bot.py:105 | `splitext(p)[1]` is empty or '.' followed by no '.', contains no '/', and is a suffix of `p` |
| Paths.FromLastDotAfterDot | bot.py:105 | the text from the last dot of `s.e` is `.e` |
| Paths.ExtOfName | bot.py:105 | a plain name `stem.e` has extension `.e` |
| Paths.BasenameLower | bot.py:105 | the basename commutes with lower-casing |
| Paths.DropLeadingDotsLower | bot.py:105 | dropping leading dots commutes with lower-casing |
| Paths.FromLastDotLower | bot.py:105 | taking the last-dot suffix commutes with lower-casing |
| Paths.ExtLower | bot.py:105 | the extension of the lower-cased name is the lower-cased extension |
| Users.UserManager.constructor | user_manager.py:5-9 | an empty store: every user idle, with an empty queue and the default progress record |
| Users.UserManager.GetLock | user_manager.py:11-14 | an entry is created on the first call only; the same entry is returned on every later call |
| Users.UserManager.SetUserState | user_manager.py:16-17 | the user's state becomes the given one; no other user's state changes |
| Users.UserManager.GetUserState | user_manager.py:19-20 | the stored state, "idle" for a user never set |
| Users.UserManager.AddToQueue | user_manager.py:22-25 | the queue, created if absent, grows by the task at its end; no other queue changes |
| Users.UserManager.GetQueue | user_manager.py:27-28 | the stored queue, or an empty one that is not stored |
| Users.UserManager.ClearQueue | user_manager.py:30-32 | an existing queue becomes empty, a missing one stays missing; no other queue changes |
| Users.UserManager.UpdateProgress | user_manager.py:34-41 | the whole record is replaced by the given values and timestamp, with no monotonicity check; other users are unaffected |
| Users.UserManager.GetProgress | user_manager.py:43-44 | the last record stored, or {progress: 0, status: 'Idle'} when none |
| Users.ProgressRegression | user_manager.py:34-44 | after a report of `high` and then `low < high`, the store answers `low` |
| Users.LockPerUser | user_manager.py:11-14 | two calls for one user give the same lock; another user gets a different one |
| VideoProcessor.ConvertedPath | video_processor.py:13 | definition: join(TEMP_DIR, "converted_" + first-dot stem of the basename + "." + format); its shape is proved by `ConvertedPathShape` |
| VideoProcessor.MergedVideoPath | video_processor.py:30 | definition: join(TEMP_DIR, "merged_video.mp4"), one name whatever the inputs |
| VideoProcessor.AudioPath | video_processor.py:59 | definition: join(TEMP_DIR, "audio_" + first-dot stem + "." + format); shape proved by `AudioPathShape` |
| VideoProcessor.SplitPath | video_processor.py:82 | definition: join(TEMP_DIR, "split_" + basename); shape proved by `SplitPathShape` |
| VideoProcessor.MergedAvPath | video_processor.py:106 | definition: join(TEMP_DIR, "merged_av_" + basename of the video); shape proved by `MergedAvPathShape` |
| VideoProcessor.RenamedPath | video_processor.py:133 | definition: join(TEMP_DIR, new name); proved by `RenamedPathShape` |
| VideoProcessor.NoSlashConcat | video_processor.py:13 | proof helper, models no line by itself: joining two texts without '/' gives one without '/' |
| VideoProcessor.InTempDir | video_processor.py:13 | a relative name is placed in TEMP_DIR with exactly one '/' between |
| VideoProcessor.PlacedInTempDir | video_processor.py:13 | a plain file name joined onto TEMP_DIR lies directly in it under that name |
| VideoProcessor.ConvertedPathShape | video_processor.py:13 | the converted file is TEMP_DIR/converted_<stem>.<format>, the stem being the basename up to its first '.' |
| VideoProcessor.ConvertedPathSharedStem | video_processor.py:13 | inputs whose basenames agree up to the first '.' get the same converted and audio output |
| VideoProcessor.AudioPathShape | video_processor.py:59 | the audio file is TEMP_DIR/audio_<stem>.<format> |
| VideoProcessor.SplitPathShape | video_processor.py:82 | the split file is TEMP_DIR/split_<whole basename> |
| VideoProcessor.MergedAvPathShape | video_processor.py:106 | the audio-merged file is TEMP_DIR/merged_av_<video basename> |
| VideoProcessor.RenamedPathShape | video_processor.py:133 | a plain new name lands in TEMP_DIR under exactly that name; an absolute one escapes TEMP_DIR |
| VideoProcessor.Run | video_processor.py:15-125 | definition of one run of a method's progress plan: reports go to the callback only when there is one, and the run stops at the first toolkit call that raises; its properties are `RunReportsPrefix`, `ScheduleRun` and `ScheduleGuarantees` |
| VideoProcessor.Shown | video_processor.py:15-16 | definition: the percentages the callback receives, none without a callback |
| VideoProcessor.ThenAssociative | video_processor.py:32-52 | sequencing plans is associative |
| VideoProcessor.PercentsThen | video_processor.py:32-52 | the percentages of two sequenced plans are concatenated |
| VideoProcessor.CallsThen | video_processor.py:32-52 | the toolkit calls of two sequenced plans add up |
| VideoProcessor.RunThen | video_processor.py:32-52 | running two sequenced plans runs the second, numbered after the first, only if the first returned |
| VideoProcessor.RunReportsPrefix | video_processor.py:15-23 | a run reports a prefix of its plan's percentages (all of them when it returns, none without a callback), and returns exactly when none of its calls raises |
| VideoProcessor.ScheduleFromWeaken | video_processor.py:32-52 | a schedule above a floor is one above any lower floor |
| VideoProcessor.ScheduleRun | video_processor.py:32-52 | a schedule's reports never fall below the floor and never decrease, and 100 appears exactly when the run returns with a callback |
| VideoProcessor.ScheduleGuarantees | video_processor.py:15-23 | for every schedule: reports sorted, within [0, 100]; 100 reported exactly when there is a callback and no call raised; nothing reported without a callback |
| VideoProcessor.RunFinal | video_processor.py:22-23 | the last step reports 100 (when there is a callback) and returns |
| VideoProcessor.LoadsSnoc | video_processor.py:35-39 | one more loop turn appends report-then-open to the loop's plan |
| VideoProcessor.LoadsSplit | video_processor.py:35-39 | the loop's plan splits at any file |
| VideoProcessor.LoadsCounts | video_processor.py:35-39 | the loop makes one toolkit call per file and reports `10 + (i*30)//n` for each file i |
| VideoProcessor.MulCancel | video_processor.py:38 | proof helper, models no line by itself: cancelling a positive factor from a strict inequality |
| VideoProcessor.DivMonotone | video_processor.py:38 | proof helper, models no line by itself: floor division by a positive count is monotone |
| VideoProcessor.DivBelow | video_processor.py:38 | proof helper, models no line by itself: a value below `n*k` floor-divided by `n` is below `k` |
| VideoProcessor.FilePercentBounds | video_processor.py:38 | each per-file value lies in [10, 39] and later files never report less |
| VideoProcessor.LoadsSchedule | video_processor.py:35-42 | the loop followed by the tail is a schedule above any floor not exceeding the first file's value |
| VideoProcessor.MergeSchedule | video_processor.py:32-52 | merge_videos reports 10, then `10 + (i*30)//n` for each file, then 70 and 100; each per-file value is in [10, 39]; n + 2 calls; a schedule; nothing divides by zero for no files |
| VideoProcessor.ConvertPlan | video_processor.py:15-23 | definition: report 10, open (call 0), write and close (call 1), report 100 |
| VideoProcessor.VideoToAudioPlan | video_processor.py:61-75 | definition: report 20, open (call 0), report 60, write the audio and close (call 1), report 100 |
| VideoProcessor.SplitPlan | video_processor.py:84-99 | definition: report 20, open (call 0), report 50, cut (call 1), write and close (call 2), report 100 |
| VideoProcessor.MergeAvPlan | video_processor.py:108-125 | definition: report 20, open the video (call 0) and the audio (call 1), report 60, attach (call 2), write and close (call 3), report 100 |
| VideoProcessor.FilePercent | video_processor.py:38 | definition of the per-file value `10 + (i*30)//n`; bounds proved by `FilePercentBounds` |
| VideoProcessor.Loads | video_processor.py:35-39 | definition of the loop's plan from file `lo` to file `hi`: each file's value, then opening that file |
| VideoProcessor.MergeTail | video_processor.py:41-52 | definition: report 70, concatenate (one call), write and close (one call), report 100 |
| VideoProcessor.MergePlan | video_processor.py:32-52 | definition of merge_videos for n files: 10, the loop's plan, then the tail; proved by `MergeSchedule` |
| VideoProcessor.ConvertSchedule | video_processor.py:15-23 | convert_video reports [10, 100] around 2 calls and is a schedule |
| VideoProcessor.VideoToAudioSchedule | video_processor.py:61-75 | video_to_audio reports [20, 60, 100] around 2 calls and is a schedule |
| VideoProcessor.SplitSchedule | video_processor.py:84-99 | split_video reports [20, 50, 100] around 3 calls and is a schedule |
| VideoProcessor.MergeAvSchedule | video_processor.py:108-125 | merge_video_audio reports [20, 60, 100] around 4 calls and is a schedule |
| VideoProcessor.RunConvertPlan | video_processor.py:15-23 | convert_video shows 10, then 100 only if neither call raises |
| VideoProcessor.RunVideoToAudioPlan | video_processor.py:61-75 | video_to_audio shows 20, then 60 once the video is open, then 100 once the audio is written |
| VideoProcessor.RunSplitPlan | video_processor.py:84-99 | split_video shows 20, then 50 once the video is open, then 100 once cut and write return |
| VideoProcessor.RunMergeAvPlan | video_processor.py:108-125 | merge_video_audio shows 20, then 60 once both files are open, then 100 once merge and write return |
| VideoProcessor.MergeLoopStep | video_processor.py:36-39 | one loop turn reports the file's value and stops the whole method when opening the file raises |
| VideoProcessor.MergeAfterLoop | video_processor.py:41-52 | after the loop: 70, then 100 only if concatenation and write both return |
| VideoProcessor.ConvertVideo | video_processor.py:11-25 | the reports and the outcome are those of the convert plan; the output is TEMP_DIR/converted_<stem>.<format> |
| VideoProcessor.MergeVideos | video_processor.py:28-54 | the reports and the outcome are those of the merge plan for n files; the clips opened are a prefix of the inputs, all of them on success; the output is TEMP_DIR/merged_video.mp4 whatever the inputs |
| VideoProcessor.VideoToAudio | video_processor.py:57-77 | the reports and the outcome are those of the video_to_audio plan; the output is TEMP_DIR/audio_<stem>.<format> |
| VideoProcessor.SplitVideo | video_processor.py:80-101 | the reports and the outcome are those of the split plan; the output is TEMP_DIR/split_<basename> |
| VideoProcessor.MergeVideoAudio | video_processor.py:104-127 | the reports and the outcome are those of the audio-merge plan; the output is TEMP_DIR/merged_av_<basename> |
| VideoProcessor.RenameFile | video_processor.py:130-135 | returns exactly when the copy does not raise, and the output is join(TEMP_DIR, new name) |
| Routing.FileExt | bot.py:105 | the extension looked at is empty or starts with '.', and (in the model, see "## Left out") has the length of `splitext`'s |
| Routing.FormatListsDisjoint | config.py:9-10 | no extension is in both lists |
| Routing.Classify | bot.py:105-113 | a video exactly when the lower-cased extension is in the video list, audio exactly when it is in the audio list |
| Routing.ClassifyIgnoresCase | bot.py:105 | classification does not depend on the case of the name |
| Routing.ClassifyNeedsExtension | bot.py:105-113 | a name without an extension is refused |
| Routing.FileExtOfName | bot.py:105 | the extension of a plain `stem.e` is `.e` lower-cased |
| Routing.FileExtOfDotted | bot.py:105 | lower-casing a `.e` extension gives `.` and the lower-cased `e` |
| Routing.ClassifyUpperCaseVideo | bot.py:105-108 | "CLIP.MP4", and every plain name ending in ".MP4", is a video |
| Routing.ClassifyKelvinSign | bot.py:105-117 | a plain name whose extension is 'M', U+212A KELVIN SIGN, 'V' has extension ".mkv" and is a video, as Python's `lower` makes it |
| Routing.LowerMp4 | bot.py:105 | proof helper, models no line by itself: ".MP4" lower-cased is ".mp4" |
| Routing.ClassifyDotFile | bot.py:105-113 | a leading dot followed by a dot-free format (".mp4") has no extension for `splitext` and is refused |
| Routing.DocumentPath | bot.py:117 | the staged path lies in temp_files/ and ends with the extension |
| Routing.VideoPath | bot.py:85 | a staged video path ends with ".mp4" |
| Routing.UpToUnderscore | bot.py:117 | the text before the first '_' is a prefix without '_' |
| Routing.UpToUnderscoreOf | bot.py:117 | the text before the first '_' of `a_rest` is `a` when `a` has no '_' |
| Routing.DocumentPathUser | bot.py:117 | the user id can be read back from a staged path |
| Routing.StagedPathsOfUsersDiffer | bot.py:117 | two different users never get the same staged path, whatever the file ids and extensions |
| Routing.NotPrefixed | bot.py:150-155 | proof helper, models no line by itself: a text differing from the prefix at some index does not start with it |
| Routing.Route | bot.py:138-168 | a conversion exactly for payloads starting "format_"; an extraction exactly for payloads starting "audio_" other than "audio_menu"; the carried format is shorter than the payload by at least the prefix |
| Routing.RouteFormatButton | bot.py:150-152 | "format_<f>" converts to `f` |
| Routing.RouteAudioButton | bot.py:154-156 | "audio_<f>" extracts to `f`, for any `f` other than "menu" |
| Routing.RouteAudioMenu | bot.py:146-156 | "audio_menu" starts with "audio_" but opens the menu, because exact matches come first |
| Routing.RouteRepeatedPrefix | bot.py:150-151 | every occurrence of the prefix is removed: "format_format_mp4" converts to "mp4" |
| Routing.RouteInnerPrefix | bot.py:150-151 | a second "format_" after other text is removed too: "format_" + a + "format_" + b converts to a followed by b with the prefix removed, as in "format_mpformat_4" giving "mp4" |
| Routing.RouteMergeKeyboard | bot.py:138-168 | "process_merge" and "add_more_merge" reach no handler |
| Routing.RouteStartButtons | bot.py:158-168 | "merge_menu", "av_merge_menu", "split_menu" and "rename" reach the four start handlers |
| Routing.StateSetBy | bot.py:253-299 | a state is stored exactly by the four "start" buttons, and it is never "idle" |
| Routing.SplitTimes | bot.py:309 | accepted times are the text's only two tokens, both numeric |
| Routing.SplitTimesIff | bot.py:309 | accepted exactly when the text has two tokens and both are numeric |
| Routing.SplitTimesOfTwoWords | bot.py:309 | "a b" with two numbers gives the times a and b |
| Routing.SplitTimesOfOneWord | bot.py:309-312 | a single word is refused |
| Bot.Progresses | bot.py:181-189 | one progress edit per reported percentage, in order |
| Bot.JobReplies | bot.py:178-211 | definition of a processing job's replies: start notice, one edit per report, then the result or the failure notice; laid out by `JobParts` |
| Bot.JobParts | bot.py:178-211 | a job's replies are its start notice, its progress edits, then its result |
| Bot.JobDelivers | bot.py:191-211 | a job delivers a file exactly when the processor returned |
| Bot.JobShows | bot.py:181-196 | a job shows a percentage exactly when the processor reported it |
| Bot.JobProgress | bot.py:181-196 | a job's progress edits rise and stay within [0, 100] when the processor's reports do |
| Bot.JobHas | bot.py:333-353 | a result reply other than the job's notices (such as deleting the status message) appears exactly when the processor returned |
| Bot.JobOutcome | bot.py:178-211 | for every schedule: the file is delivered exactly when the processor returns, 100% is shown exactly then, and the edits rise within [0, 100] |
| Bot.ConversionReplies | bot.py:170-211 | definition of `process_conversion`'s replies: "send a file first" without a staged file, otherwise the job of the convert plan ending in the converted document; proved by `ConversionOutcome` |
| Bot.ExtractionReplies | bot.py:213-251 | definition of `process_audio_extraction`'s replies, ending in the audio file; proved by `ExtractionOutcome` |
| Bot.SplitReplies | bot.py:319-353 | definition of `process_video_split`'s replies: the status message, then the failure notice without a staged file, otherwise the job of the split plan ending in the video and the status deletion; proved by `SplitOutcome` |
| Bot.RenameReplies | bot.py:355-384 | definition of `process_rename`'s replies: the error notice without a staged file or when the copy raises, otherwise the copy as a video or document; proved by `RenameOutcome` |
| Bot.SayNotDelivered | bot.py:175 | proof helper, models no line by itself: a notice alone delivers nothing |
| Bot.OneDelivery | bot.py:199-204 | proof helper, models no line by itself: a single delivery delivers |
| Bot.ConversionOutcome | bot.py:170-211 | with no staged file, only "send a file first"; otherwise the document arrives exactly when neither toolkit call raises, 100% shows exactly then, and the edits rise within [0, 100] |
| Bot.ExtractionOutcome | bot.py:213-251 | the same for audio extraction and its two toolkit calls |
| Bot.SplitOutcome | bot.py:319-353 | the split video arrives exactly when a file is staged and none of the three calls raises; the status message is deleted and 100% shown exactly then |
| Bot.RenameOutcome | bot.py:355-384 | the copy arrives exactly when a file is staged and the copy succeeds, as a video exactly for a staged video, under the new name; otherwise one error notice |
| Bot.StartQueue | bot.py:259-263 | the merge queue at start holds at most one task, and none exactly when no file is staged |
| Bot.QueuesAfterMergeStart | bot.py:255-263 | merge start leaves other users' queues alone and gives this user the start queue, creating it only when something is staged or it existed |
| Bot.ButtonReplies | bot.py:138-168 | definition of `button_handler`'s replies per routed action; `MergeKeyboardInert` and the outcome lemmas are about it |
| Bot.StatesAfterButton | bot.py:253-299 | definition: the user's state after a button, set only by the four start actions |
| Bot.TextReplies | bot.py:301-317 | definition of `handle_text`'s replies per stored state; `TextOutsideTextStates` and `TextSplitNeedsTwoNumbers` are about it |
| Bot.TextOutsideTextStates | bot.py:301-317 | outside the split-times and new-name states a text gets no answer |
| Bot.TextSplitNeedsTwoNumbers | bot.py:307-312 | in the split state, the split runs only on two numeric tokens, else the format error; a delivery needs two tokens and a staged file |
| Bot.MergeKeyboardInert | bot.py:138-168 | the merge keyboard's payloads give no reply and change no state |
| Bot.Handlers.constructor | bot.py:18 | a fresh session over the shared store, with nothing staged |
| Bot.Handlers.Staging | bot.py:174 | the staged file of a user, exactly when one is stored |
| Bot.Handlers.HandleVideo | bot.py:79-97 | stages the video as temp_files/<user>_<id>.mp4, replacing any staged file; state and queues untouched |
| Bot.Handlers.HandleDocument | bot.py:99-128 | stages a supported document under its lower-cased extension with its kind, replacing any staged file; an unsupported one is refused and the staged file kept; a document without a file name (where `splitext` raises) stages nothing and gets no reply; state and queues untouched |
| Bot.Handlers.ProcessConversion | bot.py:170-211 | its replies are the conversion replies of the staged file |
| Bot.Handlers.ProcessAudioExtraction | bot.py:213-251 | its replies are the extraction replies of the staged file |
| Bot.Handlers.StartMergeProcess | bot.py:253-276 | state becomes awaiting_merge_files; the queue is exactly the staged file, or empty; the count shown is 0 or 1; other users untouched |
| Bot.Handlers.StartAvMergeProcess | bot.py:278-283 | state becomes awaiting_audio_merge |
| Bot.Handlers.StartSplitProcess | bot.py:285-291 | state becomes awaiting_split_times |
| Bot.Handlers.StartRenameProcess | bot.py:293-299 | state becomes awaiting_new_name |
| Bot.Handlers.Dispatch | bot.py:138-168 | each routed branch replies as its handler does; only the four start branches change the state, only merge start the queues, and none the staged file |
| Bot.Handlers.ButtonHandler | bot.py:130-168 | replies by the routed payload; only the four start buttons change the state, only merge start the queues, and no button the staged file |
| Bot.Handlers.ProcessVideoSplit | bot.py:319-353 | its replies are the split replies of the staged file |
| Bot.Handlers.ProcessRename | bot.py:355-384 | its replies are the rename replies of the staged file |
| Bot.Handlers.HandleText | bot.py:301-317 | answers as the prior state asks, then the user is idle whatever the state and whether or not the text parsed |
| Bot.UploadDuringMerge | bot.py:79-97 | after a merge-start payload, an upload restages but does not enqueue: the queue still holds the first video |
| Bot.MergeModeEnds | bot.py:301-317 | in merge mode a payload that routes nowhere (the merge keyboard's) does nothing, and a text then ends merge mode without answering and without clearing the queue |
| Bot.SplitConversation | bot.py:285-317 | staged video, a split-start payload and "a b" with two numbers deliver the split video when nothing raises, leaving the user idle |

## Left out

- Telegram transport is not modelled: replies, message edits, keyboards, `query.answer()`, the `start` command and `main` (bot.py:60-77, 386-402). Replies are abstract `Reply` values, and the status texts inside progress edits are dropped.
- Sending a file is assumed to succeed. In the source, a failing `send_*`, `open` or `os.unlink` after the processor returned is caught and ends in the same failure notice.
- Downloads (`download_to_drive`) are assumed to succeed. In the source, a failing download raises before the file is staged.
- File system effects (`os.unlink`, `shutil.copy2`'s bytes, `os.makedirs`) are left out. Only whether the copy raises is modelled.
- moviepy and ffmpeg are not modelled. Each call is one opaque step that returns or raises. The split times reach `subclip` uninterpreted, and invalid times are one way that call raises.
- `asyncio.Lock` semantics, and the interleaving of handlers at their `await` points, are left out. Each handler runs atomically, and a lock is only an entry in the registry.
- The event-loop clock is a parameter (`now`) of `UpdateProgress`.
- Users.UserManager.GetQueue: does not model that the source returns the stored list itself, which a caller could mutate. The bot only takes its length.
- Routing.FileExt: lower-cases A-Z and U+212A KELVIN SIGN (to 'k'), one character for one, and keeps every other character. Python's `str.lower` also lowers the other non-ASCII upper-case letters, and turns U+0130 into two characters ('i' and U+0307). So the model's lower-cased extension can differ from Python's, in those characters and in length. Acceptance and the staged extension agree all the same: every supported format is ASCII, and in Python only A-Z and U+212A lower to ASCII text.
- Text.LowerChar: lowers only A-Z and U+212A KELVIN SIGN (to 'k'). Python's `str.lower` also lowers the other non-ASCII upper-case letters ('É' to 'é', for example), and the model keeps them. The bot only compares the result with ASCII formats, and in Python only A-Z and U+212A lower to ASCII, so acceptance is the same.
- Text.Lower: lowers one character into one. Python turns U+0130 into two characters ('i' and U+0307), so its result can be longer; it also lowers the non-ASCII letters `LowerChar` keeps. The same reason applies: every format compared with is ASCII.
- Routing.SplitTimes: `float` parsing is the predicate parameter `numeric`, and the times are carried as the token strings.
- `MAX_FILE_SIZE` and `BOT_TOKEN` (config.py:7-8) are not modelled. The bot never reads the first, and the second is only used when connecting.
- The per-operation logging is not modelled.

For context, not modelled behaviour:

- `UpdateProgress`, `GetProgress` and `GetLock` are never called by the bot.
- `MergeVideos` and `MergeVideoAudio` are never dispatched. The model keeps them with their schedules and output names.
- VideoProcessor.MergeVideos: for an empty list of paths, moviepy's `concatenate_videoclips([])` raises. Only `fails == Some(0)` models that run; the success path with no clips is not one the toolkit takes.
