# hevycli, modelled in Dafny

This project models the core of `hevycli`, a command-line client for the Hevy
workout-tracking REST API, and proves properties of that model. One Dafny
module stands for each group of source files:

- **Session** and **Start**: the interactive workout-logging session. It is a
  class with one method per key binding. Its cursor runs over
  `exercises[currentExercise].sets[currentSet]`, beside the weight and reps
  buffers. Start seeds the session from a routine and, once the session ends,
  builds the create-workout request from the completed sets.
- **Progress**, **Records** and **Summary**: the analytics behind
  `hevycli stats`.
  - Progress builds a per-day series of one metric (max weight, volume, max
    reps, Brzycki 1RM) and its trend.
  - Records tracks per-title personal records with strict-greater updates and
    sorts and cuts them.
  - Summary computes period totals, the most frequent exercises, workouts per
    week, and the longest and current streaks.
- **Builder**: the interactive routine builder. It is a five-mode state
  machine over a list of exercises that ends in a create-routine request.
- **ExerciseTui** and **Prompt**: the exercise table and search screens and the
  three generic prompts. Each is a class whose key handler is specified by a
  transition function on the screen's state.
- **ApiTypes**, **ApiErrors** and **ApiClient**: the API records, the API
  error type with its exit codes, the status-to-error mapping, and client
  option handling.
- **Config**, **ConfigCmd** and **Root**: configuration defaults and
  validation; `config set`, `show` and `init`; and the flag and environment
  precedence at start-up.
- **Listings**, **ExerciseSearch** and **Paging**: the list and search
  commands. This covers date, folder and type filters, table rows, paged
  fetching and the result-limited search.
- **CmdUtil** and **Output**: argument validators, completion dispatch, and
  the plain and table formatters with `SimpleTable`.
- Support modules:
  - **Common**: option and result types, ASCII case folding, substring search,
    join and split, `truncateString`, and the page-size clamp.
  - **NumText**: the `Sscanf`/`Sprintf` number verbs the screens use.
  - **Dates**: YYYY-MM-DD parsing to day numbers.
  - **TextBox**: the text-input widget's value, focus and limit.

Conventions:

- **Time.** Times are whole seconds since the Unix epoch (UTC), and a
  calendar day is the number of whole days since then.
- **Numbers.** Weights are `real`. Go's truncating integer conversion and
  remainder are written out where they matter (`Listings.TruncDiv`,
  `Listings.TruncRem`).
- **Go values.** A nil pointer is `None`. A Go `error` is the `Err` case of a
  `Result`, carrying its message.
- **Outside inputs.** I/O becomes parameters: the network, the config file,
  environment variables, the terminal and standard input.
  - Page responses are a sequence, and each response reports the length of
    that sequence as its page count.
  - The API key check is a parameter: None when the key is accepted, or the
    reason it was refused.
  - `time.Now` and the calendar month or year before now are parameters.
  - "Is standard input a terminal" is a parameter.
  - Library renderings are function parameters: JSON, lipgloss tables and
    styles, and date formatting.
- **Widgets.** A list or table widget's cursor is passed to the key that
  reads it. The text-input widget is reduced to its text, focus and
  character limit, with typing appending at the end.

Where the code behaves other than its help text or comments suggest, the model
follows the code:

- The `--until` bound of `workout list` includes the following midnight.
- The `n` key of the session, after adding a set, also types an "n" into the
  weight buffer (see Findings).
- The current streak is lost when the last workout was the day before the end
  date, in `calculateStreaks` and in the summary statistics (see Findings).
- The routine builder never passes typed characters to its inputs (see
  Findings).
- `WithTimeout` given to `NewClient` has no effect.
- In the exercise table, ctrl+c and q do not quit while the search box has the
  focus.
- A completed exercise's `Done` flag is never cleared, even after a set is
  added.
- `cmd/workout/start.go` expects the session runner to return a result record
  that the session package does not produce. The adapter is therefore
  modelled over an abstract `SessionResult` (title, times, finished flag,
  exercises).

## Model

| member | source | states |
|---|---|---|
| Session.CommitWritesOneSet | internal/tui/workout/session.go:235-252 | committing writes the parsed weight and reps into exactly the set under the cursor and marks it complete; every other set, every set type, every Done flag and the shape stay the same; an out-of-range cursor changes nothing |
| Session.CommitIdempotent | internal/tui/workout/session.go:235-252 | committing the same buffers twice gives the same exercises as committing once |
| Session.UnparsableBuffersStoreZero | internal/tui/workout/session.go:244-251 | buffers without a digit, whose weight text does not spell NaN or an infinity, are stored as weight 0 and reps 0 (the Sscanf error is ignored), and the set still becomes complete |
| Session.ReloadThenCommit | internal/tui/workout/session.go:235-275 | an incomplete set reloads and commits as a complete zero set; a complete set whose `%.1f` weight text fits the weight box's 6 characters and whose reps text fits the reps box's 4 keeps its reps and has its weight rounded to one decimal; the reloaded weight text is always a prefix of the `%.1f` text of at most 6 characters |
| Session.Shown | internal/tui/workout/session.go:264-270 | a value put into a box with a character limit shows as the text itself when it fits and as its first limit characters otherwise |
| Session.ReloadCutsLongWeight | internal/tui/workout/session.go:55-61 | a complete set whose weight is ten times a six-digit number m reloads showing m's digits only (the ".0" and last digit are cut by the limit of 6), and committing it stores m, a tenth of the weight |
| Session.ReloadMillion | internal/tui/workout/session.go:264-267 | a complete set of weight 1000000 reloads and commits as weight 100000 |
| Session.NextCursorProperties | internal/tui/workout/session.go:316-344 | the cursor after moveToNextSet stays in range, only moves forward, and stays put exactly on the last set of the last exercise |
| Session.DoneNeverCleared | internal/tui/workout/session.go:316-352 | no commit, end-of-exercise marking or addSet ever clears a Done flag |
| Session.MarkedDoneIff | internal/tui/workout/session.go:325-336 | at the end of an exercise, Done is set exactly when all its sets are complete (always for zero sets), and no other exercise changes |
| Session.AddSetLeavesDone | internal/tui/workout/session.go:347-352 | addSet keeps the earlier sets, appends one normal incomplete set, leaves other exercises alone, and leaves Done true even though a set is now incomplete |
| Session.CountDoneBound | internal/tui/workout/session.go:496-504 | the count of done exercises is at most the number of exercises, with equality exactly when every exercise is done |
| Session.FormatClockShort | internal/tui/workout/session.go:516-525 | under an hour the clock is MM:SS and its two fields give back the elapsed seconds |
| Session.FormatClockLong | internal/tui/workout/session.go:516-525 | from one hour (below a hundred hours) the clock is HH:MM:SS and its three fields give back the elapsed seconds |
| Session.SeedFromRoutine | internal/tui/workout/session.go:106-125 | one session exercise per routine exercise, copying template id, title and notes, with the same number of sets of the same types, all incomplete and none done |
| Session.SessionModel.NewSessionModel | internal/tui/workout/session.go:51-104 | a new session holds the given title and exercises, with the cursor on set 0 of exercise 0, the weight field focused and both inputs empty |
| Session.SessionModel.FromRoutine | internal/tui/workout/session.go:106-125 | the session from a routine has the routine's title and one seeded exercise per routine exercise, cursor at the start |
| Session.SessionModel.SaveCurrentSet | internal/tui/workout/session.go:235-252 | the exercises become the committed exercises for the current cursor and buffers |
| Session.SessionModel.LoadCurrentSet | internal/tui/workout/session.go:255-275 | the buffers show the saved values of a complete set, cut to the weight box's 6 and the reps box's 4 characters, are emptied for an incomplete one, and the weight field gets the focus; out of range nothing changes |
| Session.SessionModel.MoveToNextSet | internal/tui/workout/session.go:316-344 | the cursor becomes NextCursor of the old one; the exercises change only on the last set of an exercise, where it is marked done if complete; the buffers reload exactly when the cursor moved |
| Session.SessionModel.AddSet | internal/tui/workout/session.go:347-352 | one normal incomplete set is appended to the current exercise and the cursor moves onto it with empty inputs |
| Session.SessionModel.Quit | internal/tui/workout/session.go:148-155 | ctrl+c and esc set quitting and quit |
| Session.SessionModel.Finish | internal/tui/workout/session.go:206-209 | f sets finished and quits |
| Session.SessionModel.Tab | internal/tui/workout/session.go:157-167 | tab switches the focus between the weight and the reps field |
| Session.SessionModel.Enter | internal/tui/workout/session.go:169-172 | enter commits the set under the cursor and then moves on exactly as moveToNextSet does on the committed exercises: the cursor becomes the next cursor, Done is marked at an exercise's end, and the buffers and focus are reloaded on a move and kept when the cursor stays put |
| Session.SessionModel.Up | internal/tui/workout/session.go:174-178 | up moves to the previous set and reloads only when the cursor is above set 0 |
| Session.SessionModel.Down | internal/tui/workout/session.go:180-184 | down moves to the next set and reloads only when one exists |
| Session.SessionModel.Left | internal/tui/workout/session.go:186-192 | left and shift+tab move to set 0 of the previous exercise only when one exists |
| Session.SessionModel.Right | internal/tui/workout/session.go:194-200 | right moves to set 0 of the next exercise only when one exists |
| Session.SessionModel.Type | internal/tui/workout/session.go:221-229 | a keystroke changes only the focused input |
| Session.SessionModel.FeedRune | internal/tui/workout/session.go:221-229 | a key that reaches the focused input is appended to it while it is under its character limit (6 for weight, 4 for reps); the other input is unchanged |
| Session.SessionModel.KeyNAsWritten | internal/tui/workout/session.go:202-229 | as written, n appends a set and then also reaches the emptied weight input, which then holds "n" |
| Session.SessionModel.KeyN | internal/tui/workout/session.go:202-204 | n as intended: a set is appended and both inputs stay empty |
| Session.SessionModel.CountCompleteExercises | internal/tui/workout/session.go:496-504 | the number of done exercises, at most the number of exercises |
| Session.SessionModel.CountTotalSets | internal/tui/workout/session.go:507-513 | the sum of the set counts of all exercises |
| Session.NKeyWeightReadsZero | internal/tui/workout/session.go:244-249 | after the as-written n key, whatever is typed next (unless "n" and the typed text spell NaN or an infinity), committing stores weight 0, because "n..." does not read as a number |
| Start.StartExercises | cmd/workout/start.go:59-97 | a routine seeds one exercise per routine exercise under the routine's title; without one the session is "New Workout" with a single "Exercise 1" of three normal incomplete sets |
| Start.CompletedSetsCount | cmd/workout/start.go:164-175 | the complete sets kept for an exercise are as many as counted, and never more than its sets |
| Start.CompletedSetsMembers | cmd/workout/start.go:164-175 | every kept set is complete and every complete set is kept |
| Start.CompletedSetsIdentity | cmd/workout/start.go:164-175 | the kept sets are all the sets exactly when every set is complete |
| Start.CompletedCountInTotal | cmd/workout/start.go:113-123 | the completed-set count is at most the total set count |
| Start.SetCounts | cmd/workout/start.go:113-123 | the printed counts are the number of complete sets and of all sets, completed ≤ total |
| Start.PayloadSetsAreCompletedSets | cmd/workout/start.go:164-175 | the request sets of an exercise are its complete sets, in order, each carrying its type, weight and reps |
| Start.PayloadExerciseProperties | cmd/workout/start.go:177-188 | an exercise is sent iff it has a complete set; it carries its template id, notes nil iff empty, no superset, and one set per complete set |
| Start.PayloadExercisesProperties | cmd/workout/start.go:162-189 | no more exercises are sent than there were, each sent one has a set, and none is sent exactly when no set was complete |
| Start.WorkoutRequestProperties | cmd/workout/start.go:191-203 | the request fails with "no completed exercises to save" exactly when no set was complete; otherwise it carries the session's title and start and end times |
| Start.SaveWorkoutRequest | cmd/workout/start.go:158-203 | the nested append loops build exactly the request WorkoutRequest describes |
| Start.IsYesAccepts | cmd/workout/start.go:134-135 | "yes" and "y" followed by any whitespace confirm the save |
| Start.IsYesFoldsCase | cmd/workout/start.go:134-135 | "YES" and "Y" confirm as well, because the answer is lower-cased first |
| Start.IsYesRejects | cmd/workout/start.go:134-135 | "no" and "yes please" are refusals |
| Start.Conclude | cmd/workout/start.go:104-152 | a nil or unfinished session is cancelled; otherwise the counts are printed, and the request is built only when --no-save is absent, a set was completed, the answer was read and it is yes |
| Start.SaveGateBuildsRequest | cmd/workout/start.go:126-193 | once the gate lets the save through (a completed set exists), the request builder cannot fail, and it sends at least one exercise |
| Progress.MaxWeightIsMaximum | cmd/stats/progress.go:299-307 | the max weight is at least every recorded weight, never negative, and either 0 or the weight of some set |
| Progress.VolumeAppend | cmd/stats/progress.go:309-317 | the volume of two runs of sets is the sum of their volumes |
| Progress.MaxRepsIsMaximum | cmd/stats/progress.go:319-327 | the max reps is at least every recorded rep count, never negative, and either 0 or the reps of some set |
| Progress.Max1RMIsMaximum | cmd/stats/progress.go:330-350 | the estimated 1RM is the largest Brzycki estimate over sets with weight and 1..10 reps (rep counts ≠ 0 and ≤ 10), or 0 if there is none |
| Progress.Max1RMIgnoresHighReps | cmd/stats/progress.go:340-342 | a set of more than 10 reps changes nothing, whatever its weight (excluded, not clamped) |
| Progress.BrzyckiExample | cmd/stats/progress.go:344 | 100 kg for 5 and 120 kg for 11 give 112.5, from the first set only |
| Progress.VolumeExample | cmd/stats/progress.go:312-314 | 60 kg for 10 plus a set without reps give volume 600 |
| Progress.ComputeMaxWeight | cmd/stats/progress.go:299-307 | the running-max loop returns MaxWeight |
| Progress.ComputeVolume | cmd/stats/progress.go:309-317 | the accumulating loop returns Volume |
| Progress.ComputeMaxReps | cmd/stats/progress.go:319-327 | the running-max loop returns MaxReps |
| Progress.ComputeEstimated1RM | cmd/stats/progress.go:330-350 | the loop with its two skips returns Max1RM |
| Progress.Unit | cmd/stats/progress.go:200-209 | "kg (estimated)" for 1rm, "reps" for reps, "kg" for everything else |
| Progress.ComputeMetric | cmd/stats/progress.go:232-242 | the metric switch picks the matching computation; an unknown metric gives 0 |
| Progress.KeepCommutes | cmd/stats/progress.go:244-247 | keeping the larger value per date does not depend on the order values arrive in |
| Progress.PerDayMaxExample | cmd/stats/progress.go:244-247 | 80 and 95 on one date leave the single value 95, in either order |
| Progress.DayValuesFrame | cmd/stats/progress.go:222-248 | one workout's exercises touch only its own date, never lower its value, and keep every stored value positive |
| Progress.DateValuesBound | cmd/stats/progress.go:215-249 | the value of every exercise in the window whose title matches is at most the value kept for its date |
| Progress.DateValuesAttained | cmd/stats/progress.go:215-249 | every kept value is positive (a value ≤ 0 never creates a point) and is the value of some matching exercise on that date |
| Progress.UnknownMetricIsEmpty | cmd/stats/progress.go:232-247 | an unknown metric produces no data points at all |
| Progress.MatchedTitleMatches | cmd/stats/progress.go:224-230 | the reported exercise name, when one matched, itself contains the query case-insensitively |
| Progress.MatchedTitleKeepsFirst | cmd/stats/progress.go:228-230 | once a name is reported, later workouts do not replace it |
| Progress.AnalyzeProperties | cmd/stats/progress.go:271-294 | with two or more points start is the first value and current the last, the trend agrees with the sign of the change, the percentage is relative to a positive start and 0 otherwise; one point is insufficient_data; no points leave the analysis zero |
| Progress.PercentChangeGuard | cmd/stats/progress.go:279-281 | a series from 0 to 50 reports 0 percent and an increasing trend |
| Progress.SeriesStartsPositive | cmd/stats/progress.go:244-281 | on a series the command builds every value is positive, so the zero guard on the percentage never fires there |
| Progress.PointsOf | cmd/stats/progress.go:263-268 | one point per sorted date, in that order, carrying that date's value |
| Progress.ComputeProgress | cmd/stats/progress.go:196-297 | the series lists every date with a kept value once, strictly ascending, with its per-date maximum; the name is the first matching title or the query; unit and analysis follow the metric and the series |
| Progress.PeriodStart | cmd/stats/progress.go:154-166 | week is 7 days before now, all is 2000-01-01, month and year come from the time library, and any other period is the "invalid period" error |
| Progress.ProgressOutcome | cmd/stats/progress.go:178-180 | the command fails with "no data found for exercise" exactly when the series is empty |
| Records.ToLower | cmd/stats/records.go:270-280 | the byte loop returns the ASCII lower-casing of the string |
| Records.LowerProperties | cmd/stats/records.go:270-280 | lowering keeps the length, changes only 'A'..'Z', maps each of them to its lower-case letter, and is idempotent |
| Records.ContainsLower | cmd/stats/records.go:261-268 | the scan over every offset finds the substring exactly when it occurs |
| Records.ContainsIgnoreCaseIsFold | cmd/stats/records.go:254-259 | the shortcuts do not change the answer: it is true for an empty needle, false for a needle longer than the string, and otherwise true iff the lowered needle occurs in the lowered string |
| Records.SessionMaxWeight | cmd/stats/records.go:158-172 | the session's best weight is the heaviest weighted set, with the reps of the first set that reached it, or 0 |
| Records.SessionBest1RM | cmd/stats/records.go:179-186 | the session 1RM is the best Brzycki estimate over weighted sets of 1..10 reps, with that set's reps, or 0 |
| Records.SessionSkipsUnweighted | cmd/stats/records.go:159-161 | a set without weight changes none of the session values |
| Records.SessionMissingReps | cmd/stats/records.go:162-177 | a weighted set without reps can raise the best weight but adds nothing to the volume or the 1RM |
| Records.ComputeSession | cmd/stats/records.go:152-187 | the set loop computes exactly the session values described by Session |
| Records.TiesKeepEarlier | cmd/stats/records.go:189-208 | a session value that only equals the record leaves the record, with its date and workout, unchanged |
| Records.WorkoutRecordsKeys | cmd/stats/records.go:138-149 | a title has a record after a workout iff it had one before or one of the workout's exercises with exactly that title passes the filter |
| Records.AllRecordsBound | cmd/stats/records.go:135-210 | every record is at least what any exercise of that exact title that passed the filter offered |
| Records.AllRecordsAttained | cmd/stats/records.go:135-210 | every positive record was set by one exercise of that title that passed the filter, and carries that workout's date, id and reps |
| Records.UpdateRecord | cmd/stats/records.go:189-208 | the three strict-greater updates give the merged record |
| Records.CollectWorkout | cmd/stats/records.go:138-209 | the exercise loop of one workout updates the map as WorkoutRecords says |
| Records.CollectRecords | cmd/stats/records.go:133-210 | the workout loop builds the records map AllRecords |
| Records.CandidateShape | cmd/stats/records.go:212-239 | every output record is a weight or estimated_1rm record in kg with a positive value and its title's stored reps, date and workout; volume is never output |
| Records.EmitAll | cmd/stats/records.go:213-239 | the map loop emits each record that can be output exactly once |
| Records.ComputeRecords | cmd/stats/records.go:131-252 | the output is in non-increasing value order, holds at most limit distinct emitted records, and a record left out means the output is full of records at least as large |
| Summary.SummaryPeriodStart | cmd/stats/summary.go:104-115 | the same period starts as the progress command; any other period fails with "invalid period: … (use week, month, year, or all)" |
| Summary.PeriodMembers | cmd/stats/summary.go:124-130 | the period keeps exactly the workouts that start strictly after its start and strictly before now, and adds none |
| Summary.FilterPeriod | cmd/stats/summary.go:124-130 | the filter loop keeps the workouts of the period, in order |
| Summary.WorkoutDaysMembers | cmd/stats/summary.go:170-171 | a day is a workout day iff some workout starts on it |
| Summary.CountsAreOccurrences | cmd/stats/summary.go:174-176 | the exercise-count map holds exactly the titles that occur, each with its number of occurrences |
| Summary.FrequencyEntries | cmd/stats/summary.go:203-206 | the map loop yields one entry per title with its count, each once |
| Summary.MostFrequent | cmd/stats/summary.go:203-219 | the most-frequent list has min(5, titles) distinct entries with their true counts, in non-increasing count order, and no title left out has a larger count than one listed |
| Summary.WorkoutsPerWeek | cmd/stats/summary.go:221-228 | a non-positive span gives 0; otherwise the rate times the span in weeks is the number of workouts |
| Summary.LongestStreakCorrect | cmd/stats/summary.go:253-267 | the longest-streak loop over the ascending days yields the length of the longest run of consecutive workout days |
| Summary.WalkBackRun | cmd/stats/summary.go:277-287 | the walk back from a day counts a run of workout days ending there that cannot be extended back |
| Summary.WalkBackMaximal | cmd/stats/summary.go:277-287 | no run ending at the day is longer than the walk |
| Summary.WalkBackFrom | cmd/stats/summary.go:277-287 | the walk loop, from the given day back while the day has a workout, returns WalkBack |
| Summary.CurrentStreakAsWritten | cmd/stats/summary.go:270-289 | as written, the current streak is always the walk from endDate, which the guard does not change |
| Summary.YesterdayStreakIsLost | cmd/stats/summary.go:270-289 | with a single workout yesterday the guard passes and the as-written streak is 0, where the intended streak is 1 |
| Summary.CurrentStreakProperties | cmd/stats/summary.go:270-289 | the intended current streak is 0 exactly when neither today nor yesterday has a workout, and otherwise is the maximal run ending today, or yesterday if today has none |
| Summary.CurrentStreak | cmd/stats/summary.go:270-289 | the corrected guard and walk return the intended current streak |
| Summary.CurrentWithinLongest | cmd/stats/summary.go:253-289 | the intended current streak never exceeds the longest streak |
| Summary.WalkBackWithinLongest | cmd/stats/summary.go:253-289 | the as-written current streak, the walk from endDate, never exceeds the longest streak |
| Summary.LongestStreak | cmd/stats/summary.go:253-267 | the loop over the sorted distinct dates returns the length of the longest run of consecutive workout days |
| Summary.CalculateStreaks | cmd/stats/summary.go:236-290 | no days give (0, 0); otherwise longest is the longest run of consecutive days, and current is the as-written walk back from endDate (0 when endDate has no workout), never above longest |
| Summary.CalculateStreaksIntended | cmd/stats/summary.go:236-290 | the corrected calculateStreaks: the same longest streak, and the current streak counted from endDate or, when it has no workout, from the day before, never above longest |
| Summary.StreakExample | cmd/stats/summary.go:236-290 | the days d, d+1, d+2 and d+4 ending on d+4 give longest 3 and an as-written current streak of 1 |
| Summary.TallyExercises | cmd/stats/summary.go:174-184 | the exercise loop of one workout adds its title counts, its set counts and its volume |
| Summary.ComputeSummaryStats | cmd/stats/summary.go:149-234 | no workouts leave only the period and a zero total; otherwise the totals, averages, unique count, top five, workouts per week and the longest streak are those of the workouts, and the current streak is the as-written walk back from the period's end day, never above the longest |
| Builder.SetsFrom | internal/tui/routine/builder.go:431-440 | the typed set count, 3 when it does not read as a number, clamped to [1, 20] |
| Builder.RestFrom | internal/tui/routine/builder.go:432-443 | the typed rest time, 90 when it does not read as a number, and 0 for a negative one |
| Builder.FilteredTemplatesProperties | internal/tui/routine/builder.go:464-478 | an empty query lists every template; otherwise the templates kept, in order, are exactly those whose lower-cased title or primary muscle group contains the lower-cased query |
| Builder.RoutineRequestProperties | internal/tui/routine/builder.go:195-225 | one request exercise per builder exercise, in order, with its template, its rest time, notes nil iff empty, no superset and exactly its number of normal sets |
| Builder.BuildRoutineRequest | internal/tui/routine/builder.go:195-225 | the request loops build exactly RoutineRequest |
| Builder.Edited | internal/tui/routine/builder.go:428-452 | saving the edit screen changes no exercise other than the one being edited, and keeps the length |
| Builder.EditedProperties | internal/tui/routine/builder.go:428-448 | the edited exercise gets the clamped sets, the rest time and the notes, keeps its template, and every exercise stays valid |
| Builder.RemovedProperties | internal/tui/routine/builder.go:342-350 | d removes exactly the selected exercise and keeps the others in order |
| Builder.EditRoundTrip | internal/tui/routine/builder.go:396-448 | opening the edit screen on an exercise and saving without typing gives the same exercise back, because its numbers fit the boxes |
| Builder.ShownNumberReadBack | internal/tui/routine/builder.go:401-434 | a number shown in a box wide enough for it is shown whole and read back by %d |
| Builder.OpenEditValid | internal/tui/routine/builder.go:396-407 | opening the edit screen keeps the builder valid |
| Builder.SaveEditValid | internal/tui/routine/builder.go:428-452 | saving the edit screen keeps the builder valid |
| Builder.AddTemplateValid | internal/tui/routine/builder.go:409-426 | adding a template keeps the builder valid |
| Builder.OpenThenSave | internal/tui/routine/builder.go:394-452 | opening and then saving the edit screen untouched leaves the exercises as they were and returns to the exercise list |
| Builder.BuilderModel.NewBuilderModel | internal/tui/routine/builder.go:88-156 | the builder starts on the title screen, loading, with no title, no exercises and no templates, and the box limits 100/50/2/4/200 |
| Builder.BuilderModel.FilterTemplates | internal/tui/routine/builder.go:464-478 | only the filtered template list changes, to the templates matching the search text |
| Builder.BuilderModel.TemplatesLoaded | internal/tui/routine/builder.go:258-262 | a load sets both template lists and ends loading |
| Builder.BuilderModel.RoutineCreated | internal/tui/routine/builder.go:264-268 | a created routine is stored, saved and quitting are set, and the program quits |
| Builder.BuilderModel.Failed | internal/tui/routine/builder.go:270-272 | an error is stored and loading ends |
| Builder.BuilderModel.CtrlC | internal/tui/routine/builder.go:308-310 | ctrl+c sets quitting and quits on every screen |
| Builder.BuilderModel.Esc | internal/tui/routine/builder.go:312-330 | esc quits on the title screen and otherwise steps back: list → title, templates → list with the search cleared, edit → templates, confirm → list |
| Builder.BuilderModel.BackToTitle | internal/tui/routine/builder.go:317-319 | back to the title screen with the title box focused |
| Builder.BuilderModel.LeaveTemplates | internal/tui/routine/builder.go:320-323 | back to the exercise list with the search cleared and every template listed |
| Builder.BuilderModel.BackToTemplates | internal/tui/routine/builder.go:324-326 | back to the template screen with the search box focused |
| Builder.BuilderModel.BackToList | internal/tui/routine/builder.go:327-328 | back from confirm to the exercise list |
| Builder.BuilderModel.EnterTitle | internal/tui/routine/builder.go:387-392 | enter takes a non-empty title and opens the exercise list; an empty title changes nothing |
| Builder.BuilderModel.EnterExerciseList | internal/tui/routine/builder.go:394-407 | enter opens the edit screen on the exercise under the cursor when it is in range, otherwise nothing changes |
| Builder.BuilderModel.LoadEditScreen | internal/tui/routine/builder.go:399-405 | the edit boxes show the exercise's sets, rest and notes, the sets box is focused, and the mode is EditSets |
| Builder.BuilderModel.EnterAddExercise | internal/tui/routine/builder.go:409-426 | enter appends the template under the cursor with 3 sets, 90 s rest and no notes, and returns to the list with the search cleared |
| Builder.BuilderModel.EnterEditSets | internal/tui/routine/builder.go:428-452 | enter writes the clamped values into the edited exercise only when its index is in range, and always returns to the list |
| Builder.BuilderModel.EnterConfirm | internal/tui/routine/builder.go:454-457 | enter on confirm starts loading and yields the create-routine request for the title and exercises |
| Builder.BuilderModel.Enter | internal/tui/routine/builder.go:385-461 | handleEnter dispatches on the mode as the five Enter methods say, keeps the builder valid, and yields a request only on the confirm screen |
| Builder.BuilderModel.KeyA | internal/tui/routine/builder.go:335-340 | a on the exercise list opens the template screen with the search focused; elsewhere nothing changes |
| Builder.BuilderModel.KeyD | internal/tui/routine/builder.go:342-350 | d on the exercise list deletes the exercise under the cursor; elsewhere nothing changes |
| Builder.BuilderModel.KeyS | internal/tui/routine/builder.go:352-356 | s opens the confirm screen only from the list with a title and at least one exercise |
| Builder.BuilderModel.Tab | internal/tui/routine/builder.go:365-378 | tab on the edit screen moves the focus sets → rest → notes → sets; elsewhere nothing changes |
| Builder.BuilderModel.OtherKeyAsWritten | internal/tui/routine/builder.go:249-250 | as written, any other key leaves the whole builder unchanged, so typed characters never reach a box |
| Builder.BuilderModel.OtherKey | internal/tui/routine/builder.go:275-300 | as intended, a typed character goes to the boxes of the current screen, and a changed search text refilters the templates |
| Builder.BuilderModel.TypeSearch | internal/tui/routine/builder.go:284-290 | a character typed into the search box refilters only when the text changed |
| Builder.TitleScreenAsWritten | internal/tui/routine/builder.go:249-250 | typing "Legs" and enter on a fresh builder, as written, stays on the title screen with no title |
| Builder.TitleScreen | internal/tui/routine/builder.go:275-392 | the same keys, with typing reaching the box, take "Legs" as the title and open the exercise list |
| ApiTypes.Duration | internal/api/types.go:17-20 | the duration added to the start time gives the end time |
| ApiTypes.TotalSets | internal/api/types.go:27-34 | the accumulator loop returns the number of sets across the exercises |
| ApiTypes.ExerciseCountAndSets | internal/api/types.go:22-34 | ExerciseCount against TotalSets: a workout with any set has an exercise, no more exercises than sets when each exercise has a set, and at most k sets per exercise when no exercise has more than k |
| ApiTypes.DurationFixture | internal/api/types_test.go:10-18 | 10:00 to 11:15 lasts 75 minutes |
| ApiTypes.CountFixtures | internal/api/types_test.go:20-54 | three exercises count as three, the five-set fixture counts five sets, and no exercises count zero sets |
| ApiTypes.SetTypeValues | internal/api/types.go:57-65 | the four set types are the four distinct strings normal, warmup, dropset and failure |
| ApiErrors.ErrorStringShape | internal/api/errors.go:24-30 | the message is "CODE: message", followed by " (details)" exactly when there are details |
| ApiErrors.ErrorStringCode | internal/api/errors.go:24-30 | the code is everything before the first colon when it holds no colon itself |
| ApiErrors.ErrorStringNotInjective | internal/api/errors.go:24-30 | a message ending in a parenthesised text renders like a message with details |
| ApiErrors.Code | internal/api/errors.go:32-35 | the code is the prefix of the rendered message |
| ApiErrors.ExitCode | internal/api/errors.go:37-53 | INVALID_API_KEY and UNAUTHORIZED exit 3, RATE_LIMITED 4, NETWORK_ERROR 5, NOT_FOUND 6, VALIDATION_ERROR 7, each iff, and every other code 1; never 0 or 2 |
| ApiErrors.ExitCodeOnlyCode | internal/api/errors.go:37-53 | the exit code depends on the error code alone |
| ApiErrors.NewAPIError | internal/api/errors.go:55-61 | no details, the given code, and the message renders as "code: message" |
| ApiErrors.NewAPIErrorWithDetails | internal/api/errors.go:63-70 | all three fields are the given ones |
| ApiErrors.PredefinedErrors | internal/api/errors.go:72-100 | the predefined errors carry INVALID_API_KEY, FORBIDDEN, NOT_FOUND, RATE_LIMITED and NETWORK_ERROR, with their exit codes (FORBIDDEN exits 1) |
| ApiErrors.ErrorStringFixture | internal/api/errors_test.go:9-39 | the test message without details renders as "TEST_ERROR: Test message" |
| ApiErrors.ErrorStringDetailsFixture | internal/api/errors_test.go:9-39 | the test message with details renders as "TEST_ERROR: Test message (Additional details here)" |
| ApiErrors.HandleResponse | internal/api/client.go:256-278 | no error exactly below 400; 401, 403, 404 and 429 give the predefined errors; every other status from 400 gives an API_ERROR with the status and the body |
| ApiErrors.HandleResponseStatusReadable | internal/api/client.go:269-276 | the status in an API_ERROR message reads back as the status that caused it |
| ApiErrors.HandleResponseExitCodes | internal/api/client.go:261-276 | a failed response ends the command with exit code 3 for 401, 6 for 404, 4 for 429 and 1 otherwise |
| ApiClient.ConfiguredBaseURLAppend | internal/api/client.go:39-41 | options run in order: a later WithBaseURL overrides earlier ones and a timeout never changes the base URL |
| ApiClient.ConfiguredBaseURLDefault | internal/api/client.go:33-41 | without a WithBaseURL option the default base URL is kept |
| ApiClient.Client.Apply | internal/api/client.go:54-68 | WithBaseURL replaces the base URL; WithTimeout changes the timeout only when the transport exists |
| ApiClient.Client.NewClient | internal/api/client.go:33-52 | the client has the key, the configured base URL, and a transport with that URL, the four headers and the default timeout |
| ApiClient.TransportOf | internal/api/client.go:39-67 | a new client's timeout is always the default: WithTimeout runs before the transport exists |
| ApiClient.CustomBaseURL | internal/api/client_test.go:18-24 | one WithBaseURL option replaces the default base URL |
| ExerciseTui.FilteredExercisesProperties | internal/tui/exercise/table.go:200-215 | an empty query shows every exercise; otherwise the exercises kept, in order, are exactly those whose lower-cased title, primary muscle group or equipment contains the lower-cased query |
| ExerciseTui.FilterLoop | internal/tui/exercise/search.go:167-182 | the filter loop of both screens returns FilteredExercises |
| ExerciseTui.FilteredWithin | internal/tui/exercise/table.go:200-215 | every shown exercise is a loaded one |
| ExerciseTui.TableKeyValid | internal/tui/exercise/table.go:121-197 | every key keeps the table valid: the box keeps its limit, the search flag is the box's focus, and only loaded exercises are shown |
| ExerciseTui.TableKeyConsistent | internal/tui/exercise/table.go:126-171 | every key keeps the shown list equal to the filter of the loaded exercises by the search text |
| ExerciseTui.TableSearchNeverQuits | internal/tui/exercise/table.go:126-145 | while the search box has the focus no key quits or chooses, esc and enter only leave the box, q is typed into the box, and ctrl+c reaches the box and changes nothing |
| ExerciseTui.TableKeyResult | internal/tui/exercise/table.go:147-171 | the table quits exactly on ctrl+c, q, esc with an empty search, or enter on a loaded row in range; a choice hands back that loaded exercise, any other quit is a cancellation |
| ExerciseTui.TableModel.NewTableModel | internal/tui/exercise/table.go:39-93 | the table starts loading, with an empty unfocused 100-character search box and nothing chosen |
| ExerciseTui.TableModel.FilterExercises | internal/tui/exercise/table.go:200-215 | only the shown list changes, to the filter by the search text |
| ExerciseTui.TableModel.Loaded | internal/tui/exercise/table.go:185-189 | a load shows every loaded exercise and ends loading |
| ExerciseTui.TableModel.LoadFailed | internal/tui/exercise/table.go:191-193 | a load error is stored and loading ends |
| ExerciseTui.TableModel.SearchKey | internal/tui/exercise/table.go:126-145 | a key while searching does what TableSearchKey says: leave the box, or edit it and refilter only when the text changed |
| ExerciseTui.TableModel.BrowseKey | internal/tui/exercise/table.go:147-171 | a key while browsing does what TableBrowseKey says |
| ExerciseTui.TableModel.Key | internal/tui/exercise/table.go:121-176 | a key follows TableKey and keeps the table valid |
| ExerciseTui.SearchKeyInvariants | internal/tui/exercise/search.go:110-164 | every key keeps the search screen valid and its list equal to the filter of its text |
| ExerciseTui.SearchKeyResult | internal/tui/exercise/search.go:114-161 | the screen quits exactly on ctrl+c, esc or enter on a listed exercise when not loading; a choice is a loaded exercise; every other key reaches the search box, so q is typed |
| ExerciseTui.SearchModel.NewSearchModel | internal/tui/exercise/search.go:41-70 | the screen starts loading with a focused, empty 50-character search box |
| ExerciseTui.SearchModel.FilterExercises | internal/tui/exercise/search.go:167-182 | only the listed exercises change, to the filter by the search text |
| ExerciseTui.SearchModel.Loaded | internal/tui/exercise/search.go:141-145 | a load lists every loaded exercise and ends loading |
| ExerciseTui.SearchModel.LoadFailed | internal/tui/exercise/search.go:147-149 | an error is stored and loading ends |
| ExerciseTui.SearchModel.Key | internal/tui/exercise/search.go:110-164 | a key follows SearchKey and keeps the screen valid |
| ExerciseTui.LoadedConsistent | internal/tui/exercise/table.go:185-189 | a load keeps the list in step with an empty search box (not with a search typed during loading) |
| Prompt.NewTextPrompt | internal/tui/prompt/prompt.go:46-61 | the text prompt starts with a focused, empty 256-character box, no value and not cancelled |
| Prompt.TypeTextAppends | internal/tui/prompt/prompt.go:67-85 | typing characters into a focused box with room appends them and changes nothing else |
| Prompt.EnterAndEsc | internal/tui/prompt/prompt.go:16-32 | enter and esc both end the prompt; enter returns the box's text unless cancelled, esc always gives the "cancelled" error |
| Prompt.TypedIntoFresh | internal/tui/prompt/prompt.go:46-85 | typing up to 256 characters into a fresh prompt leaves exactly them in the box, not cancelled |
| Prompt.EnteredText | internal/tui/prompt/prompt.go:16-85 | typing up to 256 characters and pressing enter returns exactly them; pressing esc instead gives "cancelled" |
| Prompt.TextPromptModel.NewTextInputModel | internal/tui/prompt/prompt.go:46-61 | the model's state is the fresh text prompt |
| Prompt.TextPromptModel.Key | internal/tui/prompt/prompt.go:67-88 | a key follows TextPromptKey: ctrl+c and esc cancel and quit, enter takes the text and quits, anything else edits the box |
| Prompt.SelectKeyProperties | internal/tui/prompt/prompt.go:138-160 | every key keeps the chosen option among the options; while the list filters the state is kept and exactly ctrl+c (the list's force quit) ends the prompt; the list's quit keys (ctrl+c while filtering, q while browsing) end it with no option and no error; enter on a highlighted option returns it; ctrl+c and esc while browsing end with an error |
| Prompt.SelectModel.NewSelectModel | internal/tui/prompt/prompt.go:173-199 | the prompt starts with the given options, nothing chosen, not cancelled |
| Prompt.SelectModel.Key | internal/tui/prompt/prompt.go:205-222 | a key follows SelectKey: ctrl+c while filtering and q while browsing quit with nothing chosen; enter quits whether or not a row is highlighted |
| Prompt.NoOptionsFails | internal/tui/prompt/prompt.go:139-141 | Select with no options fails with "no options provided" whatever the screen would do |
| Prompt.FilteredOptionsProperties | internal/tui/prompt/prompt.go:391-405 | an empty query keeps every option; otherwise the options kept, in order, are exactly those whose lower-cased title or description contains the lower-cased query |
| Prompt.SearchSelectKeyInvariants | internal/tui/prompt/prompt.go:339-388 | every key keeps the box's limit and focus, lists only loaded options, and keeps the list equal to the filter of the box's text |
| Prompt.SearchSelectKeyResult | internal/tui/prompt/prompt.go:339-360 | the prompt ends exactly on ctrl+c, esc, or enter on a listed option after loading; enter returns that loaded option, the others return "cancelled"; other keys change neither the choice nor the cancellation |
| Prompt.SearchSelectModel.NewSearchSelectModel | internal/tui/prompt/prompt.go:288-312 | the prompt starts loading with a focused, empty 100-character box, nothing listed, nothing chosen |
| Prompt.SearchSelectModel.FilterOptions | internal/tui/prompt/prompt.go:391-405 | only the listed options change, to the filter by the box's text |
| Prompt.SearchSelectModel.Loaded | internal/tui/prompt/prompt.go:366-370 | a load lists every loaded option and ends loading |
| Prompt.SearchSelectModel.LoadFailed | internal/tui/prompt/prompt.go:372-374 | a load error is stored and loading ends |
| Prompt.SearchSelectModel.Key | internal/tui/prompt/prompt.go:339-388 | a key follows SearchSelectKey and keeps the prompt valid |
| Config.Validate | internal/config/config.go:162-181 | a configuration is accepted exactly when its output format is json, table or plain and its units are metric or imperial; a bad output format is reported first, with its own message, and a bad unit otherwise |
| Config.ConfigFixtures | internal/config/config_test.go:12-101 | the defaults (no key, the public API address, table output in colour, metric units, ISO dates, 24-hour times) validate, and the "xml" format and "stones" units are rejected with their messages |
| Config.GetAPIKey | internal/config/config.go:153-160 | a non-empty HEVYCLI_API_KEY value wins over the configured key; an empty one falls back to it |
| ConfigCmd.Aliases | cmd/config/set.go:133-172 | the aliases api-key, apikey and key name the API key; default-output, output-format and output the output format; base-url and baseurl the base address |
| ConfigCmd.ApplySetting | cmd/config/set.go:132-175 | SetOutcome: an unknown key is an error naming it; a setting changes exactly its own field; the key is only rejected when validation is asked for, the key is non-empty and the service refuses it; output format and units are lowercased and accepted exactly when valid, with the message of each; color is true exactly for true, 1, yes or on in any case; the format strings and base address are stored as given; a valid configuration stays valid |
| ConfigCmd.RunSet | cmd/config/set.go:44-125 | the key is lowercased before the lookup and a configuration that cannot be loaded is replaced by the defaults; from there the outcome is SetOutcome, as for ApplySetting: an unknown key is an error naming it, only the named field changes, its new value is the given (or lowercased) value, a bad output format or units value and a refused API key are errors with their messages; starting from the defaults, a saved configuration is valid |
| ConfigCmd.MaskedKey | cmd/config/show.go:38-46 | with secrets shown or no key the key is unchanged; a key longer than four characters becomes three stars and its last four; a shorter one becomes four stars |
| ConfigCmd.MaskRevealsAtMostFour | cmd/config/show.go:38-46 | a masked key is at most seven characters, all stars except possibly the last four, which are stars or the key's own last four |
| ConfigCmd.ShowConfig | cmd/config/show.go:29-46 | the configuration shown is the stored one with only the API key masked |
| ConfigCmd.RunInit | cmd/config/init.go:30-97 | an existing configuration with a key is kept unless the answer is y or yes; a blank key and a key the service refuses stop with their messages; otherwise the saved configuration is the defaults with the trimmed key, imperial units only for an imperial answer and json or plain output only for those answers, and it validates |
| ConfigCmd.InitUnitsExample | cmd/config/init.go:81-88 | the answer "Imperial" followed by its line end selects imperial units |
| Root.EffectiveConfigPrecedence | cmd/root.go:97-127 | an explicit --output wins over the configured format; an explicit --no-color sets the colour; a non-empty HEVYCLI_NO_COLOR or NO_COLOR turns colour off whatever the flag says; an unloadable configuration is replaced by the defaults; the API settings, units and formats are untouched |
| Root.App.constructor | cmd/root.go:67-89 | before start-up the globals hold the parsed flag values and neither a configuration nor a formatter |
| Root.App.InitializeApp | cmd/root.go:91-139 | `config init` leaves every global alone; any other command stores the effective configuration, copies the configured format into an empty --output, sets no-color when either variable is set, and builds the formatter from the effective format and colour |
| Root.UnknownOutputGivesTable | cmd/root.go:106-108 | an unknown --output value reaches the formatter unchanged and yields a table formatter |
| CmdUtil.RequireArgs | internal/cmdutil/args.go:14-34 | the arguments are accepted exactly when there are n of them, or fewer in an interactive terminal; too few otherwise is an error naming the missing argument or arguments; too many is always an error |
| CmdUtil.PromptExactlyWhenLetThrough | internal/cmdutil/args.go:41-44 | a command must prompt exactly when RequireArgs let its arguments through although some are missing |
| CmdUtil.IsShell | cmd/completion/completion.go:68-72 | the loop finds the argument exactly when it is one of bash, zsh, fish and powershell |
| CmdUtil.CompletionArgs | cmd/completion/completion.go:57-74 | the completion arguments are accepted exactly when none are given in an interactive terminal or a single supported shell is given; no shell outside a terminal and more than one shell are errors with their messages |
| CmdUtil.GeneratorFor | cmd/completion/completion.go:99-109 | a script generator exists exactly for the four supported shells |
| CmdUtil.GeneratorsDistinct | cmd/completion/completion.go:99-109 | the four shells get four different generators |
| Output.NewFormatter | internal/output/formatter.go:41-55 | json and plain choose their formatters by name and every other name a table formatter; a nil writer becomes standard output and the other options are kept |
| Output.NewFormatterFixtures | internal/output/formatter_test.go:10-47 | "json", "table" and "plain" give their formatters and the empty name a table formatter |
| Output.RowLines | internal/output/plain.go:33-35 | one line per row, each row's cells joined by "\|" |
| Output.PlainFormat | internal/output/plain.go:23-36 | the plain formatter gives a value's own text, or the rows joined by "\|" and newlines, without headers |
| Output.PlainTextRoundTrip | internal/output/plain.go:23-36 | splitting the plain text of a table at newlines and each line at "\|" gives the rows back, when no cell holds either character |
| Output.PlainTextFixtures | internal/output/formatter_test.go:86-101 | the test's table renders as "1\|First\n2\|Second", and a table without rows as the empty text |
| Output.StylesAlternate | internal/output/table.go:69-88 | the header row has its own style and neighbouring data rows never share one |
| Output.FormatProperties | internal/output/table.go:21-45 | the plain and table formatters never fail on table data; on other data the table formatter is the JSON formatter and the plain formatter gives the value's text |
| Output.FormatError | internal/output/table.go:48-58 | errors read "error: " plus the message in plain output, "Error: " plus the message in a table without colour, and the styled prefix plus the message with colour |
| Output.Sink.WriteString | internal/output/formatter.go:64 | a write appends its text to what the writer has received |
| Output.Print | internal/output/formatter.go:57-65 | a successful format is written followed by one newline; a format error is returned and nothing is written |
| Output.PrintError | internal/output/formatter.go:67-71 | the formatted error and a newline are written to the error stream |
| Output.SimpleTable.NewSimpleTable | internal/output/table.go:96-102 | a new table has the given headers and no rows |
| Output.SimpleTable.AddRow | internal/output/table.go:104-107 | a row is appended at the end; headers and earlier rows stay |
| Output.AddRowFixture | internal/output/formatter_test.go:166-175 | two AddRow calls keep the headers and give the two rows in order |
| TextBox.NewInput | internal/tui/prompt/prompt.go:47-50 | a new box is empty, unfocused, within its limit, and has the limit it is given |
| TextBox.Focus | internal/tui/exercise/table.go:161 | focusing keeps the text and the limit |
| TextBox.Blur | internal/tui/exercise/table.go:130 | blurring keeps the text and the limit |
| TextBox.SetValue | internal/tui/routine/builder.go:401-403 | the box holds the given text, cut to a prefix of it at the limit, keeping its focus and limit |
| TextBox.Insert | internal/tui/prompt/prompt.go:83-84 | a focused box with room gets the character at the end of its text; otherwise it is unchanged; the limit is never exceeded |
| TextBox.DeleteLast | internal/tui/prompt/prompt.go:83-84 | backspace drops the last character of a focused, non-empty box; otherwise the box is unchanged |
| TextBox.Typed | internal/tui/prompt/prompt.go:83-84 | an unfocused box ignores every key, and only characters and backspace edit a focused one; focus and limit are kept and the limit is never exceeded |
| TextBox.InsertThenDelete | internal/tui/prompt/prompt.go:83-84 | typing a character into a focused box with room and deleting it again gives the box back |
| Listings.FetchListing | cmd/workout/list.go:72-99 | with --all the listing succeeds exactly when every page is fetched and is all the pages' items in order; otherwise it is the one requested page, or "failed to fetch" naming the listing and the cause |
| Listings.SinceBound | cmd/workout/list.go:153-158 | a --since bound exists exactly when the flag is set and parses as a date, and is the first second of that day |
| Listings.UntilBound | cmd/workout/list.go:160-165 | an --until bound exists exactly when the flag is set and parses as a date, and lies 24 hours after the start of that day |
| Listings.FilterByDate | cmd/workout/list.go:147-178 | the loop keeps, in order, exactly the workouts the bounds let through |
| Listings.DateFilterProperties | cmd/workout/list.go:167-175 | a workout is kept exactly when it is listed and lies within both parsed bounds; with no usable bound the list is unchanged |
| Listings.BoundsCoverWholeDays | cmd/workout/list.go:160-173 | --since keeps everything from the first second of its day; --until keeps every start up to and including the following midnight |
| Listings.ListWorkouts | cmd/workout/list.go:70-104 | `workout list` fails exactly when a fetch fails and otherwise shows the fetched workouts filtered by the date bounds |
| Listings.TruncDiv | cmd/workout/list.go:181 | Go's conversion to int truncates toward zero: the quotient for a non-negative dividend, the negated quotient of the magnitude otherwise |
| Listings.TruncRem | cmd/workout/list.go:182 | Go's remainder completes the truncating division and takes the sign of the dividend |
| Listings.DurationParts | cmd/workout/list.go:180-183 | for a non-negative duration the truncated hours and minutes are the Euclidean ones, and below an hour the minutes are the whole minutes |
| Listings.FormatDurationShape | cmd/workout/list.go:180-188 | a non-negative duration reads "Hh Mm" from one hour on and "Mm" below, and leftover seconds never change the text |
| Listings.HourExample | cmd/workout/list.go:184-186 | 75 minutes read "1h 15m" |
| Listings.MinutesExample | cmd/workout/list.go:187 | 45 minutes and 30 seconds read "45m" |
| Listings.NegativeDurationExample | cmd/workout/list.go:180-188 | a workout ending 90 seconds before it started reads "-1m" |
| Listings.WorkoutRow | cmd/workout/list.go:119-131 | a workout row holds the ID, the title cut to 30 characters, the date text, the duration text and the exercise count |
| Listings.FilterByFolder | cmd/routine/list.go:95-104 | without --folder the routines are unchanged; with it the loop keeps, in order, those whose folder ID is set and equal to the flag |
| Listings.FolderFilterProperties | cmd/routine/list.go:98-102 | a routine survives the folder filter exactly when it is listed and lies in that folder; a routine without a folder never does |
| Listings.ListRoutines | cmd/routine/list.go:65-104 | `routine list` fails exactly when a fetch fails and otherwise shows the fetched routines, folder-filtered when --folder is set |
| Listings.FolderColumn | cmd/routine/list.go:121-132 | the folder column is "-" without a folder and otherwise the folder ID cut to 15 characters |
| Listings.RoutineRow | cmd/routine/list.go:118-135 | a routine row holds the ID, the title cut to 30, the exercise count, the folder column and the update date text |
| Listings.UseInteractive | cmd/exercise/list.go:59-67 | the interactive table is used exactly on a terminal, without JSON output and without any of --page, --limit and --all |
| Listings.CustomColumn | cmd/exercise/list.go:142-145 | the custom column reads "Yes" exactly for custom exercises and "No" exactly for the others |
| Listings.ExerciseRow | cmd/exercise/list.go:139-154 | an exercise row holds the ID, the title cut to 30, the muscle group, the equipment and the custom column |
| Listings.EventsSince | cmd/workout/events.go:60-64 | the required --since date is accepted exactly when it parses, giving the first second of that day, and is otherwise the date format error |
| Listings.FilterByType | cmd/workout/events.go:84-94 | without --type every event is kept; with it the loop keeps, in order, the events of that type |
| Listings.TypeFilterProperties | cmd/workout/events.go:86-91 | an event survives the type filter exactly when it is listed and has that type |
| Listings.PlainEvents | cmd/workout/events.go:110-117 | the plain output is one line per event, in order |
| Listings.PlainLineFields | cmd/workout/events.go:112-116 | a plain line ends in a newline and splits at "\|" into the event ID, workout ID, type and timestamp, when none of them holds "\|" |
| Listings.PlainEventsAppend | cmd/workout/events.go:111-117 | the plain output of two event lists one after the other is the one output followed by the other |
| ExerciseSearch.MatchesSearch | cmd/exercise/search.go:145-175 | the early-return checks accept a template exactly when the query occurs in its lower-cased title, a muscle filter occurs in its primary or some secondary muscle group, and an equipment filter occurs in its equipment, all ignoring case; an empty query or filter imposes nothing |
| ExerciseSearch.NoCriteriaMatchesAll | cmd/exercise/search.go:145-175 | with no query and no filters every template matches |
| ExerciseSearch.OwnNamesMatch | cmd/exercise/search.go:147-161 | a template is found by its own title in lower case and by any of its secondary muscle groups |
| ExerciseSearch.ScanPage | cmd/exercise/search.go:78-85 | scanning one page appends its matches in order and stops as soon as the limit is reached |
| ExerciseSearch.Search | cmd/exercise/search.go:41-96 | when every page is fetched the search succeeds; a success gives the first --limit matches over all pages in page order, for the lower-cased query; a failure is the message of a page that failed |
| ExerciseSearch.SearchResultsProperties | cmd/exercise/search.go:72-96 | the results never exceed the limit and are all matching templates |
| ExerciseSearch.SearchRow | cmd/exercise/search.go:120-129 | a result row holds the ID, the title cut to 35 characters (unchanged when it fits), the muscle group and the equipment |
| Paging.FlattenAppend | cmd/workout/list.go:80 | the items of two runs of pages are the one run's items followed by the other's |
| Paging.PageAt | cmd/workout/list.go:76 | a request for a page past the last one gets an empty page; any other gets that page's response |
| Paging.Take | cmd/exercise/search.go:72-85 | the first n items, or all of them when there are fewer, and never any for n at most zero |
| Paging.TakeLongPrefix | cmd/exercise/search.go:81-83 | once a prefix holds n items, what follows cannot change the first n |
| Paging.FetchAll | cmd/workout/list.go:72-86 | the --all loop succeeds exactly when every page is fetched and then gives all their items in page order; otherwise it fails with "failed to fetch" naming the listing and a failed page's error |
| Paging.FlattenNext | cmd/workout/list.go:80-85 | fetching one more page adds its items at the end |
| Dates.DaysIn | cmd/workout/list.go:154 | every month has between 28 and 31 days |
| Dates.DaysFromCivilProperties | cmd/workout/list.go:154 | consecutive days of a month have consecutive day numbers and 1970-01-01 is day zero |
| Dates.YearLength | cmd/workout/list.go:154 | the year ending in February of year y has 366 days exactly when y is a leap year |
| Dates.MonthOffsetStep | cmd/workout/list.go:154 | within a year the first days of consecutive months lie a month's length apart |
| Dates.NextMonthFollows | cmd/workout/list.go:154 | the first day of a month follows the last day of the month before, across year ends and leap days |
| Dates.ParseDate | cmd/workout/list.go:154 | a date parses exactly when it has the YYYY-MM-DD shape with a month from 1 to 12 and a day within that month, giving its day number |
| Dates.EpochIsDayZero | cmd/workout/events.go:61 | "1970-01-01" parses to day zero |
| Dates.LeapDayExamples | cmd/workout/events.go:61 | February 29 parses in 2024 and not in 2023 |
| Dates.MonthExamples | cmd/workout/events.go:61 | month 13 and a one-digit month are rejected |
| Common.TrimLowerWord | cmd/config/init.go:48 | a word followed by its line end is read as the word in lower case |
| Common.SplitJoin | internal/output/plain.go:33-35 | splitting a joined line at its separator gives the fields back when none holds the separator |
| Common.Truncate | cmd/workout/list.go:190-195 | a string within the width is unchanged and only then; a longer one keeps its first width−3 characters followed by "...", so the result never exceeds the width |
| Common.PageSize | cmd/workout/list.go:89-92 | the page size is the requested limit capped at the API maximum of 10 |
| Common.SortByKey | cmd/stats/records.go:242-244 | the result is ordered by non-increasing key and is a permutation of the input |
| Common.Min | internal/tui/prompt/prompt.go:450-455 | the smaller of the two arguments: at most each, and equal to one of them |
| NumText.NatToStringValue | internal/tui/routine/builder.go:401-402 | the digits `%d` writes for a natural number read back as that number |
| NumText.ScanInt | internal/tui/workout/session.go:247 | whatever `%d` reads fits a signed 64-bit integer |
| NumText.ScanIntOfIntToString | internal/tui/routine/builder.go:401-434 | a number written by `%d` is read back by `%d`, whatever non-digit text follows it |
| NumText.ScanIntNeedsDigit | internal/tui/routine/builder.go:433-434 | text without a digit reads nothing, so the variable keeps its default |
| NumText.ScanIntBound | internal/tui/workout/session.go:247 | the number `%d` reads from a text is below ten to the power of the text's length |
| NumText.NatToStringLength | internal/tui/routine/builder.go:401-402 | a number below ten to the k is written with at most k digits |
| NumText.RoundHalfEven | internal/tui/workout/session.go:266 | the rounded integer lies within one half of the value and is non-negative for a non-negative value |
| NumText.RoundTenthsNear | internal/tui/workout/session.go:266 | the value `%.1f` shows is within half a tenth of the true value |
| NumText.ScanTenthsText | internal/tui/workout/session.go:245 | text of the `%.1f` shape reads back by `%f` as its whole part plus its tenths, with its sign |
| NumText.ScanFormatTenths | internal/tui/workout/session.go:245-266 | the whole text `%.1f` writes, read back by `%f`, is the weight rounded to one decimal place (the box's 6-character cut is applied in Session.ReloadThenCommit) |
| NumText.BinaryExponentExamples | internal/tui/workout/session.go:245 | `%f` reads a "p" exponent as a power of two ("1p5" is 32) and rejects a "p" without digits |
| NumText.BinaryExponentReads | internal/tui/workout/session.go:245 | digits, a lower-case "p" and digits read as the first number times two to the power of the second |
| NumText.MissingBinaryDigits | internal/tui/workout/session.go:245 | any digits followed by a bare "p" are read by `%f` as nothing |
| NumText.UpperPNeverReads | internal/tui/workout/session.go:245 | an upper-case "P" after the digits is not fmt's binary exponent, so strconv.ParseFloat gets the whole token and rejects it: the text reads as nothing (weight 0) |
| NumText.SeparatedText | internal/tui/workout/session.go:245 | digits with each underscore between two digits read as the number their digits spell |
| NumText.SeparatedThousands | internal/tui/workout/session.go:245 | "1_000" reads as 1000 |
| NumText.TrailingUnderscore | internal/tui/workout/session.go:245 | digits followed by an underscore read as nothing, because the underscore is not between two digits |
| NumText.DigitsAreSeparated | internal/tui/workout/session.go:245 | plain digits satisfy the underscore rule and keep their value |
| NumText.Pad2 | internal/tui/workout/session.go:522-524 | `%02d` of a number below 100 is two digits that read back as the number |

## Left out

- HTTP request methods, the template, workout and option loaders, and the page loops' network calls: network I/O. The API is an abstract sequence of page responses.
- Config `Load`, `Save`, `SaveTo` and `EnsureConfigDir` (viper, YAML, file permissions) and `os.Getenv`: file and environment I/O. The loaded configuration and the environment values are parameters.
- `ValidateAuth` in `config set`, `config init` and the client: it needs the live service. Its outcome is a parameter.
- Every `View` and render function, the styles, the lipgloss table rendering and the events table styling: library rendering. Where their output feeds a result (the table formatter, the styled error prefix), it is a function parameter.
- Window-size messages, `tea.Cmd` batching, the cursor blink, and the one-second timer tick: terminal UI library behaviour.
- List and table widget internals (cursor movement on up and down, filtering inside the option list): library behaviour. The highlighted row and the filtering state are parameters.
- Text-input internals (cursor position, paste, word deletion): library behaviour. Typing is modelled as appending at the end and backspace as deleting the last character.
- `math.Round` to one or two decimals in progress and records, the `float64` arithmetic of `formatDuration`, and the lbs conversion: floating point. Values are exact reals.
- NumText.FormatTenths: models `%.1f` as rounding the exact real, ties to even, and not the binary `float64` value Go rounds.
- `time.Parse` layouts other than "2006-01-02", `time.Format`, RFC 3339 strings, time zones and `AddDate`: time library. Period starts a month or a year back are parameters, and date texts are function parameters.
- Common.Lower: models `strings.ToLower` on ASCII letters only (Unicode case folding is not modelled). Common.TrimSpace likewise trims ASCII whitespace only.
- Common.Truncate: counts characters where Go's `len` and slicing count bytes, so multi-byte titles are not modelled.
- Common.SortByKey: promises a non-increasing order and a permutation only, because `sort.Slice` is not stable and its order among equal values is unspecified.
- CmdUtil.CompletionArgs: does not state the unknown-shell message, because `%q` quoting is modelled only for names without characters that need escaping.
- Listings.EventsSince: the error message leaves out the wrapped `time.Parse` error text.
- The "Showing N", "Found N" and "Page N of M" trailers, the progress indicators, and the "No ... found" messages: console printing only.
- The JSON formatter (`internal/output/json.go`) and the JSON result maps of the list commands: library encoding. JSON output is the `json` rendering parameter.
- Write errors of `io.WriteString`: the writer is a sink that never fails.
- The thin fetch-and-print and CRUD commands (get, create, update, delete, count, folder, interactive exercise and routine commands): wiring around the modelled parts.
- `config set`'s interactive prompts for missing arguments (cmd/config/set.go:51-118): standard-input dialogues.
- The 500-template cap of the builder's template loader: part of the loader.
- NumText.ScanFormatTenths: states the read-back of the whole `%.1f` text; the weight box keeps only its first 6 characters, so a longer weight text reloads as a different number (Session.ReloadCutsLongWeight, Session.ReloadMillion).
- NumText.ScanFloat: NaN and infinities ("nan", "inf", "infinity" in any case), hexadecimal mantissas and values beyond the `float64` range are read as nothing; Go reads them as NaN, ±Inf or hexadecimal values, or rejects the overflow. Lemmas about unreadable text exclude text that spells NaN or an infinity.
- Records.ComputeRecords: a negative --limit makes Go's `allRecords[:limit]` panic (slice bounds out of range); the model requires limit >= 0 and does not model the panic.
- ConfigCmd.MaskedKey: counts characters where Go's `len` and slicing count bytes, so a key with multi-byte characters is not modelled.
- ConfigCmd.MaskRevealsAtMostFour: counts characters as MaskedKey does; Go reveals the last four bytes.
- `hevycli completion`'s interactive shell choice and the generated scripts: the library writes them. Only the dispatch to one generator per shell is modelled.

## Findings

| source | as written | input that shows it | evidently intended | confidence | as-written member | corrected member |
|---|---|---|---|---|---|---|
| internal/tui/workout/session.go:202-229 | the `n` key calls `addSet`, which empties and focuses the weight input, and the key then also falls through to that input, so the new set's weight buffer starts with "n", which `Sscanf` reads as nothing (weight 0) | key `n`, then type "60" and press enter: the new set is saved with weight 0 | `n` only adds the set and leaves both buffers empty for the user to type into | not executed | Session.SessionModel.KeyNAsWritten, Session.NKeyWeightReadsZero | Session.SessionModel.KeyN |
| cmd/stats/summary.go:270-289 | the guard accepts a streak whose last day is the day before the end date, but the walk starts at the end date, so such a streak counts 0 | workout days {d−1}, end day d: current streak 0 | a streak that ended yesterday is still current and is counted from yesterday | not executed | Summary.CurrentStreakAsWritten, Summary.YesterdayStreakIsLost | Summary.CurrentStreak, Summary.CalculateStreaksIntended |
| internal/tui/routine/builder.go:249-250 | every key message returns from `handleKeyPress`, and its default case returns too, so typed characters never reach the title, search or edit inputs | a fresh builder, type "Legs" then enter: the title stays empty and the screen never advances | keys the mode does not bind reach the focused input (builder.go:275-300) | not executed | Builder.BuilderModel.OtherKeyAsWritten, Builder.TitleScreenAsWritten | Builder.BuilderModel.OtherKey, Builder.TitleScreen |
