# SprintBell core in Dafny

SprintBell is a macOS menu-bar focus timer. A countdown runs under a title.
It can carry a checklist of sub-goals. The app persists its state and
preferences in `UserDefaults`, logs each finished session as one JSON line
in a dated `.jsonl` file, and shows a completion notification. It can also be
driven from outside through `sprintbell://` URLs.

This project models the logic of that core and proves what the code promises
about it. There is one module per source file:

| module | file | source |
|---|---|---|
| `Timer` | timer_manager.dfy | `TimerManager`: countdown state machine and status-bar text |
| `Defaults` | timer_defaults.dfy | `TimerDefaults`: typed persistence over the key-value store |
| `SubGoalModel` | sub_goal.dfy | `SubGoal` and its `Codable` conformance, which drops `id` |
| `SubGoals` | sub_goals_manager.dfy | `SubGoalsManager`: a checklist saved after every change |
| `Session` | session_data.dfy | `SessionData`: the logged record and its derived fields |
| `Logging` | session_logger.dfy | `SessionLogger`: dated JSON-lines files and rotation |
| `Sprint` | sprint_session.dfy | `SprintSession`: a small session state machine |
| `Theme` | theme.dfy | `AppTheme` and `ThemeManager` |
| `UrlScheme` | url_scheme.dfy | `URLSchemeHandler`: the URL command dispatcher |
| `Notifications` | notifications.dfy | the completion message of `NotificationManager` and `LegacyNotificationManager` |

Supporting modules hold what Swift and Foundation provide:

- `Wrappers`: `Option`.
- `Numbers`: Swift's truncating `/` and `%`, `"\(n)"`, `%02d` and `Int(String)`.
- `Strings`: `components(separatedBy:)`, `joined(separator:)` and `trimmingCharacters(in:)`.
- `Formatting`: the `"%02d:%02d"` and `"%d:%02d"` duration texts, with a reader for them.
- `Store`: `UserDefaults` as a map from key to value, with its typed reads.

Modelling choices:

- **Time.** Time is a whole number of seconds, passed in as `now`. Fresh UUIDs are natural numbers that the caller supplies.
- **The store.** The key-value store is a class holding a `map<string, Value>`. Every manager that persists holds the same instance.
- **Classes.** Classes whose methods update fields in place stay classes: `TimerManager`, `TimerDefaults`, `SubGoalsManager`, `SprintSession`, `ThemeManager`, `URLSchemeHandler` and `SessionLogger`. Each method's `ensures` gives the new state as a function of the old one. The lemmas beside it prove what that function promises.
- **The one-second timer.** The Foundation timer is the `timerScheduled` flag, kept equal to `isRunning`. A firing is a direct call of `Tick`.
- **`SprintSession`.** It is a class whose fields are summarised by the value `SprintState`. Its `start`, `stop` and `reset` are proved against `Started`, `Stopped` and `Cleared`.
- **JSON.** A sub-goal list is stored as a JSON document value (`Store.Json`). The session logger's encoder is a function parameter.
- **The log directory.** It is a map from file name to creation time and contents. Whether listing it succeeds is the `listable` flag.
- **Ratios.** They are exact `real`s.

Three behaviours of the code worth knowing:

- A rotation deletes only other files; the record is still appended to the day's existing file (src/Models/SessionLogger.swift:86-103). `Logging.RotatedWriteStaysOversized` proves the consequence: the day's file keeps growing past 10 MiB and every later write rotates again. `Logging.RotatedWriteKeepsFive` proves that a rotating write still leaves at most five log files.
- `timerCompleted` only stops the timer. It persists, logs and notifies nothing (src/TimerManager.swift:64-68).
- The sub-goal completion rate is 1.0 with no sub-goals in `SessionData` (src/Models/SessionData.swift:65-66). The notification summary gives 0.0 in that case (src/Notifications/NotificationManager.swift:56). Both are modelled as written.

## Model

| member | source | states |
|---|---|---|
| Timer.TimerManager.constructor | src/TimerManager.swift:4-15 | A new timer has 0 s remaining, is stopped, has title "Focus Session" and total 0. Its status text is already "00:00 • Focus Session ✅", because `init` recomputes it. |
| Timer.TimerManager.StartTimer | src/TimerManager.swift:19-30 | When already running, nothing changes. Otherwise it is running with the one-second timer scheduled. Remaining time, title and total are kept, and the status text is current. |
| Timer.TimerManager.StopTimer | src/TimerManager.swift:32-38 | Whatever the prior state, it ends stopped with no timer scheduled. Remaining time, title and total are kept. |
| Timer.TimerManager.ResetTimer | src/TimerManager.swift:40-47 | It ends stopped with no timer, with remaining == total == duration, under the new title. |
| Timer.TimerManager.Tick | src/TimerManager.swift:51-62 | The new (remaining, running) pair is `TickStep` of the old one: unchanged when stopped, one second less while time remains, stopped at the same count once it is ≤ 0. Title and total are kept, and the display is current. |
| Timer.TimerManager.TimerCompleted | src/TimerManager.swift:64-68 | Completion only stops the timer. Remaining time, title and total are kept. |
| Timer.TimerManager.UpdateDisplay | src/TimerManager.swift:70-80 | The display becomes the three-case status text of the current state. Nothing else changes. |
| Timer.TicksFromRunning | src/TimerManager.swift:51-65 | Running from d seconds, after k ticks the timer is running at d − k while k ≤ max(d, 0). After that it is stopped at min(d, 0). |
| Timer.StoppedStaysPut | src/TimerManager.swift:51-52 | Any number of ticks leaves a stopped timer as it is. |
| Timer.ResetStartCompletes | src/TimerManager.swift:40-65 | Reset to d and started, the timer is still running at 0 after d ticks. It completes (stopped at 0) on tick d + 1. |
| Timer.StatusTextShowsTime | src/TimerManager.swift:70-86 | The status text starts with the MM:SS clock of the remaining seconds, then " • " and the title. For a non-negative count whose minutes are below 2^31, that clock reads back as the count. |
| Timer.StatusTextMarks | src/TimerManager.swift:73-79 | Stopped, the text ends in ✅ exactly when nothing remains, and in ⏸ otherwise. Running, it is clock • title with no mark. |
| Formatting.ClockTextRoundTrip | src/TimerManager.swift:83-87 | `"%02d:%02d"` of s / 60 and s % 60 reads back as s for every s ≥ 0 whose minute count is below 2^31, and is at least five characters long. |
| Formatting.ClockTextReadableIff | src/Notifications/NotificationManager.swift:151-155 | The duration text is a valid MM:SS reading exactly when the seconds are non-negative. A negative count prints a minus sign. |
| Formatting.MinutesClockTextRoundTrip | src/Models/SessionData.swift:96-101 | `"%d:%02d"` of s / 60 and s % 60 reads back as s for every s ≥ 0 whose minute count is below 2^31. |
| Numbers.QuotRem | src/TimerManager.swift:84-85 | Swift's truncating quotient and remainder rebuild the dividend. The remainder lies in [0, 60) for a non-negative count and in (−60, 0] for a negative one. |
| Defaults.TimerDefaults.constructor | src/Models/TimerDefaults.swift:34-46 | The persistence layer works on the shared store it is given. |
| Defaults.TimerDefaults.SaveTimerState | src/Models/TimerDefaults.swift:51-64 | The store becomes the old one with the five snapshot keys set to the arguments and the save time. |
| Defaults.LoadTimerStateSpec | src/Models/TimerDefaults.swift:67-94 | Load gives nothing exactly when the remaining-seconds key is absent. Otherwise the snapshot is never running, the title is the stored string or "Focus Session", and the total is the stored integer or 0. When the snapshot was running and saved more than 60 s ago, the remaining time is max(0, remaining − elapsed); in every other case it is the stored remaining time. These clauses follow the load's own case split; the round trips that check it independently are `Defaults.SaveThenLoad` and `Defaults.SaveThenLoadStale`. |
| Defaults.SaveThenLoad | src/Models/TimerDefaults.swift:51-93 | Save then load, with no running gap over 60 s, gives back the saved remaining time, title and total, stopped. |
| Defaults.SaveThenLoadStale | src/Models/TimerDefaults.swift:80-89 | A running snapshot loaded more than 60 s later has max(0, remaining − elapsed) left and is stopped. |
| Defaults.SaveTouchesOnlyTimerKeys | src/Models/TimerDefaults.swift:57-61 | Saving a snapshot leaves every key outside the five timer keys as it was. |
| Defaults.TimerDefaults.ClearTimerState | src/Models/TimerDefaults.swift:97-104 | Exactly the five timer keys are removed. |
| Defaults.ClearThenLoad | src/Models/TimerDefaults.swift:67-104 | After clearing there is nothing to load, and every other key is as it was. |
| Defaults.TimerDefaults.SaveSubGoals | src/Models/TimerDefaults.swift:109-117 | The encoded list is stored under the sub-goals key. Nothing else changes. |
| Defaults.LoadSubGoalsAfterSave | src/Models/TimerDefaults.swift:109-135 | Loading after a save gives back every item's text, completion and creation time, in order, with fresh ids. |
| Defaults.LoadSubGoalsFallback | src/Models/TimerDefaults.swift:120-135 | A missing key, a value that is not data, or a document that does not decode all load as the empty list. |
| Defaults.PreferenceDefaults | src/Models/TimerDefaults.swift:139-210 | On an empty store the duration is 1500, the three flags are true, the title is "Focus Session", the version is "1.0.0", and it is the first launch. |
| Defaults.PreferencesReadBack | src/Models/TimerDefaults.swift:139-210 | Each preference reads back what its setter stored. A non-positive stored duration reads as 1500, and the duration read is always positive. |
| Defaults.TimerDefaults.SetDefaultDuration | src/Models/TimerDefaults.swift:144-146 | Only the default-duration key changes, to the given number. |
| Defaults.TimerDefaults.SetSoundEnabled | src/Models/TimerDefaults.swift:154-156 | Only the sound key changes, to the given flag. |
| Defaults.TimerDefaults.SetLastUsedTitle | src/Models/TimerDefaults.swift:163-165 | Only the last-title key changes, to the given string. |
| Defaults.TimerDefaults.SetAppVersion | src/Models/TimerDefaults.swift:185-187 | Only the version key changes, to the given string. |
| Defaults.TimerDefaults.SetNotificationsEnabled | src/Models/TimerDefaults.swift:197-199 | Only the notifications key changes, to the given flag. |
| Defaults.TimerDefaults.SetShowNotificationActions | src/Models/TimerDefaults.swift:207-209 | Only the notification-actions key changes, to the given flag. |
| Defaults.TimerDefaults.SetIsFirstLaunch | src/Models/TimerDefaults.swift:174-178 | Assigning false stores false under the first-launch key. Assigning true changes nothing. |
| Defaults.FirstLaunchOneWay | src/Models/TimerDefaults.swift:170-179 | After an assignment, it is the first launch exactly when it was before and true was assigned. The flag can only be switched off. |
| Defaults.TimerDefaults.ResetAllData | src/Models/TimerDefaults.swift:215-220 | Exactly the keys of `Keys.allCases` are removed. Every other key, the theme's included, is kept. |
| Defaults.TimerDefaults.ValidateData | src/Models/TimerDefaults.swift:223-240 | The answer is true exactly when the remaining-seconds and title keys are both present or both absent; the store is then unchanged. Otherwise the five timer keys are removed. Either way the two keys agree afterwards. |
| Store.ReadsAfterWrite | src/Models/TimerDefaults.swift:74-77 | Each typed read returns what was just stored under the key with the matching type. |
| Store.ReadsAfterRemove | src/Models/TimerDefaults.swift:97-102 | A removed key reads as absent: 0, false, or no string, date or data. |
| SubGoalModel.DecodeEncode | src/Models/SubGoal.swift:18-30 | Decoding an encoded item restores its text, completion and creation time, with the fresh id. |
| SubGoalModel.EncodeIgnoresId | src/Models/SubGoal.swift:14-30 | Two items encode alike exactly when they agree on everything but the id. The id is never written. |
| SubGoalModel.EncodeDecode | src/Models/SubGoal.swift:18-23 | A document decodes only if it is an object holding all three coding keys with the right types. Re-encoding the result gives exactly that coded part. |
| SubGoalModel.DecodeItemsAllOrNothing | src/Models/TimerDefaults.swift:126-134 | A list decodes exactly when every element does. The result keeps the order, and element i is decoded with fresh id firstId + i. |
| SubGoalModel.DecodeListEncodeList | src/Models/TimerDefaults.swift:109-129 | Decoding an encoded list gives the same items in order, renumbered with fresh ids. |
| SubGoals.SubGoalsManager.constructor | src/Models/SubGoalsManager.swift:10-12 | A new manager holds the list loaded from the store, with distinct fresh ids. |
| SubGoals.SubGoalsManager.AddGoal | src/Models/SubGoalsManager.swift:16-21 | It appends exactly one pending goal created now, with the trimmed text (empty text included). Earlier goals are unchanged, and the store holds the new list. No other store key changes. |
| Strings.TrimSpec | src/Models/SubGoalsManager.swift:17 | Trimming removes a run of class characters at each end and nothing else. The result neither starts nor ends with one. |
| Strings.TrimIdempotent | src/Integration/URLSchemeHandler.swift:54 | Trimming a trimmed string changes nothing. |
| SubGoals.SubGoalsManager.ToggleGoal | src/Models/SubGoalsManager.swift:23-29 | Only the first goal with the id has its completion flipped, and the store holds the new list under the sub-goals key. An unknown id changes nothing and saves nothing. No other store key changes. |
| SubGoals.FirstIndexOfSpec | src/Models/SubGoalsManager.swift:24 | The index found is that of the first goal with the id. None means no goal has it. |
| SubGoals.SubGoalsManager.DeleteGoal | src/Models/SubGoalsManager.swift:31-35 | Every goal with the id is removed, the rest keep their order, and the store holds the new list. No other store key changes. |
| SubGoals.FilterMembers | src/Models/SubGoalsManager.swift:31-32 | A filtered list holds exactly the goals of the list that pass the test. |
| SubGoals.FilterConcat | src/Models/SubGoalsManager.swift:103-106 | Filtering preserves relative order: filtering a concatenation concatenates the filtered parts. |
| SubGoals.SubGoalsManager.ClearAllGoals | src/Models/SubGoalsManager.swift:37-41 | The list is empty and saved. No other store key changes. |
| SubGoals.SubGoalsManager.ForceSave | src/Models/SubGoalsManager.swift:74-76 | The store holds exactly the in-memory list. No other store key changes. |
| SubGoals.SubGoalsManager.ResetForNewSession | src/Models/SubGoalsManager.swift:81-91 | Keeping completed goals leaves exactly the completed goals in order. Otherwise the list is empty. It is saved either way. No other store key changes. |
| SubGoals.SubGoalsManager.MarkAllCompleted | src/Models/SubGoalsManager.swift:94-100 | Every goal is marked completed, with nothing else changed, and the list is saved. No other store key changes. |
| SubGoals.MarkAllCompletedSpec | src/Models/SubGoalsManager.swift:94-100 | Marking keeps length, ids and texts. Afterwards all goals are completed exactly when the list is non-empty. |
| SubGoals.CompletedCountFull | src/Models/SubGoalsManager.swift:45-51 | The completed count is at most the total. It equals the total exactly when every goal is completed. |
| SubGoals.AllGoalsCompletedIff | src/Models/SubGoalsManager.swift:58-60 | `allGoalsCompleted` holds exactly for a non-empty list whose goals are all completed. |
| SubGoals.ProgressBounds | src/Models/SubGoalsManager.swift:53-60 | Progress lies in [0, 1], is 0 for an empty list, and is 1 exactly when all goals are completed. |
| SubGoals.CompletedPendingPartition | src/Models/SubGoalsManager.swift:103-106 | Completed plus pending goals make up the whole list. |
| SubGoals.SummaryCounts | src/Models/SubGoalsManager.swift:103-107 | The summary's completed list has the completed count. Together the two lists have the total count. |
| Session.NewSessionDataStores | src/Models/SessionData.swift:32-71 | The arguments are stored unchanged and the platform is "macOS". The sub-goal texts are copied, total = completed + pending, and 0 ≤ completed ≤ total. |
| Session.CompletionPercentageBounds | src/Models/SessionData.swift:53-58 | Time completion never exceeds 1. With a known non-negative duration and a positive plan it lies in [0, 1] and is 1 exactly when actual ≥ planned. Without a duration it is 1 or 0 by the completed flag. |
| Session.SubGoalCompletionRateBounds | src/Models/SessionData.swift:60-66 | The sub-goal rate lies in [0, 1]. It is 1 exactly when every sub-goal is completed, or when there are none. |
| Session.EffectivenessBounds | src/Models/SessionData.swift:88-93 | The mean of the two ratios lies in [0, 1]. It reaches 1 exactly when time completion is 1 and every sub-goal is done. |
| Session.OutcomeCases | src/Models/SessionData.swift:77-86 | The outcome is "completed" exactly when the session completed, even if interrupted. Otherwise it is "interrupted" or "incomplete" by the interrupted flag. |
| Session.FormattedDurationRoundTrip | src/Models/SessionData.swift:95-101 | For a duration whose minute count is below 2^31, the "m:ss" text reads back as the actual duration, or as 0 when it is unknown. |
| Logging.LogFileNameSpec | src/Models/SessionLogger.swift:106-110 | The day's file name is a visible ".jsonl" name. Two days share a file name exactly when they are the same day. |
| Logging.NewestOf | src/Models/SessionLogger.swift:61-65 | It picks a file no older than any other candidate. A file without a creation date counts as the distant past. |
| Logging.LogFiles | src/Models/SessionLogger.swift:51-70 | If listing fails the result is empty. Otherwise it holds every visible ".jsonl" file exactly once, newest first. |
| Logging.SessionLogger.GetLogFiles | src/Models/SessionLogger.swift:51-70 | The logger's listing satisfies the same property over its own directory. |
| Logging.SessionLogger.RotateLogFiles | src/Models/SessionLogger.swift:112-123 | Deleting one file at a time from the fifth newest on, the directory ends as `Rotated` of the listing. The listing is a valid `getLogFiles` result. |
| Logging.RotationKeepsNewest | src/Models/SessionLogger.swift:112-123 | With five or more log files, rotation keeps exactly the four newest, each no older than any deleted one. It deletes nothing else and changes no kept file. Below five it deletes nothing. |
| Logging.SessionLogger.WriteToLogFile | src/Models/SessionLogger.swift:74-104 | Only when the day's file exists and has reached 10 MiB does it rotate first. It then appends the line and one newline to the day's file, creating the file at `now` if it is absent. |
| Logging.WithLineSpec | src/Models/SessionLogger.swift:90-103 | The day's file becomes its old contents followed by the line, or the line alone in a new file. Every other file is unchanged. |
| Logging.RotatedWriteKeepsFive | src/Models/SessionLogger.swift:74-123 | After a rotating write there are at most five log files. |
| Logging.RotatedWriteStaysOversized | src/Models/SessionLogger.swift:77-103 | Rotation does not shrink the day's file. If it survives, the write leaves it over the limit, so the next write rotates again. |
| Logging.SessionLogger.constructor | src/Models/SessionLogger.swift:14-22 | The logger works on the given directory with the given encoder. |
| Logging.SessionLogger.LogSession | src/Models/SessionLogger.swift:27-43 | The encoded record is written as one line of the day's file, as `WriteToLogFile` states. |
| Logging.SessionLogger.LogSessionFrom | src/Models/SessionLogger.swift:166-189 | The record is built from the arguments unchanged and logged as one line. |
| Sprint.SprintSession.constructor | src/Models/SprintSession.swift:12-16 | A new session has the full plan remaining, is not running, and has no start or end time. |
| Sprint.SprintSession.Start | src/Models/SprintSession.swift:36-39 | It is running with start time `now`. Nothing else changes, and there is no guard against running already. |
| Sprint.SprintSession.Stop | src/Models/SprintSession.swift:41-44 | It is stopped with end time `now`. Nothing else changes. |
| Sprint.SprintSession.Reset | src/Models/SprintSession.swift:46-51 | It is stopped, both times are cleared, and the full plan remains. Title and plan are unchanged. |
| Sprint.InitialIsCleared | src/Models/SprintSession.swift:9-16 | A new session equals its reset form. It has remaining == planned == the given duration, is not running, has no actual duration and is not completed. |
| Sprint.StartStopTouchOnly | src/Models/SprintSession.swift:36-44 | Start changes only the running flag and start time. Stop changes only the running flag and end time. |
| Sprint.ResetForgetsRun | src/Models/SprintSession.swift:46-51 | Resetting after any start and stop gives the same state as resetting at once. Reset is idempotent, and a reset session is not completed and has no duration. |
| Sprint.ActualDurationSpec | src/Models/SprintSession.swift:20-23 | The duration is known exactly when both times are. After start at t1 and stop at t2 it is t2 − t1. |
| Sprint.ProgressSpec | src/Models/SprintSession.swift:29-32 | Progress is 0 right after a reset, and 1 exactly when nothing remains. |
| Theme.ParseThemeIff | src/Models/ThemeManager.swift:4-8 | A string parses to a theme exactly when it is that theme's raw value. |
| Theme.ToggleCycle | src/Models/ThemeManager.swift:49-58 | Toggling never stays put and visits all three themes. Three toggles return to the start. |
| Theme.ColorSchemeNoneIff | src/Models/ThemeManager.swift:25-31 | No color scheme is forced exactly for the system theme. |
| Theme.StoredAfterSave | src/Models/ThemeManager.swift:60-69 | A saved theme is what a new manager over the same store adopts. |
| Theme.ThemeSurvivesReset | src/Models/TimerDefaults.swift:215-220 | Resetting all timer data keeps the stored theme. |
| Theme.ThemeManager.constructor | src/Models/ThemeManager.swift:35-42 | A new manager adopts the stored theme when the stored string parses. Otherwise it uses the system theme. |
| Theme.ThemeManager.SetTheme | src/Models/ThemeManager.swift:44-47 | The theme is adopted and its raw value stored under "SprintBellTheme". Every other key is left alone. |
| Theme.ThemeManager.ToggleTheme | src/Models/ThemeManager.swift:49-58 | It moves to the next theme of the system → light → dark cycle and stores it. |
| Theme.ThemeManager.SaveTheme | src/Models/ThemeManager.swift:60-62 | Only the theme key changes, to the current raw value. |
| Theme.ThemeManager.LoadTheme | src/Models/ThemeManager.swift:64-69 | It adopts the stored theme when there is a string that parses. Otherwise it keeps the current one. |
| UrlScheme.UrlSchemeHandler.constructor | src/Integration/URLSchemeHandler.swift:5-9 | The handler refers to the given timer. |
| UrlScheme.UrlSchemeHandler.HandleUrl | src/Integration/URLSchemeHandler.swift:13-38 | The timer ends in the state `Effect` gives for the URL's command. Nothing happens once the timer is gone. |
| UrlScheme.RejectedUrls | src/Integration/URLSchemeHandler.swift:13-37 | A URL is ignored exactly when the scheme is not "sprintbell", the host is missing, or the host is unknown. Ignoring leaves the timer unchanged. |
| UrlScheme.StartDefaults | src/Integration/URLSchemeHandler.swift:49-50 | A missing "mins", one without a value or one that does not parse gives 25 minutes. A missing title gives "Focus Session". |
| UrlScheme.FirstNamedSpec | src/Integration/URLSchemeHandler.swift:49-51 | The first query item with the name is used. None is found exactly when no item has the name. |
| Numbers.ParseIntText | src/Integration/URLSchemeHandler.swift:49 | Every 64-bit integer's text parses back to it. |
| UrlScheme.ParseGoalsPieces | src/Integration/URLSchemeHandler.swift:51-54 | An empty goals string gives no goals. Otherwise there is one goal per comma-separated piece, each trimmed and comma-free. |
| UrlScheme.ParseGoalsJoin | src/Integration/URLSchemeHandler.swift:54 | Trimmed, comma-free goals joined with commas parse back to themselves. |
| UrlScheme.StartIgnoresGoals | src/Integration/URLSchemeHandler.swift:42-66 | Start runs mins × 60 s under the title, and the goals never affect the timer. |
| UrlScheme.PauseTwiceRestores | src/Integration/URLSchemeHandler.swift:68-78 | Pause only flips running, keeping remaining time, title and total. Two pauses cancel out. |
| UrlScheme.StopForgetsState | src/Integration/URLSchemeHandler.swift:80-93 | Whatever the result value and the prior state, stop leaves the timer stopped at 0 under "SprintBell". |
| Notifications.BodySplitsIntoParts | src/Notifications/NotificationManager.swift:122-127 | For a title without a bullet, the body splits at its two " • " into title, duration and progress. The duration reads back as the actual seconds when they are non-negative and their minute count is below 2^31. |
| Notifications.ProgressTextInjective | src/Notifications/NotificationManager.swift:123-125 | With goals, "c/t goals completed" determines both counts and never reads "Session completed". |
| Notifications.SummarySpec | src/Notifications/NotificationManager.swift:50-57 | The summary repeats the actual duration as the planned one. Its rate is 0 without goals, in [0, 1] for 0 ≤ c ≤ t, and 1 exactly when c == t. |
| Notifications.ContentSpec | src/Notifications/NotificationManager.swift:113-149 | The content has the fixed title, category "TIMER_COMPLETION" and badge 1, and plays a sound exactly when the sound preference is on. Its user info holds exactly the four inputs. |
| Notifications.SoundFollowsPreference | src/Notifications/NotificationManager.swift:132-135 | The sound plays while the preference is unset and not once it is stored as false. |
| Notifications.PermissionGate | src/Notifications/NotificationManager.swift:43-61 | Nothing is sent exactly when permission is missing. |
| Notifications.ManagersAgree | src/Notifications/LegacyNotificationManager.swift:16-56 | The legacy manager shows the same title and body as the notification content. Its permission checks are constant true. |

## Left out

- User interface, status-bar and popover code, audio and the VS Code integration are not part of this model; they render or launch external processes.
- Timer.TimerManager.StartTimer: the scheduling of the Foundation `Timer` and its run loop are represented only by the `timerScheduled` flag; `@Published` change notification is not modelled.
- Logging.SessionLogger.LogSession: the `Task` the write runs in is a direct call; concurrent writers are not modelled. A failure of the encoder or of `String(data:encoding:)` is not modelled (the encoder is a total function).
- Logging.SessionLogger.WriteToLogFile: file-system errors other than a failing directory listing (a failing size query, deletion, open or write, which abort the write) are not modelled.
- Logging.IsLogListing: files with equal creation dates may come in any order, since the source's sort is not stable on ties; the listing is specified up to that order.
- Logging.LogFileName: `DateFormatter` is not modelled; the day is given as a calendar date, and the name is proved for years below 10000.
- `createLogDirectory` and `getCurrentLogFilePath` (src/Models/SessionLogger.swift:45-48, 127-159) choose a directory on disk; the model starts from the directory itself.
- Byte-exact JSON and ISO 8601 text are not modelled: a sub-goal list is a JSON document value, and the session encoder is a parameter.
- Store.IntegerFor: `UserDefaults` coercions from strings to numbers and booleans are not modelled; only number/boolean coercion is.
- Store.StringFor: `string(forKey:)` also returns the text of a stored number; that number-to-string coercion is not modelled, so only a stored string reads back as one.
- Defaults.LoadTimerState: elapsed time is whole seconds; `Int(timeSinceLastSave)` truncation of fractional seconds is not modelled.
- Session.CompletionPercentage: with a known actual duration and a zero plan Swift yields infinity or NaN; the model requires a non-zero plan in that case and uses exact reals.
- Session.NewSessionData: the same zero-plan precondition as `CompletionPercentage`.
- Logging.SessionLogger.LogSessionFrom: the same zero-plan precondition as `CompletionPercentage`.
- Sprint.SprintState.ProgressPercentage: a zero plan yields NaN or infinity in Swift; the model requires a non-zero plan.
- Sprint.SprintSession: Swift copies a struct on assignment; the class model has reference semantics, so copies of a session are not modelled.
- Formatting.ClockText (and Formatting.MinutesClockText): `String(format:)` reads `%d` and `%02d` as a 32-bit C `int`, so a minute count of 2^31 or more prints wrapped, for example after `sprintbell://start?mins=2147483648`. The model prints every count in full, so its round trips hold only for minute counts below 2^31 in the program.
- UrlScheme.Effect: `mins * 60` traps in Swift when it overflows 64 bits; the model's integers are unbounded.
- UrlScheme.UrlSchemeHandler: percent decoding (`removingPercentEncoding`) is a parameter of the handler, and `URLComponents` parsing is done before the model starts (a URL is its scheme, host and query items).
- Strings.IsSpace: trimming uses a fixed set of whitespace and newline characters (the ASCII ones and the Unicode space separators), not Foundation's full character tables.
- UUIDs are natural numbers supplied by the caller; `SubGoalsManager` keeps a counter so its ids stay distinct.
- Notification delivery, the permission request of `NotificationManager`, the notification categories and actions, and the legacy channels (alert, dock bounce, console) are side effects and are not modelled; the model computes what would be delivered.
- `print` and `os.Logger` output is not modelled.
