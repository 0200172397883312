# ThreeADay: task stores and reminder services

ThreeADay is a small desktop tool. Its rule is to complete three tasks a day.
Tasks live in a SQLite `tasks` table with id, text, completion flag and
creation date. A background service nags the user with desktop notifications
until three of today's tasks are done.

The repository holds two generations of this code, and this project models
both.

- **Legacy crate** (`src/`). Its store, `src/db.rs`, uses plain
  `INTEGER PRIMARY KEY` rowids. Its service, `src/service.rs`, runs on two
  tokio timers:
  - a reminder timer, which sends a reminder while the daily cap allows and
    the goal is unmet;
  - a one-minute timer, which shows a "new day" notice inside a one-minute
    window around the reset time.

  Both timers first roll the reminder counter over when the local date has
  changed. The goal notice is sent once, at startup.
- **Workspace** (`threeaday-core`, `threeaday-service`). Its store,
  `threeaday-core/src/db.rs`, uses `AUTOINCREMENT` ids. Its service
  (`threeaday-service/src/service.rs`) runs one loop, and each iteration does
  three things:
  - It sends a "fresh start" notice once the UTC clock is past the reset hour
    and minute, at most once an hour. This also zeroes the reminder count.
  - It sends a reminder when the interval has passed, the cap allows one and
    the goal is unmet.
  - It checks the goal when at least 30 seconds have passed since the last
    check. Each iteration ends with a 60-second sleep, so in practice that is
    every iteration after the first. It attempts a goal notice at most once
    per 86400 seconds.

## How the model is built

- Each store is a `Database` class. Its field `rows` holds the rows of the
  `tasks` table in id order.
  - `CoreDb.Database` also keeps the `AUTOINCREMENT` counter.
  - `LegacyDb.Database` gives a new row one more than the largest rowid
    present (`NextRowId`).
- Both stores share the SQL semantics in `TaskTable`:
  - `TodayTasks` is `WHERE created_at = ? ORDER BY id`;
  - `CompleteRows` is the `UPDATE`;
  - `CountCompleted` and `Summary` make up `get_today_summary`.

  `GetTodayTasks` is a loop proved equal to `TodayTasks`.
- `Task` is a datatype because the Rust `Task` is a `Clone` value.
  `mark_completed` returns the updated value.
- Each service's state is a `ServiceState` class whose methods update its
  fields in place. The pure decisions are functions on that state:
  `should_send_reminder`, `should_send_daily_reset`, `is_new_day` and
  `is_daily_reset_time`.
- Everything the code reads from outside becomes an input:
  - the clocks: a `Date` day number, `Instant` seconds, and a `TimeOfDay`
    below 86400;
  - the store's summary: `None` when the query fails;
  - whether each notification was delivered.
- The legacy loop runs over a finite sequence of timer `Event`s. The workspace
  loop runs over a finite sequence of `Tick`s.
- Each loop also has a value-level reference: `HandleEvent` (legacy) and
  `Step` (workspace) decide one firing or iteration from the values it reads.
  `Replay` and `StateAfter` fold them over a run, and `RemindersShownIn`,
  `ResetsShownIn` and `ShownAt` record what the run showed. The class methods
  are proved equal to these folds, and the run-level properties (the daily cap
  per date, the spacing of notices) are lemmas about the folds.
- All notification texts are exact.
  - The legacy messages carry real emoji.
  - The workspace messages hold their emoji as written in the source: the
    UTF-8 bytes read back as Windows-1252 characters (for example `ðŸŽ¯`). The
    literals keep those characters.

Behaviour of the workspace service that the model keeps as written:

- The reset test compares hour and minute separately: `hour >= H && minute >= M`.
  So with a 06:30 reset, 07:05 is not "past" (`PastResetTimeComparesMinutesAlone`).
- Only the one-hour cooldown gates the fresh-start notice. Past the reset time
  it therefore comes back every hour (`ShouldSendDailyReset`).
- A goal-notice attempt starts the 86400-second cooldown even when the
  notification could not be shown (`NextLocals`).
- The legacy service's "new day" notice changes no state, so every minute-timer
  tick inside the two-minute window shows it again (`DailyTick`).
- The legacy window is measured within one day, with no wrap-around at midnight
  (`WithinOneMinuteNoWrap`).

## Model

| member | source | states |
|---|---|---|
| Wrappers.Option.GetOr | threeaday-service/src/service.rs:86-87 | the wrapped value when present, otherwise the fallback |
| Numbers.NatToString | src/service.rs:130-132 | a count formats as a non-empty run of decimal digits with no leading zero |
| Numbers.NatToStringReadsBack | threeaday-service/src/service.rs:64-67 | the decimal text of a count reads back as that count, so the counts in a message are shown exactly |
| Clock.Hour | threeaday-service/src/service.rs:90 | the hour of a time of day is below 24 and brackets it |
| Clock.Minute | threeaday-service/src/service.rs:90 | the minute is below 60 and brackets the time within its hour |
| Clock.Elapsed | threeaday-service/src/service.rs:93 | the seconds from an instant to now, zero when now is not later |
| Clock.HourMinute.Seconds | src/service.rs:68-71 | the time of day of an "HH:MM" setting has exactly that hour and minute |
| Clock.ParseHourMinute | src/service.rs:68-71 | "%H:%M" accepts only two digits, a colon and two digits, with hour below 24 and minute below 60 |
| Clock.FormatThenParse | src/service.rs:68-71 | every valid hour and minute, written "HH:MM", parses back to itself |
| Clock.ParseThenFormat | threeaday-service/src/service.rs:86-87 | every setting the two-digit parser accepts is the canonical text of what it parses to (chrono also takes "6:00", which the model does not) |
| CoreUtils.GoalThreshold | threeaday-core/src/utils.rs:5-6 | the goal count is 3, and the goal is met exactly from three completed tasks on |
| CoreUtils.IsDailyGoalAchieved | threeaday-core/src/utils.rs:31-34 | the goal is met exactly when the completed count reaches the goal count |
| CoreUtils.GoalMonotone | threeaday-core/src/utils.rs:31-34 | completing more tasks never loses the goal |
| CoreUtils.FormatTaskStatus | threeaday-core/src/utils.rs:26-29 | a check mark for a completed task and a blank otherwise, one character either way |
| CoreConfig.Default | threeaday-core/src/config.rs:14-22 | default settings: 45-minute interval, reset at "06:00", at most 8 reminders |
| CoreTask.Task.New | threeaday-core/src/task.rs:13-20 | the new task holds exactly the given id, text, flag and date |
| CoreTask.Task.IsCompleted | threeaday-core/src/task.rs:22-24 | reports the completion flag |
| CoreTask.Task.MarkCompleted | threeaday-core/src/task.rs:26-28 | the result is completed, keeps id, text and date, and equals the task when it was already completed |
| CoreTask.MarkCompletedIdempotent | threeaday-core/src/task.rs:26-28 | marking twice is marking once |
| TaskTable.TodayTasks | threeaday-core/src/db.rs:58-78 | exactly the rows created today, never more rows than the table |
| TaskTable.TodayTasksIdsIncrease | threeaday-core/src/db.rs:60-62 | the day's tasks come back in increasing id order |
| TaskTable.TodayTasksOfToday | src/db.rs:69-89 | when every row is from today, the query returns the whole table in order |
| TaskTable.CountCompleted | threeaday-core/src/db.rs:88-92 | at most the number of tasks; zero exactly when none is completed; all exactly when all are |
| TaskTable.Summary | threeaday-core/src/db.rs:88-92 | (completed, total) with completed at most total and total the number of tasks |
| TaskTable.FindById | threeaday-core/src/db.rs:80-86 | the position of a row with that id, or none exactly when no row has it |
| TaskTable.CompleteRows | threeaday-core/src/db.rs:80-86 | every row with the id is marked completed, every other row is unchanged, and the length is kept |
| TaskTable.SummaryAfterComplete | threeaday-core/src/db.rs:80-92 | completing keeps the day's total, and raises the day's completed count by one exactly when an open task of today had that id |
| CoreDb.Database.constructor | threeaday-core/src/db.rs:36-47 | a new store has an empty table and its AUTOINCREMENT counter at 1 |
| CoreDb.Database.AddTask | threeaday-core/src/db.rs:49-56 | appends an open task dated today under a positive id larger than every earlier id, and returns that id |
| CoreDb.Database.GetTodayTasks | threeaday-core/src/db.rs:58-78 | the loop returns exactly today's rows, in id order |
| CoreDb.Database.CompleteTask | threeaday-core/src/db.rs:80-86 | true exactly when an open row had the id; the table becomes the UPDATE's result, and is unchanged on false |
| CoreDb.Database.GetTodaySummary | threeaday-core/src/db.rs:88-92 | (completed, total) over today's rows |
| LegacyDb.NextRowId | src/db.rs:47-67 | a new rowid is positive and larger than every rowid present |
| LegacyDb.Database.constructor | src/db.rs:47-58 | a new store has an empty table |
| LegacyDb.Database.AddTask | src/db.rs:60-67 | appends an open task dated today under the next rowid and returns it |
| LegacyDb.Database.GetTodayTasks | src/db.rs:69-89 | the loop returns exactly today's rows, in id order |
| LegacyDb.Database.CompleteTask | src/db.rs:91-97 | true exactly when an open row had the id; the table becomes the UPDATE's result, and is unchanged on false |
| LegacyDb.Database.GetTodaySummary | src/db.rs:99-103 | (completed, total) over today's rows |
| LegacyDb.SummaryScenario | src/db.rs:157-180 | an empty store gives (0, 0); three new tasks give (0, 3); completing the first gives (1, 3) |
| LegacyDb.ThreeOpenTasks | src/db.rs:166-179 | three open tasks of today summarise to (0, 3), and to (1, 3) after the first is completed |
| LegacyDb.CompleteTwiceScenario | src/db.rs:132-147 | completing succeeds once, the second attempt reports false, and the task stays completed |
| LegacyDb.CompleteUnknownScenario | src/db.rs:149-155 | completing an id never issued reports false |
| LegacyDb.OrderingScenario | src/db.rs:182-195 | tasks come back in the order they were added |
| LegacyService.ServiceConfig.GetResetTime | src/service.rs:68-71 | a parsed reset time is valid and formats back to the setting, for the two-digit "HH:MM" form the model accepts |
| LegacyService.DefaultConfig | src/service.rs:22-30 | default settings: 45 minutes, "06:00", 8 reminders |
| LegacyService.GetResetTimeOfFormatted | src/service.rs:68-71 | every well-formed "HH:MM" setting is read as that hour and minute |
| LegacyService.DefaultResetTime | src/service.rs:22-30 | the defaults reset at 06:00 |
| LegacyService.ReminderMessage.Text | src/service.rs:127-133 | the three reminder wordings with their emoji, quoting the total, or the completed count and the total |
| LegacyService.ChooseReminderMessage | src/service.rs:127-133 | "add your first task" exactly when there are no tasks; "tackle your N tasks" exactly when none is done; otherwise progress, with the counts carried |
| LegacyService.ReminderNotification | src/service.rs:138-144 | a reminder is titled "ThreeADay", critical and persistent, with the chosen message |
| LegacyService.AchievementNotification | src/service.rs:155-167 | the goal notice is titled "ThreeADay - Goal Achieved!", critical and persistent |
| LegacyService.DailyResetNoticeFields | src/service.rs:192-206 | the "new day" notice is titled "ThreeADay - New Day!", critical and persistent |
| LegacyService.WithinOneMinute | src/service.rs:182-189 | the distance between the time and the reset time, measured within the day, is at most 60 seconds |
| LegacyService.WithinOneMinuteBounds | src/service.rs:182-189 | the reset window is the closed interval of 60 seconds either side of the reset time |
| LegacyService.WithinOneMinuteNoWrap | src/service.rs:182-189 | 23:59:30 is not within a minute of a 00:00 reset |
| LegacyService.CheckForAchievements | src/service.rs:152-173 | fails exactly when the summary query fails or the goal is met and the notice is not delivered; otherwise gives a notice exactly when three tasks are done |
| LegacyService.InResetWindow | src/service.rs:175-190 | the reset-window decision on the configuration: never when the setting does not parse, otherwise within a minute of it |
| LegacyService.HandleEvent | src/service.rs:253-279 | one timer firing: the date it belongs to becomes the counter's date; the count restarts at 0 on a new date; a reminder shows exactly when the cap, the goal, the summary and delivery allow and adds one; the "new day" notice shows exactly in the window when delivered; the cap is kept |
| LegacyService.OneDateBound | src/service.rs:253-279 | when every firing falls on one date, the count is the count carried over for that date plus the reminders shown, so at most the cap are shown |
| LegacyService.NoRemindersAfter | src/service.rs:253-279 | no reminder is recorded on a date later than every firing so far |
| LegacyService.DailyCapInvariant | src/service.rs:253-279 | on dates that never go back, the current date's reminders (with those counted at the start) are the count, and every earlier date stays within the cap |
| LegacyService.DailyCap | src/service.rs:253-279 | on dates that never go back, no date gets more reminders than the daily cap, counting those the counter already held for it |
| LegacyService.ServiceState.constructor | src/service.rs:82-93 | no reminders yet, dated today |
| LegacyService.ServiceState.IsNewDay | src/service.rs:95-98 | true exactly when today differs from the counter's date |
| LegacyService.ServiceState.ResetDailyCounters | src/service.rs:100-103 | the count is zero and dated today, so it is no longer a new day |
| LegacyService.ServiceState.ShouldSendReminder | src/service.rs:105-122 | true exactly when the cap is not reached, the summary query succeeded and fewer than three tasks are done |
| LegacyService.ServiceState.SendReminder | src/service.rs:124-150 | with a summary and a delivered notice, shows the chosen reminder and counts it; otherwise nothing changes |
| LegacyService.ServiceState.IsDailyResetTime | src/service.rs:175-190 | never when the setting does not parse; otherwise true exactly within a minute of the reset time |
| LegacyService.ServiceState.ReminderTick | src/service.rs:255-265 | rolls over on a new date, then shows a reminder exactly when the cap, the goal and delivery allow, counting it; the new count and date are those of `HandleEvent` |
| LegacyService.ServiceState.DailyTick | src/service.rs:267-277 | rolls over on a new date, then shows the new-day notice exactly when inside the window and delivered, changing nothing else; the new count and date are those of `HandleEvent` |
| LegacyService.ServiceState.Run | src/service.rs:253-279 | the final count and date are the replay of `HandleEvent` over the firings, the two results are the reminders and "new day" notices that replay shows, the cap holds, and on one date at most the cap of reminders is shown |
| LegacyService.RunService | src/service.rs:237-280 | `main`: the startup goal check's outcome is `CheckForAchievements`; when it fails no timer fires; otherwise the counts are those of a replay from a fresh counter dated today |
| WorkspaceService.Remaining | threeaday-service/src/service.rs:61 | the tasks still to do, at most 3, zero exactly when the goal is met, and adding up to 3 otherwise |
| WorkspaceService.ReminderBody | threeaday-service/src/service.rs:55-69 | the first-task prompt when there are no tasks; otherwise the progress text around the completed count, the total and the number still to do |
| WorkspaceService.ProgressText | threeaday-service/src/service.rs:64-67 | the progress text opens with "You have ", then the completed count, a slash and the total, and holds the remaining count after " tasks completed. " |
| WorkspaceService.ReminderNotification | threeaday-service/src/service.rs:55-75 | a reminder is titled "ThreeADay Reminder" with the chosen body and a 5000 ms timeout |
| WorkspaceService.AchievementNotification | threeaday-service/src/service.rs:123-130 | the goal notice is titled "ThreeADay - Goal Achieved!" with an 8000 ms timeout |
| WorkspaceService.FreshStartNoticeFields | threeaday-service/src/service.rs:106-112 | the fresh-start notice is titled "ThreeADay - Fresh Start" and shown for 8000 ms |
| WorkspaceService.EffectiveResetTime | threeaday-service/src/service.rs:86-87 | the configured time when it parses, 06:00 otherwise, always valid |
| WorkspaceService.PastResetTime | threeaday-service/src/service.rs:90 | the hour and the minute of the UTC time are each at least the reset's |
| WorkspaceService.PastWholeHour | threeaday-service/src/service.rs:90 | with a whole-hour reset, "past reset" means from that hour until midnight |
| WorkspaceService.PastResetTimeComparesMinutesAlone | threeaday-service/src/service.rs:90 | with a 06:30 reset, 07:05 is not past it and 07:35 is |
| WorkspaceService.ReminderDue | threeaday-service/src/service.rs:149-160 | a reminder is due when none was sent yet or the interval in seconds has elapsed since the last one |
| WorkspaceService.ReminderAllowed | threeaday-service/src/service.rs:29-46 | the reminder decision on values: the cap is not reached, the summary query succeeded and the goal is unmet |
| WorkspaceService.DailyResetDue | threeaday-service/src/service.rs:83-99 | the fresh-start decision on values: past the reset time, and no notice yet or more than 3600 seconds since the last |
| WorkspaceService.SendAchievementNotification | threeaday-service/src/service.rs:120-134 | fails exactly when the summary query fails or the goal is met and not delivered; otherwise gives a notice exactly when the goal is met |
| WorkspaceService.StartLocals | threeaday-service/src/service.rs:137-138 | the loop starts with the task check at entry and no goal attempt |
| WorkspaceService.TaskCheckDue | threeaday-service/src/service.rs:163 | a goal check is due when at least 30 seconds elapsed since the last one |
| WorkspaceService.AchievementAttempt | threeaday-service/src/service.rs:163-169 | an attempt needs a due check, a successful summary with the goal met, and no attempt in the last 86400 seconds |
| WorkspaceService.NextLocals | threeaday-service/src/service.rs:163-182 | the check time moves to now exactly when a check is due, and the attempt time moves to now exactly on an attempt, delivered or not |
| WorkspaceService.NoAchievementWithinADay | threeaday-service/src/service.rs:166-174 | after an attempt, no attempt follows within 86400 seconds whatever the summaries say |
| WorkspaceService.Step | threeaday-service/src/service.rs:140-186 | one iteration on values, in the source's order: the fresh-start notice exactly when due and delivered, never within 3600 seconds of the last; a reminder exactly when due, allowed on the count the reset left and delivered, counted; a goal notice exactly on a delivered attempt; the cap is kept |
| WorkspaceService.ResetShownRecord | threeaday-service/src/service.rs:140-186 | over any run, the fresh-start notices shown are more than 3600 seconds apart and the last is the stored reset instant |
| WorkspaceService.ReminderShownRecord | threeaday-service/src/service.rs:140-186 | on a monotonic clock, the reminders shown are at least the interval apart and the last is the stored reminder instant |
| WorkspaceService.ReminderRecordStep | threeaday-service/src/service.rs:147-160 | one iteration extends the reminder record and keeps it spaced |
| WorkspaceService.AchievementShownRecord | threeaday-service/src/service.rs:163-182 | over any run, the goal notices shown are more than 86400 seconds apart, none after the stored attempt |
| WorkspaceService.ShownSpaced | threeaday-service/src/service.rs:136-187 | on a monotonic clock, the instants at which each notice was shown are spaced by that notice's gap |
| WorkspaceService.ServiceState.constructor | threeaday-service/src/service.rs:16-27 | no reminder, no reset, nothing counted |
| WorkspaceService.ServiceState.ShouldSendReminder | threeaday-service/src/service.rs:29-46 | true exactly when the cap is not reached, the summary query succeeded and the goal is unmet |
| WorkspaceService.ServiceState.SendReminder | threeaday-service/src/service.rs:48-81 | shows the reminder exactly when one should go out and is delivered, recording its instant and counting it; otherwise nothing changes |
| WorkspaceService.ServiceState.ShouldSendDailyReset | threeaday-service/src/service.rs:83-99 | true exactly when past the reset hour and minute and no fresh-start notice came in the last 3600 seconds |
| WorkspaceService.ServiceState.SendDailyResetNotification | threeaday-service/src/service.rs:101-118 | shows the fresh-start notice exactly when due and delivered, recording its instant and zeroing the count; otherwise nothing changes |
| WorkspaceService.ServiceState.RunMainLoopIteration | threeaday-service/src/service.rs:140-186 | the new state, the new locals and which notices were shown are those of `Step` on the old state; each notice shown is the source's notification |
| WorkspaceService.ServiceState.RunMainLoop | threeaday-service/src/service.rs:136-187 | the final state is the replay of `Step` over the ticks; the three returned sequences are exactly the instants at which each notice was shown; on a monotonic clock they are spaced by more than an hour, by the interval, and by more than a day |
| WorkspaceService.SpacedAppend | threeaday-service/src/service.rs:136-187 | appending an instant at least the gap after the last one keeps a record spaced |
| WorkspaceService.SpacedPairwise | threeaday-service/src/service.rs:136-187 | in a spaced record, entries k places apart are at least k gaps apart |

## Left out

- Desktop notifications, sounds (`play_notification_sound`) and console output are not modelled. Each notification is a request value, and whether it was shown is a boolean input.
- Clocks are inputs: `Local::now` and `Utc::now` supply dates and times of day, and `Instant::now` supplies monotonic seconds. Sub-second precision is dropped.
- Tokio timers, `select!`, `sleep` and the async runtime are replaced by finite sequences of timer events and loop iterations. The model does not cover the infinite loop, the timers' actual firing pattern or any concurrency.
- SQLite itself, file paths, directory creation and every I/O error of a store are left out. The store is an in-memory table.
  - The services' summary query failing is kept as an input.
  - Ids are unbounded integers rather than `i64`.
- Configuration loading and saving (TOML files, `ProjectDirs`) are left out. Settings are a parameter, and only the defaults are modelled.
- `run_service`'s startup notification is not modelled. The legacy `main` is modelled by `RunService`, except that `ServiceState::new` cannot fail there: loading the configuration and opening the store are I/O.
- The CLIs and GUIs, and `get_project_dirs`, `get_data_dir` and `get_config_dir` in `threeaday-core/src/utils.rs`, are directory lookups and out of scope.
- LegacyDb reuses `CoreTask.Task` for its rows because the legacy `Task` struct in `src/db.rs` has the same four fields.
- Clock.ParseHourMinute: accepts only the two-digit "HH:MM" form. chrono's `%H`/`%M` also accept single digits and surrounding leniency, and the model does not give those. As a consequence, `Clock.ParseThenFormat` and `LegacyService.ServiceConfig.GetResetTime` ("formats back to the setting") hold of this narrowed parser only: chrono reads "6:00" as 06:00, which does not format back to "6:00".
- WorkspaceService.ServiceState.RunMainLoopIteration: reads one store summary and one instant per iteration.
  - The source queries the store up to four times per iteration (`threeaday-service/src/service.rs` lines 34, 53, 121 and 164).
  - It reads `Instant::now()` and each `elapsed()` at slightly different moments.
- LegacyService.ServiceState.ReminderTick: uses one summary for `should_send_reminder` and `send_reminder`, which the source queries separately.
- WorkspaceService.ReminderDue: computes `reminder_interval_minutes * 60` on unbounded integers. The `u64` overflow of a huge setting is not modelled.
- LegacyService.ServiceState.SendReminder: requires the count to be below the cap. Its only caller checks that first, so the `u32` increment cannot overflow.
- LegacyService.DailyCap: bounds the reminders per date only when the firings' dates never go back. If the local date moved backwards, a date could be revisited after a rollover, and the source would then count it afresh.
- WorkspaceService.ShownSpaced: requires a monotonic clock (nondecreasing instants), which only the reminder spacing needs: `ResetShownRecord` and `AchievementShownRecord` hold without it. It states spacing between successive notices; spacing between any two follows from WorkspaceService.SpacedPairwise.
