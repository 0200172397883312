/** The reminder scheduler of the workspace version (threeaday-service). Its
    state keeps the instants of the last reminder and of the last "fresh start"
    notice, and a reminder count. Each loop iteration does three things:
    - It sends the fresh-start notice once the UTC clock is past the reset hour
      and minute, at most once an hour. This also zeroes the count.
    - It sends a reminder when the reminder interval has passed, the cap allows
      one and the goal is unmet.
    - It checks for the goal when at least 30 seconds have passed since the
      last check. The loop sleeps 60 seconds per iteration, so that is every
      iteration after the first. It gives the goal notice at most once per
      86400 seconds. */
module WorkspaceService {
  import opened Wrappers
  import opened Numbers
  import opened Clock
  import opened Notify
  import opened CoreUtils
  import opened CoreConfig

  /** A new fresh-start notice needs more than this many seconds since the last one. */
  const ResetCooldownSeconds: nat := 3600

  /** A new goal notice needs more than this many seconds since the last attempt. */
  const AchievementCooldownSeconds: nat := 86400

  /** The goal is checked when at least this many seconds passed since the last check. */
  const TaskCheckSeconds: nat := 30

  /** `DAILY_GOAL_COMPLETION_COUNT.saturating_sub(completed)`: tasks still to do for the goal. */
  function Remaining(completed: nat): (r: nat)
    ensures r <= DailyGoalCompletionCount
    ensures r == 0 <==> IsDailyGoalAchieved(completed)
    ensures !IsDailyGoalAchieved(completed) ==> completed + r == DailyGoalCompletionCount
  {
    if completed >= DailyGoalCompletionCount then 0 else DailyGoalCompletionCount - completed
  }

  /** The reminder text: a prompt for a first task when there are none, else the
      progress text around the completed count, the total and the number still
      to do. The literals hold, as written in the source, the UTF-8 bytes of an
      emoji re-read as Windows-1252 characters. */
  function ReminderBody(completed: nat, total: nat): (r: string)
    ensures total == 0 ==> r == "Time to add your first task for today! \U{F0}\U{178}\U{17D}\U{AF}"
    ensures total != 0 ==> r == ProgressText(NatToString(completed), NatToString(total), NatToString(Remaining(completed)))
  {
    if total == 0 then
      "Time to add your first task for today! \U{F0}\U{178}\U{17D}\U{AF}"
    else
      ProgressText(NatToString(completed), NatToString(total), NatToString(Remaining(completed)))
  }

  /** The progress reminder around three counts written in decimal: it opens
      with "You have ", the completed count follows, then a slash and the total,
      and the number still to do starts 18 characters after the total. */
  function ProgressText(cs: string, ts: string, rs: string): (r: string)
    ensures |r| > 9 && r[..9] == "You have "
    ensures 10 + |cs| + |ts| <= |r| && r[9..9 + |cs|] == cs && r[9 + |cs|] == '/' && r[10 + |cs|..10 + |cs| + |ts|] == ts
    ensures 28 + |cs| + |ts| + |rs| <= |r| && r[28 + |cs| + |ts|..28 + |cs| + |ts| + |rs|] == rs
  {
    var r := "You have " + cs + "/" + ts + " tasks completed. " + rs + " more to reach your daily goal! \U{F0}\U{178}\U{2019}\U{AA}";
    assert r[9..9 + |cs|] == cs;
    assert r[10 + |cs|..10 + |cs| + |ts|] == ts;
    assert r[28 + |cs| + |ts|..28 + |cs| + |ts| + |rs|] == rs;
    r
  }

  /** A reminder, shown for five seconds. */
  function ReminderNotification(completed: nat, total: nat): (n: Notification)
    ensures n.summary == "ThreeADay Reminder" && n.body == ReminderBody(completed, total) && n.timeoutMs == 5000
  {
    Notification("ThreeADay Reminder", ReminderBody(completed, total), DefaultUrgency, 5000)
  }

  /** The fresh-start notice, shown for eight seconds. */
  const FreshStartNotification: Notification :=
    Notification("ThreeADay - Fresh Start",
      "\U{F0}\U{178}\U{152}\U{2026} Good morning! It's a fresh start. What 3 tasks will you complete today?",
      DefaultUrgency, 8000)

  /** The fresh-start notice is titled "ThreeADay - Fresh Start", asks for
      three tasks and is shown for eight seconds. */
  lemma FreshStartNoticeFields()
    ensures FreshStartNotification.summary == "ThreeADay - Fresh Start"
    ensures FreshStartNotification.urgency == DefaultUrgency && FreshStartNotification.timeoutMs == 8000
  {
  }

  /** The goal notice, quoting the completed count, shown for eight seconds. */
  function AchievementNotification(completed: nat): (n: Notification)
    ensures n.summary == "ThreeADay - Goal Achieved!" && n.timeoutMs == 8000
  {
    Notification("ThreeADay - Goal Achieved!",
      "\U{F0}\U{178}\U{17D}\U{2030} Congratulations! You've completed " + NatToString(completed)
        + " tasks today. Goal achieved! \U{F0}\U{178}\U{17D}\U{AF}",
      DefaultUrgency, 8000)
  }

  /** The reset time in force: the configured "HH:MM", or 06:00 when it does not parse. */
  function EffectiveResetTime(setting: string): (hm: HourMinute)
    ensures hm.Valid()
    ensures ParseHourMinute(setting).Some? ==> hm == ParseHourMinute(setting).value
    ensures ParseHourMinute(setting).None? ==> hm == HourMinute(6, 0)
  {
    ParseHourMinute(setting).GetOr(HourMinute(6, 0))
  }

  /** The "past reset time" test of `should_send_daily_reset`: hour and minute are
      compared separately, each at least the reset's. */
  predicate PastResetTime(utcNow: TimeOfDay, reset: HourMinute) {
    Hour(utcNow) >= reset.hour && Minute(utcNow) >= reset.minute
  }

  /** With a whole-hour reset time the test means "from that hour on, until midnight". */
  lemma PastWholeHour(utcNow: TimeOfDay, hour: nat)
    ensures PastResetTime(utcNow, HourMinute(hour, 0)) <==> Hour(utcNow) >= hour
  {
  }

  /** Because the minute is compared on its own, 07:05 does not count as past a 06:30 reset. */
  lemma PastResetTimeComparesMinutesAlone()
    ensures !PastResetTime(7 * 3600 + 5 * 60, HourMinute(6, 30))
    ensures PastResetTime(7 * 3600 + 35 * 60, HourMinute(6, 30))
  {
  }

  /** The reminder gate of the loop: no reminder yet, or the configured interval has passed. */
  predicate ReminderDue(lastReminder: Option<Instant>, now: Instant, intervalMinutes: nat) {
    lastReminder.None? || Elapsed(lastReminder.value, now) >= intervalMinutes * 60
  }

  /** `send_achievement_notification`: a goal notice when the goal is met. It fails
      when the summary query fails or the notice cannot be shown. */
  function SendAchievementNotification(summary: Option<(nat, nat)>, delivered: bool): (r: Result<Option<Notification>>)
    ensures r.Err? <==> summary.None? || (IsDailyGoalAchieved(summary.value.0) && !delivered)
    ensures r.Ok? ==> (r.value.Some? <==> IsDailyGoalAchieved(summary.value.0))
    ensures r.Ok? && r.value.Some? ==> r.value.value == AchievementNotification(summary.value.0)
  {
    match summary
    case None => Err("task summary query failed")
    case Some((completed, _)) =>
      if !IsDailyGoalAchieved(completed) then Ok(None)
      else if delivered then Ok(Some(AchievementNotification(completed)))
      else Err("notification failed")
  }

  /** The locals of `run_main_loop`: when the goal was last checked, and when a
      goal notice was last attempted. */
  datatype LoopLocals = LoopLocals(lastTaskCheck: Instant, lastAchievementCheck: Option<Instant>)

  /** The locals on entering the loop at `start`. */
  function StartLocals(start: Instant): (l: LoopLocals)
    ensures l.lastTaskCheck == start && l.lastAchievementCheck.None?
  {
    LoopLocals(start, None)
  }

  /** Whether this iteration checks the goal at all. */
  predicate TaskCheckDue(locals: LoopLocals, now: Instant) {
    Elapsed(locals.lastTaskCheck, now) >= TaskCheckSeconds
  }

  /** Whether this iteration attempts a goal notice: a check is due, the summary
      shows the goal met, and no attempt was made in the last 86400 seconds. */
  predicate AchievementAttempt(locals: LoopLocals, now: Instant, summary: Option<(nat, nat)>) {
    && TaskCheckDue(locals, now)
    && summary.Some? && IsDailyGoalAchieved(summary.value.0)
    && (locals.lastAchievementCheck.None? || Elapsed(locals.lastAchievementCheck.value, now) > AchievementCooldownSeconds)
  }

  /** The locals after an iteration. They do not depend on whether the goal
      notice was delivered: an attempt counts even when it failed. */
  function NextLocals(locals: LoopLocals, now: Instant, summary: Option<(nat, nat)>): (n: LoopLocals)
    ensures n.lastTaskCheck == if TaskCheckDue(locals, now) then now else locals.lastTaskCheck
    ensures AchievementAttempt(locals, now, summary) ==> n.lastAchievementCheck == Some(now)
    ensures !AchievementAttempt(locals, now, summary) ==> n.lastAchievementCheck == locals.lastAchievementCheck
  {
    if !TaskCheckDue(locals, now) then locals
    else
      var lastAchievement := if AchievementAttempt(locals, now, summary) then Some(now) else locals.lastAchievementCheck;
      LoopLocals(now, lastAchievement)
  }

  /** After an attempt, no attempt follows within 86400 seconds, whatever the summaries say. */
  lemma {:induction false} NoAchievementWithinADay(locals: LoopLocals, now: Instant, summary: Option<(nat, nat)>,
                                                  later: Instant, laterSummary: Option<(nat, nat)>)
    requires AchievementAttempt(locals, now, summary)
    requires now <= later <= now + AchievementCooldownSeconds
    ensures !AchievementAttempt(NextLocals(locals, now, summary), later, laterSummary)
  {
    assert NextLocals(locals, now, summary).lastAchievementCheck == Some(now);
  }

  /** What one loop iteration reads: the monotonic instant, the UTC time of day,
      the store's summary, and whether each of the three notices would be delivered. */
  datatype Tick = Tick(now: Instant, utcNow: TimeOfDay, summary: Option<(nat, nat)>,
                       resetDelivered: bool, reminderDelivered: bool, achievementDelivered: bool)

  /** The decision of `should_send_reminder` on the values it reads: the cap is
      not reached, the summary query succeeded and the goal is unmet. */
  predicate ReminderAllowed(maxReminders: nat, sentToday: nat, summary: Option<(nat, nat)>) {
    if sentToday >= maxReminders then false
    else match summary
      case Some((completed, _)) => !IsDailyGoalAchieved(completed)
      case None => false
  }

  /** The decision of `should_send_daily_reset` on the values it reads: past the
      reset hour and minute, and more than an hour since the last fresh-start notice. */
  predicate DailyResetDue(reset: HourMinute, lastReset: Option<Instant>, now: Instant, utcNow: TimeOfDay) {
    if PastResetTime(utcNow, reset) then
      match lastReset
      case Some(last) => Elapsed(last, now) > ResetCooldownSeconds
      case None => true
    else
      false
  }

  /** What an iteration of the main loop reads and writes: the service's instants
      and count, and the loop's locals. */
  datatype LoopState = LoopState(lastReminderTime: Option<Instant>, lastResetTime: Option<Instant>,
                                 remindersSentToday: nat, locals: LoopLocals)

  /** The state after one iteration and which of the three notices it showed. */
  datatype StepResult = StepResult(state: LoopState, resetShown: bool, reminderShown: bool, achievementShown: bool)

  /** One iteration of `run_main_loop` on values: the fresh-start rule, then the
      reminder rule on the count the first rule left, then the goal check. */
  function Step(config: Config, s: LoopState, tick: Tick): (r: StepResult)
    ensures r.resetShown <==>
      DailyResetDue(EffectiveResetTime(config.dailyResetTime), s.lastResetTime, tick.now, tick.utcNow) && tick.resetDelivered
    ensures var base := if r.resetShown then 0 else s.remindersSentToday;
      && (r.reminderShown <==>
            && ReminderDue(s.lastReminderTime, tick.now, config.reminderIntervalMinutes)
            && ReminderAllowed(config.maxRemindersPerDay, base, tick.summary) && tick.reminderDelivered)
      && r.state.remindersSentToday == base + (if r.reminderShown then 1 else 0)
    ensures r.achievementShown <==> AchievementAttempt(s.locals, tick.now, tick.summary) && tick.achievementDelivered
    ensures r.resetShown ==> s.lastResetTime.None? || s.lastResetTime.value + ResetCooldownSeconds < tick.now
    ensures r.state.lastResetTime == if r.resetShown then Some(tick.now) else s.lastResetTime
    ensures r.reminderShown ==> ReminderDue(s.lastReminderTime, tick.now, config.reminderIntervalMinutes)
    ensures r.state.lastReminderTime == if r.reminderShown then Some(tick.now) else s.lastReminderTime
    ensures r.achievementShown ==> AchievementAttempt(s.locals, tick.now, tick.summary)
    ensures r.state.locals == NextLocals(s.locals, tick.now, tick.summary)
    ensures s.remindersSentToday <= config.maxRemindersPerDay ==> r.state.remindersSentToday <= config.maxRemindersPerDay
  {
    var now := tick.now;
    var reset := DailyResetDue(EffectiveResetTime(config.dailyResetTime), s.lastResetTime, now, tick.utcNow)
                 && tick.resetDelivered;
    var count := if reset then 0 else s.remindersSentToday;
    var reminder := ReminderDue(s.lastReminderTime, now, config.reminderIntervalMinutes)
                    && ReminderAllowed(config.maxRemindersPerDay, count, tick.summary) && tick.reminderDelivered;
    var achievement := AchievementAttempt(s.locals, now, tick.summary) && tick.achievementDelivered;
    StepResult(LoopState(if reminder then Some(now) else s.lastReminderTime,
                         if reset then Some(now) else s.lastResetTime,
                         if reminder then count + 1 else count,
                         NextLocals(s.locals, now, tick.summary)),
               reset, reminder, achievement)
  }

  /** The state after the first `n` iterations from `s0`. */
  function StateAfter(config: Config, s0: LoopState, ticks: seq<Tick>, n: nat): LoopState
    requires n <= |ticks|
  {
    if n == 0 then s0 else Step(config, StateAfter(config, s0, ticks, n - 1), ticks[n - 1]).state
  }

  /** The three notices of the loop. */
  datatype Rule = FreshStart | Reminder | GoalAchieved

  function Shows(r: StepResult, rule: Rule): bool {
    match rule
    case FreshStart => r.resetShown
    case Reminder => r.reminderShown
    case GoalAchieved => r.achievementShown
  }

  /** The instants, in order, at which the first `n` iterations showed the notice of `rule`. */
  function ShownAt(config: Config, s0: LoopState, ticks: seq<Tick>, rule: Rule, n: nat): seq<Instant>
    requires n <= |ticks|
  {
    if n == 0 then []
    else
      var shown := Shows(Step(config, StateAfter(config, s0, ticks, n - 1), ticks[n - 1]), rule);
      ShownAt(config, s0, ticks, rule, n - 1) + (if shown then [ticks[n - 1].now] else [])
  }

  /** The loop's clock never goes back. */
  predicate Monotone(ticks: seq<Tick>) {
    forall i :: 0 < i < |ticks| ==> ticks[i - 1].now <= ticks[i].now
  }

  /** After `n` iterations the fresh-start record is spaced by more than an
      hour and its last entry is the stored reset instant. */
  lemma {:induction false} ResetShownRecord(config: Config, s0: LoopState, ticks: seq<Tick>, n: nat)
    requires n <= |ticks|
    ensures ResetRecord(StateAfter(config, s0, ticks, n).lastResetTime, ShownAt(config, s0, ticks, FreshStart, n))
  {
    if n > 0 {
      ResetShownRecord(config, s0, ticks, n - 1);
      var r := Step(config, StateAfter(config, s0, ticks, n - 1), ticks[n - 1]);
      if r.resetShown {
        SpacedAppend(ShownAt(config, s0, ticks, FreshStart, n - 1), ticks[n - 1].now, ResetCooldownSeconds + 1);
      }
    }
  }

  /** After `n` iterations on a monotonic clock the reminder record is spaced by
      the interval and its last entry is the stored reminder instant. */
  lemma {:induction false} ReminderShownRecord(config: Config, s0: LoopState, ticks: seq<Tick>, n: nat)
    requires n <= |ticks| && Monotone(ticks)
    ensures ReminderRecord(config.reminderIntervalMinutes * 60, StateAfter(config, s0, ticks, n).lastReminderTime,
                           if n == 0 then 0 else ticks[n - 1].now, ShownAt(config, s0, ticks, Reminder, n))
  {
    if n > 0 {
      ReminderShownRecord(config, s0, ticks, n - 1);
      var reminders := ShownAt(config, s0, ticks, Reminder, n - 1);
      if reminders != [] {
        assert ticks[n - 2].now <= ticks[n - 1].now;
      }
      ReminderRecordStep(config, StateAfter(config, s0, ticks, n - 1), ticks[n - 1],
                         if n - 1 == 0 then 0 else ticks[n - 2].now, reminders);
    }
  }

  /** One iteration extends the reminder record. */
  lemma ReminderRecordStep(config: Config, prev: LoopState, tick: Tick, upTo: Instant, times: seq<Instant>)
    requires ReminderRecord(config.reminderIntervalMinutes * 60, prev.lastReminderTime, upTo, times)
    requires times != [] ==> upTo <= tick.now
    ensures var r := Step(config, prev, tick);
      ReminderRecord(config.reminderIntervalMinutes * 60, r.state.lastReminderTime, tick.now,
                     times + (if r.reminderShown then [tick.now] else []))
  {
    if Step(config, prev, tick).reminderShown {
      SpacedAppend(times, tick.now, config.reminderIntervalMinutes * 60);
    }
  }

  /** After `n` iterations the goal record is spaced by more than a day and its
      last entry is no later than the stored goal attempt. */
  lemma {:induction false} AchievementShownRecord(config: Config, s0: LoopState, ticks: seq<Tick>, n: nat)
    requires n <= |ticks|
    ensures AchievementRecord(StateAfter(config, s0, ticks, n).locals.lastAchievementCheck,
                              ShownAt(config, s0, ticks, GoalAchieved, n))
  {
    if n > 0 {
      AchievementShownRecord(config, s0, ticks, n - 1);
      var r := Step(config, StateAfter(config, s0, ticks, n - 1), ticks[n - 1]);
      if r.achievementShown {
        SpacedAppend(ShownAt(config, s0, ticks, GoalAchieved, n - 1), ticks[n - 1].now, AchievementCooldownSeconds + 1);
      }
    }
  }

  /** On a monotonic clock, successive fresh-start notices are more than an hour
      apart, successive reminders at least the reminder interval apart, and
      successive goal notices more than 86400 seconds apart. */
  lemma ShownSpaced(config: Config, s0: LoopState, ticks: seq<Tick>)
    requires Monotone(ticks)
    ensures Spaced(ShownAt(config, s0, ticks, FreshStart, |ticks|), ResetCooldownSeconds + 1)
    ensures Spaced(ShownAt(config, s0, ticks, Reminder, |ticks|), config.reminderIntervalMinutes * 60)
    ensures Spaced(ShownAt(config, s0, ticks, GoalAchieved, |ticks|), AchievementCooldownSeconds + 1)
  {
    ResetShownRecord(config, s0, ticks, |ticks|);
    ReminderShownRecord(config, s0, ticks, |ticks|);
    AchievementShownRecord(config, s0, ticks, |ticks|);
  }

  /** `ServiceState`: the configuration, the two instants and the reminder count. */
  class ServiceState {
    const config: Config
    var lastReminderTime: Option<Instant>
    var lastResetTime: Option<Instant>
    var remindersSentToday: U32

    /** The cap on reminders holds. */
    ghost predicate Valid()
      reads this
    {
      remindersSentToday <= config.maxRemindersPerDay
    }

    /** `ServiceState::new`: no reminder and no reset yet, nothing counted. */
    constructor (config: Config)
      ensures Valid() && this.config == config
      ensures lastReminderTime.None? && lastResetTime.None? && remindersSentToday == 0
    {
      this.config := config;
      lastReminderTime := None;
      lastResetTime := None;
      remindersSentToday := 0;
    }

    /** `should_send_reminder`: the cap is not reached, the summary query
        succeeded and the goal is unmet. */
    function ShouldSendReminder(summary: Option<(nat, nat)>): (r: bool)
      reads this
      ensures r ==> remindersSentToday < config.maxRemindersPerDay
      ensures r <==> remindersSentToday < config.maxRemindersPerDay && summary.Some? && !IsDailyGoalAchieved(summary.value.0)
    {
      ReminderAllowed(config.maxRemindersPerDay, remindersSentToday, summary)
    }
    /** `send_reminder`: when a reminder should go out and is delivered, record
        its instant and count it; in every other case nothing changes. */
    method SendReminder(now: Instant, summary: Option<(nat, nat)>, delivered: bool) returns (shown: Option<Notification>)
      requires Valid()
      modifies this
      ensures Valid() && lastResetTime == old(lastResetTime)
      ensures shown.Some? <==> old(ShouldSendReminder(summary)) && delivered
      ensures shown.Some? ==>
        && shown.value == ReminderNotification(summary.value.0, summary.value.1)
        && lastReminderTime == Some(now) && remindersSentToday == old(remindersSentToday) + 1
      ensures shown.None? ==> lastReminderTime == old(lastReminderTime) && remindersSentToday == old(remindersSentToday)
    {
      shown := None;
      if !ShouldSendReminder(summary) {
        return;
      }
      var (completed, total) := summary.value;
      if delivered {
        shown := Some(ReminderNotification(completed, total));
        lastReminderTime := Some(now);
        remindersSentToday := remindersSentToday + 1;
      }
    }

    /** `should_send_daily_reset`: past the reset hour and minute on the UTC clock,
        and no fresh-start notice in the last hour. */
    function ShouldSendDailyReset(now: Instant, utcNow: TimeOfDay): (r: bool)
      reads this
      ensures r ==> PastResetTime(utcNow, EffectiveResetTime(config.dailyResetTime))
      ensures r ==> lastResetTime.None? || lastResetTime.value + ResetCooldownSeconds < now
      ensures (&& PastResetTime(utcNow, EffectiveResetTime(config.dailyResetTime))
               && (lastResetTime.None? || lastResetTime.value + ResetCooldownSeconds < now)) ==> r
    {
      DailyResetDue(EffectiveResetTime(config.dailyResetTime), lastResetTime, now, utcNow)
    }

    /** `send_daily_reset_notification`: when a reset is due and the notice is
        delivered, record its instant and zero the reminder count; in every
        other case nothing changes. */
    method SendDailyResetNotification(now: Instant, utcNow: TimeOfDay, delivered: bool) returns (shown: Option<Notification>)
      requires Valid()
      modifies this
      ensures Valid() && lastReminderTime == old(lastReminderTime)
      ensures shown.Some? <==> old(ShouldSendDailyReset(now, utcNow)) && delivered
      ensures shown.Some? ==> shown.value == FreshStartNotification && lastResetTime == Some(now) && remindersSentToday == 0
      ensures shown.None? ==> lastResetTime == old(lastResetTime) && remindersSentToday == old(remindersSentToday)
    {
      shown := None;
      if !ShouldSendDailyReset(now, utcNow) {
        return;
      }
      if delivered {
        shown := Some(FreshStartNotification);
        lastResetTime := Some(now);
        remindersSentToday := 0;
      }
    }

    /** One iteration of `run_main_loop`: the reset rule, then the reminder rule
        behind its interval gate, then the goal check. It returns the updated
        locals and the notice each rule showed, if any. */
    method RunMainLoopIteration(locals: LoopLocals, tick: Tick)
      returns (next: LoopLocals, resetShown: Option<Notification>, reminderShown: Option<Notification>,
               achievementShown: Option<Notification>)
      requires Valid()
      modifies this
      ensures Valid()
      ensures next == NextLocals(locals, tick.now, tick.summary)
      ensures Step(config, old(Snapshot(locals)), tick)
           == StepResult(Snapshot(next), resetShown.Some?, reminderShown.Some?, achievementShown.Some?)
      ensures resetShown.Some? ==> resetShown.value == FreshStartNotification
      ensures reminderShown.Some? ==> reminderShown.value == ReminderNotification(tick.summary.value.0, tick.summary.value.1)
      ensures achievementShown.Some? ==> achievementShown.value == AchievementNotification(tick.summary.value.0)
    {
      ghost var r := Step(config, Snapshot(locals), tick);
      var now := tick.now;
      resetShown := SendDailyResetNotification(now, tick.utcNow, tick.resetDelivered);
      assert resetShown.Some? == r.resetShown;
      reminderShown := None;
      if lastReminderTime.Some? {
        if Elapsed(lastReminderTime.value, now) >= config.reminderIntervalMinutes * 60 {
          reminderShown := SendReminder(now, tick.summary, tick.reminderDelivered);
        }
      } else {
        reminderShown := SendReminder(now, tick.summary, tick.reminderDelivered);
      }
      assert reminderShown.Some? == r.reminderShown && remindersSentToday == r.state.remindersSentToday;
      achievementShown := None;
      next := locals;
      if Elapsed(locals.lastTaskCheck, now) >= TaskCheckSeconds {
        match tick.summary {
          case Some((completed, _)) =>
            if IsDailyGoalAchieved(completed) {
              if locals.lastAchievementCheck.None?
                || Elapsed(locals.lastAchievementCheck.value, now) > AchievementCooldownSeconds
              {
                var sent := SendAchievementNotification(tick.summary, tick.achievementDelivered);
                if sent.Ok? {
                  achievementShown := sent.value;
                }
                next := next.(lastAchievementCheck := Some(now));
              }
            }
          case None =>
        }
        next := next.(lastTaskCheck := now);
      }
      assert next == r.state.locals && achievementShown.Some? == r.achievementShown;
    }

    /** The state's part of a `LoopState`, with the loop's locals. */
    function Snapshot(locals: LoopLocals): (s: LoopState)
      reads this
      ensures s.lastReminderTime == lastReminderTime && s.lastResetTime == lastResetTime
      ensures s.remindersSentToday == remindersSentToday && s.locals == locals
    {
      LoopState(lastReminderTime, lastResetTime, remindersSentToday, locals)
    }

    /** `run_main_loop` over a finite run of iterations, entered at `start`. The
        final state is the replay of `Step` over the iterations, and the returned
        sequences are exactly the instants at which each notice was shown. On a
        monotonic clock those instants are spaced as `ShownSpaced` states. */
    method RunMainLoop(start: Instant, ticks: seq<Tick>)
      returns (resetTimes: seq<Instant>, reminderTimes: seq<Instant>, achievementTimes: seq<Instant>)
      requires Valid()
      modifies this
      ensures Valid()
      ensures var final := StateAfter(config, old(Snapshot(StartLocals(start))), ticks, |ticks|);
        && lastReminderTime == final.lastReminderTime && lastResetTime == final.lastResetTime
        && remindersSentToday == final.remindersSentToday
      ensures resetTimes == ShownAt(config, old(Snapshot(StartLocals(start))), ticks, FreshStart, |ticks|)
      ensures reminderTimes == ShownAt(config, old(Snapshot(StartLocals(start))), ticks, Reminder, |ticks|)
      ensures achievementTimes == ShownAt(config, old(Snapshot(StartLocals(start))), ticks, GoalAchieved, |ticks|)
      ensures Monotone(ticks) ==>
        && Spaced(resetTimes, ResetCooldownSeconds + 1)
        && Spaced(reminderTimes, config.reminderIntervalMinutes * 60)
        && Spaced(achievementTimes, AchievementCooldownSeconds + 1)
    {
      var locals := StartLocals(start);
      ghost var s0 := Snapshot(locals);
      resetTimes, reminderTimes, achievementTimes := [], [], [];
      for k := 0 to |ticks|
        invariant Valid()
        invariant Snapshot(locals) == StateAfter(config, s0, ticks, k)
        invariant resetTimes == ShownAt(config, s0, ticks, FreshStart, k)
        invariant reminderTimes == ShownAt(config, s0, ticks, Reminder, k)
        invariant achievementTimes == ShownAt(config, s0, ticks, GoalAchieved, k)
      {
        var resetShown, reminderShown, achievementShown;
        locals, resetShown, reminderShown, achievementShown := RunMainLoopIteration(locals, ticks[k]);
        if resetShown.Some? {
          resetTimes := resetTimes + [ticks[k].now];
        }
        if reminderShown.Some? {
          reminderTimes := reminderTimes + [ticks[k].now];
        }
        if achievementShown.Some? {
          achievementTimes := achievementTimes + [ticks[k].now];
        }
      }
      if Monotone(ticks) {
        ShownSpaced(config, s0, ticks);
      }
    }
  }

  /** The fresh-start record: spaced by more than the reset cooldown, its last
      entry the stored reset instant. */
  ghost predicate ResetRecord(lastReset: Option<Instant>, times: seq<Instant>) {
    && Spaced(times, ResetCooldownSeconds + 1)
    && (times != [] ==> lastReset == Some(times[|times| - 1]))
  }

  /** The reminder record: spaced by the interval, its last entry the stored
      reminder instant, no later than `upTo`. */
  ghost predicate ReminderRecord(gap: nat, lastReminder: Option<Instant>, upTo: Instant, times: seq<Instant>) {
    && Spaced(times, gap)
    && (times != [] ==> lastReminder == Some(times[|times| - 1]) && times[|times| - 1] <= upTo)
  }

  /** The goal-notice record: spaced by more than a day, its last entry no later
      than the stored goal attempt. */
  ghost predicate AchievementRecord(lastCheck: Option<Instant>, times: seq<Instant>) {
    && Spaced(times, AchievementCooldownSeconds + 1)
    && (times != [] ==> lastCheck.Some? && times[|times| - 1] <= lastCheck.value)
  }

  /** Each instant at least `gap` seconds after the one before it. */
  ghost predicate Spaced(times: seq<Instant>, gap: nat) {
    forall i :: 0 < i < |times| ==> times[i - 1] + gap <= times[i]
  }

  lemma SpacedAppend(times: seq<Instant>, t: Instant, gap: nat)
    requires Spaced(times, gap)
    requires times != [] ==> times[|times| - 1] + gap <= t
    ensures Spaced(times + [t], gap)
  {
    var s := times + [t];
    forall i | 0 < i < |s| ensures s[i - 1] + gap <= s[i] {
      if i < |times| {
        assert s[i - 1] == times[i - 1] && s[i] == times[i];
      }
    }
  }

  /** Spacing between neighbours adds up: any two instants `j - i` places apart are at least `(j - i) * gap` apart. */
  lemma {:induction false} SpacedPairwise(times: seq<Instant>, gap: nat, i: nat, j: nat)
    requires Spaced(times, gap)
    requires i <= j < |times|
    ensures times[i] + (j - i) * gap <= times[j]
    decreases j - i
  {
    if i < j {
      SpacedPairwise(times, gap, i, j - 1);
      assert times[j - 1] + gap <= times[j];
    }
  }
}
