/** The reminder scheduler of the first, single-crate version. A state remembers
    how many reminders went out on its current calendar date. Two timers drive
    it: the reminder timer sends a reminder while the daily cap allows and the
    goal is unmet; the minute timer raises a "new day" notice inside a one-minute
    window around the configured reset time. Both first roll the counter over
    when the date has changed. The goal notice is sent once, at startup. */
module LegacyService {
  import opened Wrappers
  import opened Numbers
  import opened Clock
  import opened Notify

  /** The daily goal, written here as the literal `completed >= 3`. */
  const Goal: nat := 3

  /** `ServiceConfig`: minutes between reminder timer ticks, the "HH:MM" reset
      time and the daily cap on reminders. */
  datatype ServiceConfig = ServiceConfig(reminderIntervalMinutes: nat, dailyResetTime: string, maxRemindersPerDay: U32) {

    /** `get_reset_time`: the configured time of day, or None when the setting is not "HH:MM". */
    function GetResetTime(): (r: Option<HourMinute>)
      ensures r.Some? ==> r.value.Valid() && FormatHourMinute(r.value) == dailyResetTime
    {
      var r := ParseHourMinute(dailyResetTime);
      if r.Some? then ParseThenFormat(dailyResetTime); r else r
    }
  }

  /** The settings written and used when no configuration file exists. */
  function DefaultConfig(): (c: ServiceConfig)
    ensures c.reminderIntervalMinutes == 45 && c.dailyResetTime == "06:00" && c.maxRemindersPerDay == 8
  {
    ServiceConfig(45, "06:00", 8)
  }

  /** Any well-formed "HH:MM" setting is read back as that hour and minute. */
  lemma GetResetTimeOfFormatted(c: ServiceConfig, hm: HourMinute)
    requires hm.Valid() && c.dailyResetTime == FormatHourMinute(hm)
    ensures c.GetResetTime() == Some(hm)
  {
    FormatThenParse(hm);
  }

  /** The default settings reset at 06:00. */
  lemma DefaultResetTime()
    ensures DefaultConfig().GetResetTime() == Some(HourMinute(6, 0))
  {
    assert FormatHourMinute(HourMinute(6, 0)) == "06:00";
    GetResetTimeOfFormatted(DefaultConfig(), HourMinute(6, 0));
  }

  /** The three wordings of a reminder. */
  datatype ReminderMessage = AddFirstTask | TackleTasks(total: nat) | Progress(completed: nat, total: nat) {

    function Text(): string {
      match this
      case AddFirstTask => "\U{1F4A1} Add your first task for today!"
      case TackleTasks(t) => "\U{1F680} Time to tackle your " + NatToString(t) + " tasks!"
      case Progress(c, t) => "\U{1F3C3} Progress: " + NatToString(c) + "/" + NatToString(t) + " tasks completed. Keep going!"
    }
  }

  /** The wording `send_reminder` picks: no tasks yet, then none completed, then progress. */
  function ChooseReminderMessage(completed: nat, total: nat): (m: ReminderMessage)
    ensures m.AddFirstTask? <==> total == 0
    ensures m.TackleTasks? <==> total != 0 && completed == 0
    ensures m.TackleTasks? ==> m.total == total
    ensures m.Progress? ==> m.completed == completed && m.total == total
  {
    if total == 0 then AddFirstTask
    else if completed == 0 then TackleTasks(total)
    else Progress(completed, total)
  }

  /** A reminder: persistent, critical, titled "ThreeADay". */
  function ReminderNotification(m: ReminderMessage): (n: Notification)
    ensures n.summary == "ThreeADay" && n.body == m.Text() && n.urgency == Critical && n.Persistent()
  {
    Notification("ThreeADay", m.Text(), Critical, 0)
  }

  /** The persistent "new day" notice. */
  const DailyResetNotification: Notification :=
    Notification("ThreeADay - New Day!", "\U{1F305} Ready for a fresh start? Add your first task for today!", Critical, 0)

  /** The "new day" notice is titled "ThreeADay - New Day!", critical and persistent. */
  lemma DailyResetNoticeFields()
    ensures DailyResetNotification.summary == "ThreeADay - New Day!"
    ensures DailyResetNotification.urgency == Critical && DailyResetNotification.Persistent()
  {
  }

  /** The persistent goal notice, quoting the completed count. */
  function AchievementNotification(completed: nat): (n: Notification)
    ensures n.summary == "ThreeADay - Goal Achieved!" && n.urgency == Critical && n.Persistent()
  {
    Notification("ThreeADay - Goal Achieved!",
      "\U{1F3AF} Amazing! You've completed " + NatToString(completed) + " tasks today! Great momentum!", Critical, 0)
  }

  /** A difference of at most one minute between two times of day, measured
      within the day: there is no wrap-around at midnight. */
  predicate WithinOneMinute(now: TimeOfDay, reset: TimeOfDay) {
    (if now >= reset then now - reset else reset - now) <= 60
  }

  /** The window is the closed interval of one minute either side of the reset time. */
  lemma WithinOneMinuteBounds(now: TimeOfDay, reset: TimeOfDay)
    ensures WithinOneMinute(now, reset) <==> reset - 60 <= now <= reset + 60
  {
  }

  /** Half a minute before midnight is not within a minute of a 00:00 reset. */
  lemma WithinOneMinuteNoWrap()
    ensures !WithinOneMinute(23 * 3600 + 59 * 60 + 30, 0)
  {
  }

  /** `check_for_achievements`, run once at startup on the store's summary: a
      goal notice when three tasks are done. It fails, and so stops the service,
      when the summary query fails or the notice cannot be shown. */
  function CheckForAchievements(summary: Option<(nat, nat)>, delivered: bool): (r: Result<Option<Notification>>)
    ensures r.Err? <==> summary.None? || (summary.value.0 >= Goal && !delivered)
    ensures r.Ok? ==> (r.value.Some? <==> summary.value.0 >= Goal)
    ensures r.Ok? && r.value.Some? ==> r.value.value == AchievementNotification(summary.value.0)
  {
    match summary
    case None => Err("task summary query failed")
    case Some((completed, _)) =>
      if completed < Goal then Ok(None)
      else if delivered then Ok(Some(AchievementNotification(completed)))
      else Err("Failed to send achievement notification")
  }

  /** One firing of either timer of `main`, with the clock readings and the
      collaborators' answers it sees. */
  datatype Event =
    | ReminderTimer(today: Date, summary: Option<(nat, nat)>, delivered: bool)
    | DailyTimer(today: Date, now: TimeOfDay, delivered: bool)

  /** `is_daily_reset_time` on the configuration it reads: within a minute of
      the configured reset time, never when the setting does not parse. */
  predicate InResetWindow(config: ServiceConfig, now: TimeOfDay) {
    match config.GetResetTime()
    case None => false
    case Some(reset) => WithinOneMinute(now, reset.Seconds())
  }

  /** The part of a state the timers change: the count and the date it belongs to. */
  datatype Counter = Counter(remindersSentToday: nat, lastReminderDate: Date)

  /** The counter after one firing and which notice it showed. */
  datatype EventResult = EventResult(counter: Counter, reminderShown: bool, resetShown: bool)

  /** One timer firing of `main` on values: the rollover on a new date, then the
      reminder decision or the reset-window decision. */
  function HandleEvent(config: ServiceConfig, c: Counter, e: Event): (r: EventResult)
    ensures r.counter.lastReminderDate == e.today
    ensures var base := if e.today != c.lastReminderDate then 0 else c.remindersSentToday;
      && (r.reminderShown <==>
            e.ReminderTimer? && base < config.maxRemindersPerDay && e.summary.Some? && e.summary.value.0 < Goal && e.delivered)
      && r.counter.remindersSentToday == base + (if r.reminderShown then 1 else 0)
    ensures r.resetShown <==> e.DailyTimer? && InResetWindow(config, e.now) && e.delivered
    ensures c.remindersSentToday <= config.maxRemindersPerDay ==> r.counter.remindersSentToday <= config.maxRemindersPerDay
  {
    var base := if e.today != c.lastReminderDate then 0 else c.remindersSentToday;
    match e
    case ReminderTimer(today, summary, delivered) =>
      var shown := base < config.maxRemindersPerDay && summary.Some? && summary.value.0 < Goal && delivered;
      EventResult(Counter(if shown then base + 1 else base, today), shown, false)
    case DailyTimer(today, now, delivered) =>
      EventResult(Counter(base, today), false, InResetWindow(config, now) && delivered)
  }

  /** The counter after the first `n` firings from `c0`. */
  function Replay(config: ServiceConfig, c0: Counter, events: seq<Event>, n: nat): Counter
    requires n <= |events|
  {
    if n == 0 then c0 else HandleEvent(config, Replay(config, c0, events, n - 1), events[n - 1]).counter
  }

  /** The reminders the first `n` firings showed. */
  function RemindersShownIn(config: ServiceConfig, c0: Counter, events: seq<Event>, n: nat): nat
    requires n <= |events|
  {
    if n == 0 then 0
    else
      var r := HandleEvent(config, Replay(config, c0, events, n - 1), events[n - 1]);
      RemindersShownIn(config, c0, events, n - 1) + (if r.reminderShown then 1 else 0)
  }

  /** The "new day" notices the first `n` firings showed. */
  function ResetsShownIn(config: ServiceConfig, c0: Counter, events: seq<Event>, n: nat): nat
    requires n <= |events|
  {
    if n == 0 then 0
    else
      var r := HandleEvent(config, Replay(config, c0, events, n - 1), events[n - 1]);
      ResetsShownIn(config, c0, events, n - 1) + (if r.resetShown then 1 else 0)
  }

  /** The reminders the first `n` firings showed on date `d`. */
  function RemindersOnDate(config: ServiceConfig, c0: Counter, events: seq<Event>, d: Date, n: nat): nat
    requires n <= |events|
  {
    if n == 0 then 0
    else
      var r := HandleEvent(config, Replay(config, c0, events, n - 1), events[n - 1]);
      RemindersOnDate(config, c0, events, d, n - 1) + (if r.reminderShown && events[n - 1].today == d then 1 else 0)
  }

  /** When the first `n` firings all fall on one date `d`, the count is the
      count carried over from `d` (none from another date) plus the reminders
      shown, and so the reminders shown stay within the daily cap. */
  lemma {:induction false} OneDateBound(config: ServiceConfig, c0: Counter, events: seq<Event>, d: Date, n: nat)
    requires n <= |events| && c0.remindersSentToday <= config.maxRemindersPerDay
    requires forall i :: 0 <= i < n ==> events[i].today == d
    ensures var c := Replay(config, c0, events, n);
      && c.remindersSentToday <= config.maxRemindersPerDay
      && (n > 0 ==> c.remindersSentToday
                    == (if d == c0.lastReminderDate then c0.remindersSentToday else 0) + RemindersShownIn(config, c0, events, n))
      && RemindersShownIn(config, c0, events, n) <= config.maxRemindersPerDay
  {
    if n > 0 {
      OneDateBound(config, c0, events, d, n - 1);
    }
  }

  /** Dates that never go back, from the counter's own date on. */
  predicate DatesFrom(start: Date, events: seq<Event>) {
    && (|events| > 0 ==> start <= events[0].today)
    && forall i :: 0 < i < |events| ==> events[i - 1].today <= events[i].today
  }

  /** No reminder is shown on a date later than every firing so far. */
  lemma {:induction false} NoRemindersAfter(config: ServiceConfig, c0: Counter, events: seq<Event>, d: Date, n: nat)
    requires n <= |events|
    requires forall i :: 0 <= i < n ==> events[i].today < d
    ensures RemindersOnDate(config, c0, events, d, n) == 0
  {
    if n > 0 {
      NoRemindersAfter(config, c0, events, d, n - 1);
    }
  }

  /** Over `n` firings whose dates never go back: the current date's reminders,
      with those counted at the start, are the count; every other date stays
      within the cap. */
  lemma {:induction false} DailyCapInvariant(config: ServiceConfig, c0: Counter, events: seq<Event>, n: nat)
    requires n <= |events| && c0.remindersSentToday <= config.maxRemindersPerDay
    requires DatesFrom(c0.lastReminderDate, events)
    ensures var c := Replay(config, c0, events, n);
      && c0.lastReminderDate <= c.lastReminderDate
      && (forall i :: 0 <= i < n ==> events[i].today <= c.lastReminderDate)
      && c.remindersSentToday <= config.maxRemindersPerDay
      && RemindersOnDate(config, c0, events, c.lastReminderDate, n)
         + (if c.lastReminderDate == c0.lastReminderDate then c0.remindersSentToday else 0) == c.remindersSentToday
      && forall d :: d != c.lastReminderDate ==>
           RemindersOnDate(config, c0, events, d, n) + (if d == c0.lastReminderDate then c0.remindersSentToday else 0)
           <= config.maxRemindersPerDay
  {
    if n > 0 {
      DailyCapInvariant(config, c0, events, n - 1);
      var prev := Replay(config, c0, events, n - 1);
      var e := events[n - 1];
      var r := HandleEvent(config, prev, e);
      assert Replay(config, c0, events, n) == r.counter;
      assert prev.lastReminderDate <= e.today by {
        if n > 1 {
          assert events[n - 2].today <= e.today;
        }
      }
      if e.today != prev.lastReminderDate {
        NoRemindersAfter(config, c0, events, e.today, n - 1);
      }
      forall d | d != e.today
        ensures RemindersOnDate(config, c0, events, d, n) + (if d == c0.lastReminderDate then c0.remindersSentToday else 0)
                <= config.maxRemindersPerDay
      {
        assert RemindersOnDate(config, c0, events, d, n) == RemindersOnDate(config, c0, events, d, n - 1);
      }
    }
  }

  /** On dates that never go back, the reminders shown on any one date,
      together with those the counter held for it at the start, never exceed
      the daily cap. */
  lemma DailyCap(config: ServiceConfig, c0: Counter, events: seq<Event>, d: Date)
    requires c0.remindersSentToday <= config.maxRemindersPerDay
    requires DatesFrom(c0.lastReminderDate, events)
    ensures RemindersOnDate(config, c0, events, d, |events|) + (if d == c0.lastReminderDate then c0.remindersSentToday else 0)
            <= config.maxRemindersPerDay
  {
    DailyCapInvariant(config, c0, events, |events|);
  }

  /** `ServiceState`: the configuration and the reminder count of the current date. */
  class ServiceState {
    const config: ServiceConfig
    var remindersSentToday: U32
    var lastReminderDate: Date

    /** The daily cap holds. */
    ghost predicate Valid()
      reads this
    {
      remindersSentToday <= config.maxRemindersPerDay
    }

    /** `ServiceState::new`: no reminders yet, dated today. */
    constructor (config: ServiceConfig, today: Date)
      ensures Valid() && this.config == config
      ensures remindersSentToday == 0 && lastReminderDate == today
    {
      this.config := config;
      remindersSentToday := 0;
      lastReminderDate := today;
    }

    /** The count and its date, as a `Counter`. */
    function CounterState(): (c: Counter)
      reads this
      ensures c.remindersSentToday == remindersSentToday && c.lastReminderDate == lastReminderDate
    {
      Counter(remindersSentToday, lastReminderDate)
    }

    /** `is_new_day`: today is not the date the counter belongs to. */
    function IsNewDay(today: Date): (r: bool)
      reads this
      ensures r <==> today != lastReminderDate
    {
      today != lastReminderDate
    }

    /** `reset_daily_counters`: start counting afresh for today. */
    method ResetDailyCounters(today: Date)
      modifies this
      ensures Valid()
      ensures remindersSentToday == 0 && lastReminderDate == today && !IsNewDay(today)
    {
      remindersSentToday := 0;
      lastReminderDate := today;
    }

    /** `should_send_reminder`: the cap is not reached, the summary query
        succeeded and fewer than three tasks are done. */
    function ShouldSendReminder(summary: Option<(nat, nat)>): (r: bool)
      reads this
      ensures r ==> remindersSentToday < config.maxRemindersPerDay
      ensures r <==> remindersSentToday < config.maxRemindersPerDay && summary.Some? && summary.value.0 < Goal
    {
      if remindersSentToday >= config.maxRemindersPerDay then false
      else match summary
        case Some((completed, _)) => completed < Goal
        case None => false
    }

    /** `send_reminder`: on a successful summary query and delivery, show the
        chosen reminder and count it; otherwise nothing changes. Its only caller
        reaches it after `should_send_reminder` held, hence the requirement. */
    method SendReminder(summary: Option<(nat, nat)>, delivered: bool) returns (shown: Option<Notification>)
      requires Valid() && remindersSentToday < config.maxRemindersPerDay
      modifies this
      ensures Valid() && lastReminderDate == old(lastReminderDate)
      ensures shown.Some? <==> summary.Some? && delivered
      ensures shown.Some? ==> shown.value == ReminderNotification(ChooseReminderMessage(summary.value.0, summary.value.1))
      ensures remindersSentToday == old(remindersSentToday) + (if shown.Some? then 1 else 0)
    {
      shown := None;
      if summary.Some? {
        var (completed, total) := summary.value;
        var message := ChooseReminderMessage(completed, total);
        if delivered {
          shown := Some(ReminderNotification(message));
          remindersSentToday := remindersSentToday + 1;
        }
      }
    }

    /** `is_daily_reset_time`: within a minute of the configured reset time;
        never when the setting does not parse. */
    function IsDailyResetTime(now: TimeOfDay): (r: bool)
      reads this
      ensures config.GetResetTime().None? ==> !r
      ensures config.GetResetTime().Some? ==> (r <==> WithinOneMinute(now, config.GetResetTime().value.Seconds()))
    {
      InResetWindow(config, now)
    }

    /** A tick of the reminder timer: roll over on a new date, then send a
        reminder if one is due. */
    method ReminderTick(today: Date, summary: Option<(nat, nat)>, delivered: bool) returns (shown: Option<Notification>)
      requires Valid()
      modifies this
      ensures Valid() && lastReminderDate == today
      ensures var base := if old(IsNewDay(today)) then 0 else old(remindersSentToday);
        && (shown.Some? <==> base < config.maxRemindersPerDay && summary.Some? && summary.value.0 < Goal && delivered)
        && remindersSentToday == base + (if shown.Some? then 1 else 0)
      ensures shown.Some? ==> shown.value == ReminderNotification(ChooseReminderMessage(summary.value.0, summary.value.1))
      ensures var r := HandleEvent(config, old(CounterState()), ReminderTimer(today, summary, delivered));
        CounterState() == r.counter && shown.Some? == r.reminderShown && !r.resetShown
    {
      if IsNewDay(today) {
        ResetDailyCounters(today);
      }
      shown := None;
      if ShouldSendReminder(summary) {
        shown := SendReminder(summary, delivered);
      }
    }

    /** A tick of the one-minute timer: roll over on a new date, then show the
        "new day" notice inside the reset window. The notice changes no state,
        so every tick inside the window shows it again. */
    method DailyTick(today: Date, now: TimeOfDay, delivered: bool) returns (shown: Option<Notification>)
      requires Valid()
      modifies this
      ensures Valid() && lastReminderDate == today
      ensures remindersSentToday == if old(IsNewDay(today)) then 0 else old(remindersSentToday)
      ensures shown.Some? <==> IsDailyResetTime(now) && delivered
      ensures shown.Some? ==> shown.value == DailyResetNotification
      ensures var r := HandleEvent(config, old(CounterState()), DailyTimer(today, now, delivered));
        CounterState() == r.counter && shown.Some? == r.resetShown && !r.reminderShown
    {
      if IsNewDay(today) {
        ResetDailyCounters(today);
      }
      shown := None;
      if IsDailyResetTime(now) && delivered {
        shown := Some(DailyResetNotification);
      }
    }

    /** The loop of `main` over a finite run of timer firings. The final count
        and date are the replay of `HandleEvent` over the firings, and the two
        results count the reminders and "new day" notices the replay shows. The
        reminders shown on one date stay within the daily cap (`OneDateBound`,
        `DailyCap`). */
    method Run(events: seq<Event>) returns (remindersShown: nat, resetsShown: nat)
      requires Valid()
      modifies this
      ensures Valid()
      ensures CounterState() == Replay(config, old(CounterState()), events, |events|)
      ensures remindersShown == RemindersShownIn(config, old(CounterState()), events, |events|)
      ensures resetsShown == ResetsShownIn(config, old(CounterState()), events, |events|)
      ensures |events| > 0 ==> lastReminderDate == events[|events| - 1].today
      ensures (|events| > 0 && forall i :: 0 <= i < |events| ==> events[i].today == events[0].today) ==>
        remindersShown <= config.maxRemindersPerDay
      ensures (forall i :: 0 <= i < |events| ==> events[i].today == old(lastReminderDate)) ==>
        && lastReminderDate == old(lastReminderDate)
        && old(remindersSentToday) + remindersShown == remindersSentToday <= config.maxRemindersPerDay
    {
      ghost var c0 := CounterState();
      remindersShown, resetsShown := 0, 0;
      var i := 0;
      while i < |events|
        invariant 0 <= i <= |events| && Valid()
        invariant CounterState() == Replay(config, c0, events, i)
        invariant remindersShown == RemindersShownIn(config, c0, events, i)
        invariant resetsShown == ResetsShownIn(config, c0, events, i)
      {
        match events[i] {
          case ReminderTimer(today, summary, delivered) =>
            var shown := ReminderTick(today, summary, delivered);
            if shown.Some? {
              remindersShown := remindersShown + 1;
            }
          case DailyTimer(today, now, delivered) =>
            var shown := DailyTick(today, now, delivered);
            if shown.Some? {
              resetsShown := resetsShown + 1;
            }
        }
        i := i + 1;
      }
      if |events| > 0 && forall k :: 0 <= k < |events| ==> events[k].today == events[0].today {
        OneDateBound(config, c0, events, events[0].today, |events|);
      }
      if forall k :: 0 <= k < |events| ==> events[k].today == c0.lastReminderDate {
        OneDateBound(config, c0, events, c0.lastReminderDate, |events|);
      }
    }
  }

  /** `main`: a new state dated today, the goal check once at startup, whose
      error ends the service before any timer fires, then the timer loop. */
  method RunService(config: ServiceConfig, today: Date, summary: Option<(nat, nat)>, delivered: bool, events: seq<Event>)
    returns (started: Result<Option<Notification>>, remindersShown: nat, resetsShown: nat)
    ensures started == CheckForAchievements(summary, delivered)
    ensures started.Err? ==> remindersShown == 0 && resetsShown == 0
    ensures started.Ok? ==>
      && remindersShown == RemindersShownIn(config, Counter(0, today), events, |events|)
      && resetsShown == ResetsShownIn(config, Counter(0, today), events, |events|)
  {
    var state := new ServiceState(config, today);
    started := CheckForAchievements(summary, delivered);
    if started.Err? {
      return started, 0, 0;
    }
    remindersShown, resetsShown := state.Run(events);
  }
}
