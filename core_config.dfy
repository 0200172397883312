/** The service settings of threeaday-core; only their defaults are modelled. */
module CoreConfig {
  import opened Numbers

  datatype Config = Config(reminderIntervalMinutes: nat, dailyResetTime: string, maxRemindersPerDay: U32)

  /** The settings used when no configuration file exists. */
  function Default(): (c: Config)
    ensures c.reminderIntervalMinutes == 45 && c.dailyResetTime == "06:00" && c.maxRemindersPerDay == 8
  {
    Config(45, "06:00", 8)
  }
}
