/**
 * The schedule configuration the engine reads once per invocation
 * (`_load_config`, `_get_default_config`) and the defaults it applies to
 * optional keys with `config.get(key, default)`.
 */
module Config {
  import opened Wrappers
  import opened TimeParse

  /**
   * One stored configuration record. Every key the engine reads may be
   * absent from a stored record; `None` stands for an absent key.
   */
  datatype ConfigRecord = ConfigRecord(
    configId: string,
    tagKey: Option<string>,
    tagValue: Option<string>,
    startTime: Option<string>,
    stopTime: Option<string>,
    timezone: Option<string>,
    enabled: Option<bool>,
    dryRun: Option<bool>,
    excludeInstanceIds: Option<seq<string>>,
    notificationTopic: Option<string>)

  /** What reading the `default` key of the config store gives. */
  datatype StoreRead = Found(record: ConfigRecord) | NotFound | ReadFailed

  /** The built-in configuration. */
  function DefaultConfig(): ConfigRecord
  {
    ConfigRecord(
      configId := "default",
      tagKey := Some("Env"),
      tagValue := Some("Dev"),
      startTime := Some("09:00"),
      stopTime := Some("00:00"),
      timezone := Some("Asia/Shanghai"),
      enabled := Some(true),
      dryRun := Some(false),
      excludeInstanceIds := Some([]),
      notificationTopic := None)
  }

  /** `_load_config`: the stored record, or the built-in one when it is missing or the read fails. */
  function LoadConfig(read: StoreRead): ConfigRecord
  {
    match read
    case Found(record) => record
    case NotFound => DefaultConfig()
    case ReadFailed => DefaultConfig()
  }

  /** `config.get('enabled', True)`. */
  predicate Enabled(c: ConfigRecord)
  {
    match c.enabled
    case Some(b) => b
    case None => true
  }

  /** `config.get('dry_run', False)`. */
  predicate DryRun(c: ConfigRecord)
  {
    match c.dryRun
    case Some(b) => b
    case None => false
  }

  /** `config.get('exclude_instance_ids', [])`. */
  function ExcludedIds(c: ConfigRecord): seq<string>
  {
    match c.excludeInstanceIds
    case Some(ids) => ids
    case None => []
  }

  /** `config.get('timezone', 'Asia/Shanghai')`. */
  function ZoneName(c: ConfigRecord): string
  {
    match c.timezone
    case Some(z) => z
    case None => "Asia/Shanghai"
  }

  /** The topic a notification goes to: only a present, non-empty topic counts. */
  function NotificationTarget(c: ConfigRecord): Option<string>
  {
    match c.notificationTopic
    case Some(t) => if t == "" then None else Some(t)
    case None => None
  }

  /**
   * When the `default` record is missing or cannot be read, the engine runs
   * the built-in schedule: fleet `Env=Dev`, start 09:00, stop 00:00 in
   * Asia/Shanghai, enabled, not a dry run, nothing excluded, nobody notified.
   */
  lemma {:induction false} FallbackSchedule(read: StoreRead)
    requires !read.Found?
    ensures var c := LoadConfig(read);
      && c.tagKey == Some("Env") && c.tagValue == Some("Dev")
      && c.startTime.Some? && ParseTime(c.startTime.value) == Some(HourMinute(9, 0))
      && c.stopTime.Some? && ParseTime(c.stopTime.value) == Some(HourMinute(0, 0))
      && ZoneName(c) == "Asia/Shanghai"
      && Enabled(c) && !DryRun(c)
      && ExcludedIds(c) == [] && NotificationTarget(c) == None
  {
    assert LoadConfig(read) == DefaultConfig();
    DefaultTimesParse();
  }

  /** The built-in start and stop texts parse to 09:00 and 00:00. */
  lemma {:induction false} DefaultTimesParse()
    ensures ParseTime("09:00") == Some(HourMinute(9, 0))
    ensures ParseTime("00:00") == Some(HourMinute(0, 0))
  {
    assert FormatTime(HourMinute(9, 0)) == "09:00";
    ParseFormatRoundTrip(HourMinute(9, 0));
    assert FormatTime(HourMinute(0, 0)) == "00:00";
    ParseFormatRoundTrip(HourMinute(0, 0));
  }
}
