/** The configuration schema: four sections, each of which validates itself into an ordered
    list of error messages, the whole application configuration, and its conversion from and
    to the JSON dictionary stored on disk (utils/config_validation.py). */
module ConfigValidation {
  import opened Wrappers
  import opened Text
  import opened Json

  // ---------------------------------------------------------------- the schema

  datatype NotificationConfig = NotificationConfig(
    enabled: bool,
    smtpServer: string,
    smtpPort: int,
    emailFrom: string,
    emailTo: seq<string>,
    emailPassword: string)

  datatype ScheduleConfig = ScheduleConfig(
    dailyMonitoring: string,
    weeklyReport: string,
    monthlyQualityCheck: string,
    quarterlyReview: string)

  datatype DatabaseConfig = DatabaseConfig(
    host: string,
    username: string,
    password: string,
    database: string,
    timeout: int)

  datatype MonitoringConfig = MonitoringConfig(
    intervalHours: int,
    logLevel: string,
    logDir: string,
    maxLogFiles: int)

  datatype AppConfig = AppConfig(
    notifications: NotificationConfig,
    schedules: ScheduleConfig,
    database: DatabaseConfig,
    monitoring: MonitoringConfig)

  const DefaultNotifications := NotificationConfig(false, "smtp.gmail.com", 587, "", [], "")
  const DefaultSchedules := ScheduleConfig("09:00", "08:00", "07:00", "06:00")
  const DefaultDatabase := DatabaseConfig("http://localhost:8529", "root", "", "aws_ontology", 30)
  const DefaultMonitoring := MonitoringConfig(24, "INFO", "automation/logs", 30)
  const DefaultApp := AppConfig(DefaultNotifications, DefaultSchedules, DefaultDatabase, DefaultMonitoring)

  // ---------------------------------------------------------------- rules and messages

  /** The messages the validators report; `MessageText` gives the exact wording. */
  datatype ErrorMessage =
    | EmailFromRequired | EmailToRequired | EmailPasswordRequired | SmtpPortRange
    | TimeFormat(field: TimeField)
    | HostRequired | HostScheme | UsernameRequired | DatabaseRequired | TimeoutRange
    | IntervalRange | LogLevelChoice | LogDirRequired | MaxLogFilesRange

  /** The four time fields of the schedule section, named as in the JSON file. */
  datatype TimeField = DailyMonitoring | WeeklyReport | MonthlyQualityCheck | QuarterlyReview

  function FieldName(f: TimeField): string {
    match f
    case DailyMonitoring => "daily_monitoring"
    case WeeklyReport => "weekly_report"
    case MonthlyQualityCheck => "monthly_quality_check"
    case QuarterlyReview => "quarterly_review"
  }

  const ValidLogLevels := ["DEBUG", "INFO", "WARNING", "ERROR", "CRITICAL"]

  function MessageText(e: ErrorMessage): string {
    match e
    case EmailFromRequired => "email_from is required when notifications are enabled"
    case EmailToRequired => "email_to is required when notifications are enabled"
    case EmailPasswordRequired => "email_password is required when notifications are enabled"
    case SmtpPortRange => "smtp_port must be between 1 and 65535"
    case TimeFormat(field) => FieldName(field) + " must be in HH:MM format (24-hour)"
    case HostRequired => "host is required"
    case HostScheme => "host must start with http:// or https://"
    case UsernameRequired => "username is required"
    case DatabaseRequired => "database name is required"
    case TimeoutRange => "timeout must be between 1 and 300 seconds"
    case IntervalRange => "interval_hours must be between 1 and 168"
    case LogLevelChoice => "log_level must be one of: DEBUG, INFO, WARNING, ERROR, CRITICAL"
    case LogDirRequired => "log_dir is required"
    case MaxLogFilesRange => "max_log_files must be between 1 and 365"
  }

  /** One check of a validator: `message` is reported when `holds` is false. */
  datatype Rule = Rule(holds: bool, message: ErrorMessage)

  function Reported(r: Rule): seq<ErrorMessage> {
    if r.holds then [] else [r.message]
  }

  /** The messages of the failing rules, in rule order. */
  function Failing(rules: seq<Rule>): (errors: seq<ErrorMessage>)
    ensures |errors| <= |rules|
  {
    if rules == [] then [] else Failing(rules[..|rules| - 1]) + Reported(rules[|rules| - 1])
  }

  lemma FailingStep(rules: seq<Rule>, k: nat)
    requires k < |rules|
    ensures Failing(rules[..k + 1]) == Failing(rules[..k]) + Reported(rules[k])
  {
    assert rules[..k + 1][..k] == rules[..k];
  }

  /** Validating two rule lists one after the other reports the first list's errors first. */
  lemma {:induction false} FailingConcat(a: seq<Rule>, b: seq<Rule>)
    ensures Failing(a + b) == Failing(a) + Failing(b)
    decreases |b|
  {
    if b != [] {
      var b' := b[..|b| - 1];
      assert (a + b)[..|a + b| - 1] == a + b';
      assert (a + b)[|a + b| - 1] == b[|b| - 1];
      FailingConcat(a, b');
    } else {
      assert a + b == a;
    }
  }

  /** A message is reported exactly when some rule carrying it fails. */
  lemma {:induction false} FailingMembers(rules: seq<Rule>, m: ErrorMessage)
    ensures m in Failing(rules) <==> exists k :: 0 <= k < |rules| && !rules[k].holds && rules[k].message == m
  {
    if rules != [] {
      var init := rules[..|rules| - 1];
      FailingMembers(init, m);
      assert forall k :: 0 <= k < |init| ==> init[k] == rules[k];
    }
  }

  lemma FailingFour(a: Rule, b: Rule, c: Rule, d: Rule)
    ensures Failing([a, b, c, d]) == Reported(a) + Reported(b) + Reported(c) + Reported(d)
  {
    var rs := [a, b, c, d];
    assert rs[..0] == [];
    FailingStep(rs, 0);
    FailingStep(rs, 1);
    FailingStep(rs, 2);
    FailingStep(rs, 3);
    assert rs[..4] == rs;
  }

  lemma FailingFive(a: Rule, b: Rule, c: Rule, d: Rule, e: Rule)
    ensures Failing([a, b, c, d, e]) == Reported(a) + Reported(b) + Reported(c) + Reported(d) + Reported(e)
  {
    var rs := [a, b, c, d, e];
    assert rs[..4] == [a, b, c, d];
    FailingFour(a, b, c, d);
  }

  /** Membership in the messages of four or five rules, one rule at a time. */
  lemma FailingFourIn(a: Rule, b: Rule, c: Rule, d: Rule, m: ErrorMessage)
    ensures m in Failing([a, b, c, d]) <==> m in Reported(a) || m in Reported(b) || m in Reported(c) || m in Reported(d)
  {
    FailingFour(a, b, c, d);
  }

  lemma FailingFiveIn(a: Rule, b: Rule, c: Rule, d: Rule, e: Rule, m: ErrorMessage)
    ensures m in Failing([a, b, c, d, e])
            <==> m in Reported(a) || m in Reported(b) || m in Reported(c) || m in Reported(d) || m in Reported(e)
  {
    FailingFive(a, b, c, d, e);
  }

  // ---------------------------------------------------------------- NotificationConfig

  function NotificationRules(c: NotificationConfig): seq<Rule> {
    [ Rule(c.emailFrom != "", EmailFromRequired),
      Rule(c.emailTo != [], EmailToRequired),
      Rule(c.emailPassword != "", EmailPasswordRequired),
      Rule(1 <= c.smtpPort <= 65535, SmtpPortRange) ]
  }

  /** What `NotificationConfig.validate` reports: nothing while notifications are disabled,
      otherwise one message per missing credential and one for a port outside 1..65535. */
  function NotificationErrors(c: NotificationConfig): (errors: seq<ErrorMessage>)
    ensures !c.enabled ==> errors == []
    ensures c.enabled ==> (EmailFromRequired in errors <==> c.emailFrom == "")
    ensures c.enabled ==> (EmailToRequired in errors <==> c.emailTo == [])
    ensures c.enabled ==> (EmailPasswordRequired in errors <==> c.emailPassword == "")
    ensures c.enabled ==> (SmtpPortRange in errors <==> !(1 <= c.smtpPort <= 65535))
    ensures |errors| <= 4
  {
    var rules := NotificationRules(c);
    var (a, b, c', d) := (rules[0], rules[1], rules[2], rules[3]);
    FailingFour(a, b, c', d);
    FailingFourIn(a, b, c', d, EmailFromRequired);
    FailingFourIn(a, b, c', d, EmailToRequired);
    FailingFourIn(a, b, c', d, EmailPasswordRequired);
    FailingFourIn(a, b, c', d, SmtpPortRange);
    if c.enabled then Failing(rules) else []
  }

  /** The notification check reports notification messages only. */
  lemma NotificationErrorsOwnMessages(c: NotificationConfig)
    ensures forall e :: e in NotificationErrors(c) ==>
              e in [EmailFromRequired, EmailToRequired, EmailPasswordRequired, SmtpPortRange]
  {
    var rules := NotificationRules(c);
    FailingFour(rules[0], rules[1], rules[2], rules[3]);
  }

  method ValidateNotifications(c: NotificationConfig) returns (errors: seq<ErrorMessage>)
    ensures errors == NotificationErrors(c)
  {
    errors := [];
    if c.enabled {
      ghost var rules := NotificationRules(c);
      if c.emailFrom == "" {
        errors := errors + [EmailFromRequired];
      }
      assert errors == Reported(rules[0]);
      if c.emailTo == [] {
        errors := errors + [EmailToRequired];
      }
      assert errors == Reported(rules[0]) + Reported(rules[1]);
      if c.emailPassword == "" {
        errors := errors + [EmailPasswordRequired];
      }
      assert errors == Reported(rules[0]) + Reported(rules[1]) + Reported(rules[2]);
      if !(1 <= c.smtpPort <= 65535) {
        errors := errors + [SmtpPortRange];
      }
      FailingFour(rules[0], rules[1], rules[2], rules[3]);
    }
  }

  // ---------------------------------------------------------------- ScheduleConfig

  /** `ScheduleConfig._is_valid_time`: the text splits on ':' into exactly two pieces, both
      parse as integers, and they are an hour 0..23 and a minute 0..59. A piece that does not
      parse makes the time invalid rather than raising. */
  predicate IsValidTime(s: string)
    ensures IsValidTime(s) ==> CountChar(s, ':') == 1
  {
    var parts := SplitOn(s, ':');
    && |parts| == 2
    && match (ParseInt(parts[0]), ParseInt(parts[1]))
       case (Some(h), Some(m)) => 0 <= h <= 23 && 0 <= m <= 59
       case _ => false
  }

  /** The characterisation of valid times on canonical renderings: `str(h) + ":" + str(m)` is
      valid exactly when h is an hour and m a minute. */
  lemma ValidTimeOfNumbers(h: nat, m: nat)
    ensures IsValidTime(NatToString(h) + ":" + NatToString(m)) <==> h <= 23 && m <= 59
  {
    var a, b := NatToString(h), NatToString(m);
    assert ':' !in a && ':' !in b;
    SplitOnJoin([a, b], ':');
    assert Join([a, b], ':') == a + ":" + b;
    ParseIntOfNatToString(h);
    ParseIntOfNatToString(m);
  }

  /** The zero-padded "HH:MM" form: valid exactly when the two-digit numbers are in range. */
  lemma ValidTimeOfDigits(h1: char, h2: char, m1: char, m2: char)
    requires IsDigit(h1) && IsDigit(h2) && IsDigit(m1) && IsDigit(m2)
    ensures IsValidTime([h1, h2, ':', m1, m2])
        <==> 10 * DigitValue(h1) + DigitValue(h2) <= 23 && 10 * DigitValue(m1) + DigitValue(m2) <= 59
  {
    assert ':' !in [h1, h2] && ':' !in [m1, m2];
    SplitOnJoin([[h1, h2], [m1, m2]], ':');
    assert Join([[h1, h2], [m1, m2]], ':') == [h1, h2, ':', m1, m2];
    ParseIntTwoDigits(h1, h2);
    ParseIntTwoDigits(m1, m2);
  }

  /** `int()` does not strip the separator controls U+001C..U+001F that `isspace()` accepts,
      so a time with one in front of its hour is not valid. */
  lemma SeparatorControlTimeInvalid(h1: char, h2: char, m1: char, m2: char)
    requires IsDigit(h1) && IsDigit(h2) && IsDigit(m1) && IsDigit(m2)
    ensures !IsValidTime(['\U{1C}', h1, h2, ':', m1, m2])
  {
    var hour: string := ['\U{1C}', h1, h2];
    assert ':' !in hour && ':' !in [m1, m2];
    SplitOnJoin([hour, [m1, m2]], ':');
    assert Join([hour, [m1, m2]], ':') == ['\U{1C}', h1, h2, ':', m1, m2];
    assert IsSeparatorControl(hour[0]);
  }

  function TimeFields(c: ScheduleConfig): seq<(TimeField, string)> {
    [ (DailyMonitoring, c.dailyMonitoring),
      (WeeklyReport, c.weeklyReport),
      (MonthlyQualityCheck, c.monthlyQualityCheck),
      (QuarterlyReview, c.quarterlyReview) ]
  }

  function TimeRule(f: (TimeField, string)): Rule {
    Rule(IsValidTime(f.1), TimeFormat(f.0))
  }

  function TimeRules(fields: seq<(TimeField, string)>): (rules: seq<Rule>)
    ensures |rules| == |fields|
    ensures forall k :: 0 <= k < |fields| ==> rules[k] == TimeRule(fields[k])
  {
    seq(|fields|, k requires 0 <= k < |fields| => TimeRule(fields[k]))
  }

  function ScheduleRules(c: ScheduleConfig): seq<Rule> {
    var fs := TimeFields(c);
    [TimeRule(fs[0]), TimeRule(fs[1]), TimeRule(fs[2]), TimeRule(fs[3])]
  }

  lemma ScheduleRulesOfFields(c: ScheduleConfig)
    ensures TimeRules(TimeFields(c)) == ScheduleRules(c)
  {
  }

  /** What `ScheduleConfig.validate` reports: one message per time field that is not a valid
      HH:MM time, naming that field, in the order daily, weekly, monthly, quarterly. */
  function ScheduleErrors(c: ScheduleConfig): (errors: seq<ErrorMessage>)
    ensures TimeFormat(DailyMonitoring) in errors <==> !IsValidTime(c.dailyMonitoring)
    ensures TimeFormat(WeeklyReport) in errors <==> !IsValidTime(c.weeklyReport)
    ensures TimeFormat(MonthlyQualityCheck) in errors <==> !IsValidTime(c.monthlyQualityCheck)
    ensures TimeFormat(QuarterlyReview) in errors <==> !IsValidTime(c.quarterlyReview)
    ensures |errors| <= 4
  {
    var rules := ScheduleRules(c);
    var (a, b, c', d) := (rules[0], rules[1], rules[2], rules[3]);
    FailingFourIn(a, b, c', d, TimeFormat(DailyMonitoring));
    FailingFourIn(a, b, c', d, TimeFormat(WeeklyReport));
    FailingFourIn(a, b, c', d, TimeFormat(MonthlyQualityCheck));
    FailingFourIn(a, b, c', d, TimeFormat(QuarterlyReview));
    Failing(rules)
  }

  /** The loop of `ScheduleConfig.validate` over (field name, time) pairs. */
  method CheckTimes(fields: seq<(TimeField, string)>) returns (errors: seq<ErrorMessage>)
    ensures errors == Failing(TimeRules(fields))
  {
    errors := [];
    ghost var rules := TimeRules(fields);
    assert rules[..0] == [];
    for i := 0 to |fields|
      invariant errors == Failing(rules[..i])
    {
      var (fieldName, timeStr) := fields[i];
      if !IsValidTime(timeStr) {
        errors := errors + [TimeFormat(fieldName)];
      }
      FailingStep(rules, i);
    }
    assert rules[..|fields|] == rules;
  }

  method ValidateSchedules(c: ScheduleConfig) returns (errors: seq<ErrorMessage>)
    ensures errors == ScheduleErrors(c)
  {
    errors := CheckTimes(TimeFields(c));
    ScheduleRulesOfFields(c);
  }

  // ---------------------------------------------------------------- DatabaseConfig

  /** The host names the http or the https scheme. */
  predicate HasHttpScheme(host: string) {
    StartsWith(host, "http://") || StartsWith(host, "https://")
  }

  function DatabaseRules(c: DatabaseConfig): seq<Rule> {
    [ Rule(c.host != "", HostRequired),
      Rule(HasHttpScheme(c.host), HostScheme),
      Rule(c.username != "", UsernameRequired),
      Rule(c.database != "", DatabaseRequired),
      Rule(1 <= c.timeout <= 300, TimeoutRange) ]
  }

  /** What `DatabaseConfig.validate` reports. An empty host is reported twice, as missing and
      as lacking the http(s) scheme, and those are the first two messages. */
  function DatabaseErrors(c: DatabaseConfig): (errors: seq<ErrorMessage>)
    ensures c.host == "" ==> |errors| >= 2 && errors[0] == HostRequired && errors[1] == HostScheme
    ensures HostRequired in errors <==> c.host == ""
    ensures HostScheme in errors <==> !HasHttpScheme(c.host)
    ensures UsernameRequired in errors <==> c.username == ""
    ensures DatabaseRequired in errors <==> c.database == ""
    ensures TimeoutRange in errors <==> !(1 <= c.timeout <= 300)
    ensures |errors| <= 5
  {
    var rules := DatabaseRules(c);
    var (a, b, c', d, e) := (rules[0], rules[1], rules[2], rules[3], rules[4]);
    FailingFive(a, b, c', d, e);
    FailingFiveIn(a, b, c', d, e, HostRequired);
    FailingFiveIn(a, b, c', d, e, HostScheme);
    FailingFiveIn(a, b, c', d, e, UsernameRequired);
    FailingFiveIn(a, b, c', d, e, DatabaseRequired);
    FailingFiveIn(a, b, c', d, e, TimeoutRange);
    Failing(rules)
  }

  method ValidateDatabase(c: DatabaseConfig) returns (errors: seq<ErrorMessage>)
    ensures errors == DatabaseErrors(c)
  {
    errors := [];
    ghost var rules := DatabaseRules(c);
    if c.host == "" {
      errors := errors + [HostRequired];
    }
    assert errors == Reported(rules[0]);
    if !HasHttpScheme(c.host) {
      errors := errors + [HostScheme];
    }
    assert errors == Reported(rules[0]) + Reported(rules[1]);
    if c.username == "" {
      errors := errors + [UsernameRequired];
    }
    assert errors == Reported(rules[0]) + Reported(rules[1]) + Reported(rules[2]);
    if c.database == "" {
      errors := errors + [DatabaseRequired];
    }
    assert errors == Reported(rules[0]) + Reported(rules[1]) + Reported(rules[2]) + Reported(rules[3]);
    if !(1 <= c.timeout <= 300) {
      errors := errors + [TimeoutRange];
    }
    FailingFive(rules[0], rules[1], rules[2], rules[3], rules[4]);
  }

  // ---------------------------------------------------------------- MonitoringConfig

  predicate ValidLogLevel(level: string) {
    Upper(level) in ValidLogLevels
  }

  function MonitoringRules(c: MonitoringConfig): seq<Rule> {
    [ Rule(1 <= c.intervalHours <= 168, IntervalRange),
      Rule(ValidLogLevel(c.logLevel), LogLevelChoice),
      Rule(c.logDir != "", LogDirRequired),
      Rule(1 <= c.maxLogFiles <= 365, MaxLogFilesRange) ]
  }

  /** What `MonitoringConfig.validate` reports: an interval outside 1..168 hours, a log level
      that is not one of the five in any letter case, an empty log directory, a log-file count
      outside 1..365. */
  function MonitoringErrors(c: MonitoringConfig): (errors: seq<ErrorMessage>)
    ensures IntervalRange in errors <==> !(1 <= c.intervalHours <= 168)
    ensures LogLevelChoice in errors <==> Upper(c.logLevel) !in ValidLogLevels
    ensures LogDirRequired in errors <==> c.logDir == ""
    ensures MaxLogFilesRange in errors <==> !(1 <= c.maxLogFiles <= 365)
    ensures |errors| <= 4
  {
    var rules := MonitoringRules(c);
    FailingFour(rules[0], rules[1], rules[2], rules[3]);
    Failing(rules)
  }

  /** The log level is matched case-insensitively: lower-casing it changes nothing. */
  lemma MonitoringErrorsIgnoreCase(c: MonitoringConfig)
    ensures MonitoringErrors(c.(logLevel := Lower(c.logLevel))) == MonitoringErrors(c)
  {
    UpperOfLower(c.logLevel);
  }

  method ValidateMonitoring(c: MonitoringConfig) returns (errors: seq<ErrorMessage>)
    ensures errors == MonitoringErrors(c)
  {
    errors := [];
    ghost var rules := MonitoringRules(c);
    if !(1 <= c.intervalHours <= 168) {
      errors := errors + [IntervalRange];
    }
    assert errors == Reported(rules[0]);
    if Upper(c.logLevel) !in ValidLogLevels {
      errors := errors + [LogLevelChoice];
    }
    assert errors == Reported(rules[0]) + Reported(rules[1]);
    if c.logDir == "" {
      errors := errors + [LogDirRequired];
    }
    assert errors == Reported(rules[0]) + Reported(rules[1]) + Reported(rules[2]);
    if !(1 <= c.maxLogFiles <= 365) {
      errors := errors + [MaxLogFilesRange];
    }
    FailingFour(rules[0], rules[1], rules[2], rules[3]);
  }

  // ---------------------------------------------------------------- AppConfig

  function AppErrors(c: AppConfig): (errors: seq<ErrorMessage>)
    ensures errors == [] <==>
              && NotificationErrors(c.notifications) == []
              && ScheduleErrors(c.schedules) == []
              && DatabaseErrors(c.database) == []
              && MonitoringErrors(c.monitoring) == []
    ensures |errors| == |NotificationErrors(c.notifications)| + |ScheduleErrors(c.schedules)|
                        + |DatabaseErrors(c.database)| + |MonitoringErrors(c.monitoring)|
  {
    NotificationErrors(c.notifications) + ScheduleErrors(c.schedules)
    + DatabaseErrors(c.database) + MonitoringErrors(c.monitoring)
  }

  /** `AppConfig.validate`: the four sections' messages, notifications first, then schedules,
      database and monitoring. */
  method ValidateApp(c: AppConfig) returns (errors: seq<ErrorMessage>)
    ensures errors == NotificationErrors(c.notifications) + ScheduleErrors(c.schedules)
                      + DatabaseErrors(c.database) + MonitoringErrors(c.monitoring)
  {
    errors := [];
    var n := ValidateNotifications(c.notifications);
    errors := errors + n;
    assert errors == n;
    var s := ValidateSchedules(c.schedules);
    errors := errors + s;
    var d := ValidateDatabase(c.database);
    errors := errors + d;
    var m := ValidateMonitoring(c.monitoring);
    errors := errors + m;
    assert errors == n + s + d + m;
  }

  lemma DefaultTimesValid()
    ensures IsValidTime("09:00") && IsValidTime("08:00")
    ensures IsValidTime("07:00") && IsValidTime("06:00")
  {
    ValidTimeOfDigits('0', '9', '0', '0');
    ValidTimeOfDigits('0', '8', '0', '0');
    ValidTimeOfDigits('0', '7', '0', '0');
    ValidTimeOfDigits('0', '6', '0', '0');
    assert "09:00" == ['0', '9', ':', '0', '0'];
    assert "08:00" == ['0', '8', ':', '0', '0'];
    assert "07:00" == ['0', '7', ':', '0', '0'];
    assert "06:00" == ['0', '6', ':', '0', '0'];
  }

  /** The default configuration `AppConfig()` validates without any message. */
  lemma DefaultAppValid()
    ensures AppErrors(DefaultApp) == []
  {
    DefaultSchedulesValid();
    DefaultDatabaseValid();
    DefaultMonitoringValid();
  }

  lemma DefaultSchedulesValid()
    ensures ScheduleErrors(DefaultSchedules) == []
  {
    DefaultTimesValid();
    var rs := ScheduleRules(DefaultSchedules);
    FailingFour(rs[0], rs[1], rs[2], rs[3]);
  }

  lemma DefaultDatabaseValid()
    ensures DatabaseErrors(DefaultDatabase) == []
  {
    assert StartsWith("http://localhost:8529", "http://") by {
      assert "http://localhost:8529"[..7] == "http://";
    }
    var rs := DatabaseRules(DefaultDatabase);
    FailingFive(rs[0], rs[1], rs[2], rs[3], rs[4]);
  }

  lemma DefaultMonitoringValid()
    ensures MonitoringErrors(DefaultMonitoring) == []
  {
    assert Upper("INFO") == "INFO";
    var rs := MonitoringRules(DefaultMonitoring);
    FailingFour(rs[0], rs[1], rs[2], rs[3]);
  }

  /** The sample that `create_sample_config` writes: the defaults with notifications enabled
      and placeholder credentials filled in. */
  const SampleConfig := DefaultApp.(notifications := DefaultNotifications.(
    enabled := true,
    emailFrom := "your-email@gmail.com",
    emailTo := ["recipient@example.com"],
    emailPassword := "your-app-password"))

  lemma SampleConfigValid()
    ensures AppErrors(SampleConfig) == []
  {
    DefaultSchedulesValid();
    DefaultDatabaseValid();
    DefaultMonitoringValid();
    var rs := NotificationRules(SampleConfig.notifications);
    FailingFour(rs[0], rs[1], rs[2], rs[3]);
  }

  // ---------------------------------------------------------------- from_dict / to_dict

  /** Why parsed JSON cannot be read into the typed configuration: a section that is not an
      object (Python's `.get` on it raises), a field whose value does not have the field's
      type, or a top-level value that is not an object and on which `from_dict` raises. */
  datatype ConfigError =
    | SectionNotObject(section: string)
    | WrongType(section: string, key: string)
    | NotContainer            // `'notifications' in data` on a number, a boolean or null
    | NotSubscriptable        // `data['notifications']` on a list or a string

  function GetBool(d: map<string, Json>, section: string, key: string, default: bool): Result<bool, ConfigError> {
    if key !in d then Success(default)
    else if d[key].JBool? then Success(d[key].b)
    else Failure(WrongType(section, key))
  }

  function GetInt(d: map<string, Json>, section: string, key: string, default: int): Result<int, ConfigError> {
    if key !in d then Success(default)
    else if d[key].JInt? then Success(d[key].i)
    else Failure(WrongType(section, key))
  }

  function GetStr(d: map<string, Json>, section: string, key: string, default: string): Result<string, ConfigError> {
    if key !in d then Success(default)
    else if d[key].JStr? then Success(d[key].s)
    else Failure(WrongType(section, key))
  }

  predicate AllStrings(items: seq<Json>) {
    forall k :: 0 <= k < |items| ==> items[k].JStr?
  }

  function StrList(xs: seq<string>): seq<Json> {
    seq(|xs|, k requires 0 <= k < |xs| => JStr(xs[k]))
  }

  function GetStrList(d: map<string, Json>, section: string, key: string, default: seq<string>): Result<seq<string>, ConfigError> {
    if key !in d then Success(default)
    else if d[key].JArray? && AllStrings(d[key].items) then
      var items := d[key].items;
      Success(seq(|items|, k requires 0 <= k < |items| => items[k].s))
    else Failure(WrongType(section, key))
  }

  /** `d.get(key, default)` read as `value`: the field's own value when present, otherwise the
      default. */
  predicate ReadAs(d: map<string, Json>, key: string, value: Json, default: Json) {
    if key in d then d[key] == value else value == default
  }

  /** A list of strings is the JSON list of its strings. */
  lemma StrListOfStrings(items: seq<Json>)
    requires AllStrings(items)
    ensures StrList(seq(|items|, k requires 0 <= k < |items| => items[k].s)) == items
  {
    var xs := seq(|items|, k requires 0 <= k < |items| => items[k].s);
    assert forall k | 0 <= k < |items| :: StrList(xs)[k] == items[k];
  }

  /** Reading as a string list agrees with the field's JSON value. */
  lemma GetStrListReadAs(d: map<string, Json>, section: string, key: string, default: seq<string>)
    requires GetStrList(d, section, key, default).Success?
    ensures ReadAs(d, key, JArray(StrList(GetStrList(d, section, key, default).value)), JArray(StrList(default)))
  {
    if key in d {
      StrListOfStrings(d[key].items);
    }
  }

  function ReadNotifications(v: Json): (r: Result<NotificationConfig, ConfigError>)
    ensures !v.JObject? ==> r == Failure(SectionNotObject("notifications"))
    ensures r.Failure? && v.JObject? ==>
              exists key | key in v.fields :: r.error == WrongType("notifications", key)
    ensures r.Success? ==> v.JObject?
    ensures r.Success? ==>
              var d := v.fields;
              && ReadAs(d, "enabled", JBool(r.value.enabled), JBool(false))
              && ReadAs(d, "smtp_server", JStr(r.value.smtpServer), JStr("smtp.gmail.com"))
              && ReadAs(d, "smtp_port", JInt(r.value.smtpPort), JInt(587))
              && ReadAs(d, "email_from", JStr(r.value.emailFrom), JStr(""))
              && ReadAs(d, "email_to", JArray(StrList(r.value.emailTo)), JArray([]))
              && ReadAs(d, "email_password", JStr(r.value.emailPassword), JStr(""))
  {
    if !v.JObject? then Failure(SectionNotObject("notifications"))
    else
      var d := v.fields;
      var enabled :- GetBool(d, "notifications", "enabled", false);
      var server :- GetStr(d, "notifications", "smtp_server", "smtp.gmail.com");
      var port :- GetInt(d, "notifications", "smtp_port", 587);
      var from :- GetStr(d, "notifications", "email_from", "");
      var to :- GetStrList(d, "notifications", "email_to", []);
      GetStrListReadAs(d, "notifications", "email_to", []);
      var password :- GetStr(d, "notifications", "email_password", "");
      Success(NotificationConfig(enabled, server, port, from, to, password))
  }

  function ReadSchedules(v: Json): (r: Result<ScheduleConfig, ConfigError>)
    ensures !v.JObject? ==> r == Failure(SectionNotObject("schedules"))
    ensures r.Failure? && v.JObject? ==>
              exists key | key in v.fields :: r.error == WrongType("schedules", key)
    ensures r.Success? ==> v.JObject?
    ensures r.Success? ==>
              var d := v.fields;
              && ReadAs(d, "daily_monitoring", JStr(r.value.dailyMonitoring), JStr("09:00"))
              && ReadAs(d, "weekly_report", JStr(r.value.weeklyReport), JStr("08:00"))
              && ReadAs(d, "monthly_quality_check", JStr(r.value.monthlyQualityCheck), JStr("07:00"))
              && ReadAs(d, "quarterly_review", JStr(r.value.quarterlyReview), JStr("06:00"))
  {
    if !v.JObject? then Failure(SectionNotObject("schedules"))
    else
      var d := v.fields;
      var daily :- GetStr(d, "schedules", "daily_monitoring", "09:00");
      var weekly :- GetStr(d, "schedules", "weekly_report", "08:00");
      var monthly :- GetStr(d, "schedules", "monthly_quality_check", "07:00");
      var quarterly :- GetStr(d, "schedules", "quarterly_review", "06:00");
      Success(ScheduleConfig(daily, weekly, monthly, quarterly))
  }

  function ReadDatabase(v: Json): (r: Result<DatabaseConfig, ConfigError>)
    ensures !v.JObject? ==> r == Failure(SectionNotObject("database"))
    ensures r.Failure? && v.JObject? ==>
              exists key | key in v.fields :: r.error == WrongType("database", key)
    ensures r.Success? ==> v.JObject?
    ensures r.Success? ==>
              var d := v.fields;
              && ReadAs(d, "host", JStr(r.value.host), JStr("http://localhost:8529"))
              && ReadAs(d, "username", JStr(r.value.username), JStr("root"))
              && ReadAs(d, "password", JStr(r.value.password), JStr(""))
              && ReadAs(d, "database", JStr(r.value.database), JStr("aws_ontology"))
              && ReadAs(d, "timeout", JInt(r.value.timeout), JInt(30))
  {
    if !v.JObject? then Failure(SectionNotObject("database"))
    else
      var d := v.fields;
      var host :- GetStr(d, "database", "host", "http://localhost:8529");
      var username :- GetStr(d, "database", "username", "root");
      var password :- GetStr(d, "database", "password", "");
      var database :- GetStr(d, "database", "database", "aws_ontology");
      var timeout :- GetInt(d, "database", "timeout", 30);
      Success(DatabaseConfig(host, username, password, database, timeout))
  }

  function ReadMonitoring(v: Json): (r: Result<MonitoringConfig, ConfigError>)
    ensures !v.JObject? ==> r == Failure(SectionNotObject("monitoring"))
    ensures r.Failure? && v.JObject? ==>
              exists key | key in v.fields :: r.error == WrongType("monitoring", key)
    ensures r.Success? ==> v.JObject?
    ensures r.Success? ==>
              var d := v.fields;
              && ReadAs(d, "interval_hours", JInt(r.value.intervalHours), JInt(24))
              && ReadAs(d, "log_level", JStr(r.value.logLevel), JStr("INFO"))
              && ReadAs(d, "log_dir", JStr(r.value.logDir), JStr("automation/logs"))
              && ReadAs(d, "max_log_files", JInt(r.value.maxLogFiles), JInt(30))
  {
    if !v.JObject? then Failure(SectionNotObject("monitoring"))
    else
      var d := v.fields;
      var interval :- GetInt(d, "monitoring", "interval_hours", 24);
      var level :- GetStr(d, "monitoring", "log_level", "INFO");
      var dir :- GetStr(d, "monitoring", "log_dir", "automation/logs");
      var maxFiles :- GetInt(d, "monitoring", "max_log_files", 30);
      Success(MonitoringConfig(interval, level, dir, maxFiles))
  }

  /** An empty section object yields the same values as the dataclass defaults. */
  lemma EmptySectionsGiveDefaults()
    ensures ReadNotifications(JObject(map[])) == Success(DefaultNotifications)
    ensures ReadSchedules(JObject(map[])) == Success(DefaultSchedules)
    ensures ReadDatabase(JObject(map[])) == Success(DefaultDatabase)
    ensures ReadMonitoring(JObject(map[])) == Success(DefaultMonitoring)
  {
  }

  /** `AppConfig.from_dict`: start from the defaults; every section present in the dictionary
      replaces the corresponding sub-configuration, read field by field with the defaults for
      missing fields; absent sections keep their defaults and unknown keys are ignored. */
  function ConfigFromDict(data: map<string, Json>): (r: Result<AppConfig, ConfigError>)
    ensures r.Success? && "notifications" !in data ==> r.value.notifications == DefaultNotifications
    ensures r.Success? && "schedules" !in data ==> r.value.schedules == DefaultSchedules
    ensures r.Success? && "database" !in data ==> r.value.database == DefaultDatabase
    ensures r.Success? && "monitoring" !in data ==> r.value.monitoring == DefaultMonitoring
    ensures r.Success? && "notifications" in data ==>
              ReadNotifications(data["notifications"]) == Success(r.value.notifications)
    ensures r.Success? && "schedules" in data ==>
              ReadSchedules(data["schedules"]) == Success(r.value.schedules)
    ensures r.Success? && "database" in data ==>
              ReadDatabase(data["database"]) == Success(r.value.database)
    ensures r.Success? && "monitoring" in data ==>
              ReadMonitoring(data["monitoring"]) == Success(r.value.monitoring)
    ensures r.Failure? <==>
              || ("notifications" in data && ReadNotifications(data["notifications"]).Failure?)
              || ("schedules" in data && ReadSchedules(data["schedules"]).Failure?)
              || ("database" in data && ReadDatabase(data["database"]).Failure?)
              || ("monitoring" in data && ReadMonitoring(data["monitoring"]).Failure?)
  {
    var n :- if "notifications" in data then ReadNotifications(data["notifications"]) else Success(DefaultNotifications);
    var s :- if "schedules" in data then ReadSchedules(data["schedules"]) else Success(DefaultSchedules);
    var d :- if "database" in data then ReadDatabase(data["database"]) else Success(DefaultDatabase);
    var m :- if "monitoring" in data then ReadMonitoring(data["monitoring"]) else Success(DefaultMonitoring);
    Success(AppConfig(n, s, d, m))
  }

  /** `from_dict` as the source writes it: create the default configuration, then overwrite
      one section at a time. */
  method FromDict(data: map<string, Json>) returns (r: Result<AppConfig, ConfigError>)
    ensures r == ConfigFromDict(data)
  {
    var config := DefaultApp;
    if "notifications" in data {
      var n := ReadNotifications(data["notifications"]);
      if n.Failure? { return Failure(n.error); }
      config := config.(notifications := n.value);
    }
    if "schedules" in data {
      var s := ReadSchedules(data["schedules"]);
      if s.Failure? { return Failure(s.error); }
      config := config.(schedules := s.value);
    }
    if "database" in data {
      var d := ReadDatabase(data["database"]);
      if d.Failure? { return Failure(d.error); }
      config := config.(database := d.value);
    }
    if "monitoring" in data {
      var m := ReadMonitoring(data["monitoring"]);
      if m.Failure? { return Failure(m.error); }
      config := config.(monitoring := m.value);
    }
    r := Success(config);
  }

  /** `AppConfig.to_dict`. */
  function ToDict(c: AppConfig): (d: map<string, Json>)
    ensures d.Keys == {"notifications", "schedules", "database", "monitoring"}
    ensures forall k | k in d :: d[k].JObject?
  {
    map[
      "notifications" := JObject(map[
        "enabled" := JBool(c.notifications.enabled),
        "smtp_server" := JStr(c.notifications.smtpServer),
        "smtp_port" := JInt(c.notifications.smtpPort),
        "email_from" := JStr(c.notifications.emailFrom),
        "email_to" := JArray(StrList(c.notifications.emailTo)),
        "email_password" := JStr(c.notifications.emailPassword)]),
      "schedules" := JObject(map[
        "daily_monitoring" := JStr(c.schedules.dailyMonitoring),
        "weekly_report" := JStr(c.schedules.weeklyReport),
        "monthly_quality_check" := JStr(c.schedules.monthlyQualityCheck),
        "quarterly_review" := JStr(c.schedules.quarterlyReview)]),
      "database" := JObject(map[
        "host" := JStr(c.database.host),
        "username" := JStr(c.database.username),
        "password" := JStr(c.database.password),
        "database" := JStr(c.database.database),
        "timeout" := JInt(c.database.timeout)]),
      "monitoring" := JObject(map[
        "interval_hours" := JInt(c.monitoring.intervalHours),
        "log_level" := JStr(c.monitoring.logLevel),
        "log_dir" := JStr(c.monitoring.logDir),
        "max_log_files" := JInt(c.monitoring.maxLogFiles)])
    ]
  }

  lemma StrListRoundTrip(d: map<string, Json>, section: string, key: string, xs: seq<string>, default: seq<string>)
    requires key in d && d[key] == JArray(StrList(xs))
    ensures GetStrList(d, section, key, default) == Success(xs)
  {
    var items := StrList(xs);
    assert AllStrings(items);
    var ys := seq(|items|, k requires 0 <= k < |items| => items[k].s);
    assert forall k | 0 <= k < |xs| :: ys[k] == xs[k];
    assert ys == xs;
  }

  /** Reading back what `to_dict` wrote gives the configuration itself. */
  lemma FromDictOfToDict(c: AppConfig)
    ensures ConfigFromDict(ToDict(c)) == Success(c)
  {
    var d := ToDict(c);
    StrListRoundTrip(d["notifications"].fields, "notifications", "email_to", c.notifications.emailTo, []);
    assert ReadNotifications(d["notifications"]) == Success(c.notifications);
    assert ReadSchedules(d["schedules"]) == Success(c.schedules);
    assert ReadDatabase(d["database"]) == Success(c.database);
    assert ReadMonitoring(d["monitoring"]) == Success(c.monitoring);
  }

  /** The round trip the source relies on: `to_dict(from_dict(to_dict(c))) == to_dict(c)`. */
  lemma ToDictRoundTrip(c: AppConfig)
    ensures ConfigFromDict(ToDict(c)).Success?
    ensures ToDict(ConfigFromDict(ToDict(c)).value) == ToDict(c)
  {
    FromDictOfToDict(c);
  }

  const SectionNames := ["notifications", "schedules", "database", "monitoring"]

  /** `section in data` for some section, where `data` is a list (an element equal to the
      name) or a string (the name as a substring). */
  predicate NamesSection(v: Json) {
    match v
    case JArray(items) => exists k | 0 <= k < |SectionNames| :: JStr(SectionNames[k]) in items
    case JStr(text) => exists k | 0 <= k < |SectionNames| :: Contains(text, SectionNames[k])
    case _ => false
  }

  /** `AppConfig.from_dict` on whatever `json.load` returned. An object is read as above. On a
      list or a string the four `in` tests are membership and substring tests: when none
      holds the defaults come back, and when one holds the indexing that follows raises. On
      a number, a boolean or null the first `in` test raises. */
  function ConfigFromJson(v: Json): (r: Result<AppConfig, ConfigError>)
    ensures v.JObject? ==> r == ConfigFromDict(v.fields)
    ensures (v.JArray? || v.JStr?) ==> (r.Success? <==> !NamesSection(v))
    ensures (v.JArray? || v.JStr?) && r.Success? ==> r.value == DefaultApp
    ensures (v.JNull? || v.JBool? || v.JInt?) ==> r == Failure(NotContainer)
  {
    match v
    case JObject(data) => ConfigFromDict(data)
    case JArray(_) => if NamesSection(v) then Failure(NotSubscriptable) else Success(DefaultApp)
    case JStr(_) => if NamesSection(v) then Failure(NotSubscriptable) else Success(DefaultApp)
    case _ => Failure(NotContainer)
  }

  /** `load_and_validate_config` once the file has been read: an unreadable file or invalid
      JSON (`None` here), JSON that `from_dict` cannot read, or any validation message all
      give None; otherwise the configuration. */
  function LoadAndValidate(parsed: Option<Json>): (r: Option<AppConfig>)
    ensures r.Some? ==> parsed.Some? && ConfigFromJson(parsed.value) == Success(r.value)
    ensures r.Some? ==> AppErrors(r.value) == []
    ensures (parsed.Some? && ConfigFromJson(parsed.value).Success?
             && AppErrors(ConfigFromJson(parsed.value).value) == []) ==> r.Some?
  {
    match parsed
    case None => None
    case Some(data) =>
      match ConfigFromJson(data)
      case Failure(_) => None
      case Success(c) => if AppErrors(c) == [] then Some(c) else None
  }

  /** A file holding a list or a string that names no section loads as the default
      configuration, which is valid; a number, a boolean or null loads as nothing. */
  lemma NonObjectFiles(v: Json)
    requires !v.JObject?
    ensures (v.JArray? || v.JStr?) && !NamesSection(v) ==> LoadAndValidate(Some(v)) == Some(DefaultApp)
    ensures (v.JArray? || v.JStr?) && NamesSection(v) ==> LoadAndValidate(Some(v)) == None
    ensures (v.JNull? || v.JBool? || v.JInt?) ==> LoadAndValidate(Some(v)) == None
  {
    DefaultAppValid();
  }
}
