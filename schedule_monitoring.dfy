/** The monitoring scheduler (automation/schedule_monitoring.py): the configuration it merges
    over its defaults, the four tasks and the notifications each of them asks for, the mail
    gate `_send_notification`, the job list `setup_schedule` registers, `run_once` and the exit
    codes of `main`. Subprocesses, files, the clock and the mail server are parameters; the
    scheduler object is a class whose fields the methods update. */
module Scheduler {
  import opened Wrappers
  import opened Text
  import opened Json
  import ConfigValidation

  // ---------------------------------------------------------------- configuration

  function Obj(fields: map<string, Json>): Json { JObject(fields) }

  /** The configuration `_load_config` starts from. */
  const DefaultConfig: map<string, Json> := map[
    "notifications" := Obj(map[
      "enabled" := JBool(false),
      "smtp_server" := JStr("smtp.gmail.com"),
      "smtp_port" := JInt(587),
      "email_from" := JStr(""),
      "email_to" := JArray([]),
      "email_password" := JStr("")]),
    "schedules" := Obj(map[
      "daily_monitoring" := JStr("09:00"),
      "weekly_report" := JStr("Monday 08:00"),
      "monthly_quality_check" := JStr("1st 07:00"),
      "quarterly_review" := JStr("1st of quarter 06:00")]),
    "thresholds" := Obj(map[
      "high_priority_notify" := JBool(true),
      "test_failure_notify" := JBool(true),
      "performance_degradation_notify" := JBool(true)]),
    "output_dirs" := Obj(map[
      "reports" := JStr("automation/reports"),
      "logs" := JStr("automation/logs")])]

  /** The file `create_sample_config` writes. */
  const SampleConfig: map<string, Json> := map[
    "notifications" := Obj(map[
      "enabled" := JBool(false),
      "smtp_server" := JStr("smtp.gmail.com"),
      "smtp_port" := JInt(587),
      "email_from" := JStr("your-email@gmail.com"),
      "email_to" := JArray([JStr("recipient@example.com")]),
      "email_password" := JStr("your-app-password")]),
    "schedules" := Obj(map[
      "daily_monitoring" := JStr("09:00"),
      "weekly_report" := JStr("monday 08:00"),
      "monthly_quality_check" := JStr("1st 07:00"),
      "quarterly_review" := JStr("1st of quarter 06:00")]),
    "thresholds" := Obj(map[
      "high_priority_notify" := JBool(true),
      "test_failure_notify" := JBool(true),
      "performance_degradation_notify" := JBool(true)]),
    "output_dirs" := Obj(map[
      "reports" := JStr("automation/reports"),
      "logs" := JStr("automation/logs")])]

  /** The configuration file as `_load_config` finds it: no path or no such file, a file that
      cannot be read or is not a JSON object, or the object it holds. */
  datatype ConfigSource = NoConfigFile | UnreadableConfig | ConfigJson(custom: map<string, Json>)

  /** `default_config.update(custom_config)`: a shallow merge. Every top-level key of the file
      replaces the default section wholesale; the other default sections stay. */
  predicate MergedFrom(config: map<string, Json>, source: ConfigSource) {
    match source
    case ConfigJson(custom) =>
      && config.Keys == DefaultConfig.Keys + custom.Keys
      && (forall k :: k in custom ==> config[k] == custom[k])
      && (forall k :: k in DefaultConfig && k !in custom ==> config[k] == DefaultConfig[k])
    case _ => config == DefaultConfig
  }

  /** `_load_config`: the defaults, updated in place with the file's object when there is one. */
  method LoadConfig(source: ConfigSource) returns (config: map<string, Json>)
    ensures MergedFrom(config, source)
  {
    config := DefaultConfig;
    if source.ConfigJson? {
      config := config + source.custom;
    }
  }

  /** The merge determines the configuration: two configurations merged from one source are
      equal. */
  lemma MergedFromUnique(a: map<string, Json>, b: map<string, Json>, source: ConfigSource)
    requires MergedFrom(a, source) && MergedFrom(b, source)
    ensures a == b
  {
    if source.ConfigJson? {
      forall k | k in a.Keys
        ensures a[k] == b[k]
      {
        if k !in source.custom {
          assert k in DefaultConfig;
        }
      }
    }
  }

  /** `str(KeyError(key))`. */
  function KeyErrorText(key: string): string { "'" + key + "'" }

  /** `config[section][key]`, with the text of the exception where Python raises: the
      missing key, or a section that is not an object. */
  function Lookup(config: map<string, Json>, section: string, key: string): (r: Result<Json, string>)
    ensures r.Success? <==> Member(config, section, key).Some?
    ensures r.Success? ==> r.value == Member(config, section, key).value
  {
    if section !in config then Failure(KeyErrorText(section))
    else if !config[section].JObject? then Failure("TypeError")
    else if key !in config[section].fields then Failure(KeyErrorText(key))
    else Success(config[section].fields[key])
  }

  /** A file's top-level key replaces the whole default section, so a section given with only
      some of its keys loses the other defaults: a lookup of one it left out raises. */
  lemma MergeIsShallow(config: map<string, Json>, custom: map<string, Json>, section: string, key: string)
    requires MergedFrom(config, ConfigJson(custom))
    requires section in custom && custom[section].JObject? && key !in custom[section].fields
    ensures Lookup(config, section, key) == Failure(KeyErrorText(key))
  {
  }

  /** `Path(config["output_dirs"]["reports"])`; a value that is not a string raises. */
  function ReportDir(config: map<string, Json>): Result<string, string> {
    match Lookup(config, "output_dirs", "reports")
    case Failure(e) => Failure(e)
    case Success(v) => if v.JStr? then Success(v.s) else Failure("TypeError")
  }

  function ReportPath(dir: string, name: string): string { dir + "/" + name }

  /** `Path(config["output_dirs"]["logs"])` in `_setup_logging`, which the constructor calls;
      a failed lookup or a value that is not a string raises out of the constructor. */
  function LogDir(config: map<string, Json>): (r: Result<string, string>)
    ensures r.Success? <==> Lookup(config, "output_dirs", "logs").Success?
                            && Lookup(config, "output_dirs", "logs").value.JStr?
    ensures r.Success? ==> r.value == Lookup(config, "output_dirs", "logs").value.s
  {
    match Lookup(config, "output_dirs", "logs")
    case Failure(e) => Failure(e)
    case Success(v) => if v.JStr? then Success(v.s) else Failure("TypeError")
  }

  // ---------------------------------------------------------------- the clock

  /** A calendar month and a day of a month, as `datetime` gives them. */
  type Month = m: int | 1 <= m <= 12 witness 1
  type Day = d: int | 1 <= d <= 31 witness 1

  /** `datetime.now()`, as far as the scheduled tasks use it. */
  datatype Clock = Clock(year: nat, month: Month, day: Day)

  function Pad2(n: nat): string { if n < 10 then "0" + NatToString(n) else NatToString(n) }

  function IntText(i: int): string { if i < 0 then "-" + NatToString(-i) else NatToString(i) }

  /** `strftime("%Y%m%d")`, `strftime("%Y-%m-%d")` and `strftime("%Y%m")`. */
  function DayStamp(c: Clock): string { NatToString(c.year) + MonthPad(c) + Pad2(c.day) }
  function IsoDate(c: Clock): string { NatToString(c.year) + "-" + MonthPad(c) + "-" + Pad2(c.day) }
  function MonthStamp(c: Clock): string { NatToString(c.year) + MonthPad(c) }
  function MonthPad(c: Clock): string { Pad2(c.month) }

  /** `((month - 1) // 3) + 1`; Python's floor division agrees with Dafny's on a positive
      divisor. */
  function QuarterOf(month: int): int { (month - 1) / 3 + 1 }

  /** The quarter of a calendar month: one of 1..4, and the one whose three months contain it. */
  lemma QuarterOfMonth(month: int)
    requires 1 <= month <= 12
    ensures 1 <= QuarterOf(month) <= 4
    ensures 3 * (QuarterOf(month) - 1) < month <= 3 * QuarterOf(month)
  {
  }

  /** The "Q<n> <year>" label of the quarterly review. */
  function QuarterLabel(c: Clock): (text: string)
    ensures text == "Q" + [DigitChar(QuarterOf(c.month))] + " " + NatToString(c.year)
  {
    "Q" + IntText(QuarterOf(c.month)) + " " + NatToString(c.year)
  }

  // ---------------------------------------------------------------- notifications

  /** The notifications the scheduled tasks send, with their parameters. */
  datatype NoticeKind =
    | HighPriorityChanges(count: int)
    | DailyFailed(stderr: string)
    | DailyError(detail: string)
    | WeeklyReport(date: string)
    | MonthlyIssues
    | MonthlyPassed
    | QuarterlyDue(quarter: string)

  function Subject(k: NoticeKind): string {
    match k
    case HighPriorityChanges(n) => "\U{1F6A8} High Priority AWS Changes Detected (" + IntText(n) + ")"
    case DailyFailed(_) => "\U{274C} Daily AWS Monitoring Failed"
    case DailyError(_) => "\U{274C} Daily Monitoring Error"
    case WeeklyReport(date) => "\U{1F4CA} Weekly AWS Ontology Report - " + date
    case MonthlyIssues => "\U{26A0}\U{FE0F} Monthly Quality Check Issues Detected"
    case MonthlyPassed => "\U{2705} Monthly Quality Check - All Passed"
    case QuarterlyDue(q) => "\U{1F4CB} Quarterly Review Due - " + q
  }

  function Message(k: NoticeKind): string {
    match k
    case HighPriorityChanges(n) => "Found " + IntText(n) + " high-priority AWS changes requiring attention."
    case DailyFailed(stderr) => "Daily monitoring failed with error: " + stderr
    case DailyError(detail) => "Daily monitoring encountered an error: " + detail
    case WeeklyReport(_) => "Weekly comprehensive AWS change report attached."
    case MonthlyIssues => "Monthly quality checks found issues that require attention."
    case MonthlyPassed => "All monthly quality and performance checks passed successfully."
    case QuarterlyDue(_) => "Quarterly comprehensive review is due. Manual review checklist attached."
  }

  /** One call of `_send_notification`: its subject and message, and the attachment path. */
  datatype Notice = Notice(kind: NoticeKind, attachment: Option<string>)

  /** `config["notifications"]["enabled"]` raises: every send raises before it is gated. */
  predicate SendRaises(config: map<string, Json>) {
    Lookup(config, "notifications", "enabled").Failure?
  }

  /** The gate lets the notice through to the mail server. */
  predicate Delivers(config: map<string, Json>) {
    var enabled := Lookup(config, "notifications", "enabled");
    enabled.Success? && Truthy(enabled.value)
  }

  /** The notices of a run that reach the mail server: all of them when the gate is open,
      none otherwise. */
  function Delivered(config: map<string, Json>, notices: seq<Notice>): (r: seq<Notice>)
    ensures Delivers(config) ==> r == notices
    ensures !Delivers(config) ==> r == []
  {
    if Delivers(config) then notices else []
  }

  /** Notifications are off in the defaults and in the sample file: no task run with either
      sends anything, and no send raises. */
  lemma DefaultsSendNothing(notices: seq<Notice>)
    ensures Delivered(DefaultConfig, notices) == [] && !SendRaises(DefaultConfig)
    ensures Delivered(SampleConfig, notices) == [] && !SendRaises(SampleConfig)
  {
    assert Lookup(DefaultConfig, "notifications", "enabled") == Success(JBool(false));
    assert Lookup(SampleConfig, "notifications", "enabled") == Success(JBool(false));
  }

  // ---------------------------------------------------------------- what each task asks for

  /** How a subprocess ended: it raised (a timeout, a missing program), or it exited. */
  datatype TaskRun = Raised(error: string) | Exited(returnCode: int, stderr: string)

  /** The daily report file after the monitor ran: absent, unreadable or not a JSON object,
      or the object it holds. */
  datatype ReportFile = NoReport | UnreadableReport(error: string) | Report(data: map<string, Json>)

  /** `report_data.get('changes_by_priority', {}).get('high', 0)` as `> 0` compares it: an
      integer, a boolean as 0 or 1, and the exception for anything else. */
  function HighPriorityCount(data: map<string, Json>): (r: Result<int, string>)
    ensures "changes_by_priority" !in data ==> r == Success(0)
    ensures "changes_by_priority" in data && !data["changes_by_priority"].JObject? ==>
              r == Failure("AttributeError")
    ensures "changes_by_priority" in data && data["changes_by_priority"].JObject? ==>
              var fields := data["changes_by_priority"].fields;
              && ("high" !in fields ==> r == Success(0))
              && ("high" in fields && fields["high"].JInt? ==> r == Success(fields["high"].i))
              && ("high" in fields && !fields["high"].JInt? && !fields["high"].JBool? ==>
                    r == Failure("TypeError"))
  {
    var byPriority := if "changes_by_priority" in data then data["changes_by_priority"] else Obj(map[]);
    if !byPriority.JObject? then Failure("AttributeError")
    else
      var high := if "high" in byPriority.fields then byPriority.fields["high"] else JInt(0);
      match high
      case JInt(i) => Success(i)
      case JBool(b) => Success(if b then 1 else 0)
      case _ => Failure("TypeError")
  }

  /** The try block of `daily_monitoring`: the notice it sends (if any), or the text of the
      exception that sends it to the except branch. */
  function DailyRequest(config: map<string, Json>, clock: Clock, run: TaskRun, report: ReportFile)
    : (r: Result<Option<Notice>, string>)
    ensures ReportDir(config).Failure? ==> r == Failure(ReportDir(config).error)
    ensures ReportDir(config).Success? && run.Raised? ==> r == Failure(run.error)
    ensures ReportDir(config).Success? && run.Exited? && run.returnCode != 0 ==>
              r == Success(Some(Notice(DailyFailed(run.stderr), None)))
    ensures ReportDir(config).Success? && run.Exited? && run.returnCode == 0 ==>
              && (report.NoReport? ==> r == Success(None))
              && (report.UnreadableReport? ==> r == Failure(report.error))
              && (report.Report? && HighPriorityCount(report.data).Failure? ==>
                    r == Failure(HighPriorityCount(report.data).error))
              && (report.Report? && HighPriorityCount(report.data).Success? && HighPriorityCount(report.data).value <= 0 ==>
                    r == Success(None))
              && (report.Report? && HighPriorityCount(report.data).Success? && HighPriorityCount(report.data).value > 0 ==>
                    && (Lookup(config, "thresholds", "high_priority_notify").Failure? ==>
                          r == Failure(Lookup(config, "thresholds", "high_priority_notify").error))
                    && (Lookup(config, "thresholds", "high_priority_notify").Success?
                        && !Truthy(Lookup(config, "thresholds", "high_priority_notify").value) ==>
                          r == Success(None)))
    ensures (r.Success? && r.value.Some? && r.value.value.kind.HighPriorityChanges?) <==>
              && ReportDir(config).Success? && run.Exited? && run.returnCode == 0 && report.Report?
              && HighPriorityCount(report.data).Success? && HighPriorityCount(report.data).value > 0
              && Lookup(config, "thresholds", "high_priority_notify").Success?
              && Truthy(Lookup(config, "thresholds", "high_priority_notify").value)
    ensures r.Success? && r.value.Some? && r.value.value.kind.HighPriorityChanges? ==>
              r.value.value == Notice(HighPriorityChanges(HighPriorityCount(report.data).value),
                                      Some(ReportPath(ReportDir(config).value, "daily_changes_" + DayStamp(clock) + ".json")))
  {
    match ReportDir(config)
    case Failure(e) => Failure(e)
    case Success(dir) =>
      match run
      case Raised(e) => Failure(e)
      case Exited(code, stderr) =>
        if code != 0 then Success(Some(Notice(DailyFailed(stderr), None)))
        else
          match report
          case NoReport => Success(None)
          case UnreadableReport(e) => Failure(e)
          case Report(data) =>
            match HighPriorityCount(data)
            case Failure(e) => Failure(e)
            case Success(n) =>
              if n <= 0 then Success(None)
              else
                match Lookup(config, "thresholds", "high_priority_notify")
                case Failure(e) => Failure(e)
                case Success(flag) =>
                  if Truthy(flag)
                  then Success(Some(Notice(HighPriorityChanges(n), Some(ReportPath(dir, "daily_changes_" + DayStamp(clock) + ".json")))))
                  else Success(None)
  }

  /** Every notice `daily_monitoring` asks to send, in order, when sending does not raise:
      the try block's notice, or the error notice of the except branch. */
  function DailyNotices(config: map<string, Json>, clock: Clock, run: TaskRun, report: ReportFile): (r: seq<Notice>)
    ensures |r| <= 1
  {
    match DailyRequest(config, clock, run, report)
    case Success(None) => []
    case Success(Some(n)) => [n]
    case Failure(e) => [Notice(DailyError(e), None)]
  }

  /** The exception leaves `daily_monitoring`: a send raised, and the except branch's send
      raised again. */
  predicate DailyEscapes(config: map<string, Json>, clock: Clock, run: TaskRun, report: ReportFile) {
    SendRaises(config) && DailyNotices(config, clock, run, report) != []
  }

  /** With no high-priority change, a successful monitor run asks for no notice. */
  lemma DailyCleanReportSilent(config: map<string, Json>, clock: Clock, data: map<string, Json>)
    requires ReportDir(config).Success?
    requires HighPriorityCount(data) == Success(0)
    ensures DailyNotices(config, clock, Exited(0, ""), Report(data)) == []
  {
  }

  /** The subprocesses of `monthly_quality_check` and the report it writes: one of them
      raised, or both suites ran with their pass/fail outcome. */
  datatype SuiteRuns = SuitesRaised(error: string) | SuitesRan(testsPassed: bool, performancePassed: bool)

  function WeeklyNotices(config: map<string, Json>, clock: Clock, run: TaskRun): (r: seq<Notice>)
    ensures |r| <= 1
    ensures r != [] <==> ReportDir(config).Success? && run.Exited? && run.returnCode == 0
  {
    match ReportDir(config)
    case Failure(_) => []
    case Success(dir) =>
      if run.Exited? && run.returnCode == 0
      then [Notice(WeeklyReport(IsoDate(clock)), Some(ReportPath(dir, "weekly_report_" + DayStamp(clock) + ".json")))]
      else []
  }

  function MonthlyNotices(config: map<string, Json>, clock: Clock, runs: SuiteRuns): (r: seq<Notice>)
    ensures |r| <= 1
    ensures r != [] ==> ReportDir(config).Success? && runs.SuitesRan?
  {
    match ReportDir(config)
    case Failure(_) => []
    case Success(dir) =>
      var attachment := Some(ReportPath(dir, "monthly_quality_" + MonthStamp(clock) + ".json"));
      match runs
      case SuitesRaised(_) => []
      case SuitesRan(tests, performance) =>
        if !tests || !performance then
          match Lookup(config, "thresholds", "test_failure_notify")
          case Failure(_) => []
          case Success(flag) => if Truthy(flag) then [Notice(MonthlyIssues, attachment)] else []
        else [Notice(MonthlyPassed, attachment)]
  }

  /** The monthly decision: both suites passing is always reported; a failing suite is
      reported exactly when `test_failure_notify` is set. */
  lemma MonthlyDecision(config: map<string, Json>, clock: Clock, tests: bool, performance: bool)
    requires ReportDir(config).Success?
    ensures var ns := MonthlyNotices(config, clock, SuitesRan(tests, performance));
            && (tests && performance ==> |ns| == 1 && ns[0].kind == MonthlyPassed)
            && (!(tests && performance) ==>
                  (ns != [] <==> Lookup(config, "thresholds", "test_failure_notify").Success?
                                 && Truthy(Lookup(config, "thresholds", "test_failure_notify").value))
                  && (ns != [] ==> |ns| == 1 && ns[0].kind == MonthlyIssues))
  {
  }

  /** `quarterly_review`; the `%q` directive of the file name is taken as copied literally. */
  function QuarterlyNotices(config: map<string, Json>, clock: Clock, written: bool): (r: seq<Notice>)
    ensures r != [] <==> ReportDir(config).Success? && written
    ensures r != [] ==> r == [Notice(QuarterlyDue(QuarterLabel(clock)), Some(ReportPath(ReportDir(config).value, "quarterly_review_" + NatToString(clock.year) + "_Q%q.json")))]
  {
    match ReportDir(config)
    case Failure(_) => []
    case Success(dir) =>
      if written
      then [Notice(QuarterlyDue(QuarterLabel(clock)), Some(ReportPath(dir, "quarterly_review_" + NatToString(clock.year) + "_Q%q.json")))]
      else []
  }

  // ---------------------------------------------------------------- the schedule

  /** The interval of a registered job. */
  datatype Every = EveryDay | EveryWeekday(day: string) | EveryMonth | EveryThreeMonths

  datatype Job = Job(every: Every, at: Option<string>, task: string)

  /** The jobs `setup_schedule` registers, in order, and whether it ends normally: it raises
      at a schedule that is missing or not a string and registers nothing more. The weekly job
      is registered only when its schedule is two words, a day and a time. */
  function PlannedJobs(config: map<string, Json>): (r: (seq<Job>, bool))
    ensures !r.1 ==> |r.0| <= 1
    ensures r.1 ==> 3 <= |r.0| <= 4 && r.0[0].task == "daily"
                    && r.0[|r.0| - 2] == Job(EveryMonth, None, "monthly")
                    && r.0[|r.0| - 1] == Job(EveryThreeMonths, None, "quarterly")
    ensures r.1 ==> && Lookup(config, "schedules", "weekly_report").Success?
                    && Lookup(config, "schedules", "weekly_report").value.JStr?
                    && (|r.0| == 4 <==> |Words(Lookup(config, "schedules", "weekly_report").value.s)| == 2)
  {
    var daily := Lookup(config, "schedules", "daily_monitoring");
    if daily.Failure? || !daily.value.JStr? then ([], false)
    else
      var first := [Job(EveryDay, Some(daily.value.s), "daily")];
      var weekly := Lookup(config, "schedules", "weekly_report");
      if weekly.Failure? || !weekly.value.JStr? then (first, false)
      else
        var parts := Words(weekly.value.s);
        var second := if |parts| == 2 then [Job(EveryWeekday(Lower(parts[0])), Some(parts[1]), "weekly")] else [];
        (first + second + [Job(EveryMonth, None, "monthly"), Job(EveryThreeMonths, None, "quarterly")], true)
  }

  /** With the defaults, the four jobs run daily at 09:00, on Mondays at 08:00, monthly and
      every three months. */
  lemma DefaultSchedule()
    ensures PlannedJobs(DefaultConfig) ==
              ([Job(EveryDay, Some("09:00"), "daily"), Job(EveryWeekday("monday"), Some("08:00"), "weekly"),
                Job(EveryMonth, None, "monthly"), Job(EveryThreeMonths, None, "quarterly")], true)
  {
    var schedules := DefaultConfig["schedules"].fields;
    assert schedules["daily_monitoring"] == JStr("09:00");
    assert schedules["weekly_report"] == JStr("Monday 08:00");
    WeeklyDefaultWords();
    MondayLower();
    PlannedJobsOfTwoWords(DefaultConfig, "09:00", "Monday 08:00");
  }

  /** The jobs for a daily time and a weekly schedule of two words. */
  lemma PlannedJobsOfTwoWords(config: map<string, Json>, daily: string, weekly: string)
    requires Lookup(config, "schedules", "daily_monitoring") == Success(JStr(daily))
    requires Lookup(config, "schedules", "weekly_report") == Success(JStr(weekly))
    requires |Words(weekly)| == 2
    ensures PlannedJobs(config) ==
              ([Job(EveryDay, Some(daily), "daily"), Job(EveryWeekday(Lower(Words(weekly)[0])), Some(Words(weekly)[1]), "weekly"),
                Job(EveryMonth, None, "monthly"), Job(EveryThreeMonths, None, "quarterly")], true)
  {
    var parts := Words(weekly);
    var first := [Job(EveryDay, Some(daily), "daily")];
    var second := [Job(EveryWeekday(Lower(parts[0])), Some(parts[1]), "weekly")];
    var rest := [Job(EveryMonth, None, "monthly"), Job(EveryThreeMonths, None, "quarterly")];
    assert PlannedJobs(config) == (first + second + rest, true);
    assert first + second + rest == [first[0], second[0], rest[0], rest[1]];
  }

  lemma WeeklyDefaultWords()
    ensures Words("Monday 08:00") == ["Monday", "08:00"]
  {
    assert "Monday 08:00" == "Monday" + " " + "08:00";
    TwoWords("Monday", "08:00");
  }

  /** A day and a time joined by one space split back into the two. */
  lemma TwoWords(a: string, b: string)
    requires IsWord(a) && IsWord(b)
    ensures Words(a + " " + b) == [a, b]
  {
    WordsOfJoinWords([a, b]);
    assert JoinWords([a, b]) == a + " " + b;
  }

  lemma MondayLower()
    ensures Lower("Monday") == "monday"
  {
    assert LowerChar('M') == 'm';
  }

  // ---------------------------------------------------------------- setup_schedule as written

  const Weekdays := ["monday", "tuesday", "wednesday", "thursday", "friday", "saturday", "sunday"]

  /** The intervals the `schedule` library's jobs offer among those `setup_schedule` uses: a
      day and the seven weekdays; it has no `month` and no `months`, and asking for one raises
      an attribute error. Only weekday names and the month intervals are covered: a weekly
      value naming another unit attribute (`day`, `hours`, ...) is not told apart here, and
      the time format `at()` checks is not modelled. */
  predicate LibraryHasInterval(e: Every) {
    match e
    case EveryDay => true
    case EveryWeekday(d) => d in Weekdays
    case EveryMonth => false
    case EveryThreeMonths => false
  }

  /** Registering jobs one after the other with the library: the first job whose interval the
      library lacks raises, and nothing after it is registered. */
  function RegisterAll(jobs: seq<Job>): (r: (seq<Job>, bool))
    ensures |r.0| <= |jobs| && r.0 == jobs[..|r.0|]
    ensures r.1 <==> forall k :: 0 <= k < |jobs| ==> LibraryHasInterval(jobs[k].every)
    ensures r.1 ==> r.0 == jobs
    ensures !r.1 ==> |r.0| < |jobs| && !LibraryHasInterval(jobs[|r.0|].every)
    ensures forall k :: 0 <= k < |r.0| ==> LibraryHasInterval(r.0[k].every)
    decreases |jobs|
  {
    if jobs == [] then ([], true)
    else if !LibraryHasInterval(jobs[0].every) then ([], false)
    else
      var rest := RegisterAll(jobs[1..]);
      ([jobs[0]] + rest.0, rest.1)
  }

  /** `setup_schedule` as written against the real library: the planned jobs are registered
      until the monthly one, where `schedule.every().month` raises. */
  function PlannedJobsAsWritten(config: map<string, Json>): (seq<Job>, bool) {
    var registered := RegisterAll(PlannedJobs(config).0);
    (registered.0, PlannedJobs(config).1 && registered.1)
  }

  /** As written, setting up the schedule never ends normally and the monthly and quarterly
      jobs are never registered, whatever the configuration. */
  lemma MonthlyJobAlwaysRaises(config: map<string, Json>)
    ensures !PlannedJobsAsWritten(config).1
    ensures forall j :: j in PlannedJobsAsWritten(config).0 ==> j.task in {"daily", "weekly"}
  {
    var planned := PlannedJobs(config).0;
    var registered := RegisterAll(planned);
    if PlannedJobs(config).1 {
      assert !LibraryHasInterval(planned[|planned| - 2].every);
    }
    forall j | j in registered.0
      ensures j.task in {"daily", "weekly"}
    {
      var k :| 0 <= k < |registered.0| && registered.0[k] == j;
      assert planned[k] == j;
      assert LibraryHasInterval(j.every);
    }
  }

  /** With the default configuration the daemon registers the daily and the Monday job and
      then stops with the attribute error. */
  lemma DefaultScheduleAsWritten()
    ensures PlannedJobsAsWritten(DefaultConfig) ==
              ([Job(EveryDay, Some("09:00"), "daily"), Job(EveryWeekday("monday"), Some("08:00"), "weekly")], false)
  {
    DefaultSchedule();
    assert "monday" in Weekdays;
    RegisterStopsAtThird(Job(EveryDay, Some("09:00"), "daily"), Job(EveryWeekday("monday"), Some("08:00"), "weekly"),
                         Job(EveryMonth, None, "monthly"), Job(EveryThreeMonths, None, "quarterly"));
  }

  lemma RegisterStopsAtThird(a: Job, b: Job, c: Job, d: Job)
    requires LibraryHasInterval(a.every) && LibraryHasInterval(b.every) && !LibraryHasInterval(c.every)
    ensures RegisterAll([a, b, c, d]) == ([a, b], false)
  {
    assert [a, b, c, d][1..] == [b, c, d] && [b, c, d][1..] == [c, d];
    assert RegisterAll([c, d]) == ([], false);
    var cd := RegisterAll([c, d]);
    assert RegisterAll([b, c, d]) == ([b] + cd.0, cd.1);
    assert [b] + cd.0 == [b];
    var bcd := RegisterAll([b, c, d]);
    assert RegisterAll([a, b, c, d]) == ([a] + bcd.0, bcd.1);
    assert [a] + bcd.0 == [a, b];
  }

  /** The scheduler's weekly default is a day and a time, which the application
      configuration's time check rejects: the two modules disagree on the schedule format. */
  lemma WeeklyDefaultFailsTimeCheck()
    ensures !ConfigValidation.IsValidTime("Monday 08:00")
    ensures ConfigValidation.IsValidTime("09:00")
  {
    assert "Monday 08:00" == Join(["Monday 08", "00"], ':');
    assert ':' !in "Monday 08" && ':' !in "00";
    SplitOnJoin(["Monday 08", "00"], ':');
    assert !IsDigit('M');
    assert ParseInt("Monday 08").None?;
    ConfigValidation.DefaultTimesValid();
  }

  // ---------------------------------------------------------------- the scheduler object

  const TaskNames := ["daily", "weekly", "monthly", "quarterly"]

  /** What the outside world holds for one task run: the subprocess outcomes, the daily
      report file, and whether the quarterly review file could be written. A failed write of
      the monthly results file is one of the exceptions `SuitesRaised` stands for. */
  datatype TaskInputs = TaskInputs(
    dailyRun: TaskRun, dailyReport: ReportFile, weeklyRun: TaskRun,
    suites: SuiteRuns, quarterlyWritten: bool)

  class OntologyScheduler {
    /** The merged configuration. */
    var config: map<string, Json>
    /** The notices handed to the mail server, in order. */
    var outbox: seq<Notice>
    /** The names `run_once` dispatched, in order: a ghost record for stating which job ran,
        with no counterpart in the scheduler's own attributes. */
    ghost var ran: seq<string>
    /** The jobs registered with the schedule, in order. */
    var jobs: seq<Job>

    constructor (source: ConfigSource)
      ensures MergedFrom(config, source)
      ensures outbox == [] && ran == [] && jobs == []
    {
      var loaded := LoadConfig(source);
      config := loaded;
      outbox := [];
      ran := [];
      jobs := [];
    }

    /** `_send_notification`: the lookup of `enabled` raises (its text is returned); a false
        value only logs; otherwise the notice goes to the mail server. */
    method SendNotification(n: Notice) returns (raised: Option<string>)
      modifies this
      ensures config == old(config) && ran == old(ran) && jobs == old(jobs)
      ensures raised.Some? <==> SendRaises(config)
      ensures raised.Some? ==> raised.value == Lookup(config, "notifications", "enabled").error
      ensures outbox == old(outbox) + Delivered(config, [n])
    {
      var enabled := Lookup(config, "notifications", "enabled");
      if enabled.Failure? {
        return Some(enabled.error);
      }
      raised := None;
      if !Truthy(enabled.value) {
        return;
      }
      outbox := outbox + [n];
    }

    /** `daily_monitoring`; `escaped` is an exception leaving the method. */
    method DailyMonitoring(clock: Clock, run: TaskRun, report: ReportFile) returns (escaped: bool)
      modifies this
      ensures config == old(config) && ran == old(ran) && jobs == old(jobs)
      ensures outbox == old(outbox) + Delivered(config, DailyNotices(config, clock, run, report))
      ensures escaped <==> DailyEscapes(config, clock, run, report)
    {
      var request := DailyRequest(config, clock, run, report);
      var failure: Option<string> := None;
      match request {
        case Failure(e) =>
          failure := Some(e);
        case Success(None) =>
        case Success(Some(n)) =>
          failure := SendNotification(n);
      }
      escaped := false;
      if failure.Some? {
        var raised := SendNotification(Notice(DailyError(failure.value), None));
        escaped := raised.Some?;
      }
    }

    /** `weekly_report`: exceptions, a raising send included, are caught and logged. */
    method WeeklyReportTask(clock: Clock, run: TaskRun)
      modifies this
      ensures config == old(config) && ran == old(ran) && jobs == old(jobs)
      ensures outbox == old(outbox) + Delivered(config, WeeklyNotices(config, clock, run))
    {
      var dir := ReportDir(config);
      if dir.Success? && run.Exited? && run.returnCode == 0 {
        var _ := SendNotification(Notice(WeeklyReport(IsoDate(clock)), Some(ReportPath(dir.value, "weekly_report_" + DayStamp(clock) + ".json"))));
      }
    }

    /** `monthly_quality_check`: exceptions are caught and logged. */
    method MonthlyQualityCheck(clock: Clock, runs: SuiteRuns)
      modifies this
      ensures config == old(config) && ran == old(ran) && jobs == old(jobs)
      ensures outbox == old(outbox) + Delivered(config, MonthlyNotices(config, clock, runs))
    {
      var dir := ReportDir(config);
      if dir.Failure? || runs.SuitesRaised? {
        return;
      }
      var attachment := Some(ReportPath(dir.value, "monthly_quality_" + MonthStamp(clock) + ".json"));
      if !runs.testsPassed || !runs.performancePassed {
        var flag := Lookup(config, "thresholds", "test_failure_notify");
        if flag.Success? && Truthy(flag.value) {
          var _ := SendNotification(Notice(MonthlyIssues, attachment));
        }
      } else {
        var _ := SendNotification(Notice(MonthlyPassed, attachment));
      }
    }

    /** `quarterly_review`: exceptions are caught and logged. */
    method QuarterlyReview(clock: Clock, written: bool)
      modifies this
      ensures config == old(config) && ran == old(ran) && jobs == old(jobs)
      ensures outbox == old(outbox) + Delivered(config, QuarterlyNotices(config, clock, written))
    {
      var dir := ReportDir(config);
      if dir.Success? && written {
        var _ := SendNotification(Notice(QuarterlyDue(QuarterLabel(clock)), Some(ReportPath(dir.value, "quarterly_review_" + NatToString(clock.year) + "_Q%q.json"))));
      }
    }

    /** `run_once`: exactly the named task runs, and an unknown name only logs. Only the daily
        task can let an exception out. */
    method RunOnce(task: string, clock: Clock, inputs: TaskInputs) returns (escaped: bool)
      modifies this
      ensures config == old(config) && jobs == old(jobs)
      ensures ran == old(ran) + (if task in TaskNames then [task] else [])
      ensures task == "daily" ==>
                outbox == old(outbox) + Delivered(config, DailyNotices(config, clock, inputs.dailyRun, inputs.dailyReport))
      ensures task == "weekly" ==> outbox == old(outbox) + Delivered(config, WeeklyNotices(config, clock, inputs.weeklyRun))
      ensures task == "monthly" ==> outbox == old(outbox) + Delivered(config, MonthlyNotices(config, clock, inputs.suites))
      ensures task == "quarterly" ==>
                outbox == old(outbox) + Delivered(config, QuarterlyNotices(config, clock, inputs.quarterlyWritten))
      ensures task !in TaskNames ==> outbox == old(outbox)
      ensures escaped <==> task == "daily" && DailyEscapes(config, clock, inputs.dailyRun, inputs.dailyReport)
    {
      escaped := false;
      if task == "daily" {
        escaped := DailyMonitoring(clock, inputs.dailyRun, inputs.dailyReport);
      } else if task == "weekly" {
        WeeklyReportTask(clock, inputs.weeklyRun);
      } else if task == "monthly" {
        MonthlyQualityCheck(clock, inputs.suites);
      } else if task == "quarterly" {
        QuarterlyReview(clock, inputs.quarterlyWritten);
      } else {
        return;
      }
      ran := ran + [task];
    }

    /** `setup_schedule`: registers the planned jobs; `ok` is false where it raises. */
    method SetupSchedule() returns (ok: bool)
      modifies this
      ensures config == old(config) && outbox == old(outbox) && ran == old(ran)
      ensures jobs == old(jobs) + PlannedJobs(config).0
      ensures ok == PlannedJobs(config).1
    {
      var daily := Lookup(config, "schedules", "daily_monitoring");
      if daily.Failure? || !daily.value.JStr? {
        return false;
      }
      jobs := jobs + [Job(EveryDay, Some(daily.value.s), "daily")];
      var weekly := Lookup(config, "schedules", "weekly_report");
      if weekly.Failure? || !weekly.value.JStr? {
        return false;
      }
      var parts := Words(weekly.value.s);
      if |parts| == 2 {
        jobs := jobs + [Job(EveryWeekday(Lower(parts[0])), Some(parts[1]), "weekly")];
      }
      jobs := jobs + [Job(EveryMonth, None, "monthly")];
      jobs := jobs + [Job(EveryThreeMonths, None, "quarterly")];
      ok := true;
    }
  }

  // ---------------------------------------------------------------- main

  /** The parsed command line: `--start-daemon`, `--run-once <task>`, `--config <path>` and
      `--create-config`. */
  datatype Arguments = Arguments(startDaemon: bool, runOnce: Option<string>, configPath: string, createConfig: bool)

  const DefaultConfigPath := "automation/config.json"

  /** The exit status of argparse for a `--run-once` value outside its choices. */
  const UsageError := 2

  /** The arguments argparse accepts: a `--run-once` value among the four task names. */
  predicate Valid(args: Arguments) {
    args.runOnce.None? || args.runOnce.value in TaskNames
  }

  /** `main`; `source` is the file at `--config`. The daemon's endless loop is left out: it
      returns once the schedule is set up. An exception leaving a task or `setup_schedule`
      ends the interpreter with status 1. `sample` is the file `--create-config` writes. */
  method Run(args: Arguments, source: ConfigSource, clock: Clock, inputs: TaskInputs)
    returns (code: int, sample: Option<(string, map<string, Json>)>)
    ensures code in {0, 1, UsageError}
    ensures code == UsageError <==> !Valid(args)
    ensures args.runOnce.Some? && args.runOnce.value !in TaskNames ==> code == UsageError && sample == None
    ensures Valid(args) && args.createConfig ==>
              code == 0 && sample == Some((args.configPath, SampleConfig))
    ensures sample.Some? ==> args.createConfig
    ensures !args.createConfig && !args.startDaemon && args.runOnce.None? ==> code == 1
    ensures Valid(args) && !args.createConfig && args.startDaemon ==>
              exists c :: MergedFrom(c, source) && (code == 0 <==> LogDir(c).Success? && PlannedJobs(c).1)
    ensures !args.createConfig && !args.startDaemon && args.runOnce.Some? && args.runOnce.value in TaskNames ==>
              exists c :: MergedFrom(c, source)
                && (code == 1 <==> LogDir(c).Failure?
                                   || (args.runOnce.value == "daily" && DailyEscapes(c, clock, inputs.dailyRun, inputs.dailyReport)))
  {
    sample := None;
    if args.runOnce.Some? && args.runOnce.value !in TaskNames {
      return UsageError, None;
    }
    if args.createConfig {
      return 0, Some((args.configPath, SampleConfig));
    }
    var scheduler := new OntologyScheduler(source);
    if LogDir(scheduler.config).Failure? {
      return 1, None;
    }
    if args.startDaemon {
      var ok := scheduler.SetupSchedule();
      code := if ok then 0 else 1;
    } else if args.runOnce.Some? {
      var escaped := scheduler.RunOnce(args.runOnce.value, clock, inputs);
      code := if escaped then 1 else 0;
    } else {
      code := 1;
    }
  }
}
