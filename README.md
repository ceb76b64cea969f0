# AWS Ontology automation core, modelled in Dafny

The AWS Ontology repository keeps an OWL ontology of AWS services. It ships the ontology both
as OWL/XML and as Turtle, and it has a set of maintenance tools around it. This project models
five of those tools and proves properties of the model:

- **Configuration validation** (`utils/config_validation.py`). Four typed configuration
  sections each check their own fields and collect the error messages in order. The module also
  has `from_dict`/`to_dict`, `load_and_validate_config` and the sample configuration.
  `ConfigValidation` models the sections as datatypes. Each `validate` is a method appending to
  a list, proved equal to a specification function built from an ordered list of rules. The
  lemmas cover which message appears for which field, which defaults are valid, and the
  `from_dict(to_dict(c))` round trip.
- **The AWS change monitor** (`tools/monitor_aws_changes.py`). It finds AWS service names in a
  text, assesses a change's priority from keywords, filters the What's New feed by date, diffs
  CloudFormation resource types against a cache, produces API-documentation placeholders and
  tallies changes into a report. `ChangeMonitor` keeps the class `AWSChangeMonitor`, with the
  cache file as a field and the loops as `for` loops. Each loop is proved against a set-valued
  or map-valued specification. Examples: the services found are exactly the core names, alias
  targets and word matches in the lower-cased text; every count in the report is the tally of
  the changes, and the tallies sum to the total.
- **The shared command-line helpers** (`utils/cli_common.py`). `CliCommon` models the argument
  guards, the tool header and the keyboard-interrupt exit.
- **The format synchroniser** (`tools/sync_formats.py`). `SyncFormats` models the sync check,
  the two conversions, and `main`'s dispatch and exit codes. The two files are the fields of
  the class `OntologyFiles`, which also records whether `--owl` and `--ttl` name the same
  file; the RDF library is a record of functions passed in.
- **The monitoring scheduler** (`automation/schedule_monitoring.py`). `Scheduler` models the
  configuration merge, the four scheduled tasks and the notices they send, the jobs
  `setup_schedule` registers, and `main`. The class `OntologyScheduler` has the merged
  configuration, an outbox of sent notices and the registered jobs as fields, plus a ghost record
  of the names `run_once` dispatched.

Shared pieces:

- `Text`: Python's string operations as used by these files: `strip`, `split(':')`, `split()`,
  ASCII `lower`/`upper`, `in`, `int()` on ASCII decimal digits and `str()` of a natural number.
- `Json`: JSON values and Python truthiness.
- `Sets`: `list(a_set)`, which has no fixed order.
- `Wrappers`: `Option` and `Result`.

Two points where the code is inconsistent:

- `setup_schedule` registers its monthly job with `schedule.every().month`. The schedule
  library's jobs have no `month` interval, so as written this call raises. It is recorded under
  "## Findings". The rest of the model uses the intended job list.
- The scheduler's default `weekly_report` is `"Monday 08:00"`. The configuration validator's
  default is `"08:00"`, and the validator accepts only two colon-separated integers with the
  hour at most 23 and the minute at most 59.
  `Scheduler.WeeklyDefaultFailsTimeCheck` proves that the scheduler's value fails that check.

## Model

| member | source | states |
|---|---|---|
| ConfigValidation.Failing | utils/config_validation.py:24-38 | the error list of a validator has at most one message per check |
| ConfigValidation.FailingStep | utils/config_validation.py:24-38 | each further check appends its message exactly when it fails, after the earlier ones |
| ConfigValidation.FailingConcat | utils/config_validation.py:143-152 | the errors of two consecutive groups of checks are the first group's followed by the second's |
| ConfigValidation.FailingMembers | utils/config_validation.py:24-38 | a message is reported exactly when some check carrying it fails |
| ConfigValidation.FailingFour | utils/config_validation.py:24-38 | four checks report their failures in the order they are written |
| ConfigValidation.FailingFive | utils/config_validation.py:89-104 | five checks report their failures in the order they are written |
| ConfigValidation.FailingFourIn | utils/config_validation.py:49-64 | a message is among four checks' errors exactly when one of them reports it |
| ConfigValidation.FailingFiveIn | utils/config_validation.py:89-104 | a message is among five checks' errors exactly when one of them reports it |
| ConfigValidation.NotificationErrors | utils/config_validation.py:24-38 | disabled notifications give no errors; when enabled, each of the sender, recipients, password and port messages appears exactly when that field is empty or out of range |
| ConfigValidation.NotificationErrorsOwnMessages | utils/config_validation.py:24-38 | notification validation reports only its four messages |
| ConfigValidation.ValidateNotifications | utils/config_validation.py:24-38 | the appending validator gives exactly the specified notification errors |
| ConfigValidation.IsValidTime | utils/config_validation.py:67-77 | a valid time has exactly one colon |
| ConfigValidation.SeparatorControlTimeInvalid | utils/config_validation.py:67-77 | an hour preceded by a U+001C separator control is invalid, since `int()` does not strip it |
| ConfigValidation.ValidTimeOfNumbers | utils/config_validation.py:67-77 | `str(h):str(m)` is valid exactly when h is at most 23 and m at most 59, so unpadded forms such as "9:5" pass as well |
| ConfigValidation.ValidTimeOfDigits | utils/config_validation.py:67-77 | a zero-padded `HH:MM` text is valid exactly when its two-digit hour is at most 23 and its minute at most 59 |
| ConfigValidation.TimeRules | utils/config_validation.py:55-62 | one time check per schedule field, in field order |
| ConfigValidation.ScheduleRulesOfFields | utils/config_validation.py:55-62 | the schedule's checks are the time checks of its four fields |
| ConfigValidation.ScheduleErrors | utils/config_validation.py:49-64 | each field's HH:MM message appears exactly when that field is not a valid time |
| ConfigValidation.CheckTimes | utils/config_validation.py:55-62 | the loop over the time fields reports exactly the failing fields, in order |
| ConfigValidation.ValidateSchedules | utils/config_validation.py:49-64 | the schedule validator gives exactly the specified errors |
| ConfigValidation.DatabaseErrors | utils/config_validation.py:89-104 | an empty host gives both the required and the scheme message, in that order; each other message appears exactly when its field is bad |
| ConfigValidation.ValidateDatabase | utils/config_validation.py:89-104 | the database validator gives exactly the specified errors |
| ConfigValidation.MonitoringErrors | utils/config_validation.py:115-132 | each message appears exactly when its field is out of range; the log level is compared after upper-casing |
| ConfigValidation.MonitoringErrorsIgnoreCase | utils/config_validation.py:123 | the letter case of the log level never changes the errors |
| ConfigValidation.ValidateMonitoring | utils/config_validation.py:115-132 | the monitoring validator gives exactly the specified errors |
| ConfigValidation.ValidateApp | utils/config_validation.py:143-152 | the application's errors are those of the notification, schedule, database and monitoring sections, in that order |
| ConfigValidation.AppErrors | utils/config_validation.py:143-152 | the application has no errors exactly when none of its four sections has any, and its errors number the sections' errors together |
| ConfigValidation.DefaultTimesValid | utils/config_validation.py:44-47 | the four default times are valid |
| ConfigValidation.DefaultAppValid | utils/config_validation.py:17-22 | the default configuration has no errors |
| ConfigValidation.DefaultSchedulesValid | utils/config_validation.py:44-47 | the default schedules have no errors |
| ConfigValidation.DefaultDatabaseValid | utils/config_validation.py:83-87 | the default database section has no errors |
| ConfigValidation.DefaultMonitoringValid | utils/config_validation.py:110-113 | the default monitoring section has no errors |
| ConfigValidation.SampleConfigValid | utils/config_validation.py:270-295 | the sample configuration has no errors |
| ConfigValidation.EmptySectionsGiveDefaults | utils/config_validation.py:155-198 | an empty section is read as that section's defaults |
| ConfigValidation.ReadNotifications | utils/config_validation.py:159-168 | a section that is not an object fails; a field of the wrong type fails naming a field present; on success each field is the section's value when present and the default otherwise |
| ConfigValidation.ReadSchedules | utils/config_validation.py:170-177 | a section that is not an object fails; a field of the wrong type fails naming a field present; on success each time is the section's value when present and the default otherwise |
| ConfigValidation.ReadDatabase | utils/config_validation.py:179-187 | a section that is not an object fails; a field of the wrong type fails naming a field present; on success each field is the section's value when present and the default otherwise |
| ConfigValidation.ReadMonitoring | utils/config_validation.py:189-196 | a section that is not an object fails; a field of the wrong type fails naming a field present; on success each field is the section's value when present and the default otherwise |
| ConfigValidation.ConfigFromDict | utils/config_validation.py:155-198 | a missing section gives its defaults, a present one is read field by field, and reading fails exactly when a section is not an object or a field has the wrong type |
| ConfigValidation.FromDict | utils/config_validation.py:155-198 | the method reading the dictionary agrees with the specification |
| ConfigValidation.ToDict | utils/config_validation.py:200-230 | the dictionary has exactly the four section keys, each holding an object |
| ConfigValidation.StrListRoundTrip | utils/config_validation.py:200-230 | a list of strings written out is read back unchanged |
| ConfigValidation.FromDictOfToDict | utils/config_validation.py:155-230 | reading back a written configuration gives the same configuration |
| ConfigValidation.ToDictRoundTrip | utils/config_validation.py:155-230 | writing a read-back configuration again gives the same dictionary |
| ConfigValidation.ConfigFromJson | utils/config_validation.py:155-198 | an object is read as a dictionary; a list or string is searched with `in`, giving the defaults when it names no section and a type error otherwise; any other JSON value raises a type error at the first `in` |
| ConfigValidation.LoadAndValidate | utils/config_validation.py:233-267 | a configuration is returned exactly when the file parses, reads, and has no validation errors; a file whose JSON is not an object reads as described for ConfigFromJson |
| ConfigValidation.NonObjectFiles | utils/config_validation.py:233-267 | a list or string naming no section loads as the (valid) defaults; one naming a section, and a number, boolean or null, load as None |
| ChangeMonitor.WordMatchContains | tools/monitor_aws_changes.py:282-284 | a whole-word match is also a substring match |
| ChangeMonitor.AliasTargetsAreCore | tools/monitor_aws_changes.py:42-50 | every alias names a core service |
| ChangeMonitor.PatternTargetsAreCore | tools/monitor_aws_changes.py:269-280 | every pattern names a core service |
| ChangeMonitor.PatternsAddNothing | tools/monitor_aws_changes.py:259-284 | the word patterns never find a service the substring test has not found already |
| ChangeMonitor.ServicesIn | tools/monitor_aws_changes.py:253-286 | the set of services `_extract_services` finds in a lower-cased text: direct, alias and pattern matches (its meaning is stated by ServicesInMeaning) |
| ChangeMonitor.ServicesInMeaning | tools/monitor_aws_changes.py:253-286 | the services found are core services: exactly those named in the text or reached by an alias in the text |
| ChangeMonitor.CollectNames | tools/monitor_aws_changes.py:259-261 | the loop collects exactly the core names contained in the text |
| ChangeMonitor.CollectAliasTargets | tools/monitor_aws_changes.py:264-266 | the loop collects exactly the targets of the aliases contained in the text |
| ChangeMonitor.AliasTargetsAdd | tools/monitor_aws_changes.py:264-266 | one more alias adds its target exactly when the alias is in the text |
| ChangeMonitor.CollectPatternTargets | tools/monitor_aws_changes.py:282-284 | the loop collects exactly the targets of the patterns matching as whole words |
| ChangeMonitor.AnyContained | tools/monitor_aws_changes.py:306-313 | the keyword loop succeeds exactly when some keyword is in the text |
| ChangeMonitor.AssessPriority | tools/monitor_aws_changes.py:288-315 | "high" exactly when a high keyword is in the lower-cased text; otherwise "medium" exactly when a medium keyword is there; otherwise "low" |
| ChangeMonitor.CountAbsent | tools/monitor_aws_changes.py:163-189 | a key never seen has count zero |
| ChangeMonitor.Tally | tools/monitor_aws_changes.py:163-189 | the counter dictionary of a list of keys: each occurring key with its count (its properties are stated by TallySnoc and TallyTotal) |
| ChangeMonitor.TallySnoc | tools/monitor_aws_changes.py:167-170 | counting one more key starts it at 1 or adds 1 to it, and leaves the other counts alone |
| ChangeMonitor.SumValuesRemove | tools/monitor_aws_changes.py:163-189 | the sum of the counts splits into one key's count and the rest |
| ChangeMonitor.TallyTotal | tools/monitor_aws_changes.py:163-189 | the counts of a tally add up to the number of keys counted |
| ChangeMonitor.HighSummaries | tools/monitor_aws_changes.py:191-198 | there is one summary per high-priority change |
| ChangeMonitor.NewResources | tools/monitor_aws_changes.py:105-119 | there is a diff only when comparing with a readable cache; it is the current types that the cache lacks |
| ChangeMonitor.SecondRunFindsNothing | tools/monitor_aws_changes.py:105-127 | after the cache is written, the next comparison finds no new types |
| ChangeMonitor.PlaceholdersCover | tools/monitor_aws_changes.py:136-151 | one placeholder per requested service covers exactly the requested services, all marked not implemented |
| ChangeMonitor.Recent | tools/monitor_aws_changes.py:63-71 | the kept entries are exactly those dated at or after the cut-off |
| ChangeMonitor.CountKey | tools/monitor_aws_changes.py:167-170 | counting one key in place extends the tally by that key |
| ChangeMonitor.CountKeys | tools/monitor_aws_changes.py:173-177 | counting a change's services extends the tally by all of them |
| ChangeMonitor.AWSChangeMonitor.constructor | tools/monitor_aws_changes.py:31-50 | the monitor starts with the given cache file |
| ChangeMonitor.AWSChangeMonitor.ExtractServices | tools/monitor_aws_changes.py:253-286 | the list has no duplicates and holds exactly the services found in the lower-cased text |
| ChangeMonitor.AWSChangeMonitor.GenerateReport | tools/monitor_aws_changes.py:156-201 | the report's counts by priority, service and source are the tallies of the changes; the priority and source counts add up to the total; the summaries are those of the high-priority changes |
| ChangeMonitor.AWSChangeMonitor.MonitorCloudFormationResources | tools/monitor_aws_changes.py:89-130 | the new types are listed once each and agree with the diff, and the cache then holds the current types |
| ChangeMonitor.AWSChangeMonitor.MonitorApiDocs | tools/monitor_aws_changes.py:132-154 | one placeholder per requested service, in order; with no list, one per core service |
| ChangeMonitor.AWSChangeMonitor.ChangeFromEntry | tools/monitor_aws_changes.py:74-82 | for an entry with a title, summary, link and date, the change copies them and adds its services, its priority and the source "whats-new" |
| ChangeMonitor.AWSChangeMonitor.MonitorWhatsNew | tools/monitor_aws_changes.py:52-87 | a failed fetch gives no changes; an attribute error escapes exactly when some entry lacks its date, or is recent and lacks its title, summary or link; otherwise one change per recent entry, in feed order |
| CliCommon.ValidateArgs | utils/cli_common.py:129-157 | exit 1 with the conflict message for --verbose with --quiet, checked first; exit 1 with two lines when the output file exists and --overwrite is off; otherwise the arguments unchanged |
| CliCommon.ConflictReportedFirst | utils/cli_common.py:143-154 | with --verbose and --quiet, the outcome does not depend on the file system and has one message |
| CliCommon.OutputGuardNeedsExistingFile | utils/cli_common.py:148-154 | without --output, or with --overwrite, the file system never decides the outcome |
| CliCommon.ToolHeader | utils/cli_common.py:160-174 | three lines: the header with the version when one is given, an underline of '=' as long as the header, and a blank line |
| CliCommon.UnderlineLength | utils/cli_common.py:168-173 | the underline is 15 characters plus the name, plus 2 and the version when one is given |
| CliCommon.HandleKeyboardInterrupt | utils/cli_common.py:177-194 | an interrupt becomes exit 130 after the cancellation message; any other outcome passes through unchanged |
| CliCommon.HandleKeyboardInterruptIdempotent | utils/cli_common.py:177-194 | wrapping twice behaves like wrapping once |
| SyncFormats.CheckSyncStatus | tools/sync_formats.py:68-97 | in sync exactly when both files parse with equal triple counts and isomorphic graphs; a parse failure always reports a load failure |
| SyncFormats.SizeCheckRedundant | tools/sync_formats.py:78-90 | when isomorphism implies equal size, the count comparison only shortcuts the isomorphism test |
| SyncFormats.ConversionSynchronizes | tools/sync_formats.py:18-97 | for a library whose serialisers round-trip up to isomorphism (blank nodes may be relabelled), the two files written from one graph are in sync |
| SyncFormats.TtlToOwlSynchronizes | tools/sync_formats.py:18-40 | for a library that round-trips up to isomorphism and two different files, the OWL file written from a parsable Turtle text is in sync with that text |
| SyncFormats.OwlToTtlSynchronizes | tools/sync_formats.py:43-65 | for a library that round-trips up to isomorphism and two different files, the Turtle file written from a parsable OWL text is in sync with that text |
| SyncFormats.OntologyFiles.constructor | tools/sync_formats.py:100-140 | the files are those given, and when `--owl` and `--ttl` name one file both show it |
| SyncFormats.OntologyFiles.WriteOwl | tools/sync_formats.py:29-33 | writing the OWL path replaces its text, and the Turtle file's too exactly when both paths name one file |
| SyncFormats.OntologyFiles.WriteTtl | tools/sync_formats.py:54-58 | writing the Turtle path replaces its text, and the OWL file's too exactly when both paths name one file |
| SyncFormats.OntologyFiles.ConvertTtlToOwl | tools/sync_formats.py:18-40 | succeeds exactly when the Turtle file parses, and then overwrites the OWL file with its serialisation, and the Turtle file too when both paths name one file; otherwise nothing changes |
| SyncFormats.OntologyFiles.ConvertOwlToTtl | tools/sync_formats.py:43-65 | succeeds exactly when the OWL file parses, and then overwrites the Turtle file with its serialisation, and the OWL file too when both paths name one file; otherwise nothing changes |
| SyncFormats.OntologyFiles.Run | tools/sync_formats.py:100-172 | exit 2 exactly for an unknown action, 1 for a missing input file, and otherwise 0 exactly when the check, conversion or chosen sync direction succeeds, a written file also replacing the other when both paths name one file; an invalid choice gives 1 and changes nothing |
| Text.Lower | tools/monitor_aws_changes.py:255 | lower-casing keeps the length, leaves no upper-case ASCII letter and changes no other character |
| Text.Upper | utils/config_validation.py:123 | upper-casing keeps the length, leaves no lower-case ASCII letter and changes no other character |
| Text.UpperOfLower | utils/config_validation.py:123 | upper-casing a lower-cased text equals upper-casing the text |
| Text.Strip | tools/sync_formats.py:162 | `strip()`: the text without leading and trailing whitespace (its shape is stated by StripShape) |
| Text.StripShape | tools/sync_formats.py:162 | stripping removes exactly the leading and trailing whitespace |
| Text.StripUnspaced | tools/sync_formats.py:162-168 | a text without surrounding whitespace is its own strip, so "1" and "2" are accepted as typed |
| Text.SplitOn | utils/config_validation.py:70 | splitting on a separator gives one more piece than there are separators, none containing it |
| Text.JoinSplitOn | utils/config_validation.py:70 | joining the pieces again gives the text back |
| Text.SplitOnJoin | utils/config_validation.py:70 | splitting joined pieces that lack the separator gives the pieces back |
| Text.Words | automation/schedule_monitoring.py:346 | whitespace splitting gives non-empty words without whitespace, the first starting the text |
| Text.WordsOfJoinWords | automation/schedule_monitoring.py:346-349 | splitting words joined by single spaces gives the words back |
| Text.ParseInt | utils/config_validation.py:74 | a text holding a U+001C to U+001F separator control anywhere does not parse |
| Text.NatToString | automation/schedule_monitoring.py:261 | `str(n)` is a non-empty run of decimal digits |
| Text.ParseIntOfNatToString | utils/config_validation.py:74 | parsing the decimal text of a number gives that number |
| Text.ParseIntTwoDigits | utils/config_validation.py:74 | two digits parse as their two-digit value |
| Sets.Enumerate | tools/monitor_aws_changes.py:286 | listing a set gives each element exactly once |
| Scheduler.LoadConfig | automation/schedule_monitoring.py:42-79 | the configuration is the defaults with the file's top-level keys replacing theirs; a missing or unreadable file gives exactly the defaults |
| Scheduler.MergedFromUnique | automation/schedule_monitoring.py:70-79 | the merge has exactly one result |
| Scheduler.LogDir | automation/schedule_monitoring.py:81-83 | the logs directory is read exactly when `config["output_dirs"]["logs"]` is present and a string, and it is that string |
| Scheduler.Lookup | automation/schedule_monitoring.py:99-152 | `config[section][key]` succeeds exactly when both keys are present, with that value; a failure carries the exception text |
| Scheduler.MergeIsShallow | automation/schedule_monitoring.py:70-74 | a custom section replaces the default one whole, so a default key missing from it raises a key error |
| Scheduler.QuarterOfMonth | automation/schedule_monitoring.py:261 | the quarter of months 1 to 12 is 1 to 4, and the month lies within that quarter |
| Scheduler.QuarterLabel | automation/schedule_monitoring.py:261-262 | the label is "Q", the quarter's digit, a space and the year |
| Scheduler.Delivered | automation/schedule_monitoring.py:288-298 | notices go out only when sending is enabled and the setting is truthy |
| Scheduler.DefaultsSendNothing | automation/schedule_monitoring.py:44-68 | with the default or the sample configuration no notice goes out and sending never raises |
| Scheduler.HighPriorityCount | automation/schedule_monitoring.py:122-124 | a missing priority section or `high` key counts zero; an integer count is that integer; a section that is not an object raises an attribute error; a string, list, object or null count raises a type error |
| Scheduler.DailyRequest | automation/schedule_monitoring.py:99-152 | a failing run gets the failure notice; a high-priority notice, with its report attached, is sent exactly when the count is positive and the threshold is truthy; an unreadable report, a mistyped count and a missing threshold key each give the error path; a clean report sends nothing |
| Scheduler.DailyNotices | automation/schedule_monitoring.py:99-152 | the daily task asks for at most one notice: the try block's or the except branch's error notice |
| Scheduler.DailyEscapes | automation/schedule_monitoring.py:147-152 | an exception leaves the daily task exactly when sending raises and a notice was to be sent (its consequences are stated by RunOnce and Run) |
| Scheduler.DailyCleanReportSilent | automation/schedule_monitoring.py:99-152 | a successful monitor run whose report has no high-priority change sends no notice |
| Scheduler.WeeklyNotices | automation/schedule_monitoring.py:154-191 | the weekly notice is sent exactly when the report generator exits 0, and at most once |
| Scheduler.MonthlyNotices | automation/schedule_monitoring.py:193-249 | the monthly task sends at most one notice, and only when the report directory is known and both suites ran |
| Scheduler.MonthlyDecision | automation/schedule_monitoring.py:193-249 | both suites passing always sends the passed notice; otherwise the issues notice is sent exactly when test-failure notification is truthy |
| Scheduler.QuarterlyNotices | automation/schedule_monitoring.py:251-286 | the quarterly notice, with its label and file, is sent exactly when the review file is written |
| Scheduler.PlannedJobs | automation/schedule_monitoring.py:338-361 | daily first, then the weekly job exactly when its schedule is two words, then the monthly and quarterly jobs; a bad schedule value stops registration |
| Scheduler.DefaultSchedule | automation/schedule_monitoring.py:338-361 | with the defaults: daily at 09:00, Mondays at 08:00, monthly and quarterly |
| Scheduler.PlannedJobsOfTwoWords | automation/schedule_monitoring.py:343-351 | a two-word weekly schedule registers on the lower-cased day at the given time |
| Scheduler.RegisterAll | automation/schedule_monitoring.py:343-355 | registration keeps a prefix of the jobs; it ends normally exactly when the library offers every interval, and otherwise stops at the first interval it lacks |
| Scheduler.PlannedJobsAsWritten | automation/schedule_monitoring.py:338-355 | the planned jobs registered against the real schedule library (stated by MonthlyJobAlwaysRaises and DefaultScheduleAsWritten) |
| Scheduler.MonthlyJobAlwaysRaises | automation/schedule_monitoring.py:352-355 | as written, setting up the schedule always raises, and only daily and weekly jobs are ever registered |
| Scheduler.DefaultScheduleAsWritten | automation/schedule_monitoring.py:338-355 | as written, the defaults register the daily job at 09:00 and the Monday job at 08:00, and then raise |
| Scheduler.WeeklyDefaultWords | automation/schedule_monitoring.py:50 | the default weekly schedule splits into a day and a time |
| Scheduler.TwoWords | automation/schedule_monitoring.py:346 | two words joined by a space split back into those two words |
| Scheduler.MondayLower | automation/schedule_monitoring.py:349 | the default day lower-cases to the schedule library's day name |
| Scheduler.WeeklyDefaultFailsTimeCheck | automation/schedule_monitoring.py:48-51 | the scheduler's default weekly value fails the configuration validator's time check, and its daily value passes |
| Scheduler.OntologyScheduler.constructor | automation/schedule_monitoring.py:37-40 | the scheduler starts with the merged configuration and nothing sent, run or scheduled |
| Scheduler.OntologyScheduler.SendNotification | automation/schedule_monitoring.py:288-336 | an enabled notice is appended to the outbox; a lookup failure raises its exception text; nothing else changes |
| Scheduler.OntologyScheduler.DailyMonitoring | automation/schedule_monitoring.py:99-152 | the outbox gains exactly the daily task's delivered notices; an exception escapes exactly as specified |
| Scheduler.OntologyScheduler.WeeklyReportTask | automation/schedule_monitoring.py:154-191 | the outbox gains exactly the weekly task's delivered notices |
| Scheduler.OntologyScheduler.MonthlyQualityCheck | automation/schedule_monitoring.py:193-249 | the outbox gains exactly the monthly task's delivered notices |
| Scheduler.OntologyScheduler.QuarterlyReview | automation/schedule_monitoring.py:251-286 | the outbox gains exactly the quarterly task's delivered notices |
| Scheduler.OntologyScheduler.RunOnce | automation/schedule_monitoring.py:377-391 | a known task runs once and is recorded; an unknown name changes nothing; only the daily task can let an exception escape |
| Scheduler.OntologyScheduler.SetupSchedule | automation/schedule_monitoring.py:338-361 | with the intended job list: the planned jobs are registered after the existing ones, and the call ends normally exactly when planning does |
| Scheduler.Run | automation/schedule_monitoring.py:429-458 | exit 2 exactly for an unknown task; --create-config writes the sample and exits 0; a logs directory that cannot be looked up exits 1; no action exits 1; with the intended job list, the daemon exits 0 exactly when the schedule is set up; a single run exits 1 exactly when the daily task raises |

## Findings

| source | as written | input that shows it | evidently intended | confidence | as-written member | corrected member |
|---|---|---|---|---|---|---|
| automation/schedule_monitoring.py:352 | `schedule.every().month` asks for an interval the schedule library's jobs do not have, so `setup_schedule` raises an attribute error there | any configuration, including the defaults: daily and weekly are registered, then it raises | a monthly job and a quarterly job, with the schedule set up normally | not executed; relies on the schedule library having no `month` or `months` interval | Scheduler.MonthlyJobAlwaysRaises | Scheduler.DefaultSchedule |

## Left out

- Every file, e-mail, subprocess, clock and network access is a parameter of the model. This
  covers feed fetching, SMTP message assembly and sending, the report files, the cache file
  and `input()`.
- Printed and logged output is not modelled. Exceptions are modelled only by their message
  texts. For `TypeError` and `AttributeError` the text is approximated by the class name.
- `_setup_logging` is modelled only for its lookup of the logs directory: when
  `config["output_dirs"]["logs"]` is missing or not a string, the constructor raises and `main`
  ends with status 1 (`Scheduler.LogDir`, `Scheduler.Run`). Creating that directory and the log
  handlers is not modelled. Neither is `print_summary`, or the monitor's `main` that strings the
  monitors together.
- `run_daemon`'s endless loop and the schedule library's timing are not modelled; `Run` returns
  once the schedule is set up.
- Scheduler.PlannedJobs: the intended job list. It does not check that the weekly day is a day
  name the library knows. It does not check that the times are in the format the library's
  `at` accepts.
- `create_base_parser`, `add_database_args` and `add_file_args` only declare argparse options.
  They are not modelled; `main`'s parsed arguments are inputs.
- The RDF library's parsing, serialisation and isomorphism are functions passed in.
- Case conversion and the regex `\b` and `\w` classes are ASCII only.
- Text.ParseInt: ASCII digits only. Python's `int()` also accepts the other Unicode decimal
  digits (fullwidth `"０９"`, for example); the model rejects them, so such a time is invalid
  here and valid in Python.
- The order of lists built from Python sets is left open.
- Timestamps and `isoformat` values are integers or left out. Years are not zero-padded.
- Paths are joined with "/" and not normalised.
- Floating-point values in JSON are not modelled.
- ConfigValidation.ConfigFromDict: a field of the wrong JSON type is an error in the model,
  whereas Python stores the value as it is and fails later or never.
- Scheduler.HighPriorityCount: a boolean count is taken as 0 or 1. The notice then prints "1"
  where Python prints "True".
- Scheduler.QuarterlyNotices: `%q` in the quarterly file name is copied literally.
- Scheduler.LoadConfig: a custom file that parses but is not an object is treated as an
  unreadable file.
- ChangeMonitor.AWSChangeMonitor.GenerateReport: returns the report rather than the name of the
  file it is written to.
- Failures while serialising or writing a file are not modelled. The one exception is the
  quarterly review file, whose failed write `QuarterlyNotices` models, and the monthly
  results file, whose failed write is one of the exceptions `SuitesRaised` stands for.
