/** The decision logic of the AWS change monitor (tools/monitor_aws_changes.py): how a change
    is given a priority, which core services a text mentions, how a report counts changes, which
    CloudFormation resource types are new against the cache, the placeholder API-documentation
    list and the date cut-off on the What's New feed. Fetching the feed, the clock and the JSON
    files are parameters or fields here. */
module ChangeMonitor {
  import opened Wrappers
  import opened Text
  import opened Sets

  // ---------------------------------------------------------------- the monitored services

  /** The services the ontology covers. */
  const CoreServices: set<string> :=
    {"ec2", "lambda", "s3", "ebs", "rds", "vpc", "iam", "dynamodb", "cloudwatch", "cloudtrail", "aurora"}

  /** Long names that stand for a core service. */
  const ServiceAliases: map<string, string> := map[
    "elastic compute cloud" := "ec2",
    "simple storage service" := "s3",
    "elastic block store" := "ebs",
    "relational database service" := "rds",
    "virtual private cloud" := "vpc",
    "identity and access management" := "iam",
    "amazon aurora" := "aurora"]

  /** The whole-word patterns `\bX\b`, each with the service it reports. */
  const ServicePatterns: seq<(string, string)> := [
    ("ec2", "ec2"), ("s3", "s3"), ("iam", "iam"), ("vpc", "vpc"), ("rds", "rds"),
    ("ebs", "ebs"), ("lambda", "lambda"), ("cloudwatch", "cloudwatch"),
    ("cloudtrail", "cloudtrail"), ("dynamodb", "dynamodb")]

  /** `word` occurs at `i` with no word character just before or just after it: a match of
      the regular expression `\bword\b` there, for a word made of word characters. */
  predicate WordAt(t: string, word: string, i: int) {
    && ContainsAt(t, word, i)
    && (i == 0 || !IsWordChar(t[i - 1]))
    && (i + |word| == |t| || !IsWordChar(t[i + |word|]))
  }

  /** `re.search(r'\bword\b', t)` succeeds. */
  predicate WordMatch(t: string, word: string) {
    exists i | 0 <= i <= |t| - |word| :: WordAt(t, word, i)
  }

  /** A whole-word match is in particular a substring match. */
  lemma WordMatchContains(t: string, word: string)
    requires WordMatch(t, word)
    ensures Contains(t, word)
  {
    var i :| 0 <= i <= |t| - |word| && WordAt(t, word, i);
    assert ContainsAt(t, word, i);
  }

  // ---------------------------------------------------------------- _extract_services

  /** The services found by each of the three matching steps of `_extract_services` on the
      lower-cased text `t`. */
  function DirectMatches(t: string): set<string> {
    NamesIn(t, CoreServices)
  }

  function AliasMatches(t: string): set<string> {
    AliasTargets(t, ServiceAliases)
  }

  function PatternMatches(t: string): set<string> {
    PatternTargets(t, ServicePatterns, |ServicePatterns|)
  }

  /** The names among `names` that occur in `t`. */
  function NamesIn(t: string, names: set<string>): set<string> {
    set s | s in names && Contains(t, s)
  }

  /** The services of the aliases that occur in `t`. */
  function AliasTargets(t: string, aliases: map<string, string>): set<string> {
    set a | a in aliases && Contains(t, a) :: aliases[a]
  }

  /** The services of the first `n` patterns that match `t` as whole words. */
  function PatternTargets(t: string, patterns: seq<(string, string)>, n: int): set<string> {
    set k | 0 <= k < n && k < |patterns| && WordMatch(t, patterns[k].0) :: patterns[k].1
  }

  function ServicesIn(t: string): set<string> {
    DirectMatches(t) + AliasMatches(t) + PatternMatches(t)
  }

  lemma AliasTargetsAreCore()
    ensures forall a :: a in ServiceAliases ==> ServiceAliases[a] in CoreServices
  {
  }

  /** Every pattern reports the very word it looks for, and that word is a core service. */
  lemma PatternTargetsAreCore()
    ensures forall k :: 0 <= k < |ServicePatterns| ==>
              ServicePatterns[k].1 == ServicePatterns[k].0 && ServicePatterns[k].1 in CoreServices
  {
  }

  /** The pattern step adds nothing: whatever it finds the direct substring step found. */
  lemma PatternsAddNothing(t: string)
    ensures PatternMatches(t) <= DirectMatches(t)
  {
    PatternTargetsAreCore();
    forall s | s in PatternMatches(t) ensures s in DirectMatches(t) {
      var k :| 0 <= k < |ServicePatterns| && WordMatch(t, ServicePatterns[k].0) && ServicePatterns[k].1 == s;
      WordMatchContains(t, ServicePatterns[k].0);
    }
  }

  /** The services a text mentions: exactly the core services that occur in it literally or
      through one of their long names; in particular, only core services. */
  lemma ServicesInMeaning(t: string)
    ensures ServicesIn(t) <= CoreServices
    ensures forall s :: s in ServicesIn(t) <==>
              s in CoreServices
              && (Contains(t, s) || exists a :: a in ServiceAliases && ServiceAliases[a] == s && Contains(t, a))
  {
    AliasTargetsAreCore();
    PatternsAddNothing(t);
  }

  /** The first loop of `_extract_services`: every name that occurs in the text. */
  method CollectNames(t: string, names: set<string>) returns (found: set<string>)
    ensures found == NamesIn(t, names)
  {
    found := {};
    var rest := names;
    while rest != {}
      invariant rest <= names
      invariant found == NamesIn(t, names - rest)
      decreases |rest|
    {
      var s :| s in rest;
      assert names - (rest - {s}) == (names - rest) + {s};
      if Contains(t, s) {
        found := found + {s};
      }
      rest := rest - {s};
    }
    assert names - rest == names;
  }

  /** The second loop: the service of every alias that occurs in the text. */
  method CollectAliasTargets(t: string, aliases: map<string, string>) returns (found: set<string>)
    ensures found == AliasTargets(t, aliases)
  {
    found := {};
    var rest := aliases.Keys;
    while rest != {}
      invariant rest <= aliases.Keys
      invariant found == AliasTargets(t, aliases - rest)
      decreases |rest|
    {
      var a :| a in rest;
      assert aliases - (rest - {a}) == (aliases - rest)[a := aliases[a]];
      AliasTargetsAdd(t, aliases - rest, a, aliases[a]);
      if Contains(t, a) {
        found := found + {aliases[a]};
      }
      rest := rest - {a};
    }
    assert aliases - rest == aliases;
  }

  /** Adding one alias adds its service exactly when the alias occurs in the text. */
  lemma AliasTargetsAdd(t: string, done: map<string, string>, a: string, s: string)
    requires a !in done
    ensures AliasTargets(t, done[a := s]) == AliasTargets(t, done) + (if Contains(t, a) then {s} else {})
  {
    var m := done[a := s];
    forall x | x in AliasTargets(t, m)
      ensures x in AliasTargets(t, done) + (if Contains(t, a) then {s} else {})
    {
      var b :| b in m && Contains(t, b) && m[b] == x;
      if b != a {
        assert b in done && done[b] == x;
      }
    }
    forall x | x in AliasTargets(t, done)
      ensures x in AliasTargets(t, m)
    {
      var b :| b in done && Contains(t, b) && done[b] == x;
      assert b != a && m[b] == x;
    }
    if Contains(t, a) {
      assert m[a] == s;
    }
  }

  /** The third loop: the service of every pattern that matches the text as a whole word. */
  method CollectPatternTargets(t: string, patterns: seq<(string, string)>) returns (found: set<string>)
    ensures found == PatternTargets(t, patterns, |patterns|)
  {
    found := {};
    for k := 0 to |patterns|
      invariant found == PatternTargets(t, patterns, k)
    {
      var (pattern, service) := patterns[k];
      if WordMatch(t, pattern) {
        found := found + {service};
      }
    }
  }

  // ---------------------------------------------------------------- _assess_priority

  const HighPriorityKeywords: seq<string> := [
    "security", "compliance", "deprecat", "breaking", "critical", "policy", "permission",
    "access", "authentication", "authorization", "new service", "general availability"]

  const MediumPriorityKeywords: seq<string> := [
    "enhancement", "feature", "support", "integration", "update", "improve", "launch", "preview"]

  /** Some keyword of the list occurs in `t`. */
  function AnyContained(t: string, keywords: seq<string>): (found: bool)
    ensures found <==> exists k :: 0 <= k < |keywords| && Contains(t, keywords[k])
  {
    if keywords == [] then false
    else Contains(t, keywords[0]) || AnyContained(t, keywords[1..])
  }

  /** `_assess_priority`: "high" as soon as a high keyword occurs in the lower-cased
      `title + " " + description`, else "medium" if a medium keyword does, else "low". */
  function AssessPriority(title: string, description: string): (r: string)
    ensures var t := Lower(title + " " + description);
      && (r == "high" <==> exists k :: 0 <= k < |HighPriorityKeywords| && Contains(t, HighPriorityKeywords[k]))
      && (r == "medium" <==>
            (forall k :: 0 <= k < |HighPriorityKeywords| ==> !Contains(t, HighPriorityKeywords[k]))
            && exists k :: 0 <= k < |MediumPriorityKeywords| && Contains(t, MediumPriorityKeywords[k]))
    ensures r in {"high", "medium", "low"}
  {
    var t := Lower(title + " " + description);
    if AnyContained(t, HighPriorityKeywords) then "high"
    else if AnyContained(t, MediumPriorityKeywords) then "medium"
    else "low"
  }

  // ---------------------------------------------------------------- changes and reports

  /** A change record as the monitor passes it around: a dictionary whose keys may be absent. */
  datatype Change = Change(
    title: Option<string>,
    description: Option<string>,
    link: Option<string>,
    published: Option<int>,
    services: Option<seq<string>>,
    priority: Option<string>,
    source: Option<string>)

  function PriorityOf(c: Change): string { c.priority.GetOr("medium") }
  function SourceOf(c: Change): string { c.source.GetOr("unknown") }
  function ServicesOf(c: Change): seq<string> { c.services.GetOr([]) }

  function Priorities(cs: seq<Change>): seq<string> {
    seq(|cs|, i requires 0 <= i < |cs| => PriorityOf(cs[i]))
  }

  function Sources(cs: seq<Change>): seq<string> {
    seq(|cs|, i requires 0 <= i < |cs| => SourceOf(cs[i]))
  }

  /** All service mentions of the changes, one per entry of each change's list. */
  function AllServices(cs: seq<Change>): seq<string> {
    if cs == [] then [] else AllServices(cs[..|cs| - 1]) + ServicesOf(cs[|cs| - 1])
  }

  /** How often `k` occurs in `ks`. */
  function Count(ks: seq<string>, k: string): nat {
    if ks == [] then 0 else Count(ks[..|ks| - 1], k) + (if ks[|ks| - 1] == k then 1 else 0)
  }

  /** The counter dictionary of a list of keys: each key that occurs, with its number of
      occurrences. */
  function Tally(ks: seq<string>): map<string, nat> {
    map k | k in ks :: Count(ks, k)
  }

  lemma {:induction false} CountAbsent(ks: seq<string>, k: string)
    requires k !in ks
    ensures Count(ks, k) == 0
  {
    if ks != [] {
      assert k !in ks[..|ks| - 1];
      CountAbsent(ks[..|ks| - 1], k);
    }
  }

  /** Counting one more key raises its counter by one and leaves the others alone. */
  lemma TallySnoc(ks: seq<string>, k: string)
    ensures Tally(ks + [k]) == Tally(ks)[k := if k in ks then Tally(ks)[k] + 1 else 1]
  {
    var ks' := ks + [k];
    assert ks'[..|ks'| - 1] == ks;
    if k !in ks {
      CountAbsent(ks, k);
    }
  }

  /** The sum of a counter dictionary's values. */
  ghost function SumValues(m: map<string, nat>): nat
    decreases m.Keys
  {
    if m.Keys == {} then 0
    else
      var k :| k in m.Keys;
      m[k] + SumValues(m - {k})
  }

  /** The sum does not depend on which key is taken out first. */
  lemma {:induction false} SumValuesRemove(m: map<string, nat>, k: string)
    requires k in m
    ensures SumValues(m) == m[k] + SumValues(m - {k})
    decreases m.Keys
  {
    var j :| j in m.Keys && SumValues(m) == m[j] + SumValues(m - {j});
    if j != k {
      var mj, mk := m - {j}, m - {k};
      assert mj.Keys < m.Keys && mk.Keys < m.Keys;
      SumValuesRemove(mj, k);
      SumValuesRemove(mk, j);
      assert mj - {k} == mk - {j};
    }
  }

  /** The counters of a list of keys add up to the length of the list. */
  lemma {:induction false} TallyTotal(ks: seq<string>)
    ensures SumValues(Tally(ks)) == |ks|
    decreases |ks|
  {
    if ks == [] {
      assert Tally(ks) == map[];
    } else {
      var init, k := ks[..|ks| - 1], ks[|ks| - 1];
      assert ks == init + [k];
      TallyTotal(init);
      TallySnoc(init, k);
      var m, m' := Tally(init), Tally(ks);
      assert k in m';
      SumValuesRemove(m', k);
      if k in init {
        SumValuesRemove(m, k);
        assert m' - {k} == m - {k};
      } else {
        assert m' - {k} == m;
      }
    }
  }

  /** One line of `high_priority_summary`. */
  datatype Summary = Summary(title: string, services: seq<string>, link: string)

  function SummaryOf(c: Change): Summary {
    Summary(c.title.GetOr("Unknown"), ServicesOf(c), c.link.GetOr(""))
  }

  /** The summaries of the high-priority changes, in input order. */
  function HighSummaries(cs: seq<Change>): (r: seq<Summary>)
    ensures |r| == Count(Priorities(cs), "high")
  {
    if cs == [] then []
    else
      var init := cs[..|cs| - 1];
      assert Priorities(cs) == Priorities(init) + [PriorityOf(cs[|cs| - 1])];
      assert Priorities(cs)[..|cs| - 1] == Priorities(init);
      HighSummaries(init) + (if PriorityOf(cs[|cs| - 1]) == "high" then [SummaryOf(cs[|cs| - 1])] else [])
  }

  /** The report `generate_report` writes, apart from its time stamp. */
  datatype Report = Report(
    totalChanges: nat,
    changesByPriority: map<string, nat>,
    changesByService: map<string, nat>,
    changesBySource: map<string, nat>,
    highPrioritySummary: seq<Summary>,
    allChanges: seq<Change>)

  // ---------------------------------------------------------------- cloudformation

  /** The resource types `_get_cf_resource_types` reports (a fixed sample). */
  const SampleResourceTypes: seq<string> := [
    "AWS::EC2::Instance", "AWS::S3::Bucket", "AWS::IAM::Role", "AWS::IAM::Policy",
    "AWS::Lambda::Function", "AWS::RDS::DBInstance", "AWS::DynamoDB::Table"]

  /** The state of `cf_resources_cache.json`: absent, present but not readable as the cache
      (bad JSON or an unusable `resources` value), or holding a resource list (an object without
      `resources` reads as the empty list). */
  datatype CacheFile = NoCacheFile | UnreadableCache | CacheFile(resources: seq<string>)

  /** The new resource types, when a comparison is made: `set(current) - set(cached)`. */
  function NewResources(current: seq<string>, cache: CacheFile, compare: bool): (r: Option<set<string>>)
    ensures r.Some? <==> compare && cache.CacheFile?
    ensures r.Some? ==> forall x :: x in r.value <==> x in current && x !in cache.resources
  {
    if compare && cache.CacheFile? then Some(set x | x in current && x !in cache.resources) else None
  }

  /** Comparing against the cache a run has just written finds nothing new. */
  lemma SecondRunFindsNothing(current: seq<string>)
    ensures NewResources(current, CacheFile(current), true) == Some({})
  {
    var r := NewResources(current, CacheFile(current), true);
    assert forall x :: x !in r.value;
    assert r.value == {};
  }

  /** What `monitor_cloudformation_resources` returns, apart from its time stamp: `newCount`
      is absent when no comparison was made. */
  datatype CfResult = CfResult(
    totalResources: nat,
    newResources: seq<string>,
    newCount: Option<nat>,
    source: string)

  // ---------------------------------------------------------------- api docs and feed

  /** One placeholder entry of `monitor_api_docs`. */
  datatype ApiDocEntry = ApiDocEntry(service: string, status: string, message: string, source: string)

  function PlaceholderEntry(service: string): ApiDocEntry {
    ApiDocEntry(service, "monitoring_not_implemented",
                "API monitoring for " + service + " requires additional implementation", "api-docs")
  }

  /** One placeholder per listed service covers exactly the services listed. */
  lemma PlaceholdersCover(requested: seq<string>, changes: seq<ApiDocEntry>, universe: set<string>)
    requires |changes| == |requested|
    requires forall k :: 0 <= k < |changes| ==> changes[k] == PlaceholderEntry(requested[k])
    requires forall x :: x in requested <==> x in universe
    ensures forall c :: c in changes ==> c.status == "monitoring_not_implemented"
    ensures forall s :: s in universe <==> PlaceholderEntry(s) in changes
  {
    forall s | PlaceholderEntry(s) in changes
      ensures s in universe
    {
      var k :| 0 <= k < |changes| && changes[k] == PlaceholderEntry(s);
      assert requested[k] == s;
    }
    forall s | s in universe
      ensures PlaceholderEntry(s) in changes
    {
      var k :| 0 <= k < |requested| && requested[k] == s;
      assert changes[k] == PlaceholderEntry(s);
    }
  }

  /** An entry of the What's New feed as the feed parser delivers it: each attribute may be
      missing (None); `published` is the entry's time in seconds. */
  datatype FeedEntry = FeedEntry(title: Option<string>, summary: Option<string>, link: Option<string>,
                                 published: Option<int>)

  /** The entry is dated at or after the cut-off time. */
  predicate IsRecent(e: FeedEntry, cutoff: int) {
    e.published.Some? && e.published.value >= cutoff
  }

  /** The loop reads the entry without an attribute error: the date is always read, and the
      title, summary and link only of an entry it keeps. */
  predicate Readable(e: FeedEntry, cutoff: int) {
    && e.published.Some?
    && (IsRecent(e, cutoff) ==> e.title.Some? && e.summary.Some? && e.link.Some?)
  }

  /** The entries dated at or after the cut-off time, in feed order. */
  function Recent(entries: seq<FeedEntry>, cutoff: int): (r: seq<FeedEntry>)
    ensures forall e :: e in r <==> e in entries && IsRecent(e, cutoff)
    ensures |r| <= |entries|
  {
    if entries == [] then []
    else
      var last := entries[|entries| - 1];
      Recent(entries[..|entries| - 1], cutoff) + (if IsRecent(last, cutoff) then [last] else [])
  }

  const SecondsPerDay := 86400

  /** `if k not in counts: counts[k] = 0` then `counts[k] += 1`, on the counters of `seen`. */
  method CountKey(counts: map<string, nat>, ghost seen: seq<string>, k: string) returns (r: map<string, nat>)
    requires counts == Tally(seen)
    ensures r == Tally(seen + [k])
  {
    TallySnoc(seen, k);
    r := counts;
    if k !in r {
      r := r[k := 0];
    }
    r := r[k := r[k] + 1];
  }

  /** Counting every key of `ks`, in order. */
  method CountKeys(counts: map<string, nat>, ghost seen: seq<string>, ks: seq<string>) returns (r: map<string, nat>)
    requires counts == Tally(seen)
    ensures r == Tally(seen + ks)
  {
    r := counts;
    assert seen + ks[..0] == seen;
    for j := 0 to |ks|
      invariant r == Tally(seen + ks[..j])
    {
      assert seen + ks[..j + 1] == (seen + ks[..j]) + [ks[j]];
      r := CountKey(r, seen + ks[..j], ks[j]);
    }
    assert ks[..|ks|] == ks;
  }

  /** The change `monitor_whats_new` builds from a feed entry: its title, summary, link and
      date, the services its text mentions, its assessed priority, and the source. */
  ghost predicate ChangeOfEntry(e: FeedEntry, c: Change) {
    && e.title.Some? && e.summary.Some? && e.link.Some? && e.published.Some?
    && c.title == e.title
    && c.description == e.summary
    && c.link == e.link
    && c.published == e.published
    && c.services.Some?
    && NoDuplicates(c.services.value)
    && (forall s :: s in c.services.value <==> s in ServicesIn(Lower(e.title.value + " " + e.summary.value)))
    && c.priority == Some(AssessPriority(e.title.value, e.summary.value))
    && c.source == Some("whats-new")
  }

  /** `changes` are the change records of `kept`, one for one. */
  ghost predicate ChangesOf(kept: seq<FeedEntry>, changes: seq<Change>) {
    |changes| == |kept| && forall k :: 0 <= k < |changes| ==> ChangeOfEntry(kept[k], changes[k])
  }

  /** One more entry of the feed extends the recent entries by it exactly when it is recent. */
  lemma RecentStep(entries: seq<FeedEntry>, i: nat, cutoff: int)
    requires i < |entries|
    ensures Recent(entries[..i + 1], cutoff)
            == Recent(entries[..i], cutoff) + (if IsRecent(entries[i], cutoff) then [entries[i]] else [])
  {
    assert entries[..i + 1][..i] == entries[..i];
  }

  lemma ChangesOfStep(kept: seq<FeedEntry>, changes: seq<Change>, e: FeedEntry, c: Change)
    requires ChangesOf(kept, changes) && ChangeOfEntry(e, c)
    ensures ChangesOf(kept + [e], changes + [c])
  {
  }

  // ---------------------------------------------------------------- the monitor

  /** `AWSChangeMonitor`; its only changing state is the CloudFormation cache file in its
      output directory. */
  class AWSChangeMonitor {
    var cacheFile: CacheFile

    constructor (cache: CacheFile)
      ensures cacheFile == cache
    {
      cacheFile := cache;
    }

    /** `_extract_services`: the core services mentioned in `text`, each once. */
    method ExtractServices(text: string) returns (services: seq<string>)
      ensures NoDuplicates(services)
      ensures forall s :: s in services <==> s in ServicesIn(Lower(text))
    {
      var t := Lower(text);
      var direct := CollectNames(t, CoreServices);
      var aliased := CollectAliasTargets(t, ServiceAliases);
      var patterned := CollectPatternTargets(t, ServicePatterns);
      var found := direct + aliased + patterned;
      services := Enumerate(found);
    }

    /** The counting part of `generate_report`: a missing priority counts as "medium", a
        missing source as "unknown", and every listed service of a change is counted. */
    method GenerateReport(changes: seq<Change>) returns (report: Report)
      ensures report.totalChanges == |changes|
      ensures report.changesByPriority == Tally(Priorities(changes))
      ensures report.changesByService == Tally(AllServices(changes))
      ensures report.changesBySource == Tally(Sources(changes))
      ensures SumValues(report.changesByPriority) == report.totalChanges
      ensures SumValues(report.changesBySource) == report.totalChanges
      ensures report.highPrioritySummary == HighSummaries(changes)
      ensures report.allChanges == changes
    {
      var byPriority: map<string, nat> := map[];
      var byService: map<string, nat> := map[];
      var bySource: map<string, nat> := map[];
      var high: seq<Summary> := [];
      for i := 0 to |changes|
        invariant byPriority == Tally(Priorities(changes)[..i])
        invariant byService == Tally(AllServices(changes[..i]))
        invariant bySource == Tally(Sources(changes)[..i])
        invariant high == HighSummaries(changes[..i])
      {
        var change := changes[i];
        assert changes[..i + 1][..i] == changes[..i];
        assert Priorities(changes)[..i + 1] == Priorities(changes)[..i] + [PriorityOf(change)];
        assert Sources(changes)[..i + 1] == Sources(changes)[..i] + [SourceOf(change)];
        var priority := PriorityOf(change);
        byPriority := CountKey(byPriority, Priorities(changes)[..i], priority);
        var services := ServicesOf(change);
        byService := CountKeys(byService, AllServices(changes[..i]), services);
        var source := SourceOf(change);
        bySource := CountKey(bySource, Sources(changes)[..i], source);
        if priority == "high" {
          high := high + [SummaryOf(change)];
        }
      }
      assert changes[..|changes|] == changes;
      assert Priorities(changes)[..|changes|] == Priorities(changes);
      assert Sources(changes)[..|changes|] == Sources(changes);
      TallyTotal(Priorities(changes));
      TallyTotal(Sources(changes));
      report := Report(|changes|, byPriority, byService, bySource, high, changes);
    }

    /** The diff-and-cache part of `monitor_cloudformation_resources`: the new types are those
        not in a readable cache (only when `compare` is set), and the cache is then overwritten
        with the current types. */
    method MonitorCloudFormationResources(compare: bool) returns (result: CfResult)
      modifies this
      ensures result.totalResources == |SampleResourceTypes|
      ensures result.source == "cloudformation"
      ensures NoDuplicates(result.newResources)
      ensures match NewResources(SampleResourceTypes, old(cacheFile), compare)
              case None => result.newResources == [] && result.newCount == None
              case Some(added) =>
                (forall x :: x in result.newResources <==> x in added)
                && result.newCount == Some(|result.newResources|)
      ensures cacheFile == CacheFile(SampleResourceTypes)
    {
      var current := SampleResourceTypes;
      result := CfResult(|current|, [], None, "cloudformation");
      if compare && cacheFile.CacheFile? {
        var additions := set x | x in current && x !in cacheFile.resources;
        var listed := Enumerate(additions);
        result := result.(newResources := listed, newCount := Some(|listed|));
      }
      cacheFile := CacheFile(current);
    }

    /** `monitor_api_docs`: one placeholder entry per requested service; no list means every
        core service. */
    method MonitorApiDocs(services: Option<seq<string>>) returns (changes: seq<ApiDocEntry>)
      ensures services.Some? ==>
                |changes| == |services.value|
                && forall i :: 0 <= i < |changes| ==> changes[i] == PlaceholderEntry(services.value[i])
      ensures services.None? ==>
                |changes| == |CoreServices|
                && (forall c :: c in changes ==> c.status == "monitoring_not_implemented")
                && forall s :: s in CoreServices <==> PlaceholderEntry(s) in changes
    {
      var requested: seq<string>;
      if services.None? {
        requested := Enumerate(CoreServices);
      } else {
        requested := services.value;
      }
      changes := [];
      for i := 0 to |requested|
        invariant |changes| == i
        invariant forall k :: 0 <= k < i ==> changes[k] == PlaceholderEntry(requested[k])
      {
        changes := changes + [PlaceholderEntry(requested[i])];
      }
      if services.None? {
        PlaceholdersCover(requested, changes, CoreServices);
      }
    }

    /** The change record `monitor_whats_new` appends for one entry it keeps. */
    method ChangeFromEntry(entry: FeedEntry) returns (change: Change)
      requires entry.title.Some? && entry.summary.Some? && entry.link.Some? && entry.published.Some?
      ensures ChangeOfEntry(entry, change)
    {
      var title, summary := entry.title.value, entry.summary.value;
      var services := ExtractServices(title + " " + summary);
      change := Change(entry.title, entry.summary, entry.link, entry.published, Some(services),
                       Some(AssessPriority(title, summary)), Some("whats-new"));
    }

    /** `monitor_whats_new` once the feed is fetched (None when fetching raised): entries dated
        before `now - days` are dropped, and each remaining one becomes a change with its
        services and priority. The loop is outside the try block, so an entry without a date,
        or a kept entry without a title, summary or link, raises an attribute error out of the
        method. */
    method MonitorWhatsNew(feed: Option<seq<FeedEntry>>, now: int, days: int)
      returns (r: Result<seq<Change>, string>)
      ensures feed.None? ==> r == Success([])
      ensures feed.Some? ==>
                (r.Success? <==> forall e | e in feed.value :: Readable(e, now - days * SecondsPerDay))
      ensures r.Failure? ==> r.error == "AttributeError"
      ensures feed.Some? && r.Success? ==>
                var kept := Recent(feed.value, now - days * SecondsPerDay);
                && |r.value| == |kept|
                && forall i :: 0 <= i < |r.value| ==> ChangeOfEntry(kept[i], r.value[i])
    {
      if feed.None? {
        return Success([]);
      }
      var entries := feed.value;
      var cutoff := now - days * SecondsPerDay;
      var changes: seq<Change> := [];
      ghost var kept: seq<FeedEntry> := [];
      for i := 0 to |entries|
        invariant forall k | 0 <= k < i :: Readable(entries[k], cutoff)
        invariant kept == Recent(entries[..i], cutoff)
        invariant ChangesOf(kept, changes)
      {
        var entry := entries[i];
        if !Readable(entry, cutoff) {
          assert entry in feed.value;
          return Failure("AttributeError");
        }
        RecentStep(entries, i, cutoff);
        if entry.published.value < cutoff {
          continue;
        }
        var change := ChangeFromEntry(entry);
        ChangesOfStep(kept, changes, entry, change);
        changes := changes + [change];
        kept := kept + [entry];
      }
      assert entries[..|entries|] == entries;
      r := Success(changes);
    }
  }
}
