/**
 * The decision logic of the tool layer (internal/tools/tools.go): the severity summary of
 * a vulnerability list with its hand-written case-insensitive substring search, the
 * first-byte breaking-change heuristic, the summary loop of the deps.vulns tool and the
 * upgrade planner of the deps.upgrade_plan tool.
 *
 * The two network queries the tools make are inputs here: the vulnerability query is an
 * `Option` (None when it failed) and the package query an `Option` of the package record.
 */
module Tools {
  import opened Wrappers
  import opened Text
  import DepsDev

  // ---------------------------------------------------------------------------
  // Vulnerability records (the parts of the vulnerability database's answer used here)
  // ---------------------------------------------------------------------------

  datatype Severity = Severity(scheme: string, score: string)

  datatype Vulnerability = Vulnerability(id: string, summary: string, severity: seq<Severity>)

  /** Five counters, one per severity bucket. */
  datatype VulnSummary = VulnSummary(critical: nat, high: nat, medium: nat, low: nat, unknown: nat) {
    function Total(): nat {
      critical + high + medium + low + unknown
    }

    function Plus(other: VulnSummary): VulnSummary {
      VulnSummary(critical + other.critical, high + other.high, medium + other.medium,
                  low + other.low, unknown + other.unknown)
    }
  }

  const EmptySummary := VulnSummary(0, 0, 0, 0, 0)

  datatype Bucket = CriticalBucket | HighBucket | MediumBucket | LowBucket | UnknownBucket

  // ---------------------------------------------------------------------------
  // The hand-written string helpers
  // ---------------------------------------------------------------------------

  /** toLower: a fresh buffer of the same length, filled one character at a time. */
  method ToLower(s: string) returns (r: string)
    ensures |r| == |s|
    ensures forall i :: 0 <= i < |s| ==>
              r[i] == if 'A' <= s[i] <= 'Z' then (s[i] as int + 32) as char else s[i]
    ensures r == Lower(s)
  {
    var result := new char[|s|];
    for i := 0 to |s|
      invariant forall j :: 0 <= j < i ==> result[j] == LowerChar(s[j])
    {
      var c := s[i];
      if c >= 'A' && c <= 'Z' {
        result[i] := (c as int + 32) as char;
      } else {
        result[i] := c;
      }
    }
    r := result[..];
  }

  /** findInString: tries every offset at which `substr` could start. */
  method FindInString(s: string, substr: string) returns (found: bool)
    ensures found <==> Contains(s, substr)
  {
    if |substr| == 0 {
      ContainsEmpty(s);
      return true;
    }
    if |s| < |substr| {
      return false;
    }
    for i := 0 to |s| - |substr| + 1
      invariant forall j :: 0 <= j < i ==> !OccursAt(substr, s, j)
    {
      if s[i..i + |substr|] == substr {
        assert OccursAt(substr, s, i);
        return true;
      }
    }
    return false;
  }

  /** containsIgnoreCase: both strings lowered, then searched. */
  method ContainsIgnoreCase(s: string, substr: string) returns (b: bool)
    ensures b <==> Contains(Lower(s), Lower(substr))
  {
    var ls := ToLower(s);
    var lt := ToLower(substr);
    b := FindInString(ls, lt);
  }

  // ---------------------------------------------------------------------------
  // Severity classification and the summary
  // ---------------------------------------------------------------------------

  /** The string a vulnerability is classified by: the score of its first severity entry,
      or "unknown" when it has none. */
  function SeverityLabel(v: Vulnerability): string {
    if |v.severity| > 0 then v.severity[0].score else UnknownWord
  }

  const CriticalWord := "critical"
  const HighWord := "high"
  const MediumWord := "medium"
  const LowWord := "low"
  const UnknownWord := "unknown"

  /** The keywords are lower case already, so lowering them changes nothing. */
  lemma KeywordsLowerCase()
    ensures Lower(CriticalWord) == CriticalWord && Lower(HighWord) == HighWord
    ensures Lower(MediumWord) == MediumWord && Lower(LowWord) == LowWord
  {
  }

  /** The first keyword found in the lowered tag, in the order critical, high, medium, low,
      decides (KeywordsLowerCase: the same as searching case-insensitively). */
  function Classify(tag: string): Bucket {
    var t := Lower(tag);
    if Contains(t, CriticalWord) then CriticalBucket
    else if Contains(t, HighWord) then HighBucket
    else if Contains(t, MediumWord) then MediumBucket
    else if Contains(t, LowWord) then LowBucket
    else UnknownBucket
  }

  /** One more vulnerability in bucket `b`. */
  function Count(s: VulnSummary, b: Bucket): VulnSummary {
    match b
    case CriticalBucket => s.(critical := s.critical + 1)
    case HighBucket => s.(high := s.high + 1)
    case MediumBucket => s.(medium := s.medium + 1)
    case LowBucket => s.(low := s.low + 1)
    case UnknownBucket => s.(unknown := s.unknown + 1)
  }

  /** Counting touches exactly one counter: the one of bucket `b` goes up by one. */
  lemma CountTotal(s: VulnSummary, b: Bucket)
    ensures Count(s, b).Total() == s.Total() + 1
    ensures Count(s, b).critical == s.critical + (if b == CriticalBucket then 1 else 0)
    ensures Count(s, b).high == s.high + (if b == HighBucket then 1 else 0)
    ensures Count(s, b).medium == s.medium + (if b == MediumBucket then 1 else 0)
    ensures Count(s, b).low == s.low + (if b == LowBucket then 1 else 0)
    ensures Count(s, b).unknown == s.unknown + (if b == UnknownBucket then 1 else 0)
  {
  }

  /** The summary of a list: every vulnerability counted once, in its own bucket. */
  function Summary(vulns: seq<Vulnerability>): VulnSummary {
    if vulns == [] then EmptySummary
    else Count(Summary(vulns[..|vulns| - 1]), Classify(SeverityLabel(vulns[|vulns| - 1])))
  }

  /** The counters add up to the length of the list. */
  lemma {:induction false} SummaryTotal(vulns: seq<Vulnerability>)
    ensures Summary(vulns).Total() == |vulns|
  {
    if vulns != [] {
      SummaryTotal(vulns[..|vulns| - 1]);
      CountTotal(Summary(vulns[..|vulns| - 1]), Classify(SeverityLabel(vulns[|vulns| - 1])));
    }
  }

  /** The summary of a longer prefix counts one more vulnerability. */
  lemma SummaryPrefix(vulns: seq<Vulnerability>, i: nat)
    requires i < |vulns|
    ensures Summary(vulns[..i + 1]) == Count(Summary(vulns[..i]), Classify(SeverityLabel(vulns[i])))
  {
    assert vulns[..i + 1][..i] == vulns[..i];
  }

  /** Summaries add up over concatenation, so the order of the list does not matter. */
  lemma {:induction false} SummaryAppend(a: seq<Vulnerability>, b: seq<Vulnerability>)
    ensures Summary(a + b) == Summary(a).Plus(Summary(b))
    decreases |b|
  {
    if b == [] {
      SummaryAppendNil(a);
    } else {
      SummaryAppend(a, b[..|b| - 1]);
      SummaryAppendStep(a, b);
    }
  }

  /** The base case of SummaryAppend: nothing appended. */
  lemma SummaryAppendNil(a: seq<Vulnerability>)
    ensures Summary(a + []) == Summary(a).Plus(Summary([]))
  {
    assert a + [] == a;
  }

  /** The step of SummaryAppend: from `b` without its last element to `b`. */
  lemma SummaryAppendStep(a: seq<Vulnerability>, b: seq<Vulnerability>)
    requires b != []
    requires Summary(a + b[..|b| - 1]) == Summary(a).Plus(Summary(b[..|b| - 1]))
    ensures Summary(a + b) == Summary(a).Plus(Summary(b))
  {
    SummaryAppendLast(a, b);
    CountPlus(Summary(a), Summary(b[..|b| - 1]), Classify(SeverityLabel(b[|b| - 1])));
  }

  /** Unfolding the summary of `a + b` peels off the last element of `b`. */
  lemma SummaryAppendLast(a: seq<Vulnerability>, b: seq<Vulnerability>)
    requires b != []
    ensures Summary(a + b) == Count(Summary(a + b[..|b| - 1]), Classify(SeverityLabel(b[|b| - 1])))
  {
    assert (a + b)[..|a + b| - 1] == a + b[..|b| - 1];
    assert (a + b)[|a + b| - 1] == b[|b| - 1];
  }

  /** Counting one more into the right operand of a sum counts it into the sum. */
  lemma CountPlus(s: VulnSummary, t: VulnSummary, x: Bucket)
    ensures Count(s.Plus(t), x) == s.Plus(Count(t, x))
  {
  }

  /** A one-element list lands in the bucket of its only vulnerability. */
  lemma SummarySingle(v: Vulnerability)
    ensures Summary([v]) == Count(EmptySummary, Classify(SeverityLabel(v)))
  {
    assert [v][..0] == [];
  }

  /** Keywords take precedence in the order critical, high, medium, low. */
  lemma ClassifyPrecedence(tag: string)
    ensures Classify(tag) == CriticalBucket <==> ContainsFold(tag, CriticalWord)
    ensures Classify(tag) == HighBucket <==> !ContainsFold(tag, CriticalWord) && ContainsFold(tag, HighWord)
    ensures Classify(tag) == MediumBucket <==>
              !ContainsFold(tag, CriticalWord) && !ContainsFold(tag, HighWord) && ContainsFold(tag, MediumWord)
    ensures Classify(tag) == LowBucket <==>
              !ContainsFold(tag, CriticalWord) && !ContainsFold(tag, HighWord)
              && !ContainsFold(tag, MediumWord) && ContainsFold(tag, LowWord)
    ensures Classify(tag) == UnknownBucket <==>
              !ContainsFold(tag, CriticalWord) && !ContainsFold(tag, HighWord)
              && !ContainsFold(tag, MediumWord) && !ContainsFold(tag, LowWord)
  {
    KeywordsLowerCase();
  }

  /** A vulnerability without severity entries counts as unknown: "unknown" holds none of
      the four keywords. */
  lemma NoSeverityIsUnknown(v: Vulnerability)
    requires v.severity == []
    ensures Classify(SeverityLabel(v)) == UnknownBucket
  {
    var u := Lower(UnknownWord);
    assert u == UnknownWord;
    ContainsTooLong(u, CriticalWord);
    NotContainsFirstAbsent(u, HighWord);
    NotContainsFirstAbsent(u, MediumWord);
    NotContainsFirstAbsent(u, LowWord);
  }

  /** Case does not matter: a score spelled "CRITICAL" counts as critical. */
  lemma UpperCaseCritical()
    ensures Classify("CRITICAL") == CriticalBucket
  {
    assert Lower("CRITICAL") == CriticalWord;
    ContainsSelf(CriticalWord);
  }

  /** computeVulnSummary: one pass over the list, incrementing the counter of each bucket. */
  method ComputeVulnSummary(vulns: seq<Vulnerability>) returns (summary: VulnSummary)
    ensures summary == Summary(vulns)
    ensures summary.Total() == |vulns|
  {
    summary := EmptySummary;
    for i := 0 to |vulns|
      invariant summary == Summary(vulns[..i])
    {
      SummaryPrefix(vulns, i);
      summary := CountOne(summary, vulns[i]);
    }
    assert vulns[..|vulns|] == vulns;
    SummaryTotal(vulns);
  }

  /** The body of the summary loop: classify one vulnerability and bump its counter. */
  method CountOne(summary: VulnSummary, vuln: Vulnerability) returns (r: VulnSummary)
    ensures r == Count(summary, Classify(SeverityLabel(vuln)))
  {
    KeywordsLowerCase();
    var severity := UnknownWord;
    if |vuln.severity| > 0 {
      severity := vuln.severity[0].score;
    }
    r := summary;
    var isCritical := ContainsIgnoreCase(severity, CriticalWord);
    if isCritical {
      r := r.(critical := r.critical + 1);
      return;
    }
    var isHigh := ContainsIgnoreCase(severity, HighWord);
    if isHigh {
      r := r.(high := r.high + 1);
      return;
    }
    var isMedium := ContainsIgnoreCase(severity, MediumWord);
    if isMedium {
      r := r.(medium := r.medium + 1);
      return;
    }
    var isLow := ContainsIgnoreCase(severity, LowWord);
    if isLow {
      r := r.(low := r.low + 1);
    } else {
      r := r.(unknown := r.unknown + 1);
    }
  }

  // ---------------------------------------------------------------------------
  // The deps.vulns tool
  // ---------------------------------------------------------------------------

  datatype VulnsInput = VulnsInput(ecosystem: string, package: string, version: string)

  datatype VulnsOutput = VulnsOutput(
    package: string,
    ecosystem: string,
    version: string,
    vulnerabilityCount: nat,
    vulnerabilities: seq<Vulnerability>,
    summary: VulnSummary)

  datatype VulnsError = VulnQueryFailed

  /**
   * HandleVulns with the cache left out: a failed query is an error; otherwise the output
   * carries the list, its length and a summary computed by a loop of its own, which agrees
   * with ComputeVulnSummary.
   */
  method HandleVulns(input: VulnsInput, query: Option<seq<Vulnerability>>)
    returns (r: Result<VulnsOutput, VulnsError>)
    ensures query.None? <==> r == Failure(VulnQueryFailed)
    ensures query.Some? ==> r.Success? && r.value == VulnsOutput(
      input.package, input.ecosystem, input.version, |query.value|, query.value, Summary(query.value))
  {
    if query.None? {
      return Failure(VulnQueryFailed);
    }
    var vulns := query.value;
    var summary := EmptySummary;
    for i := 0 to |vulns|
      invariant summary == Summary(vulns[..i])
    {
      SummaryPrefix(vulns, i);
      summary := CountOne(summary, vulns[i]);
    }
    assert vulns[..|vulns|] == vulns;
    return Success(VulnsOutput(input.package, input.ecosystem, input.version, |vulns|, vulns, summary));
  }

  // ---------------------------------------------------------------------------
  // The breaking-change heuristic
  // ---------------------------------------------------------------------------

  /**
   * checkBreakingChanges: false when either version is empty, otherwise whether the first
   * bytes differ. The first byte of a Go string is the first byte of the UTF-8 encoding of
   * its first character.
   */
  function CheckBreakingChanges(current: string, latest: string): (breaking: bool)
    ensures breaking <==> |current| > 0 && |latest| > 0 && Utf8LeadByte(current[0]) != Utf8LeadByte(latest[0])
    ensures breaking ==> current[0] != latest[0]
  {
    if |current| == 0 || |latest| == 0 then false
    else if Utf8LeadByte(current[0]) != Utf8LeadByte(latest[0]) then true
    else false
  }

  /** For versions starting with an ASCII character the heuristic compares first characters;
      it is symmetric and never fires for an empty version or on equal first characters. */
  lemma BreakingChangesFirstCharacter(current: string, latest: string)
    ensures |current| == 0 || |latest| == 0 ==> !CheckBreakingChanges(current, latest)
    ensures CheckBreakingChanges(current, latest) == CheckBreakingChanges(latest, current)
    ensures |current| > 0 && |latest| > 0 && current[0] == latest[0] ==> !CheckBreakingChanges(current, latest)
    ensures |current| > 0 && |latest| > 0 && (current[0] as int < 0x80 || latest[0] as int < 0x80)
            ==> (CheckBreakingChanges(current, latest) <==> current[0] != latest[0])
  {
    if |current| > 0 && |latest| > 0 && (current[0] as int < 0x80 || latest[0] as int < 0x80) {
      Utf8LeadByteAscii(current[0], latest[0]);
    }
  }

  /** Only the first byte is compared: two different two-byte first characters that share
      a lead byte do not count as a major-version change. */
  lemma BreakingChangesByteLevel()
    ensures !CheckBreakingChanges("\U{00E9}1", "\U{00E8}1")
    ensures CheckBreakingChanges("1.2.3", "2.0.0")
    ensures !CheckBreakingChanges("1.2.3", "1.9.0")
  {
  }

  // ---------------------------------------------------------------------------
  // The upgrade planner
  // ---------------------------------------------------------------------------

  datatype UpgradePlanInput = UpgradePlanInput(ecosystem: string, package: string, currentVersion: string)

  /** The six priorities a plan can carry. */
  datatype Priority = Urgent | Ok | Warning | Low | Medium | Recommended {
    function Name(): string {
      match this
      case Urgent => "URGENT"
      case Ok => "OK"
      case Warning => "WARNING"
      case Low => "LOW"
      case Medium => "MEDIUM"
      case Recommended => "RECOMMENDED"
    }
  }

  /**
   * The recommendation of a plan: one constructor per message of the planner, carrying the
   * values the message cites.
   */
  datatype Advice =
    | UpgradeImmediately(criticalCount: nat)            // critical vulnerabilities found
    | AddressHighSeverity(target: string, highCount: nat) // high-severity vulnerabilities
    | AddressKnown(target: string, vulnCount: nat)        // other known vulnerabilities
    | LatestButPoorlyMaintained(level: DepsDev.Level)     // current, but poorly maintained
    | NoActionNeeded                                      // its text is NoActionText
    | ConsiderAlternatives(level: DepsDev.Level, score: int, target: string)
    | NoUrgentIssues(target: string, days: int)           // upgrade available, package is old
    | ReviewChangelog(target: string)                     // possible breaking changes
    | UpgradeForFeatures(target: string)                  // plain upgrade available
  {
    /** The exact text of the one recommendation that cites nothing; the others are
        formatted messages and have none here. */
    function Literal(): Option<string> {
      if NoActionNeeded? then Some(NoActionText) else None
    }
  }

  const NoActionText := "Already on latest version. No action needed."

  datatype UpgradePlan = UpgradePlan(
    package: string,
    ecosystem: string,
    currentVersion: string,
    latestVersion: string,
    isUpToDate: bool,
    hasVulnerabilities: bool,
    vulnerabilityCount: nat,
    maintenanceLevel: DepsDev.Level,
    maintenanceScore: int,
    daysSinceUpdate: int,
    priority: Priority,
    recommendation: Advice,
    upgradePath: seq<string>,
    breakingChanges: bool,
    vulnerabilitySummary: Option<VulnSummary>)

  datatype PlanError = MissingInput | PackageQueryFailed

  predicate ValidInput(input: UpgradePlanInput) {
    input.ecosystem != "" && input.package != "" && input.currentVersion != ""
  }

  predicate PoorlyMaintained(level: DepsDev.Level) {
    level == DepsDev.Poor || level == DepsDev.Critical
  }

  /** The vulnerabilities a query found: none when it failed. */
  function Found(vulnQuery: Option<seq<Vulnerability>>): seq<Vulnerability> {
    if vulnQuery.Some? then vulnQuery.value else []
  }

  /** The priority: the first of these that applies wins. */
  function PriorityOf(hasVulns: bool, upToDate: bool, m: DepsDev.HealthMetrics, breaking: bool): Priority {
    if hasVulns then Urgent
    else if upToDate then Ok
    else if PoorlyMaintained(m.maintenanceLevel) then Warning
    else if m.daysSinceUpdate > 180 then Low
    else if breaking then Medium
    else Recommended
  }

  /** The recommendation, chosen down the same tree as the priority. */
  function AdviceOf(hasVulns: bool, summary: Option<VulnSummary>, vulnCount: nat, upToDate: bool,
                    m: DepsDev.HealthMetrics, breaking: bool): Advice {
    if hasVulns then
      var criticalCount := if summary.Some? then summary.value.critical else 0;
      var highCount := if summary.Some? then summary.value.high else 0;
      if criticalCount > 0 then UpgradeImmediately(criticalCount)
      else if highCount > 0 then AddressHighSeverity(m.latestVersion, highCount)
      else AddressKnown(m.latestVersion, vulnCount)
    else if upToDate then
      if PoorlyMaintained(m.maintenanceLevel) then LatestButPoorlyMaintained(m.maintenanceLevel)
      else NoActionNeeded
    else if PoorlyMaintained(m.maintenanceLevel) then
      ConsiderAlternatives(m.maintenanceLevel, m.maintenanceScore, m.latestVersion)
    else if m.daysSinceUpdate > 180 then NoUrgentIssues(m.latestVersion, m.daysSinceUpdate)
    else if breaking then ReviewChangelog(m.latestVersion)
    else UpgradeForFeatures(m.latestVersion)
  }

  /** The plan for an input, a vulnerability query result and the package's metrics. */
  function PlanFromMetrics(input: UpgradePlanInput, vulnQuery: Option<seq<Vulnerability>>,
                           m: DepsDev.HealthMetrics): UpgradePlan {
    var vulns := Found(vulnQuery);
    var hasVulns := |vulns| > 0;
    var vulnCount := if hasVulns then |vulns| else 0;
    var summary := if hasVulns then Some(Summary(vulns)) else None;
    var upToDate := input.currentVersion == m.latestVersion;
    var breaking := CheckBreakingChanges(input.currentVersion, m.latestVersion);
    UpgradePlan(
      input.package, input.ecosystem, input.currentVersion, m.latestVersion,
      upToDate, hasVulns, vulnCount, m.maintenanceLevel, m.maintenanceScore, m.daysSinceUpdate,
      PriorityOf(hasVulns, upToDate, m, breaking),
      AdviceOf(hasVulns, summary, vulnCount, upToDate, m, breaking),
      [input.currentVersion, m.latestVersion], breaking, summary)
  }

  /** The whole planner: input validation, then the package query, then the plan. */
  function Plan(input: UpgradePlanInput, vulnQuery: Option<seq<Vulnerability>>,
                pkgQuery: Option<DepsDev.PackageInfo>, now: DepsDev.Time): Result<UpgradePlan, PlanError> {
    if !ValidInput(input) then Failure(MissingInput)
    else if pkgQuery.None? then Failure(PackageQueryFailed)
    else Success(PlanFromMetrics(input, vulnQuery, DepsDev.Health(pkgQuery.value, now)))
  }

  /**
   * HandleUpgradePlan with the cache, logging and serialisation left out: it validates the
   * input, takes the vulnerability query's result (a failed query counts as no
   * vulnerabilities), summarises it, scores the package and fills in the plan field by field.
   */
  method HandleUpgradePlan(input: UpgradePlanInput, vulnQuery: Option<seq<Vulnerability>>,
                           pkgQuery: Option<DepsDev.PackageInfo>, now: DepsDev.Time)
    returns (r: Result<UpgradePlan, PlanError>)
    ensures r == Plan(input, vulnQuery, pkgQuery, now)
  {
    if input.ecosystem == "" || input.package == "" || input.currentVersion == "" {
      return Failure(MissingInput);
    }

    var hasVulns := vulnQuery.Some? && |vulnQuery.value| > 0;
    var vulnCount := 0;
    var vulnSummary: Option<VulnSummary> := None;
    if hasVulns {
      vulnCount := |vulnQuery.value|;
      var summary := ComputeVulnSummary(vulnQuery.value);
      vulnSummary := Some(summary);
    }

    if pkgQuery.None? {
      return Failure(PackageQueryFailed);
    }
    var m := DepsDev.ComputeHealthMetrics(pkgQuery.value, now);

    var plan := UpgradePlan(
      input.package, input.ecosystem, input.currentVersion, m.latestVersion,
      input.currentVersion == m.latestVersion, hasVulns, vulnCount,
      m.maintenanceLevel, m.maintenanceScore, m.daysSinceUpdate,
      Recommended, NoActionNeeded,  // set below
      [input.currentVersion, m.latestVersion], false, vulnSummary);

    plan := plan.(breakingChanges := CheckBreakingChanges(input.currentVersion, m.latestVersion));
    plan := Recommend(plan, m);
    return Success(plan);
  }

  /**
   * Step 3 of HandleUpgradePlan: the priority and the recommendation, decided from the
   * plan's own vulnerability, up-to-date and breaking-change fields and the metrics; no
   * other field changes.
   */
  method Recommend(plan: UpgradePlan, m: DepsDev.HealthMetrics) returns (r: UpgradePlan)
    ensures r == plan.(
      priority := PriorityOf(plan.hasVulnerabilities, plan.isUpToDate, m, plan.breakingChanges),
      recommendation := AdviceOf(plan.hasVulnerabilities, plan.vulnerabilitySummary,
                                 plan.vulnerabilityCount, plan.isUpToDate, m, plan.breakingChanges))
  {
    r := plan;
    if r.hasVulnerabilities {
      r := r.(priority := Urgent);
      var criticalCount, highCount := 0, 0;
      if r.vulnerabilitySummary.Some? {
        criticalCount := r.vulnerabilitySummary.value.critical;
        highCount := r.vulnerabilitySummary.value.high;
      }
      if criticalCount > 0 {
        r := r.(recommendation := UpgradeImmediately(criticalCount));
      } else if highCount > 0 {
        r := r.(recommendation := AddressHighSeverity(m.latestVersion, highCount));
      } else {
        r := r.(recommendation := AddressKnown(m.latestVersion, r.vulnerabilityCount));
      }
    } else if r.isUpToDate {
      r := r.(priority := Ok);
      if m.maintenanceLevel == DepsDev.Poor || m.maintenanceLevel == DepsDev.Critical {
        r := r.(recommendation := LatestButPoorlyMaintained(m.maintenanceLevel));
      } else {
        r := r.(recommendation := NoActionNeeded);
      }
    } else {
      if m.maintenanceLevel == DepsDev.Poor || m.maintenanceLevel == DepsDev.Critical {
        r := r.(priority := Warning,
                recommendation := ConsiderAlternatives(m.maintenanceLevel, m.maintenanceScore, m.latestVersion));
      } else if m.daysSinceUpdate > 180 {
        r := r.(priority := Low, recommendation := NoUrgentIssues(m.latestVersion, m.daysSinceUpdate));
      } else if r.breakingChanges {
        r := r.(priority := Medium, recommendation := ReviewChangelog(m.latestVersion));
      } else {
        r := r.(priority := Recommended, recommendation := UpgradeForFeatures(m.latestVersion));
      }
    }
  }

  // ---------------------------------------------------------------------------
  // Properties of the plan
  // ---------------------------------------------------------------------------

  /** Invalid input is rejected whatever the queries would have answered; once the input is
      valid a failed package query is the only other error. */
  lemma PlanErrors(input: UpgradePlanInput, vulnQuery: Option<seq<Vulnerability>>,
                   pkgQuery: Option<DepsDev.PackageInfo>, now: DepsDev.Time)
    ensures !ValidInput(input) ==> Plan(input, vulnQuery, pkgQuery, now) == Failure(MissingInput)
    ensures ValidInput(input) ==> (Plan(input, vulnQuery, pkgQuery, now).Failure? <==> pkgQuery.None?)
    ensures Plan(input, vulnQuery, pkgQuery, now).Failure? ==>
              Plan(input, vulnQuery, pkgQuery, now).error == if ValidInput(input) then PackageQueryFailed else MissingInput
  {
  }

  /** Identity fields are copied, up-to-date is string equality with the latest version,
      the path has exactly the two versions, and the metrics are carried over. */
  lemma PlanIdentity(input: UpgradePlanInput, vulnQuery: Option<seq<Vulnerability>>, m: DepsDev.HealthMetrics)
    ensures var p := PlanFromMetrics(input, vulnQuery, m);
      && p.package == input.package && p.ecosystem == input.ecosystem
      && p.currentVersion == input.currentVersion && p.latestVersion == m.latestVersion
      && (p.isUpToDate <==> input.currentVersion == m.latestVersion)
      && p.upgradePath == [input.currentVersion, m.latestVersion]
      && p.maintenanceLevel == m.maintenanceLevel && p.maintenanceScore == m.maintenanceScore
      && p.daysSinceUpdate == m.daysSinceUpdate
  {
  }

  /** The vulnerability fields: present only for a successful, non-empty query; then the
      count is the list's length and the summary's counters add up to it. */
  lemma PlanVulnerabilityFields(input: UpgradePlanInput, vulnQuery: Option<seq<Vulnerability>>, m: DepsDev.HealthMetrics)
    ensures var p := PlanFromMetrics(input, vulnQuery, m);
      && (p.hasVulnerabilities <==> vulnQuery.Some? && |vulnQuery.value| > 0)
      && (p.hasVulnerabilities ==> p.vulnerabilityCount == |vulnQuery.value|
                                   && p.vulnerabilitySummary == Some(Summary(vulnQuery.value))
                                   && p.vulnerabilitySummary.value.Total() == p.vulnerabilityCount)
      && (!p.hasVulnerabilities ==> p.vulnerabilityCount == 0 && p.vulnerabilitySummary.None?)
  {
    SummaryTotal(Found(vulnQuery));
  }

  /** A failed vulnerability query is treated exactly like an empty answer. */
  lemma FailedVulnQueryMeansNone(input: UpgradePlanInput, m: DepsDev.HealthMetrics)
    ensures PlanFromMetrics(input, None, m) == PlanFromMetrics(input, Some([]), m)
    ensures !PlanFromMetrics(input, None, m).hasVulnerabilities
  {
  }

  /** The strict precedence of the priorities, each stated as an if-and-only-if. */
  lemma PriorityPrecedence(input: UpgradePlanInput, vulnQuery: Option<seq<Vulnerability>>, m: DepsDev.HealthMetrics)
    ensures var p := PlanFromMetrics(input, vulnQuery, m);
      var poor := PoorlyMaintained(m.maintenanceLevel);
      && (p.priority == Urgent <==> p.hasVulnerabilities)
      && (p.priority == Ok <==> !p.hasVulnerabilities && p.isUpToDate)
      && (p.priority == Warning <==> !p.hasVulnerabilities && !p.isUpToDate && poor)
      && (p.priority == Low <==> !p.hasVulnerabilities && !p.isUpToDate && !poor && m.daysSinceUpdate > 180)
      && (p.priority == Medium <==>
            !p.hasVulnerabilities && !p.isUpToDate && !poor && m.daysSinceUpdate <= 180 && p.breakingChanges)
      && (p.priority == Recommended <==>
            !p.hasVulnerabilities && !p.isUpToDate && !poor && m.daysSinceUpdate <= 180 && !p.breakingChanges)
  {
  }

  /** Every priority is spelled as one of the six literals, and no two alike. */
  lemma PriorityNames(p: Priority, q: Priority)
    ensures p.Name() in ["URGENT", "OK", "WARNING", "LOW", "MEDIUM", "RECOMMENDED"]
    ensures p.Name() == q.Name() <==> p == q
  {
  }

  /** An urgent plan cites the critical count if there are critical vulnerabilities, else the
      high count if there are high ones, else the total; an up-to-date plan warns about poor
      maintenance without changing its priority. */
  lemma AdviceCitations(input: UpgradePlanInput, vulnQuery: Option<seq<Vulnerability>>, m: DepsDev.HealthMetrics)
    ensures var p := PlanFromMetrics(input, vulnQuery, m);
      && (p.hasVulnerabilities ==>
            var s := Summary(vulnQuery.value);
            p.recommendation == (if s.critical > 0 then UpgradeImmediately(s.critical)
                                 else if s.high > 0 then AddressHighSeverity(m.latestVersion, s.high)
                                 else AddressKnown(m.latestVersion, |vulnQuery.value|)))
      && (p.priority == Ok ==>
            p.recommendation == (if PoorlyMaintained(m.maintenanceLevel)
                                 then LatestButPoorlyMaintained(m.maintenanceLevel) else NoActionNeeded))
  {
  }

  // ---------------------------------------------------------------------------
  // Scenarios
  // ---------------------------------------------------------------------------

  /** Any critical vulnerability makes the plan urgent and the recommendation cites how many
      critical vulnerabilities there are. */
  lemma CriticalsFirst(input: UpgradePlanInput, vulns: seq<Vulnerability>, m: DepsDev.HealthMetrics)
    requires Summary(vulns).critical > 0
    ensures PlanFromMetrics(input, Some(vulns), m).priority == Urgent
    ensures PlanFromMetrics(input, Some(vulns), m).recommendation == UpgradeImmediately(Summary(vulns).critical)
  {
    SummaryTotal(vulns);
  }

  /** One vulnerability whose first severity score is "CRITICAL": urgent, citing one
      critical vulnerability. */
  lemma ScenarioCriticalVulnerability(input: UpgradePlanInput, v: Vulnerability, m: DepsDev.HealthMetrics)
    requires |v.severity| > 0 && v.severity[0].score == "CRITICAL"
    ensures PlanFromMetrics(input, Some([v]), m).priority == Urgent
    ensures PlanFromMetrics(input, Some([v]), m).recommendation == UpgradeImmediately(1)
  {
    CriticalVulnerabilityCounted(v);
    CriticalsFirst(input, [v], m);
  }

  /** A one-element list whose score is "CRITICAL" has one critical vulnerability. */
  lemma CriticalVulnerabilityCounted(v: Vulnerability)
    requires |v.severity| > 0 && v.severity[0].score == "CRITICAL"
    ensures Summary([v]).critical == 1
  {
    assert Classify(SeverityLabel(v)) == CriticalBucket by {
      assert SeverityLabel(v) == "CRITICAL";
      UpperCaseCritical();
    }
    CountedCritical(v);
  }

  /** A one-element list whose only vulnerability is classified critical has one critical
      vulnerability. */
  lemma CountedCritical(v: Vulnerability)
    requires Classify(SeverityLabel(v)) == CriticalBucket
    ensures Summary([v]).critical == 1
  {
    SummarySingle(v);
    CountTotal(EmptySummary, CriticalBucket);
  }

  /** Already on the latest version, no vulnerabilities, good maintenance: nothing to do. */
  lemma ScenarioUpToDate(input: UpgradePlanInput, vulnQuery: Option<seq<Vulnerability>>, m: DepsDev.HealthMetrics)
    requires input.currentVersion == m.latestVersion
    requires vulnQuery == None || vulnQuery == Some([])
    requires m.maintenanceLevel == DepsDev.Good
    ensures PlanFromMetrics(input, vulnQuery, m).priority == Ok
    ensures PlanFromMetrics(input, vulnQuery, m).recommendation == NoActionNeeded
    ensures PlanFromMetrics(input, vulnQuery, m).recommendation.Literal() == Some("Already on latest version. No action needed.")
  {
  }

  /** From "1.2.3" to "2.0.0" with good maintenance and a recent release: a possible
      breaking change, medium priority. */
  lemma ScenarioMajorUpgrade(input: UpgradePlanInput, vulnQuery: Option<seq<Vulnerability>>, m: DepsDev.HealthMetrics)
    requires input.currentVersion == "1.2.3" && m.latestVersion == "2.0.0"
    requires vulnQuery == None || vulnQuery == Some([])
    requires m.maintenanceLevel == DepsDev.Good && m.daysSinceUpdate <= 180
    ensures PlanFromMetrics(input, vulnQuery, m).breakingChanges
    ensures PlanFromMetrics(input, vulnQuery, m).priority == Medium
    ensures PlanFromMetrics(input, vulnQuery, m).recommendation == ReviewChangelog("2.0.0")
  {
  }
}
