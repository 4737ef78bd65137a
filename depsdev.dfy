/**
 * The health scorer of the deps.dev provider (internal/providers/depsdev/client.go).
 *
 * `ComputeHealthMetrics` scans the version records of a package for the default version,
 * its license count and the latest publish time, scans the links for a repository and a
 * documentation link, adds up a weighted 0..100 maintenance score and maps the score to
 * one of five maintenance levels, each with a fixed recommendation.
 *
 * The wall clock (`time.Since`) is the parameter `now`. Times are whole nanoseconds since
 * Go's zero time, January 1 of year 1 UTC, so Go's zero `time.Time` is the time 0.
 */
module DepsDev {
  import opened Wrappers

  /** A point in time: nanoseconds since Go's zero time. */
  type Time = int

  const ZeroTime: Time := 0
  const NanosPerHour: int := 3_600_000_000_000
  const NanosPerDay: int := 24 * NanosPerHour
  /** The range of Go's time.Duration, a signed 64-bit count of nanoseconds. */
  const MaxDuration: int := 0x7FFF_FFFF_FFFF_FFFF
  const MinDuration: int := -0x8000_0000_0000_0000

  // ---------------------------------------------------------------------------
  // Data model
  // ---------------------------------------------------------------------------

  datatype PackageKey = PackageKey(system: string, name: string)

  datatype VersionKey = VersionKey(system: string, name: string, version: string)

  datatype Link = Link(labelText: string, url: string)

  datatype VersionInfo = VersionInfo(
    versionKey: VersionKey,
    publishedAt: Time,
    isDefault: bool,
    licenses: seq<string>)

  datatype PackageInfo = PackageInfo(
    packageKey: PackageKey,
    versions: seq<VersionInfo>,
    links: seq<Link>)

  /** The five maintenance levels, best first. */
  datatype Level = Excellent | Good | Fair | Poor | Critical {
    /** The level as the source spells it in `maintenance_level`. */
    function Name(): string {
      match this
      case Excellent => "excellent"
      case Good => "good"
      case Fair => "fair"
      case Poor => "poor"
      case Critical => "critical"
    }

    /** 0 for the best level, 4 for the worst. */
    function Rank(): nat {
      match this
      case Excellent => 0
      case Good => 1
      case Fair => 2
      case Poor => 3
      case Critical => 4
    }
  }

  datatype HealthMetrics = HealthMetrics(
    packageName: string,
    ecosystem: string,
    latestVersion: string,
    versionCount: nat,
    lastPublished: Time,
    daysSinceUpdate: int,
    hasRepository: bool,
    hasDocumentation: bool,
    licenseCount: nat,
    maintenanceScore: int,
    maintenanceLevel: Level,
    recommendation: string)

  // ---------------------------------------------------------------------------
  // What the version scan finds
  // ---------------------------------------------------------------------------

  /**
   * The latest publish time: the maximum of the zero time and every version's publish time
   * (the scan starts from the zero time and moves only to a strictly later time).
   */
  function LatestPublished(vs: seq<VersionInfo>): (t: Time)
    ensures t >= ZeroTime
    ensures forall k :: 0 <= k < |vs| ==> vs[k].publishedAt <= t
    ensures t == ZeroTime || exists k :: 0 <= k < |vs| && vs[k].publishedAt == t
  {
    if vs == [] then ZeroTime
    else
      var t := LatestPublished(vs[..|vs| - 1]);
      if vs[|vs| - 1].publishedAt > t then vs[|vs| - 1].publishedAt else t
  }

  /** The index of the last version flagged as default, if any is. */
  function LastDefault(vs: seq<VersionInfo>): (r: Option<nat>)
    ensures r.None? <==> forall k :: 0 <= k < |vs| ==> !vs[k].isDefault
    ensures r.Some? ==> r.value < |vs| && vs[r.value].isDefault
    ensures r.Some? ==> forall k :: r.value < k < |vs| ==> !vs[k].isDefault
  {
    if vs == [] then None
    else if vs[|vs| - 1].isDefault then Some(|vs| - 1)
    else LastDefault(vs[..|vs| - 1])
  }

  /** The version string of the last default version, or "" when none is flagged. */
  function DefaultVersion(vs: seq<VersionInfo>): string {
    match LastDefault(vs)
    case Some(k) => vs[k].versionKey.version
    case None => ""
  }

  /** The license count of the last default version, or 0 when none is flagged. */
  function DefaultLicenseCount(vs: seq<VersionInfo>): nat {
    match LastDefault(vs)
    case Some(k) => |vs[k].licenses|
    case None => 0
  }

  // ---------------------------------------------------------------------------
  // Age
  // ---------------------------------------------------------------------------

  /** time.Since: `now - t`, saturated to the range of a Duration. */
  function Since(t: Time, now: Time): int {
    var d := now - t;
    if d > MaxDuration then MaxDuration
    else if d < MinDuration then MinDuration
    else d
  }

  /** Go's conversion of a quotient to int: the quotient truncated toward zero. */
  function TruncDiv(a: int, b: int): int
    requires b > 0
  {
    if a >= 0 then a / b else -((-a) / b)
  }

  /** Whole days elapsed since `t`, as `int(time.Since(t).Hours() / 24)`. */
  function DaysSince(t: Time, now: Time): int {
    TruncDiv(Since(t, now), NanosPerDay)
  }

  /** Days since the latest publication, left at 0 when that is the zero time. */
  function DaysSinceUpdate(latest: Time, now: Time): int {
    if latest == ZeroTime then 0 else DaysSince(latest, now)
  }

  /** For a publication in the past and within the Duration range, the day count is the
      floor of the elapsed days. */
  lemma DaysSinceIsFloor(t: Time, now: Time)
    requires t <= now <= t + MaxDuration
    ensures DaysSince(t, now) >= 0
    ensures DaysSince(t, now) * NanosPerDay <= now - t < (DaysSince(t, now) + 1) * NanosPerDay
  {
  }

  /** Publication exactly `d` days before `now` gives an age of `d` days. */
  lemma DaysSinceWholeDays(d: nat, now: Time)
    requires d * NanosPerDay <= MaxDuration
    ensures DaysSince(now - d * NanosPerDay, now) == d
  {
  }

  // ---------------------------------------------------------------------------
  // Links
  // ---------------------------------------------------------------------------

  predicate IsRepositoryLabel(labelText: string) {
    labelText == "SOURCE_REPO" || labelText == "REPOSITORY"
  }

  predicate IsDocumentationLabel(labelText: string) {
    labelText == "DOCUMENTATION"
  }

  predicate HasRepositoryLink(links: seq<Link>) {
    exists k | 0 <= k < |links| :: IsRepositoryLabel(links[k].labelText)
  }

  predicate HasDocumentationLink(links: seq<Link>) {
    exists k | 0 <= k < |links| :: IsDocumentationLabel(links[k].labelText)
  }

  /** A link whose label is neither a repository nor a documentation label changes neither
      flag; one that is sets its flag whatever came before. */
  lemma {:induction false} LinkFlagsOnAppend(links: seq<Link>, l: Link)
    ensures !IsRepositoryLabel(l.labelText) ==> HasRepositoryLink(links + [l]) == HasRepositoryLink(links)
    ensures !IsDocumentationLabel(l.labelText) ==> HasDocumentationLink(links + [l]) == HasDocumentationLink(links)
    ensures IsRepositoryLabel(l.labelText) ==> HasRepositoryLink(links + [l])
    ensures IsDocumentationLabel(l.labelText) ==> HasDocumentationLink(links + [l])
  {
    var e := links + [l];
    assert e[|links|] == l;
    assert forall k :: 0 <= k < |links| ==> e[k] == links[k];
  }

  // ---------------------------------------------------------------------------
  // Score and level
  // ---------------------------------------------------------------------------

  /** Points for recency: 40, 30, 20, 10 up to 30, 90, 180, 365 days, otherwise 0. */
  function RecencyPoints(days: int): int {
    if days <= 30 then 40
    else if days <= 90 then 30
    else if days <= 180 then 20
    else if days <= 365 then 10
    else 0
  }

  /** Points for the number of versions: 20, 15, 10, 5 from 50, 20, 10, 5 versions, otherwise 0. */
  function CadencePoints(versionCount: int): int {
    if versionCount >= 50 then 20
    else if versionCount >= 20 then 15
    else if versionCount >= 10 then 10
    else if versionCount >= 5 then 5
    else 0
  }

  /** The maintenance score: the sum of the five weighted components. */
  function Score(days: int, versionCount: int, hasRepository: bool, hasDocumentation: bool,
                 licenseCount: int): int
  {
    RecencyPoints(days) + CadencePoints(versionCount)
    + (if hasRepository then 20 else 0)
    + (if hasDocumentation then 10 else 0)
    + (if licenseCount > 0 then 10 else 0)
  }

  /** Every score is a whole multiple of 5 between 0 and 100. */
  lemma ScoreRange(days: int, versionCount: int, hasRepository: bool, hasDocumentation: bool,
                   licenseCount: int)
    ensures var s := Score(days, versionCount, hasRepository, hasDocumentation, licenseCount);
      0 <= s <= 100 && s % 5 == 0
  {
  }

  /** An older package never scores more, and a package with more versions never less. */
  lemma ScoreMonotone(d1: int, d2: int, n1: int, n2: int, repo1: bool, repo2: bool,
                      doc1: bool, doc2: bool, lic1: int, lic2: int)
    requires d2 <= d1 && n1 <= n2
    requires (repo1 ==> repo2) && (doc1 ==> doc2) && (lic1 > 0 ==> lic2 > 0)
    ensures Score(d1, n1, repo1, doc1, lic1) <= Score(d2, n2, repo2, doc2, lic2)
  {
  }

  /** The level of a score: excellent from 80, good from 60, fair from 40, poor from 20. */
  function LevelOf(score: int): Level {
    if score >= 80 then Excellent
    else if score >= 60 then Good
    else if score >= 40 then Fair
    else if score >= 20 then Poor
    else Critical
  }

  /** The five bands partition the scores, each band closed at its lower bound. */
  lemma LevelBands(score: int)
    ensures LevelOf(score) == Excellent <==> score >= 80
    ensures LevelOf(score) == Good <==> 60 <= score < 80
    ensures LevelOf(score) == Fair <==> 40 <= score < 60
    ensures LevelOf(score) == Poor <==> 20 <= score < 40
    ensures LevelOf(score) == Critical <==> score < 20
  {
  }

  /** A higher score never gives a worse level. */
  lemma LevelMonotone(s1: int, s2: int)
    requires s1 <= s2
    ensures LevelOf(s2).Rank() <= LevelOf(s1).Rank()
  {
  }

  /** The fixed recommendation of each level. */
  const ExcellentAdvice: string := "This package is actively maintained with good development practices."
  const GoodAdvice: string := "Package shows regular maintenance and good health indicators."
  const FairAdvice: string := "Package is maintained but may have slower update cycles. Review before use."
  const PoorAdvice: string := "WARNING: Package shows signs of poor maintenance. Consider alternatives."
  const CriticalAdvice: string := "CRITICAL: Package appears abandoned or unmaintained. Strongly consider alternatives."

  function RecommendationOf(level: Level): string {
    match level
    case Excellent => ExcellentAdvice
    case Good => GoodAdvice
    case Fair => FairAdvice
    case Poor => PoorAdvice
    case Critical => CriticalAdvice
  }

  /** No level is left without advice. */
  lemma RecommendationNonEmpty(level: Level)
    ensures |RecommendationOf(level)| > 0
  {
  }

  // ---------------------------------------------------------------------------
  // The whole computation
  // ---------------------------------------------------------------------------

  /** The metrics of `pkg` at time `now`, assembled from the facts above. */
  function Health(pkg: PackageInfo, now: Time): HealthMetrics {
    var vs := pkg.versions;
    var latest := LatestPublished(vs);
    var days := DaysSinceUpdate(latest, now);
    var repo := HasRepositoryLink(pkg.links);
    var doc := HasDocumentationLink(pkg.links);
    var licenses := DefaultLicenseCount(vs);
    var score := Score(days, |vs|, repo, doc, licenses);
    HealthMetrics(
      pkg.packageKey.name, pkg.packageKey.system, DefaultVersion(vs), |vs|,
      latest, days, repo, doc, licenses,
      score, LevelOf(score), RecommendationOf(LevelOf(score)))
  }

  /** The scan over the versions: the last default version's string and license count,
      and the latest publish time. */
  method ScanVersions(vs: seq<VersionInfo>) returns (latestVersion: string, licenseCount: nat, latestPub: Time)
    ensures latestVersion == DefaultVersion(vs) && licenseCount == DefaultLicenseCount(vs)
    ensures latestPub == LatestPublished(vs)
  {
    latestVersion, licenseCount := "", 0;
    latestPub := ZeroTime;
    for i := 0 to |vs|
      invariant latestPub == LatestPublished(vs[..i])
      invariant latestVersion == DefaultVersion(vs[..i])
      invariant licenseCount == DefaultLicenseCount(vs[..i])
    {
      assert vs[..i + 1][..i] == vs[..i];
      var v := vs[i];
      if v.isDefault {
        latestVersion := v.versionKey.version;
        licenseCount := |v.licenses|;
      }
      if v.publishedAt > latestPub {
        latestPub := v.publishedAt;
      }
    }
    assert vs[..|vs|] == vs;
  }

  /** The scan over the links: is there a repository link, is there a documentation link. */
  method ScanLinks(links: seq<Link>) returns (hasRepository: bool, hasDocumentation: bool)
    ensures hasRepository == HasRepositoryLink(links)
    ensures hasDocumentation == HasDocumentationLink(links)
  {
    hasRepository, hasDocumentation := false, false;
    for i := 0 to |links|
      invariant hasRepository == HasRepositoryLink(links[..i])
      invariant hasDocumentation == HasDocumentationLink(links[..i])
    {
      LinkFlagsOnAppend(links[..i], links[i]);
      assert links[..i + 1] == links[..i] + [links[i]];
      var linkLabel := links[i].labelText;
      if linkLabel == "SOURCE_REPO" || linkLabel == "REPOSITORY" {
        hasRepository := true;
      }
      if linkLabel == "DOCUMENTATION" {
        hasDocumentation := true;
      }
    }
    assert links[..|links|] == links;
  }

  /**
   * The scorer: the two scans, the age in days, then the score accumulated component by
   * component and mapped to a level.
   */
  method ComputeHealthMetrics(pkg: PackageInfo, now: Time) returns (m: HealthMetrics)
    ensures m == Health(pkg, now)
  {
    var versionCount := |pkg.versions|;
    var latestVersion, licenseCount, latestPub := ScanVersions(pkg.versions);

    var daysSinceUpdate := 0;
    if latestPub != ZeroTime {
      daysSinceUpdate := TruncDiv(Since(latestPub, now), NanosPerDay);
    }

    var hasRepository, hasDocumentation := ScanLinks(pkg.links);

    var score := 0;
    if daysSinceUpdate <= 30 {
      score := score + 40;
    } else if daysSinceUpdate <= 90 {
      score := score + 30;
    } else if daysSinceUpdate <= 180 {
      score := score + 20;
    } else if daysSinceUpdate <= 365 {
      score := score + 10;
    }
    assert score == RecencyPoints(daysSinceUpdate);
    if versionCount >= 50 {
      score := score + 20;
    } else if versionCount >= 20 {
      score := score + 15;
    } else if versionCount >= 10 {
      score := score + 10;
    } else if versionCount >= 5 {
      score := score + 5;
    }
    assert score == RecencyPoints(daysSinceUpdate) + CadencePoints(versionCount);
    if hasRepository {
      score := score + 20;
    }
    if hasDocumentation {
      score := score + 10;
    }
    if licenseCount > 0 {
      score := score + 10;
    }

    var level;
    if score >= 80 {
      level := Excellent;
    } else if score >= 60 {
      level := Good;
    } else if score >= 40 {
      level := Fair;
    } else if score >= 20 {
      level := Poor;
    } else {
      level := Critical;
    }
    assert score == Score(daysSinceUpdate, versionCount, hasRepository, hasDocumentation, licenseCount);
    assert level == LevelOf(score);
    m := HealthMetrics(
      pkg.packageKey.name, pkg.packageKey.system, latestVersion, versionCount,
      latestPub, daysSinceUpdate, hasRepository, hasDocumentation, licenseCount,
      score, level, RecommendationOf(level));
  }

  // ---------------------------------------------------------------------------
  // Properties of the metrics
  // ---------------------------------------------------------------------------

  /** Identity and size are copied from the input; the default version and its license
      count come from the last flagged record, and stay "" and 0 when none is flagged. */
  lemma HealthIdentity(pkg: PackageInfo, now: Time)
    ensures Health(pkg, now).packageName == pkg.packageKey.name
    ensures Health(pkg, now).ecosystem == pkg.packageKey.system
    ensures Health(pkg, now).versionCount == |pkg.versions|
    ensures (forall k :: 0 <= k < |pkg.versions| ==> !pkg.versions[k].isDefault)
            ==> Health(pkg, now).latestVersion == "" && Health(pkg, now).licenseCount == 0
    ensures forall k :: (0 <= k < |pkg.versions| && pkg.versions[k].isDefault
                         && (forall j :: k < j < |pkg.versions| ==> !pkg.versions[j].isDefault))
                        ==> (Health(pkg, now).latestVersion == pkg.versions[k].versionKey.version
                             && Health(pkg, now).licenseCount == |pkg.versions[k].licenses|)
  {
    var vs := pkg.versions;
    forall k | 0 <= k < |vs| && vs[k].isDefault && (forall j :: k < j < |vs| ==> !vs[j].isDefault)
      ensures LastDefault(vs) == Some(k)
    {
      var r := LastDefault(vs);
      assert r.Some?;
      assert !(r.value < k) && !(k < r.value);
    }
  }

  /** The score is a multiple of 5 in 0..100 and the sum of its five components; the level
      and the recommendation depend on the score alone. */
  lemma HealthScore(pkg: PackageInfo, now: Time)
    ensures var m := Health(pkg, now);
      && 0 <= m.maintenanceScore <= 100 && m.maintenanceScore % 5 == 0
      && m.maintenanceScore == RecencyPoints(m.daysSinceUpdate) + CadencePoints(m.versionCount)
           + (if m.hasRepository then 20 else 0) + (if m.hasDocumentation then 10 else 0)
           + (if m.licenseCount > 0 then 10 else 0)
      && m.maintenanceLevel == LevelOf(m.maintenanceScore)
      && m.recommendation == RecommendationOf(m.maintenanceLevel)
  {
    var m := Health(pkg, now);
    ScoreRange(m.daysSinceUpdate, m.versionCount, m.hasRepository, m.hasDocumentation, m.licenseCount);
  }

  /** With no versions the package counts as freshly updated: zero time, age 0. */
  lemma NoVersionsIsFresh(pkg: PackageInfo, now: Time)
    requires pkg.versions == []
    ensures Health(pkg, now).lastPublished == ZeroTime
    ensures Health(pkg, now).daysSinceUpdate == 0
    ensures RecencyPoints(Health(pkg, now).daysSinceUpdate) == 40
  {
  }

  /** All versions published at one time after the zero time: that is the latest time. */
  lemma UniformPublishTime(vs: seq<VersionInfo>, t: Time)
    requires |vs| > 0 && t > ZeroTime
    requires forall k :: 0 <= k < |vs| ==> vs[k].publishedAt == t
    ensures LatestPublished(vs) == t
  {
    assert vs[0].publishedAt == t;
  }

  // ---------------------------------------------------------------------------
  // The scenarios of the package's own tests
  // ---------------------------------------------------------------------------

  /** Packages whose versions were all published `days` days before `now`, the last one
      being the default with the given licenses. */
  predicate UniformPackage(pkg: PackageInfo, n: nat, days: nat, now: Time, licenses: seq<string>) {
    && |pkg.versions| == n > 0
    && (forall k :: 0 <= k < n ==> pkg.versions[k].publishedAt == now - days * NanosPerDay)
    && (forall k :: 0 <= k < n - 1 ==> !pkg.versions[k].isDefault)
    && pkg.versions[n - 1].isDefault
    && pkg.versions[n - 1].licenses == licenses
  }

  lemma UniformPackageHealth(pkg: PackageInfo, n: nat, days: nat, now: Time, licenses: seq<string>)
    requires UniformPackage(pkg, n, days, now, licenses)
    requires now - days * NanosPerDay > ZeroTime && days * NanosPerDay <= MaxDuration
    ensures Health(pkg, now).daysSinceUpdate == days
    ensures Health(pkg, now).licenseCount == |licenses|
    ensures Health(pkg, now).latestVersion == pkg.versions[n - 1].versionKey.version
  {
    UniformPublishTime(pkg.versions, now - days * NanosPerDay);
    DaysSinceWholeDays(days, now);
    assert LastDefault(pkg.versions) == Some(n - 1);
  }

  /** 60 versions 10 days old, a source repository and a documentation link and an MIT
      license: the full 100 points, excellent. */
  lemma ScenarioExcellent(pkg: PackageInfo, now: Time)
    requires UniformPackage(pkg, 60, 10, now, ["MIT"])
    requires now - 10 * NanosPerDay > ZeroTime
    requires pkg.links == [Link("SOURCE_REPO", "https://github.com/test/test"),
                           Link("DOCUMENTATION", "https://test.dev")]
    ensures Health(pkg, now).maintenanceScore == 100
    ensures Health(pkg, now).maintenanceLevel == Excellent
  {
    UniformPackageHealth(pkg, 60, 10, now, ["MIT"]);
    assert IsRepositoryLabel(pkg.links[0].labelText);
    assert IsDocumentationLabel(pkg.links[1].labelText);
  }

  /** 25 versions 60 days old, a source repository link and an Apache-2.0 license: 75, good. */
  lemma ScenarioGood(pkg: PackageInfo, now: Time)
    requires UniformPackage(pkg, 25, 60, now, ["Apache-2.0"])
    requires now - 60 * NanosPerDay > ZeroTime
    requires pkg.links == [Link("SOURCE_REPO", "https://github.com/test/good")]
    ensures Health(pkg, now).maintenanceScore == 75
    ensures Health(pkg, now).maintenanceLevel == Good
  {
    UniformPackageHealth(pkg, 25, 60, now, ["Apache-2.0"]);
    assert IsRepositoryLabel(pkg.links[0].labelText);
    assert !IsDocumentationLabel(pkg.links[0].labelText);
  }

  /** One default version `days` days old, no license and no links: the score is the
      recency points alone, and at 200 or 800 days the package is critical. */
  lemma ScenarioSingleVersion(pkg: PackageInfo, days: nat, now: Time)
    requires UniformPackage(pkg, 1, days, now, [])
    requires now - days * NanosPerDay > ZeroTime && days * NanosPerDay <= MaxDuration
    requires pkg.links == []
    ensures Health(pkg, now).maintenanceScore == RecencyPoints(days)
    ensures days == 200 || days == 800 ==> Health(pkg, now).maintenanceLevel == Critical
  {
    UniformPackageHealth(pkg, 1, days, now, []);
  }

  /** The same packages meet the lower bounds the recency test expects. */
  lemma RecencyTestMinimums(pkg: PackageInfo, days: nat, now: Time)
    requires UniformPackage(pkg, 1, days, now, [])
    requires now - days * NanosPerDay > ZeroTime && days * NanosPerDay <= MaxDuration
    requires pkg.links == []
    ensures days == 10 ==> Health(pkg, now).maintenanceScore >= 40
    ensures days == 60 ==> Health(pkg, now).maintenanceScore >= 30
    ensures days == 120 ==> Health(pkg, now).maintenanceScore >= 20
    ensures days == 200 ==> Health(pkg, now).maintenanceScore >= 10
    ensures days == 400 ==> Health(pkg, now).maintenanceScore >= 0
  {
    ScenarioSingleVersion(pkg, days, now);
  }
}
