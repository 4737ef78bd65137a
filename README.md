# PackagePulse decision logic in Dafny

PackagePulse is an MCP server. It answers questions about open-source dependencies: known
vulnerabilities, maintenance health, licenses, and whether and how urgently to upgrade. Most of
the code talks to remote services. This project models the three pieces of it that decide
something, and proves what they promise:

- **The health scorer** (`DepsDev`, depsdev.dfy). `ComputeHealthMetrics` scans a package's
  version records and link records. It then builds a 0–100 maintenance score from five weighted
  components and maps the score to one of five levels, each with a fixed recommendation. The
  wall clock is a parameter `now`, and times are integer nanoseconds since Go's zero time.
- **The tool layer** (`Tools`, tools.dfy). This covers the hand-written ASCII case-insensitive
  substring search and the severity summary of a vulnerability list built on it. `HandleVulns`
  has its own summary loop, proved equal to the summary. The first-byte breaking-change
  heuristic is here too. So is the upgrade planner of `HandleUpgradePlan`, a strict precedence
  tree producing a priority and a recommendation.
- **The SPDX license catalog** (`Spdx`, spdx.dfy). It is a class holding a mutable table keyed
  by license ID, filled from a fixed seed of fourteen licenses. On the table sit an
  exact-then-case-insensitive lookup, a substring search, category listing and category
  filtering.
- **Shared pieces.** `Text` (text.dfy) holds the string facts these rely on: ASCII case folding,
  substring containment, `strings.TrimSpace` and the first byte of a UTF-8 encoding. Option and
  Result come from `Wrappers` (wrappers.dfy).

The imperative parts stay imperative:
- The scans, the summary loops, `toLower`'s buffer and `findInString`'s offset loop are methods
  with loops.
- The planner sets the priority and recommendation field by field.
- The catalog is a class whose methods modify its table.

Each method is proved against a specification function, and the properties are proved about
that function. The network queries (the vulnerability database, deps.dev) are inputs:
- the vulnerability query is an `Option` list of vulnerabilities, `None` when it failed;
- the package query is an `Option` package record.

Go visits a map in an unspecified order. Every loop over the license table chooses its next key
with `:|` among the keys not yet visited. The contracts therefore hold for every visiting order,
and results are stated as sets of entries, each present once.

## Model

| member | source | states |
|---|---|---|
| DepsDev.LatestPublished | internal/providers/depsdev/client.go:141-151 | the latest publish time is at least the zero time, no version is later, and it is the zero time or some version's time |
| DepsDev.LastDefault | internal/providers/depsdev/client.go:142-146 | none exactly when no version is flagged default; otherwise a flagged index with no flagged version after it |
| DepsDev.ScanVersions | internal/providers/depsdev/client.go:141-151 | the version loop yields the last default version's string and license count, and the maximum publish time |
| DepsDev.ScanLinks | internal/providers/depsdev/client.go:158-165 | the link loop sets the repository flag iff some label is SOURCE_REPO or REPOSITORY, and the documentation flag iff some label is DOCUMENTATION |
| DepsDev.ComputeHealthMetrics | internal/providers/depsdev/client.go:133-228 | the scorer's record equals the health metrics of the package at `now`, whose properties the lemmas below state |
| DepsDev.HealthIdentity | internal/providers/depsdev/client.go:134-146 | name, ecosystem and version count are copied; latest version and license count come from the last flagged version, and are "" and 0 when none is flagged |
| DepsDev.HealthScore | internal/providers/depsdev/client.go:167-225 | the score is a multiple of 5 in 0..100 and the sum of recency, cadence, repository, documentation and license points; level and recommendation follow from the score alone |
| DepsDev.DaysSinceIsFloor | internal/providers/depsdev/client.go:153-155 | for a past publication the day count is the whole number of elapsed days, rounded down |
| DepsDev.DaysSinceWholeDays | internal/providers/depsdev/client.go:153-155 | a publication exactly d days before now is d days old |
| DepsDev.NoVersionsIsFresh | internal/providers/depsdev/client.go:141-155 | with no versions the last-published time stays zero and the age stays 0, which earns full recency points |
| DepsDev.UniformPublishTime | internal/providers/depsdev/client.go:141-151 | versions all published at one non-zero time have that time as latest |
| DepsDev.LinkFlagsOnAppend | internal/providers/depsdev/client.go:158-165 | a link with any other label changes neither flag; a repository or documentation link sets its flag |
| DepsDev.ScoreRange | internal/providers/depsdev/client.go:167-207 | every score is between 0 and 100 and a multiple of 5 |
| DepsDev.ScoreMonotone | internal/providers/depsdev/client.go:167-207 | a more recent package, with more versions, and at least the same links and licenses, never scores lower |
| DepsDev.LevelBands | internal/providers/depsdev/client.go:209-220 | each level holds exactly on its score band: excellent from 80, good 60-79, fair 40-59, poor 20-39, critical below 20 |
| DepsDev.LevelMonotone | internal/providers/depsdev/client.go:209-220 | a higher score never gives a worse level |
| DepsDev.RecommendationNonEmpty | internal/providers/depsdev/client.go:210-225 | every level's fixed recommendation is non-empty |
| DepsDev.UniformPackageHealth | internal/providers/depsdev/client_test.go:160-179 | for the tests' uniformly dated packages with a default last version, the age is the chosen day count and the license count and latest version are the last version's |
| DepsDev.ScenarioExcellent | internal/providers/depsdev/client_test.go:96-109 | 60 versions 10 days old, a source-repo and a documentation link, an MIT license: score 100, excellent |
| DepsDev.ScenarioGood | internal/providers/depsdev/client_test.go:110-123 | 25 versions 60 days old, a repository link, Apache-2.0: score 75, good |
| DepsDev.ScenarioSingleVersion | internal/providers/depsdev/client_test.go:124-154 | one default version without links or license scores exactly its recency points, and is critical at 200 or 800 days |
| DepsDev.RecencyTestMinimums | internal/providers/depsdev/client_test.go:207-235 | the same single-version packages score at least 40/30/20/10/0 at 10/60/120/200/400 days |
| Text.LowerIdempotent | internal/tools/tools.go:606-617 | lowering twice is lowering once, and the result has no ASCII capital |
| Text.UpperLowerAgree | internal/providers/spdx/client.go:49-59 | two strings agree after upper-casing exactly when they agree after lowering |
| Text.ContainsEmpty | internal/tools/tools.go:620-622 | the empty string occurs in every string |
| Text.ContainsTooLong | internal/tools/tools.go:623-625 | a string never occurs in a shorter one |
| Text.NotContainsFirstAbsent | internal/tools/tools.go:619-632 | a string whose first character is missing from s does not occur in s |
| Text.ContainsSelf | internal/tools/tools.go:619-632 | every string occurs in itself |
| Text.ContainsFoldIgnoresCase | internal/tools/tools.go:600-604 | case-insensitive containment answers the same whatever the case of either argument |
| Text.TrimLeftSpec | internal/providers/spdx/client.go:49 | dropping leading white space keeps a suffix, drops only white space, and leaves no leading white space |
| Text.TrimRightSpec | internal/providers/spdx/client.go:49 | dropping trailing white space keeps a prefix, drops only white space, and leaves no trailing white space |
| Text.TrimSpaceSpec | internal/providers/spdx/client.go:49 | the input is white space, then the trimmed string, then white space, and the trimmed string neither starts nor ends with white space |
| Text.TrimSpaceNoop | internal/providers/spdx/client.go:49 | a string without leading or trailing white space trims to itself |
| Text.TrimAllSpace | internal/providers/spdx/client.go:70 | a string of white space trims to the empty string |
| Text.Utf8LeadByte | internal/tools/tools.go:566-567 | the first byte of a character's UTF-8 encoding is a byte, below 0x80 exactly for ASCII characters |
| Text.Utf8LeadByteAscii | internal/tools/tools.go:566-567 | when either character is ASCII, the lead bytes differ exactly when the characters do |
| Tools.ToLower | internal/tools/tools.go:606-617 | the buffer has the input's length; 'A'..'Z' move up by 32 and every other character is copied |
| Tools.FindInString | internal/tools/tools.go:619-632 | the offset search finds substr iff it occurs as a contiguous slice of s, including the empty and too-long cases |
| Tools.ContainsIgnoreCase | internal/tools/tools.go:600-604 | true iff the lowered substr occurs in the lowered s |
| Tools.KeywordsLowerCase | internal/tools/tools.go:584-590 | the four severity keywords are already lower case |
| Tools.CountTotal | internal/tools/tools.go:583-594 | counting a vulnerability raises exactly the counter of its bucket by one, so the total goes up by one |
| Tools.SummaryTotal | internal/tools/tools.go:575-597 | the five counters of a summary add up to the number of vulnerabilities |
| Tools.SummaryPrefix | internal/tools/tools.go:577-595 | one more loop iteration counts the next vulnerability in its bucket |
| Tools.SummaryAppend | internal/tools/tools.go:575-597 | the summary of a concatenation is the sum of the summaries |
| Tools.SummarySingle | internal/tools/tools.go:575-597 | a one-element list is counted in the bucket of its vulnerability |
| Tools.ClassifyPrecedence | internal/tools/tools.go:583-594 | a label is critical iff it contains "critical" ignoring case; high iff not critical and it contains "high"; and so on, with unknown iff none of the four occurs |
| Tools.NoSeverityIsUnknown | internal/tools/tools.go:578-581 | a vulnerability without severity entries is counted as unknown |
| Tools.UpperCaseCritical | internal/tools/tools.go:584 | a score written "CRITICAL" is classified critical |
| Tools.ComputeVulnSummary | internal/tools/tools.go:575-597 | the loop's summary is the specification summary, and its counters add up to the list's length |
| Tools.CountOne | internal/tools/tools.go:578-594 | one vulnerability is classified by its first severity score, or "unknown", and its counter is raised |
| Tools.HandleVulns | internal/tools/tools.go:80-115 | a failed query is the only error; otherwise the output copies the input and the list, counts it, and carries the same summary as computeVulnSummary |
| Tools.CheckBreakingChanges | internal/tools/tools.go:559-572 | false when either version is empty; otherwise true iff the UTF-8 lead bytes of the first characters differ, so a breaking change implies different first characters |
| Tools.BreakingChangesFirstCharacter | internal/tools/tools.go:559-572 | never breaking with an empty version; symmetric; never breaking on equal first characters; breaking iff the first characters differ when either is ASCII |
| Tools.BreakingChangesByteLevel | internal/tools/tools.go:566-567 | "1.2.3" to "2.0.0" is breaking and "1.2.3" to "1.9.0" is not; two accented first characters sharing a lead byte are not breaking |
| Tools.HandleUpgradePlan | internal/tools/tools.go:425-539 | the planner's result equals the plan specification: validation, the vulnerability step, the package step and the decision tree |
| Tools.Recommend | internal/tools/tools.go:491-539 | the field-by-field branches set the priority and recommendation of the decision tree and change no other field |
| Tools.PlanErrors | internal/tools/tools.go:425-430 | any empty input field is rejected whatever the queries answer; for valid input the plan fails iff the package query failed |
| Tools.PlanIdentity | internal/tools/tools.go:473-486 | package, ecosystem and current version are copied; up-to-date is string equality with the latest version; the path is exactly [current, latest]; the metrics are carried over |
| Tools.PlanVulnerabilityFields | internal/tools/tools.go:446-458 | vulnerabilities are flagged iff the query succeeded with a non-empty list; then the count is its length and the summary adds up to it; otherwise count 0 and no summary |
| Tools.FailedVulnQueryMeansNone | internal/tools/tools.go:446-451 | a failed vulnerability query gives the same plan as an empty answer |
| Tools.PriorityPrecedence | internal/tools/tools.go:492-539 | URGENT iff vulnerabilities; else OK iff up to date; else WARNING iff poorly maintained; else LOW iff older than 180 days; else MEDIUM iff breaking, otherwise RECOMMENDED |
| Tools.PriorityNames | internal/tools/tools.go:494-535 | every priority is one of the six literals, and distinct priorities have distinct names |
| Tools.AdviceCitations | internal/tools/tools.go:494-519 | an urgent plan cites the critical count if positive, else the high count if positive, else the total; an OK plan warns about poor maintenance without changing priority |
| Tools.CriticalsFirst | internal/tools/tools.go:492-503 | any critical vulnerability makes the plan urgent and the advice cites the critical count |
| Tools.ScenarioCriticalVulnerability | internal/tools/tools.go:492-503 | one vulnerability scored "CRITICAL": urgent, citing one critical vulnerability |
| Tools.CriticalVulnerabilityCounted | internal/tools/tools.go:578-585 | a one-element list scored "CRITICAL" has one critical vulnerability |
| Tools.CountedCritical | internal/tools/tools.go:584-585 | a one-element list classified critical has one critical vulnerability |
| Tools.ScenarioUpToDate | internal/tools/tools.go:511-519 | up to date, no vulnerabilities, good maintenance: OK, with the fixed text "Already on latest version. No action needed." |
| Tools.ScenarioMajorUpgrade | internal/tools/tools.go:530-533 | "1.2.3" to "2.0.0", good and recent, no vulnerabilities: breaking, MEDIUM, review the changelog |
| Spdx.Client.constructor | internal/providers/spdx/client.go:31-42 | a new client holds exactly the seed table, each entry under its own ID |
| Spdx.Client.AddLicense | internal/providers/spdx/client.go:277-279 | the entry is stored under its ID, replacing any previous one, nothing else changes, and keying by ID is kept |
| Spdx.Client.InitializeLicenses | internal/providers/spdx/client.go:114-274 | the table becomes the old table with the fourteen seed entries added in order, still keyed by ID |
| Spdx.Client.GetLicense | internal/providers/spdx/client.go:45-64 | an exact key returns its entry; success otherwise means a key equal to the trimmed ID ignoring case; failure, with the ID in the error, iff neither exists |
| Spdx.Client.SearchLicenses | internal/providers/spdx/client.go:67-84 | the results are table entries, each once, all matching the trimmed lowered query in ID, name or comments, and every matching entry is among them |
| Spdx.Client.ListCategories | internal/providers/spdx/client.go:87-100 | the list holds exactly the non-empty categories of the table, each once |
| Spdx.Client.CollectCategories | internal/providers/spdx/client.go:88-94 | the first loop collects exactly the set of non-empty categories |
| Spdx.Client.GetLicensesByCategory | internal/providers/spdx/client.go:103-111 | the results are table entries, each once, exactly those whose category equals the argument, compared case-sensitively |
| Spdx.AppendEntry | internal/providers/spdx/client.go:73-80 | appending a table entry absent from a result list keeps it a list of distinct table entries |
| Spdx.AddOverwrites | internal/providers/spdx/client.go:277-279 | adding stores the entry, adds only its key, leaves other entries unchanged and keeps entries under their own IDs |
| Spdx.SeededKeyedById | internal/providers/spdx/client.go:114-274 | seeding keeps every entry under its own ID |
| Spdx.SeedKeys | internal/providers/spdx/client.go:116-272 | the seed table holds exactly the fourteen IDs |
| Spdx.SeedEntriesComplete | internal/providers/spdx/client_test.go:96-102 | every seed entry has a name and at least one reference URL |
| Spdx.FingerprintOfUpper | internal/providers/spdx/client.go:57-61 | strings equal after upper-casing have the same length and the same upper-cased first and fifth characters |
| Spdx.SeedCaseDistinct | internal/providers/spdx/client.go:116-272 | no two seed IDs are equal ignoring case |
| Spdx.SeedCategoriesWithin | internal/providers/spdx/client.go:116-272 | every seed entry is in one of the five categories |
| Spdx.SeedCategoriesOccur | internal/providers/spdx/client_test.go:189-195 | each of the five categories has a seed entry |
| Spdx.SeedCategories | internal/providers/spdx/client_test.go:173-208 | the categories of the seed are exactly Permissive, Copyleft, Weak Copyleft, Strong Copyleft and Public Domain |
| Spdx.CategoriesExactly | internal/providers/spdx/client.go:87-100 | a set of non-empty names covering every category, each used, is the table's category set |
| Spdx.BlankQueryMatchesAll | internal/providers/spdx/client.go:70-80 | an empty or all-white-space query matches every entry |
| Spdx.IdHit | internal/providers/spdx/client.go:74-76 | an entry whose lowered ID starts with the query is a hit |
| Spdx.SearchHitsMit | internal/providers/spdx/client_test.go:119-122 | searching "MIT" matches the MIT entry |
| Spdx.SearchHitsGpl | internal/providers/spdx/client_test.go:129-132 | searching "gpl" matches both GPL entries |
| Spdx.SearchHitsBsd | internal/providers/spdx/client_test.go:134-137 | searching "bsd" matches both BSD entries |
| Spdx.CaseInsensitiveMatchUnique | internal/providers/spdx/client.go:57-61 | with case-distinct keys at most one key matches ignoring case, so the lookup's answer does not depend on map order |
| Spdx.LowerCaseMitMatchesMit | internal/providers/spdx/client_test.go:51-56 | "mit" is not a seed ID, and MIT is the only seed ID equal to it ignoring case |
| Spdx.OnlyMitFoldsToMit | internal/providers/spdx/client_test.go:51-56 | of the seed IDs only "MIT" upper-cases to "MIT" |
| Spdx.UnknownIdMatchesNothing | internal/providers/spdx/client_test.go:57-61 | "UNKNOWN-LICENSE-123" is not a seed ID and equals none ignoring case |
| Spdx.NoSeedIdMatchesLong | internal/providers/spdx/client.go:52-63 | an ID longer than twelve characters matches no seed ID, with or without case |
| Spdx.ShorterDiffersUpper | internal/providers/spdx/client.go:49-59 | strings of different lengths differ after upper-casing |
| Spdx.SeedIdsShort | internal/providers/spdx/client.go:116-272 | no seed ID is longer than twelve characters |
| Spdx.FreshTable | internal/providers/spdx/client.go:31-42 | a fresh table has exactly the seed IDs and MIT under "MIT" |
| Spdx.SeedHasMit | internal/providers/spdx/client.go:116-126 | the seed stores the MIT record under "MIT" |
| Spdx.LookupsOn | internal/providers/spdx/client_test.go:10-64 | on the seed, "MIT" and "mit" both return MIT, and "UNKNOWN-LICENSE-123" fails with that ID |
| Spdx.LookupExamples | internal/providers/spdx/client_test.go:10-64 | the same three lookups on a freshly created client |

## Left out

- Network I/O is not modelled. The OSV client and `depsdev.Client.GetPackage` are HTTP clients. Their answers are `Option` inputs of `HandleVulns` and `HandleUpgradePlan`, and their own error texts are not modelled.
- The cache is not modelled. Its get/set calls go to an external store with expiry. A cache hit in `HandleVulns` or `HandleUpgradePlan` would return an earlier answer instead of the one modelled here.
- Logging is not modelled, and neither is the MCP wrapping: tool registration (`Register`), `HandleHealth`, `HandleLicense`, JSON formatting of outputs, and `CallToolResult` error texts. These are transport plumbing around the modelled logic.
- Tools.HandleUpgradePlan: the error of `json.MarshalIndent` (tools.go:545-551) is not modelled. Marshalling a plain record does not fail.
- DepsDev.ComputeHealthMetrics: the Go score is a float64 and days come from float hours. The model uses an `int` score, which is exact because every component is a whole number. Days are the elapsed nanoseconds divided by a day's nanoseconds, truncated toward zero. Rounding of float hours is not modelled.
- DepsDev.ComputeHealthMetrics: a nil package pointer is not modelled; callers never pass one.
- Tools.Recommend: the `Sprintf` messages are not reproduced character by character. The recommendation is an `Advice` value naming the message and carrying the numbers and versions it cites, so a plan's recommendation is never empty by construction. The planner's one fixed message, that of `NoActionNeeded`, is kept verbatim as `Advice.Literal`, and so are the health levels' five fixed recommendations.
- Case mapping covers ASCII only. Go's `strings.ToUpper`/`strings.ToLower` also map non-ASCII letters; the lookup and search use those, so there they are simplified to ASCII.
- Strings are the character sequences their UTF-8 bytes decode to. For valid UTF-8 the source's byte-level helpers agree with this view. The breaking-change heuristic is modelled exactly through the first byte of the encoding.
- Record fields that no modelled operation reads are not modelled (the JSON-only fields). This covers the version and package records and also the vulnerability record (`Tools.Vulnerability`). Of osv.Vulnerability (internal/providers/osv/client.go:56-66) it keeps only ID, Summary and Severity. It drops Details, Published, Modified, Affected, References and Aliases, which `HandleVulns` copies into its output unchanged.
- The catalog keeps entries as values, so the LicenseInfo pointers the Go code hands out, and aliasing through them, are not modelled.
- The license search's error result is not modelled; it is always nil.
- The test searches "apache", "permissive" and "xyz123notfound" are not restated as lemmas, and neither are the per-category minimum counts. The generic contracts of `SearchLicenses` and `GetLicensesByCategory` cover them.
- Spdx.Client.SearchLicenses: it requires `Valid()` (every entry is stored under its own ID), which the constructor and `AddLicense` maintain. The Go method has no such precondition, but it holds for every table the client builds.
- Spdx.Client.GetLicensesByCategory: it requires `Valid()` for the same reason.
- Spdx.CaseInsensitiveMatchUnique: a unique case-insensitive match is proved only for case-distinct tables, such as the seed (`SeedCaseDistinct`). With `AddLicense` of IDs equal ignoring case, `GetLicense` may return either entry, and its contract allows both.
- Text.TrimSpace: the trimming functions carry no `ensures` of their own. `TrimLeftSpec`, `TrimRightSpec` and `TrimSpaceSpec` state what they compute.
- Process lifecycle is not modelled (main.go and the empty resources stub). Neither are the network-dependent tests.
