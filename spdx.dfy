/**
 * The in-memory SPDX license catalog (internal/providers/spdx/client.go): a table keyed by
 * license ID, filled from a fixed seed of fourteen licenses, with exact-then-case-insensitive
 * lookup, substring search, category listing and category filtering.
 *
 * Go iterates over a map in an unspecified order. Every loop over the table here picks its
 * next key with `:|` from the keys not yet visited, so the contracts hold for every order;
 * results are therefore stated as sets of entries, each present once.
 */
module Spdx {
  import opened Wrappers
  import opened Text

  datatype LicenseInfo = LicenseInfo(
    id: string,
    name: string,
    text: string,
    isOsiApproved: bool,
    isFsfLibre: bool,
    isDeprecated: bool,
    seeAlso: seq<string>,
    comments: string,
    category: string,
    compatibility: string)

  datatype LicenseError = LicenseNotFound(licenseId: string)

  // ---------------------------------------------------------------------------
  // The seed
  // ---------------------------------------------------------------------------

  const Mit := LicenseInfo("MIT", "MIT License", "", true, true, false,
    ["https://opensource.org/licenses/MIT"],
    "Simple and permissive license allowing almost unrestricted freedom", "Permissive", "Very High")
  const Apache2 := LicenseInfo("Apache-2.0", "Apache License 2.0", "", true, true, false,
    ["https://www.apache.org/licenses/LICENSE-2.0"],
    "Permissive license with patent grant and trademark protection", "Permissive", "High")
  const Bsd3Clause := LicenseInfo("BSD-3-Clause", "BSD 3-Clause \"New\" or \"Revised\" License", "", true, true, false,
    ["https://opensource.org/licenses/BSD-3-Clause"],
    "Permissive license similar to MIT but with explicit non-endorsement clause", "Permissive", "Very High")
  const Bsd2Clause := LicenseInfo("BSD-2-Clause", "BSD 2-Clause \"Simplified\" License", "", true, true, false,
    ["https://opensource.org/licenses/BSD-2-Clause"],
    "Simplified version of BSD license with fewer restrictions", "Permissive", "Very High")
  const Isc := LicenseInfo("ISC", "ISC License", "", true, true, false,
    ["https://opensource.org/licenses/ISC"],
    "Functionally equivalent to MIT and BSD 2-Clause", "Permissive", "Very High")
  const Gpl3 := LicenseInfo("GPL-3.0", "GNU General Public License v3.0", "", true, true, false,
    ["https://www.gnu.org/licenses/gpl-3.0.html"],
    "Strong copyleft license requiring source code disclosure", "Copyleft", "Low")
  const Gpl2 := LicenseInfo("GPL-2.0", "GNU General Public License v2.0", "", true, true, false,
    ["https://www.gnu.org/licenses/old-licenses/gpl-2.0.html"],
    "Earlier version of GPL with strong copyleft requirements", "Copyleft", "Low")
  const Lgpl3 := LicenseInfo("LGPL-3.0", "GNU Lesser General Public License v3.0", "", true, true, false,
    ["https://www.gnu.org/licenses/lgpl-3.0.html"],
    "Weaker copyleft allowing dynamic linking without license propagation", "Weak Copyleft", "Medium")
  const Agpl3 := LicenseInfo("AGPL-3.0", "GNU Affero General Public License v3.0", "", true, true, false,
    ["https://www.gnu.org/licenses/agpl-3.0.html"],
    "Strongest copyleft license including network use trigger", "Strong Copyleft", "Very Low")
  const Mpl2 := LicenseInfo("MPL-2.0", "Mozilla Public License 2.0", "", true, true, false,
    ["https://www.mozilla.org/MPL/2.0/"],
    "File-level copyleft license balancing openness and commercial use", "Weak Copyleft", "Medium")
  const Cc0 := LicenseInfo("CC0-1.0", "Creative Commons Zero v1.0 Universal", "", false, true, false,
    ["https://creativecommons.org/publicdomain/zero/1.0/"],
    "Public domain dedication for maximum freedom", "Public Domain", "Very High")
  const CcBy4 := LicenseInfo("CC-BY-4.0", "Creative Commons Attribution 4.0 International", "", false, true, false,
    ["https://creativecommons.org/licenses/by/4.0/"],
    "Requires attribution but allows commercial use and derivatives", "Permissive", "High")
  const Unlicense := LicenseInfo("Unlicense", "The Unlicense", "", false, true, false,
    ["http://unlicense.org/"],
    "Release software into public domain", "Public Domain", "Very High")
  const Wtfpl := LicenseInfo("WTFPL", "Do What The F*ck You Want To Public License", "", false, true, false,
    ["http://www.wtfpl.net/"],
    "Extremely permissive public domain-like license", "Public Domain", "Very High")

  /** The table after initializeLicenses: each seed entry stored under its ID, in the order
      they are added. */
  function Seeded(table: map<string, LicenseInfo>): map<string, LicenseInfo> {
    table[Mit.id := Mit][Apache2.id := Apache2][Bsd3Clause.id := Bsd3Clause][Bsd2Clause.id := Bsd2Clause]
         [Isc.id := Isc][Gpl3.id := Gpl3][Gpl2.id := Gpl2][Lgpl3.id := Lgpl3][Agpl3.id := Agpl3]
         [Mpl2.id := Mpl2][Cc0.id := Cc0][CcBy4.id := CcBy4][Unlicense.id := Unlicense][Wtfpl.id := Wtfpl]
  }

  /** The table of a freshly created client. */
  const SeedTable := Seeded(map[])

  const SeedIds := {"MIT", "Apache-2.0", "BSD-3-Clause", "BSD-2-Clause", "ISC", "GPL-3.0", "GPL-2.0",
                    "LGPL-3.0", "AGPL-3.0", "MPL-2.0", "CC0-1.0", "CC-BY-4.0", "Unlicense", "WTFPL"}

  // ---------------------------------------------------------------------------
  // Predicates the operations are specified by
  // ---------------------------------------------------------------------------

  /** Every entry is stored under its own ID. */
  predicate KeyedById(table: map<string, LicenseInfo>) {
    forall k :: k in table ==> table[k].id == k
  }

  /** No two keys are equal ignoring case. */
  predicate CaseDistinct(keys: set<string>) {
    forall a, b :: a in keys && b in keys && Upper(a) == Upper(b) ==> a == b
  }

  /** A search hit: the lowered ID, name or comments contain the (already lowered) query. */
  predicate Matches(license: LicenseInfo, q: string) {
    Contains(Lower(license.id), q) || Contains(Lower(license.name), q) || Contains(Lower(license.comments), q)
  }

  /** The query as the search uses it: trimmed, then lowered. */
  function NormalizeQuery(query: string): string {
    Lower(TrimSpace(query))
  }

  /** The categories that occur in a table, without the empty one. */
  function Categories(table: map<string, LicenseInfo>): set<string> {
    set k | k in table && table[k].category != "" :: table[k].category
  }

  /** Entries of a list are stored under the table's keys, once each. */
  predicate EntriesOf(results: seq<LicenseInfo>, table: map<string, LicenseInfo>) {
    && (forall i :: 0 <= i < |results| ==> results[i].id in table && table[results[i].id] == results[i])
    && (forall i, j :: 0 <= i < j < |results| ==> results[i].id != results[j].id)
  }

  /** A new entry of the table, absent from the list, can be appended to it. */
  lemma AppendEntry(results: seq<LicenseInfo>, table: map<string, LicenseInfo>, license: LicenseInfo)
    requires EntriesOf(results, table)
    requires license.id in table && table[license.id] == license
    requires forall i :: 0 <= i < |results| ==> results[i].id != license.id
    ensures EntriesOf(results + [license], table)
  {
  }

  predicate NoDuplicates(s: seq<string>) {
    forall i, j :: 0 <= i < j < |s| ==> s[i] != s[j]
  }

  // ---------------------------------------------------------------------------
  // The client
  // ---------------------------------------------------------------------------

  class Client {
    var licenses: map<string, LicenseInfo>

    /** The table's invariant: each entry sits under its own ID. */
    ghost predicate Valid()
      reads this
    {
      KeyedById(licenses)
    }

    /** NewClient: an empty table, then the seed. */
    constructor ()
      ensures licenses == SeedTable
      ensures Valid()
    {
      licenses := map[];
      new;
      InitializeLicenses();
      SeededKeyedById(map[]);
    }

    /** addLicense: store the entry under its ID, replacing what was there. */
    method AddLicense(license: LicenseInfo)
      modifies this
      ensures licenses == old(licenses)[license.id := license]
      ensures old(Valid()) ==> Valid()
    {
      licenses := licenses[license.id := license];
    }

    /** initializeLicenses: the fourteen seed entries, added in order. */
    method InitializeLicenses()
      modifies this
      ensures licenses == Seeded(old(licenses))
      ensures old(Valid()) ==> Valid()
    {
      AddLicense(Mit);
      AddLicense(Apache2);
      AddLicense(Bsd3Clause);
      AddLicense(Bsd2Clause);
      AddLicense(Isc);
      AddLicense(Gpl3);
      AddLicense(Gpl2);
      AddLicense(Lgpl3);
      AddLicense(Agpl3);
      AddLicense(Mpl2);
      AddLicense(Cc0);
      AddLicense(CcBy4);
      AddLicense(Unlicense);
      AddLicense(Wtfpl);
    }

    /**
     * GetLicense: the entry stored under the ID exactly as given if there is one; otherwise
     * an entry whose upper-cased key equals the upper-cased, trimmed ID; otherwise an error.
     */
    method GetLicense(licenseId: string) returns (r: Result<LicenseInfo, LicenseError>)
      ensures licenseId in licenses ==> r == Success(licenses[licenseId])
      ensures r.Success? ==>
                licenseId in licenses
                || exists k :: k in licenses && Upper(k) == Upper(TrimSpace(licenseId)) && r.value == licenses[k]
      ensures r.Failure? <==>
                licenseId !in licenses && forall k :: k in licenses ==> Upper(k) != Upper(TrimSpace(licenseId))
      ensures r.Failure? ==> r.error == LicenseNotFound(licenseId)
    {
      var normalizedId := Upper(TrimSpace(licenseId));
      if licenseId in licenses {
        return Success(licenses[licenseId]);
      }
      var remaining := licenses.Keys;
      while remaining != {}
        invariant remaining <= licenses.Keys
        invariant forall k :: k in licenses && k !in remaining ==> Upper(k) != normalizedId
        decreases |remaining|
      {
        var id :| id in remaining;
        if Upper(id) == normalizedId {
          return Success(licenses[id]);
        }
        remaining := remaining - {id};
      }
      return Failure(LicenseNotFound(licenseId));
    }

    /** SearchLicenses: every entry whose ID, name or comments contain the trimmed query,
        ignoring case, and nothing else. */
    method SearchLicenses(query: string) returns (results: seq<LicenseInfo>)
      requires Valid()
      ensures EntriesOf(results, licenses)
      ensures forall i :: 0 <= i < |results| ==> Matches(results[i], NormalizeQuery(query))
      ensures forall k :: k in licenses && Matches(licenses[k], NormalizeQuery(query)) ==> licenses[k] in results
    {
      var q := NormalizeQuery(query);
      results := [];
      var remaining := licenses.Keys;
      while remaining != {}
        invariant remaining <= licenses.Keys
        invariant EntriesOf(results, licenses)
        invariant forall i :: 0 <= i < |results| ==> results[i].id !in remaining && Matches(results[i], q)
        invariant forall k :: k in licenses && k !in remaining && Matches(licenses[k], q) ==> licenses[k] in results
        decreases |remaining|
      {
        var id :| id in remaining;
        var license := licenses[id];
        if Matches(license, q) {
          AppendEntry(results, licenses, license);
          results := results + [license];
        }
        remaining := remaining - {id};
      }
    }

    /** ListCategories: each non-empty category of some entry, once. */
    method ListCategories() returns (result: seq<string>)
      ensures forall c :: c in result <==> c in Categories(licenses)
      ensures NoDuplicates(result)
      ensures |result| == |Categories(licenses)|
    {
      var categories := CollectCategories();
      result := [];
      var remaining := categories;
      while remaining != {}
        invariant remaining <= categories
        invariant forall c :: c in result <==> c in categories && c !in remaining
        invariant NoDuplicates(result)
        invariant |result| + |remaining| == |categories|
        decreases |remaining|
      {
        var cat :| cat in remaining;
        result := result + [cat];
        remaining := remaining - {cat};
      }
    }

    /** The first loop of ListCategories: the set of non-empty categories. */
    method CollectCategories() returns (categories: set<string>)
      ensures categories == Categories(licenses)
    {
      categories := {};
      var remaining := licenses.Keys;
      while remaining != {}
        invariant remaining <= licenses.Keys
        invariant categories == set k | k in licenses && k !in remaining && licenses[k].category != "" :: licenses[k].category
        decreases |remaining|
      {
        var id :| id in remaining;
        if licenses[id].category != "" {
          categories := categories + {licenses[id].category};
        }
        remaining := remaining - {id};
      }
    }

    /** GetLicensesByCategory: every entry whose category is exactly the argument. */
    method GetLicensesByCategory(category: string) returns (results: seq<LicenseInfo>)
      requires Valid()
      ensures EntriesOf(results, licenses)
      ensures forall i :: 0 <= i < |results| ==> results[i].category == category
      ensures forall k :: k in licenses && licenses[k].category == category ==> licenses[k] in results
    {
      results := [];
      var remaining := licenses.Keys;
      while remaining != {}
        invariant remaining <= licenses.Keys
        invariant EntriesOf(results, licenses)
        invariant forall i :: 0 <= i < |results| ==> results[i].id !in remaining && results[i].category == category
        invariant forall k :: k in licenses && k !in remaining && licenses[k].category == category ==> licenses[k] in results
        decreases |remaining|
      {
        var id :| id in remaining;
        var license := licenses[id];
        if license.category == category {
          AppendEntry(results, licenses, license);
          results := results + [license];
        }
        remaining := remaining - {id};
      }
    }
  }

  // ---------------------------------------------------------------------------
  // Facts about the seed and the operations
  // ---------------------------------------------------------------------------

  /** Adding an entry stores it under its ID, replaces what was there, leaves every other
      entry alone and keeps every entry under its own ID. */
  lemma AddOverwrites(table: map<string, LicenseInfo>, license: LicenseInfo)
    ensures var t := table[license.id := license];
      && license.id in t && t[license.id] == license
      && t.Keys == table.Keys + {license.id}
      && (forall k :: k in table && k != license.id ==> t[k] == table[k])
      && (KeyedById(table) ==> KeyedById(t))
  {
  }

  /** Seeding keeps every entry under its own ID. */
  lemma SeededKeyedById(table: map<string, LicenseInfo>)
    requires KeyedById(table)
    ensures KeyedById(Seeded(table))
  {
  }

  /** The seed table holds exactly the fourteen IDs. */
  lemma SeedKeys()
    ensures SeedTable.Keys == SeedIds
  {
  }

  /** Every seed entry has a name and at least one reference URL. */
  lemma SeedEntriesComplete()
    ensures forall k :: k in SeedTable ==> SeedTable[k].name != "" && |SeedTable[k].seeAlso| > 0
  {
  }

  /** What upper-casing cannot change: the length and the upper-cased characters. */
  function Fingerprint(s: string): (int, char, char) {
    (|s|, if |s| > 0 then UpperChar(s[0]) else ' ', if |s| > 4 then UpperChar(s[4]) else ' ')
  }

  lemma FingerprintOfUpper(a: string, b: string)
    requires Upper(a) == Upper(b)
    ensures Fingerprint(a) == Fingerprint(b)
  {
    assert |a| == |Upper(a)| == |Upper(b)| == |b|;
    if |a| > 0 {
      assert Upper(a)[0] == Upper(b)[0];
    }
    if |a| > 4 {
      assert Upper(a)[4] == Upper(b)[4];
    }
  }

  /** No two seed IDs are equal ignoring case, so case-insensitive lookup finds at most one. */
  lemma SeedCaseDistinct()
    ensures CaseDistinct(SeedIds)
  {
    forall a, b | a in SeedIds && b in SeedIds && Upper(a) == Upper(b) ensures a == b {
      FingerprintOfUpper(a, b);
    }
  }

  const SeedCategoryNames := {"Permissive", "Copyleft", "Weak Copyleft", "Strong Copyleft", "Public Domain"}

  /** Every seed entry is in one of the five categories. */
  lemma SeedCategoriesWithin()
    ensures forall k :: k in SeedTable ==> SeedTable[k].category in SeedCategoryNames
  {
  }

  /** Each of the five categories has a seed entry. */
  lemma SeedCategoriesOccur()
    ensures forall c :: c in SeedCategoryNames ==> exists k :: k in SeedTable && SeedTable[k].category == c
  {
    assert SeedTable[Mit.id] == Mit && SeedTable[Gpl3.id] == Gpl3 && SeedTable[Lgpl3.id] == Lgpl3;
    assert SeedTable[Agpl3.id] == Agpl3 && SeedTable[Wtfpl.id] == Wtfpl;
  }

  /** The categories of the seed are exactly the five. */
  lemma SeedCategories()
    ensures Categories(SeedTable) == SeedCategoryNames
  {
    SeedCategoriesWithin();
    SeedCategoriesOccur();
    CategoriesExactly(SeedTable, SeedCategoryNames);
  }

  /** A set of non-empty names that covers every entry's category, each name used by some
      entry, is the table's set of categories. */
  lemma CategoriesExactly(table: map<string, LicenseInfo>, names: set<string>)
    requires "" !in names
    requires forall k :: k in table ==> table[k].category in names
    requires forall c :: c in names ==> exists k :: k in table && table[k].category == c
    ensures Categories(table) == names
  {
  }

  /** A query that is empty or only white space matches every entry. */
  lemma BlankQueryMatchesAll(license: LicenseInfo, query: string)
    requires AllSpace(query)
    ensures Matches(license, NormalizeQuery(query))
  {
    TrimAllSpace(query);
    assert NormalizeQuery(query) == [];
    ContainsEmpty(Lower(license.id));
    assert Contains(Lower(license.id), NormalizeQuery(query));
  }

  const GplQuery := "gpl"
  const BsdQuery := "bsd"

  /** An entry whose lowered ID starts with the query is a hit. */
  lemma IdHit(license: LicenseInfo, q: string)
    requires OccursAt(q, Lower(license.id), 0)
    ensures Matches(license, q)
  {
  }

  /** The searches of the catalog's own checks hit what they expect: "MIT" finds MIT, "gpl"
      both GPL versions and "bsd" both BSD variants. */
  lemma SearchHitsMit()
    ensures Matches(Mit, NormalizeQuery(MitId))
  {
    assert NormalizeQuery(MitId) == LowerMit by {
      TrimSpaceNoop(MitId);
    }
    assert OccursAt(LowerMit, Lower(Mit.id), 0);
    IdHit(Mit, LowerMit);
  }

  lemma SearchHitsGpl()
    ensures Matches(Gpl3, NormalizeQuery(GplQuery)) && Matches(Gpl2, NormalizeQuery(GplQuery))
  {
    assert NormalizeQuery(GplQuery) == GplQuery by {
      TrimSpaceNoop(GplQuery);
    }
    assert OccursAt(GplQuery, Lower(Gpl3.id), 0) && OccursAt(GplQuery, Lower(Gpl2.id), 0);
    IdHit(Gpl3, GplQuery);
    IdHit(Gpl2, GplQuery);
  }

  lemma SearchHitsBsd()
    ensures Matches(Bsd3Clause, NormalizeQuery(BsdQuery)) && Matches(Bsd2Clause, NormalizeQuery(BsdQuery))
  {
    assert NormalizeQuery(BsdQuery) == BsdQuery by {
      TrimSpaceNoop(BsdQuery);
    }
    assert OccursAt(BsdQuery, Lower(Bsd3Clause.id), 0) && OccursAt(BsdQuery, Lower(Bsd2Clause.id), 0);
    IdHit(Bsd3Clause, BsdQuery);
    IdHit(Bsd2Clause, BsdQuery);
  }

  /** With keys distinct ignoring case, at most one key matches a case-insensitive lookup,
      so the entry GetLicense returns does not depend on the order of the map. */
  lemma CaseInsensitiveMatchUnique(table: map<string, LicenseInfo>, licenseId: string, k1: string, k2: string)
    requires CaseDistinct(table.Keys)
    requires k1 in table && Upper(k1) == Upper(TrimSpace(licenseId))
    requires k2 in table && Upper(k2) == Upper(TrimSpace(licenseId))
    ensures k1 == k2
  {
  }

  const MitId := "MIT"
  const LowerMit := "mit"
  const UnknownId := "UNKNOWN-LICENSE-123"

  /** "mit" is not a seed ID, and "MIT" is the only one it matches ignoring case. */
  lemma LowerCaseMitMatchesMit()
    ensures MitId in SeedIds && LowerMit !in SeedIds
    ensures Upper(MitId) == Upper(TrimSpace(LowerMit))
    ensures forall k :: k in SeedIds && Upper(k) == Upper(TrimSpace(LowerMit)) ==> k == MitId
  {
    assert TrimSpace(LowerMit) == LowerMit by {
      TrimSpaceNoop(LowerMit);
    }
    assert Upper(LowerMit) == Upper(MitId);
    OnlyMitFoldsToMit();
  }

  /** Of the seed IDs only "MIT" upper-cases to "MIT". */
  lemma OnlyMitFoldsToMit()
    ensures MitId in SeedIds && LowerMit !in SeedIds
    ensures forall k :: k in SeedIds && Upper(k) == Upper(MitId) ==> k == MitId
  {
    SeedCaseDistinct();
  }

  /** "UNKNOWN-LICENSE-123" is not a seed ID and matches none ignoring case either. */
  lemma UnknownIdMatchesNothing()
    ensures UnknownId !in SeedIds
    ensures forall k :: k in SeedIds ==> Upper(k) != Upper(TrimSpace(UnknownId))
  {
    TrimSpaceNoop(UnknownId);
    assert TrimSpace(UnknownId) == UnknownId;
    NoSeedIdMatchesLong(UnknownId);
  }

  /** An ID longer than every seed ID matches none of them, with or without case. */
  lemma NoSeedIdMatchesLong(id: string)
    requires |id| > 12
    ensures id !in SeedIds
    ensures forall k :: k in SeedIds ==> Upper(k) != Upper(id)
  {
    SeedIdsShort();
    forall k | k in SeedIds ensures Upper(k) != Upper(id) {
      ShorterDiffersUpper(k, id);
    }
  }

  /** Upper-casing keeps lengths, so a shorter string never equals a longer one after it. */
  lemma ShorterDiffersUpper(a: string, b: string)
    requires |a| < |b|
    ensures Upper(a) != Upper(b)
  {
    assert |Upper(a)| == |a| && |Upper(b)| == |b|;
  }

  /** No seed ID is longer than twelve characters. */
  lemma SeedIdsShort()
    ensures forall k :: k in SeedIds ==> |k| <= 12
  {
  }

  /** The two facts about a fresh table that the lookups below rely on. */
  lemma FreshTable()
    ensures SeedTable.Keys == SeedIds
    ensures SeedTable[MitId] == Mit
  {
    SeedKeys();
    SeedHasMit();
  }

  /** The seed stores the MIT record under "MIT": no later entry has that ID. */
  lemma SeedHasMit()
    ensures MitId in SeedTable && SeedTable[MitId] == Mit
  {
  }

  /** The lookups of the seed: "MIT" exactly, "mit" ignoring case, and an unknown ID that
      matches nothing. */
  method LookupsOn(client: Client) returns (exact: Result<LicenseInfo, LicenseError>,
                                            folded: Result<LicenseInfo, LicenseError>,
                                            unknown: Result<LicenseInfo, LicenseError>)
    requires client.licenses.Keys == SeedIds && client.licenses[MitId] == Mit
    ensures exact == Success(Mit) && folded == Success(Mit)
    ensures unknown == Failure(LicenseNotFound(UnknownId))
  {
    LowerCaseMitMatchesMit();
    UnknownIdMatchesNothing();
    exact := client.GetLicense(MitId);
    folded := client.GetLicense(LowerMit);
    unknown := client.GetLicense(UnknownId);
  }

  /** The same lookups on a freshly created client. */
  method LookupExamples() returns (exact: Result<LicenseInfo, LicenseError>,
                                   folded: Result<LicenseInfo, LicenseError>,
                                   unknown: Result<LicenseInfo, LicenseError>)
    ensures exact == Success(Mit) && folded == Success(Mit)
    ensures unknown == Failure(LicenseNotFound(UnknownId))
  {
    var client := new Client();
    FreshTable();
    exact, folded, unknown := LookupsOn(client);
  }
}
