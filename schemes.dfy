/** The mock government-scheme service: keyword search over a fixed table of
    schemes, lookup of one scheme by name, and the list of popular schemes. */
module Schemes {
  import opened Wrappers
  import opened Seqs
  import opened Text

  /** One record of the scheme table. */
  datatype Scheme = Scheme(
    name: string,
    description: string,
    category: string,
    eligibility: seq<string>,
    benefits: seq<string>,
    applicationProcess: seq<string>,
    documentsRequired: seq<string>,
    applicationLink: Option<string>,
    deadline: Option<string>,
    contactInfo: seq<(string, string)>)

  /** What a search returns. */
  datatype SearchResponse = SearchResponse(
    schemes: seq<Scheme>,
    totalFound: nat,
    searchSuggestions: seq<string>)

  /** The four projected fields of a popular scheme. */
  datatype PopularScheme = PopularScheme(
    name: string,
    description: string,
    category: string,
    applicationLink: Option<string>)

  /** Outcome of a lookup by name: the scheme, or HTTP status 404. */
  datatype Details = Found(scheme: Scheme) | NotFound(status: int)

  const SchemesDatabase: seq<Scheme> := [PmKisan, Pmfby, KisanCreditCard, SoilHealthCard, MicroIrrigation]

  const PmKisan: Scheme := Scheme(
    "PM-KISAN Samman Nidhi",
    "Direct income support to farmers providing ₹6000 per year in three equal installments",
    "subsidy",
    ["Small and marginal farmers", "Land holding up to 2 hectares",
     "Valid Aadhaar card required", "Bank account linked with Aadhaar"],
    ["₹2000 per installment (3 times a year)", "Direct bank transfer",
     "No paperwork after initial registration"],
    ["Visit nearest Common Service Center (CSC)", "Provide land documents and Aadhaar",
     "Fill PM-KISAN application form", "Submit documents for verification",
     "Receive confirmation SMS"],
    ["Aadhaar Card", "Bank Account Details", "Land Ownership Documents", "Mobile Number"],
    Some("https://pmkisan.gov.in"),
    Some("Open throughout the year"),
    [("helpline", "155261"), ("email", "pmkisan-ict@gov.in")])

  const Pmfby: Scheme := Scheme(
    "Pradhan Mantri Fasal Bima Yojana (PMFBY)",
    "Crop insurance scheme providing financial support in case of crop loss due to natural calamities",
    "insurance",
    ["All farmers (sharecroppers and tenant farmers included)",
     "Must have insurable interest in the crop",
     "Should be growing notified crops in notified areas"],
    ["Low premium rates (2% for Kharif, 1.5% for Rabi)", "Coverage for yield losses",
     "Quick settlement of claims", "Technology-based damage assessment"],
    ["Approach nearest bank or insurance company", "Fill crop insurance application",
     "Pay premium amount", "Receive insurance certificate",
     "Report crop loss within 72 hours if occurs"],
    ["Aadhaar Card", "Bank Account Details", "Land Records", "Crop Sowing Certificate"],
    Some("https://pmfby.gov.in"),
    Some("Usually 1 month before harvest"),
    [("helpline", "14434"), ("email", "support@pmfby.gov.in")])

  const KisanCreditCard: Scheme := Scheme(
    "Kisan Credit Card (KCC)",
    "Easy access to credit for farmers to meet their production and consumption needs",
    "loan",
    ["All farmers (individual/joint borrowers)", "Tenant farmers and sharecroppers",
     "Self Help Group members", "Minimum 18 years age"],
    ["Interest rate 7% per annum", "No collateral required up to ₹1.6 lakh",
     "Flexible repayment options", "Insurance coverage included"],
    ["Visit nearest bank branch", "Fill KCC application form", "Submit required documents",
     "Bank verification process", "Receive KCC within 15 days"],
    ["Identity Proof (Aadhaar/PAN)", "Address Proof", "Land Documents", "Income Proof"],
    Some("https://www.nabard.org/kcc"),
    Some("Open throughout the year"),
    [("helpline", "1800-180-1111"), ("website", "nabard.org")])

  const SoilHealthCard: Scheme := Scheme(
    "Soil Health Card Scheme",
    "Provides soil health information to farmers for appropriate nutrient management",
    "training",
    ["All farmers", "No land size restriction", "Available for all crop types"],
    ["Free soil testing", "Nutrient recommendations", "Fertilizer recommendations",
     "Improved crop productivity"],
    ["Contact local agriculture officer", "Register for soil sampling",
     "Collect soil samples as per guidelines", "Submit samples to testing lab",
     "Receive soil health card"],
    ["Land ownership documents", "Aadhaar Card", "Survey number details"],
    Some("https://soilhealth.dac.gov.in"),
    Some("Open throughout the year"),
    [("helpline", "011-23382401"), ("email", "info@soilhealth.com")])

  const MicroIrrigation: Scheme := Scheme(
    "Micro Irrigation Subsidy",
    "Financial assistance for drip and sprinkler irrigation systems",
    "subsidy",
    ["All categories of farmers", "Minimum 0.2 hectare land", "Maximum 5 hectare per beneficiary"],
    ["55% subsidy for general farmers", "75% subsidy for SC/ST farmers", "Water conservation",
     "Increased crop yield"],
    ["Apply through horticulture department", "Submit detailed project report",
     "Technical approval from department", "Installation after approval",
     "Claim subsidy after completion"],
    ["Land documents", "Aadhaar Card", "Bank account details", "Caste certificate (if applicable)"],
    Some("https://pmksy.gov.in"),
    Some("Usually April-May each year"),
    [("helpline", "011-23382477"), ("email", "pmksy@nic.in")])

  /** Keyword to categories, in the dictionary's insertion order. */
  const KeywordMapping: seq<(string, seq<string>)> := [
    ("loan", ["loan"]),
    ("credit", ["loan"]),
    ("insurance", ["insurance"]),
    ("subsidy", ["subsidy"]),
    ("training", ["training"]),
    ("irrigation", ["subsidy"]),
    ("water", ["subsidy"]),
    ("income", ["subsidy"])
  ]

  const SearchSuggestions: seq<string> := [
    "Crop insurance schemes",
    "Irrigation subsidies",
    "Farmer loans and credit",
    "Soil testing programs",
    "Direct benefit transfer schemes"
  ]

  const PopularSchemeNames: seq<string> := [
    "PM-KISAN Samman Nidhi",
    "Pradhan Mantri Fasal Bima Yojana (PMFBY)",
    "Kisan Credit Card (KCC)"
  ]

  const MaxResults: nat := 5

  /** The lower-cased "name description benefits" text a query is matched against. */
  function SearchableText(s: Scheme): string {
    Lower(s.name + " " + s.description + " " + Join(" ", s.benefits))
  }

  /** A category argument filters only when it is truthy: None and "" do not. */
  predicate FilterActive(category: Option<string>) {
    category.Some? && category.value != ""
  }

  predicate InCategory(s: Scheme, category: Option<string>) {
    !FilterActive(category) || s.category == category.value
  }

  /** First pass: the category filter, then some query word occurs in the text. */
  predicate Admitted(s: Scheme, queryLower: string, category: Option<string>) {
    InCategory(s, category) && ContainsAny(SearchableText(s), Words(queryLower))
  }

  function FirstPass(db: seq<Scheme>, queryLower: string, category: Option<string>): seq<Scheme> {
    Filter(db, s => Admitted(s, queryLower, category))
  }

  /** The categories of the first keyword, in mapping order, that occurs in the query. */
  function FallbackCategories(queryLower: string): Option<seq<string>> {
    var k := FirstIndex(KeywordMapping, (e: (string, seq<string>)) => Contains(queryLower, e.0));
    if k < |KeywordMapping| then Some(KeywordMapping[k].1) else None
  }

  predicate InAnyCategory(s: Scheme, categories: seq<string>) {
    s.category in categories
  }

  function CategoryMembers(db: seq<Scheme>, categories: seq<string>): seq<Scheme> {
    Filter(db, s => InAnyCategory(s, categories))
  }

  function Fallback(db: seq<Scheme>, queryLower: string): seq<Scheme> {
    match FallbackCategories(queryLower)
    case None => []
    case Some(categories) => CategoryMembers(db, categories)
  }

  /** The full match list, before truncation. */
  function AllMatches(db: seq<Scheme>, query: string, category: Option<string>): seq<Scheme> {
    var q := Lower(query);
    var first := FirstPass(db, q, category);
    if first != [] then first else Fallback(db, q)
  }

  /** The text-matching loop of `search_schemes`. */
  method MatchPass(db: seq<Scheme>, queryLower: string, category: Option<string>)
    returns (matching: seq<Scheme>)
    ensures matching == FirstPass(db, queryLower, category)
  {
    matching := [];
    for i := 0 to |db|
      invariant matching == FirstPass(db[..i], queryLower, category)
    {
      var scheme := db[i];
      FilterSnoc(db[..i], scheme, s => Admitted(s, queryLower, category));
      assert db[..i + 1] == db[..i] + [scheme];
      var text := SearchableText(scheme);
      if FilterActive(category) && scheme.category != category.value {
        continue;
      }
      if ContainsAny(text, Words(queryLower)) {
        matching := matching + [scheme];
      }
    }
    assert db[..|db|] == db;
  }

  /** The keyword fallback of `search_schemes`: the first keyword found in the
      query selects categories, every scheme of those is taken, then `break`. */
  method KeywordFallback(db: seq<Scheme>, queryLower: string) returns (matching: seq<Scheme>)
    ensures matching == Fallback(db, queryLower)
  {
    matching := [];
    var k := 0;
    while k < |KeywordMapping|
      invariant 0 <= k <= |KeywordMapping|
      invariant forall j :: 0 <= j < k ==> !Contains(queryLower, KeywordMapping[j].0)
      invariant matching == []
    {
      var (keyword, categories) := KeywordMapping[k];
      if Contains(queryLower, keyword) {
        for t := 0 to |db|
          invariant matching == CategoryMembers(db[..t], categories)
        {
          FilterSnoc(db[..t], db[t], s => InAnyCategory(s, categories));
          assert db[..t + 1] == db[..t] + [db[t]];
          if db[t].category in categories {
            matching := matching + [db[t]];
          }
        }
        assert db[..|db|] == db;
        FallbackPicks(queryLower, k);
        return;
      }
      k := k + 1;
    }
    FallbackPicks(queryLower, k);
  }

  /** `search_schemes`: the match pass, the keyword fallback when it found
      nothing, and the limit of five results. The `state` argument is unused. */
  method SearchSchemes(db: seq<Scheme>, query: string, category: Option<string>)
    returns (resp: SearchResponse)
    ensures resp.schemes == Take(AllMatches(db, query, category), MaxResults)
    ensures resp.totalFound == |AllMatches(db, query, category)|
    ensures |resp.schemes| <= MaxResults && |resp.schemes| <= resp.totalFound
    ensures resp.searchSuggestions == SearchSuggestions
  {
    var queryLower := Lower(query);
    var matching := MatchPass(db, queryLower, category);
    if matching == [] {
      matching := KeywordFallback(db, queryLower);
    }
    resp := SearchResponse(Take(matching, MaxResults), |matching|, SearchSuggestions);
  }

  /** The keyword loop's exit index is the one FallbackCategories picks. */
  lemma FallbackPicks(queryLower: string, k: nat)
    requires k <= |KeywordMapping|
    requires k < |KeywordMapping| ==> Contains(queryLower, KeywordMapping[k].0)
    requires forall j :: 0 <= j < k ==> !Contains(queryLower, KeywordMapping[j].0)
    ensures FallbackCategories(queryLower) == if k < |KeywordMapping| then Some(KeywordMapping[k].1) else None
  {
  }

  /** The first pass admits a scheme exactly when it is in the table, passes the
      category filter, and some whitespace-separated word of the lower-cased
      query is a substring of its lower-cased searchable text. */
  lemma FirstPassAdmission(db: seq<Scheme>, query: string, category: Option<string>, s: Scheme)
    ensures s in FirstPass(db, Lower(query), category) <==>
      s in db && (FilterActive(category) ==> s.category == category.value)
      && exists w :: w in Words(Lower(query)) && Contains(SearchableText(s), w)
  {
    FilterMembership(db, x => Admitted(x, Lower(query), category));
  }

  /** With a category filter, the first pass admits only schemes of that category. */
  lemma FirstPassRespectsCategory(db: seq<Scheme>, query: string, category: Option<string>)
    requires FilterActive(category)
    ensures forall s :: s in FirstPass(db, Lower(query), category) ==> s.category == category.value
  {
    FilterMembership(db, x => Admitted(x, Lower(query), category));
  }

  /** No keyword of the fallback occurs in a blank query. */
  lemma BlankQueryHasNoKeyword(q: string)
    requires AllSpace(q)
    ensures FallbackCategories(q) == None
  {
    forall j | 0 <= j < |KeywordMapping| ensures !Contains(q, KeywordMapping[j].0) {
      BlankContainsNoWord(q, KeywordMapping[j].0);
    }
    FallbackPicks(q, |KeywordMapping|);
  }

  /** A query that is empty or only whitespace finds nothing: it has no words,
      and no keyword of the fallback occurs in it. */
  lemma BlankQueryFindsNothing(db: seq<Scheme>, query: string, category: Option<string>)
    requires AllSpace(query)
    ensures AllMatches(db, query, category) == []
  {
    var q := Lower(query);
    assert AllSpace(q);
    WordsOfBlank(q);
    FilterNone(db, x => Admitted(x, q, category));
    BlankQueryHasNoKeyword(q);
  }

  /** The fallback runs only when the first pass is empty, and then it takes
      every scheme of the first matching keyword's categories, whatever the
      category argument. */
  lemma FallbackWhenFirstPassEmpty(db: seq<Scheme>, query: string, category: Option<string>, k: nat)
    requires FirstPass(db, Lower(query), category) == []
    requires k < |KeywordMapping| && Contains(Lower(query), KeywordMapping[k].0)
    requires forall j :: 0 <= j < k ==> !Contains(Lower(query), KeywordMapping[j].0)
    ensures AllMatches(db, query, category) == CategoryMembers(db, KeywordMapping[k].1)
  {
    FallbackPicks(Lower(query), k);
  }

  /** Only the first keyword in mapping order counts, not the first in the text:
      "insurance credit" falls back to loans, because "credit" precedes
      "insurance" in the mapping. */
  lemma FallbackUsesMappingOrder()
    ensures FallbackCategories("insurance credit") == Some(["loan"])
  {
    var q := "insurance credit";
    NotContainsWhenNoStart(q, "loan");
    assert OccursAt(q, "credit", 10);
    FallbackPicks(q, 1);
  }

  /** The fallback ignores the category filter: asking for insurance schemes
      with the query "credit" returns a loan scheme when no insurance scheme
      matches the text. */
  lemma FallbackIgnoresCategory(s: Scheme)
    requires s.category == "loan"
    ensures AllMatches([s], "credit", Some("insurance")) == [s]
  {
    CreditFallsBackToLoans();
    OtherCategoryNotAdmitted(s, "credit", Some("insurance"));
    assert [s][..0] == [];
    FilterNone([s], x => Admitted(x, "credit", Some("insurance")));
    assert CategoryMembers([s], ["loan"]) == [s];
  }

  lemma CreditFallsBackToLoans()
    ensures Lower("credit") == "credit"
    ensures FallbackCategories("credit") == Some(["loan"])
  {
    LowerOfLowercase("credit");
    CreditHitsSecondKeyword();
    FallbackPicks("credit", 1);
  }

  /** "credit" is the first keyword of the mapping that occurs in "credit". */
  lemma CreditHitsSecondKeyword()
    ensures !Contains("credit", KeywordMapping[0].0)
    ensures Contains("credit", KeywordMapping[1].0)
    ensures KeywordMapping[1].1 == ["loan"]
  {
    assert KeywordMapping[0].0 == "loan" && KeywordMapping[1].0 == "credit";
    NotContainsWhenNoStart("credit", "loan");
    assert OccursAt("credit", "credit", 0);
  }

  /** A scheme outside an active category filter fails the first pass. */
  lemma OtherCategoryNotAdmitted(s: Scheme, queryLower: string, category: Option<string>)
    requires FilterActive(category) && s.category != category.value
    ensures !Admitted(s, queryLower, category)
  {
  }

  /** Matches keep table order, and a table without repeats yields none. */
  lemma MatchesInTableOrder(db: seq<Scheme>, query: string, category: Option<string>)
    ensures IsSubsequence(AllMatches(db, query, category), db)
    ensures NoDuplicates(db) ==> NoDuplicates(AllMatches(db, query, category))
  {
    var q := Lower(query);
    var r := AllMatches(db, query, category);
    if FirstPass(db, q, category) != [] {
      FilterIsSubsequence(db, s => Admitted(s, q, category));
    } else if FallbackCategories(q).Some? {
      FilterIsSubsequence(db, s => InAnyCategory(s, FallbackCategories(q).value));
    }
    if NoDuplicates(db) {
      SubsequenceNoDuplicates(r, db);
    }
  }

  /** The scheme table has no repeated record: its names are distinct. */
  lemma DatabaseNamesDistinct()
    ensures forall i, j :: 0 <= i < j < |SchemesDatabase| ==> SchemesDatabase[i].name != SchemesDatabase[j].name
    ensures NoDuplicates(SchemesDatabase)
  {
    NameInitials();
    var db := SchemesDatabase;
    forall i, j | 0 <= i < j < |db| ensures db[i].name != db[j].name {
      assert db[i].name[0] != db[j].name[0] || db[i].name[1] != db[j].name[1];
    }
  }

  /** The first two characters of every name in the table. This lemma and the
      five per-record lemmas below are proof aids for `DatabaseNamesDistinct`:
      they keep each record literal in a small proof of its own. */
  lemma NameInitials()
    ensures |SchemesDatabase| == 5
    ensures |SchemesDatabase[0].name| >= 2 && |SchemesDatabase[1].name| >= 2 && |SchemesDatabase[2].name| >= 2
    ensures |SchemesDatabase[3].name| >= 2 && |SchemesDatabase[4].name| >= 2
    ensures SchemesDatabase[0].name[0] == 'P' && SchemesDatabase[0].name[1] == 'M'
    ensures SchemesDatabase[1].name[0] == 'P' && SchemesDatabase[1].name[1] == 'r'
    ensures SchemesDatabase[2].name[0] == 'K' && SchemesDatabase[2].name[1] == 'i'
    ensures SchemesDatabase[3].name[0] == 'S' && SchemesDatabase[3].name[1] == 'o'
    ensures SchemesDatabase[4].name[0] == 'M' && SchemesDatabase[4].name[1] == 'i'
  {
    PmKisanInitials();
    PmfbyInitials();
    KisanCreditCardInitials();
    SoilHealthCardInitials();
    MicroIrrigationInitials();
  }

  lemma PmKisanInitials()
    ensures |PmKisan.name| >= 2 && PmKisan.name[0] == 'P' && PmKisan.name[1] == 'M'
  {
  }

  lemma PmfbyInitials()
    ensures |Pmfby.name| >= 2 && Pmfby.name[0] == 'P' && Pmfby.name[1] == 'r'
  {
  }

  lemma KisanCreditCardInitials()
    ensures |KisanCreditCard.name| >= 2 && KisanCreditCard.name[0] == 'K' && KisanCreditCard.name[1] == 'i'
  {
  }

  lemma SoilHealthCardInitials()
    ensures |SoilHealthCard.name| >= 2 && SoilHealthCard.name[0] == 'S' && SoilHealthCard.name[1] == 'o'
  {
  }

  lemma MicroIrrigationInitials()
    ensures |MicroIrrigation.name| >= 2 && MicroIrrigation.name[0] == 'M' && MicroIrrigation.name[1] == 'i'
  {
  }

  predicate NameMatches(s: Scheme, schemeName: string) {
    Lower(s.name) == Lower(schemeName)
  }

  /** `get_scheme_details`: the first scheme whose name equals the argument
      ignoring case, or 404. */
  method GetSchemeDetails(db: seq<Scheme>, schemeName: string) returns (r: Details)
    ensures r.Found? <==> exists i :: 0 <= i < |db| && NameMatches(db[i], schemeName)
    ensures r.Found? ==> exists k :: 0 <= k < |db| && db[k] == r.scheme && NameMatches(db[k], schemeName)
                                  && forall j :: 0 <= j < k ==> !NameMatches(db[j], schemeName)
    ensures r.NotFound? ==> r.status == 404
  {
    var wanted := Lower(schemeName);
    for i := 0 to |db|
      invariant forall j :: 0 <= j < i ==> !NameMatches(db[j], schemeName)
    {
      if Lower(db[i].name) == wanted {
        return Found(db[i]);
      }
    }
    return NotFound(404);
  }

  predicate IsPopular(s: Scheme) {
    s.name in PopularSchemeNames
  }

  function Project(s: Scheme): PopularScheme {
    PopularScheme(s.name, s.description, s.category, s.applicationLink)
  }

  /** `get_popular_schemes`: the table entries whose name is on the popular
      list, in table order, projected to four fields. */
  method GetPopularSchemes(db: seq<Scheme>) returns (popular: seq<PopularScheme>)
    ensures popular == Map(Filter(db, IsPopular), Project)
    ensures forall p :: p in popular <==> exists s :: s in db && IsPopular(s) && p == Project(s)
  {
    popular := [];
    for i := 0 to |db|
      invariant popular == Map(Filter(db[..i], IsPopular), Project)
    {
      FilterMapPrefixStep(db, i, IsPopular, Project);
      if db[i].name in PopularSchemeNames {
        popular := popular + [Project(db[i])];
      }
    }
    assert db[..|db|] == db;
    MapFilterMembership(db, IsPopular, Project);
  }

  /** On the shipped table the popular schemes are its first three entries. */
  lemma PopularOfDatabase()
    ensures Map(Filter(SchemesDatabase, IsPopular), Project)
      == [Project(SchemesDatabase[0]), Project(SchemesDatabase[1]), Project(SchemesDatabase[2])]
  {
    var db := SchemesDatabase;
    PopularFlags();
    assert db[..1][..0] == [];
    assert Filter(db[..1], IsPopular) == [db[0]];
    assert db[..2][..1] == db[..1];
    assert Filter(db[..2], IsPopular) == [db[0], db[1]];
    assert db[..3][..2] == db[..2];
    assert Filter(db[..3], IsPopular) == [db[0], db[1], db[2]];
    assert db[..4][..3] == db[..3];
    assert Filter(db[..4], IsPopular) == [db[0], db[1], db[2]];
    assert db[..4] == db[..|db| - 1];
    var f := Filter(db, IsPopular);
    assert f == [db[0], db[1], db[2]];
    var m := Map(f, Project);
    assert m[0] == Project(db[0]) && m[1] == Project(db[1]) && m[2] == Project(db[2]);
  }

  /** Which table entries are on the popular list. */
  lemma PopularFlags()
    ensures |SchemesDatabase| == 5
    ensures IsPopular(SchemesDatabase[0]) && IsPopular(SchemesDatabase[1]) && IsPopular(SchemesDatabase[2])
    ensures !IsPopular(SchemesDatabase[3]) && !IsPopular(SchemesDatabase[4])
  {
    assert PopularSchemeNames == [PmKisan.name, Pmfby.name, KisanCreditCard.name];
    NameInitials();
    PopularInitials();
  }

  lemma PopularInitials()
    ensures |PopularSchemeNames| == 3
    ensures forall k :: 0 <= k < 3 ==> PopularSchemeNames[k] != [] && PopularSchemeNames[k][0] in "PK"
  {
  }
}
