/**
  `classifyText` of backend/src/services/nlp.js. The external classification
  service is an input: `Some(result)` when its call succeeds, `None` when it
  fails, in which case the keyword fallback runs.
 */
module Nlp {
  import opened Wrappers
  import opened Text

  /** The classifier's answer: `{ hazard_type, language, score, explain }`. */
  datatype Classification = Classification(hazardType: string, language: string, score: real, explain: string)

  /** The fallback keyword table, in the order it is searched. */
  const KeywordTable: seq<(string, string)> := [
    ("oil", "oil_spill"),
    ("spill", "oil_spill"),
    ("cyclone", "cyclone"),
    ("storm", "storm_surge"),
    ("high tide", "high_tide"),
    ("swell", "high_swell"),
    ("flood", "coastal_flooding")
  ]

  /** The hazard types the fallback can produce. */
  const FallbackCategories: set<string> :=
    {"oil_spill", "cyclone", "storm_surge", "high_tide", "high_swell", "coastal_flooding", "unknown"}

  /** `table.find(([k]) => t.includes(k))`, as the index of the entry found. */
  function FirstMatch(table: seq<(string, string)>, t: string): (r: Option<nat>)
    ensures r.Some? ==> r.value < |table| && Contains(t, table[r.value].0)
    ensures r.Some? ==> forall j :: 0 <= j < r.value ==> !Contains(t, table[j].0)
    ensures r.None? <==> forall j :: 0 <= j < |table| ==> !Contains(t, table[j].0)
  {
    if table == [] then None
    else if Contains(t, table[0].0) then Some(0)
    else match FirstMatch(table[1..], t) {
      case None => None
      case Some(i) => Some(i + 1)
    }
  }

  /** The rule-based answer used when the external call fails. */
  function Fallback(text: string): Classification
  {
    var t := ToLower(text);
    var found := FirstMatch(KeywordTable, t);
    Classification(
      if found.Some? then KeywordTable[found.value].1 else "unknown",
      "unknown", 0.3, "fallback-rules")
  }

  /** `classifyText`: the service's answer unchanged on success, else the fallback. */
  function ClassifyText(external: Option<Classification>, text: string): (c: Classification)
    ensures external.Some? ==> c == external.value
    ensures external.None? ==> c.language == "unknown" && c.score == 0.3 && c.explain == "fallback-rules"
    ensures external.None? ==> c.hazardType in FallbackCategories
  {
    match external
    case Some(data) => data
    case None => Fallback(text)
  }

  /** Entry `i` is the first table entry whose keyword occurs in `t`. */
  predicate FirstOccurring(t: string, i: int)
  {
    && 0 <= i < |KeywordTable|
    && Contains(t, KeywordTable[i].0)
    && forall j :: 0 <= j < i ==> !Contains(t, KeywordTable[j].0)
  }

  /** The fallback hazard type is the category of the first keyword, in table
      order, occurring in the lower-cased text, and "unknown" when none occurs. */
  lemma FallbackIsFirstMatch(text: string)
    ensures forall i :: FirstOccurring(ToLower(text), i) ==> Fallback(text).hazardType == KeywordTable[i].1
    ensures (forall j :: 0 <= j < |KeywordTable| ==> !Contains(ToLower(text), KeywordTable[j].0))
      ==> Fallback(text).hazardType == "unknown"
  {
    var found := FirstMatch(KeywordTable, ToLower(text));
    forall i | FirstOccurring(ToLower(text), i)
      ensures Fallback(text).hazardType == KeywordTable[i].1
    {
      assert found.Some?;
      assert !(found.value < i);
      assert found.value == i;
    }
  }

  /** The fallback ignores case: a text and its lower-cased form classify alike. */
  lemma FallbackIgnoresCase(text: string)
    ensures Fallback(text) == Fallback(ToLower(text))
  {
    ToLowerIdempotent(text);
  }

  /** Any text containing "oil" as a substring, even inside "soil", is an oil spill. */
  lemma OilAlwaysWins(text: string)
    requires Contains(ToLower(text), "oil")
    ensures Fallback(text).hazardType == "oil_spill"
  {
  }

  /** Table order decides ties: "storm" outranks "flood" (and everything after it)
      once the three keywords ahead of it are absent. */
  lemma StormBeforeFlood(text: string)
    requires Contains(ToLower(text), "storm")
    requires !Contains(ToLower(text), "oil") && !Contains(ToLower(text), "spill")
    requires !Contains(ToLower(text), "cyclone")
    ensures Fallback(text).hazardType == "storm_surge"
  {
    var t := ToLower(text);
    assert KeywordTable[0].0 == "oil" && KeywordTable[1].0 == "spill";
    assert KeywordTable[2].0 == "cyclone" && KeywordTable[3] == ("storm", "storm_surge");
    assert FirstOccurring(t, 3);
    FallbackIsFirstMatch(text);
  }

  /** "soil" contains "oil", so a report of soil is classified as an oil spill. */
  lemma SoilIsOilSpill()
    ensures Fallback("Soil").hazardType == "oil_spill"
  {
    var t := ToLower("Soil");
    assert t == "soil";
    assert "oil" <= t[1..];
    OilAlwaysWins("Soil");
  }
}
