/**
 * Query fragments and parameter whitelists of the food API: the data-source
 * filter, the sort-order default, the whitelists of browse sort fields,
 * dictionary types and nutrient-report sort values, and the where-clause of
 * the food browse.
 */
module Filters {
  import opened Outcomes
  import opened Text
  import opened GoInt

  /** What the branded-food source `BFPD` expands to: either legacy tag. */
  const BrandedSourceClause: string := " AND ( dataSource = '" + "LI" + "' OR dataSource='" + "GDSN" + "' )"

  /** The head of an exact-match source clause; the source and a closing quote follow. */
  const ExactSourceHead: string := " AND dataSource = '"

  /** sourceFilter: nothing for no source, both legacy tags for BFPD, an exact match otherwise. */
  function SourceFilter(s: string): (w: string)
    ensures w == "" <==> s == ""
    ensures s == "BFPD" ==> w == BrandedSourceClause
    ensures s != "" && s != "BFPD" ==> w == ExactSourceHead + s + "'"
  {
    if s != "" then
      if s == "BFPD" then BrandedSourceClause
      else ExactSourceHead + s + "'"
    else ""
  }

  /** The source named in an exact-match clause is recovered from it unchanged. */
  lemma ExactSourceRecovered(s: string)
    requires s != "" && s != "BFPD"
    ensures var w := SourceFilter(s); w[|ExactSourceHead|..|w| - 1] == s
  {
    var w := SourceFilter(s);
    assert w == ExactSourceHead + s + "'";
  }

  /** Two different sources never give the same filter. */
  lemma SourceFilterInjective(s: string, t: string)
    requires s != t
    ensures SourceFilter(s) != SourceFilter(t)
  {
    if s != "" && s != "BFPD" && t != "" && t != "BFPD" {
      ExactSourceRecovered(s);
      ExactSourceRecovered(t);
    } else if s == "BFPD" && t != "" {
      assert SourceFilter(s)[5] == '(' != SourceFilter(t)[5];
    } else if t == "BFPD" && s != "" {
      assert SourceFilter(t)[5] == '(' != SourceFilter(s)[5];
    }
  }

  /** sortOrder: empty means ascending; asc and desc pass; anything else fails. */
  function SortOrder(o: string): (r: Option<string>)
    ensures r.Some? <==> o in {"", "asc", "desc"}
    ensures r.Some? ==> r.value in {"asc", "desc"}
    ensures o != "" && r.Some? ==> r.value == o
    ensures o == "" ==> r == Some("asc")
  {
    var order := if o == "" then "asc" else o;
    if order != "asc" && order != "desc" then None else Some(order)
  }

  /** Fields the food browse may sort by. */
  predicate IsBrowseSort(s: string)
  {
    s == "foodDescription" || s == "company" || s == "fdcId"
  }

  /** Dictionary document types: nutrients, derivations and the three food-group tables. */
  predicate IsDictionaryType(t: string)
  {
    t == "NUT" || t == "DERV" || t == "FGSR" || t == "FGFNDDS" || t == "FGGPC"
  }

  /** Nutrient-report sort values, compared without regard to case. */
  predicate IsReportSort(s: string)
  {
    ToLower(s) == "portion" || ToLower(s) == "100value"
  }

  /** Nutrient-report sort orders, compared without regard to case. */
  predicate IsReportOrder(o: string)
  {
    ToLower(o) == "asc" || ToLower(o) == "desc"
  }

  /** The type filter every food browse starts with. */
  const FoodTypeClause: string := "type=\"FOOD\" "

  /**
   * The food-group filter: none without `fg`; by id when `fg` parses as an
   * integer (`fgId`, the result of that parse); by description otherwise.
   */
  function FoodGroupFilter(fg: string, fgId: Option<Int32>): (w: string)
    ensures fg == "" <==> w == ""
    ensures fg != "" && fgId.Some? ==> w == " AND foodGroup.id=" + IntDecimal(fgId.value)
    ensures fg != "" && fgId.None? ==> w == " AND foodGroup.description=\"" + fg + "\""
  {
    if fg == "" then ""
    else match fgId
      case Some(i) => " AND foodGroup.id=" + IntDecimal(i)
      case None => " AND foodGroup.description=\"" + fg + "\""
  }

  /** The where-clause of a food browse: the type filter, then the food-group and source filters. */
  function BrowseWhere(fg: string, fgId: Option<Int32>, source: string): (w: string)
    ensures w == FoodTypeClause + FoodGroupFilter(fg, fgId) + SourceFilter(source)
    ensures fg == "" && source == "" ==> w == FoodTypeClause
  {
    var where := FoodTypeClause + FoodGroupFilter(fg, fgId);
    if source != "" then where + SourceFilter(source) else where
  }
}
