/**
 * The gin handlers of the food API with the HTTP context and the datastore
 * taken out.  A handler receives its already-parsed parameters (an absent or
 * unparseable number is `None`) and the datastore call it makes as a
 * function; it returns the datastore request it issued (`None` when
 * validation stopped it first) and its outcome: the response value, or the
 * client-error status and the check that failed.
 */
module Handlers {
  import opened GoInt
  import opened Outcomes
  import opened Text
  import opened Identifiers
  import opened Filters
  import opened Aggregation
  import opened ServerState

  /** maxListSize and defaultListMax of the server. */
  const MaxListSize: int := 150
  const DefaultListMax: int := 50

  /** Page size of a dictionary browse that names none. */
  const DictionaryDefaultMax: int := 300

  /** Upper bound of a nutrient report that gives neither bound. */
  const ReportValueCeiling: real := 100000.0

  /** The paginated envelope: items returned, start, page size, items. */
  datatype BrowseResult<T> = BrowseResult(count: Int32, start: Int32, max: Int32, items: seq<T>)

  /** `p` after the clamp `if page < 0 { page = 0 }`. */
  function ClampPage(p: int): (r: int)
    ensures r >= 0 && (p >= 0 ==> r == p)
  {
    if p < 0 then 0 else p
  }

  // ---------------------------------------------------------------------
  // dictionaryBrowse

  datatype DictionaryQuery = DictionaryQuery(docType: string, offset: Int64, max: Int32)

  /** The dictionary type a request names: NUT when it names none. */
  function DictionaryType(t: string): string
  {
    if t == "" then "NUT" else t
  }

  /**
   * dictionaryBrowse: an unknown type is a 400; max defaults to 300 and
   * page to 0 (negative pages become 0); the datastore is asked for `max`
   * entries from offset `page * max`; its failure is a 404.  The two number
   * parses assign the package-level `err`, the page parse last.
   */
  method DictionaryBrowse<T>(st: PackageState, typeParam: string, max: Option<Int32>, page: Option<Int32>,
                             getDictionary: DictionaryQuery -> Option<seq<T>>)
    returns (issued: Option<DictionaryQuery>, r: Outcome<BrowseResult<T>>)
    modifies st
    ensures issued.None? <==> !IsDictionaryType(DictionaryType(typeParam))
    ensures issued.None? ==> r == Fail(StatusBadRequest, BadType) && st.err == old(st.err)
    ensures issued.Some? ==> st.err == page.None?
    ensures issued.Some? ==>
      var m := if max.Some? then max.value else DictionaryDefaultMax;
      issued.value.docType == DictionaryType(typeParam) && issued.value.max == m
      && issued.value.offset == ClampPage(if page.Some? then page.value else 0) * m
    ensures issued.Some? ==>
      match getDictionary(issued.value)
      case None => r == Fail(StatusNotFound, StoreError)
      case Some(items) => r == Ok(BrowseResult(ToInt32(|items|), ToInt32(issued.value.offset), issued.value.max, items))
  {
    var t := typeParam;
    if t == "" {
      t := "NUT";
    }
    if !IsDictionaryType(t) {
      return None, Fail(StatusBadRequest, BadType);
    }
    var m: Int32, p: Int32;
    st.err := max.None?;
    if max.Some? {
      m := max.value;
    } else {
      m := 300;
    }
    st.err := page.None?;
    if page.Some? {
      p := page.value;
    } else {
      p := 0;
    }
    if p < 0 {
      p := 0;
    }
    assert p == ClampPage(if page.Some? then page.value else 0);
    ProductOfInt32Fits(p, m);
    var offset: Int64 := p * m;
    var q := DictionaryQuery(t, offset, m);
    issued := Some(q);
    match getDictionary(q) {
      case None =>
        r := Fail(StatusNotFound, StoreError);
      case Some(items) =>
        r := Ok(BrowseResult(ToInt32(|items|), ToInt32(q.offset), m, items));
    }
  }

  // ---------------------------------------------------------------------
  // foodsBrowse

  datatype BrowseQuery = BrowseQuery(where: string, offset: Int64, max: Int32, sort: string, order: string)

  /** The sort field a browse names: fdcId when it names none. */
  function BrowseSort(sort: string): string
  {
    if sort == "" then "fdcId" else sort
  }

  /**
   * The checks of a foods browse, in the order the handler makes them:
   * sort field, sort order, source, page size.  `None` when all pass.
   */
  function BrowseRejection(sort: string, order: string, source: string, max: Option<Int32>, isDocType: string -> bool): Option<Cause>
  {
    if !IsBrowseSort(BrowseSort(sort)) then Some(BadSort)
    else if SortOrder(order).None? then Some(BadOrder)
    else if source != "" && !isDocType(source) then Some(BadSource)
    else if max.Some? && max.value > MaxListSize then Some(BadMax)
    else None
  }

  /**
   * foodsBrowse: every rejection, and a datastore failure, is a 404.  An
   * accepted browse asks for `max` foods (default 50) from offset
   * `page * max`, filtered by BrowseWhere, sorted by the checked sort field
   * and order; the envelope's start is the page, not the offset.
   * `isDocType(s)` says whether the document-type table knows `s`.
   */
  method FoodsBrowse<T>(sort: string, order: string, source: string, max: Option<Int32>, page: Option<Int32>,
                        fg: string, fgId: Option<Int32>, isDocType: string -> bool,
                        browse: BrowseQuery -> Option<seq<T>>)
    returns (issued: Option<BrowseQuery>, r: Outcome<BrowseResult<T>>)
    ensures r.Fail? ==> r.status == StatusNotFound
    ensures issued.None? <==> BrowseRejection(sort, order, source, max, isDocType).Some?
    ensures issued.None? ==> r == Fail(StatusNotFound, BrowseRejection(sort, order, source, max, isDocType).value)
    ensures issued.Some? ==>
      var m := if max.Some? then max.value else DefaultListMax;
      var p := ClampPage(if page.Some? then page.value else 0);
      issued.value.where == BrowseWhere(fg, fgId, source) && issued.value.offset == p * m && issued.value.max == m
      && issued.value.sort == BrowseSort(sort) && issued.value.order == SortOrder(order).value
      && match browse(issued.value)
         case None => r == Fail(StatusNotFound, StoreError)
         case Some(foods) => r == Ok(BrowseResult(ToInt32(|foods|), p, m, foods))
    ensures issued.Some? ==>
      IsBrowseSort(issued.value.sort) && issued.value.order in {"asc", "desc"} && issued.value.max <= MaxListSize
  {
    var s := sort;
    if s == "" {
      s := "fdcId";
    }
    if s != "" && s != "foodDescription" && s != "company" && s != "fdcId" {
      return None, Fail(StatusNotFound, BadSort);
    }
    var o := SortOrder(order);
    if o.None? {
      return None, Fail(StatusNotFound, BadOrder);
    }
    if source != "" && !isDocType(source) {
      return None, Fail(StatusNotFound, BadSource);
    }
    var m: Int32, p: Int32;
    if max.Some? {
      m := max.value;
    } else {
      m := 50;
    }
    if m > MaxListSize {
      return None, Fail(StatusNotFound, BadMax);
    }
    if page.Some? {
      p := page.value;
    } else {
      p := 0;
    }
    if p < 0 {
      p := 0;
    }
    ProductOfInt32Fits(p, m);
    var offset: Int64 := p * m;
    var where := BrowseWhere(fg, fgId, source);
    var q := BrowseQuery(where, offset, m, s, o.value);
    issued := Some(q);
    match browse(q) {
      case None =>
        r := Fail(StatusNotFound, StoreError);
      case Some(foods) =>
        r := Ok(BrowseResult(ToInt32(|foods|), p, m, foods));
    }
  }

  // ---------------------------------------------------------------------
  // search, foodsSearchGet, foodsSearchPost

  /** A search request; `regex` says whether its search type is REGEX. */
  datatype SearchRequest = SearchRequest(query: string, searchField: string, regex: bool, page: Int64, max: Int64, indexName: string)

  /**
   * search: runs the request and wraps the datastore's match count and
   * items; start and max are the request's page (by now an offset) and max,
   * converted to 32 bits.
   */
  function Search<T>(sr: SearchRequest, dcSearch: SearchRequest -> Option<(Int64, seq<T>)>): (r: Option<BrowseResult<T>>)
    ensures r.Some? <==> dcSearch(sr).Some?
    ensures r.Some? ==> r.value.items == dcSearch(sr).value.1 && r.value.count == ToInt32(dcSearch(sr).value.0)
    ensures r.Some? && InInt32(sr.page) && InInt32(sr.max) ==> r.value.start == sr.page && r.value.max == sr.max
  {
    match dcSearch(sr)
    case None => None
    case Some(res) => Some(BrowseResult(ToInt32(res.0), ToInt32(sr.page), ToInt32(sr.max), res.1))
  }

  /** An offset of 2^31 or more comes back in the envelope's start wrapped to a negative number. */
  lemma SearchStartWraps<T>(sr: SearchRequest, dcSearch: SearchRequest -> Option<(Int64, seq<T>)>)
    requires sr.page == TwoTo31 && dcSearch(sr).Some?
    ensures Search(sr, dcSearch).value.start == -TwoTo31
  {
    assert sr.page % TwoTo32 == TwoTo31;
  }

  /**
   * foodsSearchGet: a missing query or a max above 150 is a 400 (a negative
   * max passes); max defaults to 50, page to 0 (clamped at 0); the request
   * carries the offset `page * max`, as Go's 64-bit product, and no search
   * field; a failed search is a 400.
   */
  method FoodsSearchGet<T>(q: string, max: Option<Int64>, page: Option<Int64>, fts: string,
                           dcSearch: SearchRequest -> Option<(Int64, seq<T>)>)
    returns (issued: Option<SearchRequest>, r: Outcome<BrowseResult<T>>)
    ensures r.Fail? ==> r.status == StatusBadRequest
    ensures issued.None? <==> q == "" || (max.Some? && max.value > MaxListSize)
    ensures q == "" ==> r == Fail(StatusBadRequest, MissingParameter)
    ensures q != "" && max.Some? && max.value > MaxListSize ==> r == Fail(StatusBadRequest, BadMax)
    ensures issued.Some? ==>
      var m := if max.Some? then max.value else DefaultListMax;
      issued.value == SearchRequest(q, "", false, MulInt64(ClampPage(if page.Some? then page.value else 0), m), m, fts)
      && match Search(issued.value, dcSearch)
         case None => r == Fail(StatusBadRequest, StoreError)
         case Some(b) => r == Ok(b)
  {
    if q == "" {
      return None, Fail(StatusBadRequest, MissingParameter);
    }
    var m: Int64, p: Int64;
    if max.Some? {
      m := max.value;
    } else {
      m := 50;
    }
    if m > MaxListSize {
      return None, Fail(StatusBadRequest, BadMax);
    }
    if page.Some? {
      p := page.value;
    } else {
      p := 0;
    }
    if p < 0 {
      p := 0;
    }
    var offset := MulInt64(p, m);
    var sr := SearchRequest(q, "", false, offset, m, fts);
    issued := Some(sr);
    match Search(sr, dcSearch) {
      case None =>
        r := Fail(StatusBadRequest, StoreError);
      case Some(b) =>
        r := Ok(b);
    }
  }

  /** The checks of a posted search: a query, and a max of at most 150 that is not negative. */
  function SearchRejection(sr: SearchRequest): Option<Cause>
  {
    if sr.query == "" then Some(MissingParameter)
    else if sr.max != 0 && (sr.max > MaxListSize || sr.max < 0) then Some(BadMax)
    else None
  }

  /**
   * The request a posted search runs: max 0 means 50, a negative page
   * means 0 and the page becomes the offset `page * max`, a REGEX search
   * goes to the keyword variant of its field, and the index is the server's.
   */
  function NormalizedSearch(sr: SearchRequest, fts: string): SearchRequest
  {
    var m := if sr.max == 0 then DefaultListMax else sr.max;
    sr.(searchField := if sr.regex then sr.searchField + "_kw" else sr.searchField,
        page := MulInt64(ClampPage(sr.page), m),
        max := m,
        indexName := fts)
  }

  /** What every search the server runs satisfies: a query and a page size in 1..150. */
  predicate IsNormalSearch(sr: SearchRequest)
  {
    sr.query != "" && 1 <= sr.max <= MaxListSize
  }

  /**
   * The checks reject exactly the requests whose normal form would break
   * IsNormalSearch; the normal form keeps the query and the search type, and
   * its offset is `page * max` whenever that product fits in 64 bits.
   */
  lemma NormalizedSearchIsNormal(sr: SearchRequest, fts: string)
    ensures SearchRejection(sr).None? <==> IsNormalSearch(NormalizedSearch(sr, fts))
    ensures var n := NormalizedSearch(sr, fts);
      n.query == sr.query && n.regex == sr.regex && n.indexName == fts
      && (InInt64(ClampPage(sr.page) * n.max) ==> n.page == ClampPage(sr.page) * n.max)
  {
  }

  /** foodsSearchPost's checks and rewrites of the bound request, one field at a time. */
  method NormalizeSearchRequest(sr: SearchRequest, fts: string) returns (r: Outcome<SearchRequest>)
    ensures r.Fail? <==> SearchRejection(sr).Some?
    ensures r.Fail? ==> r == Fail(StatusBadRequest, SearchRejection(sr).value)
    ensures r.Ok? ==> r.value == NormalizedSearch(sr, fts) && IsNormalSearch(r.value)
  {
    var s := sr;
    if s.query == "" {
      return Fail(StatusBadRequest, MissingParameter);
    }
    if s.max == 0 {
      s := s.(max := 50);
    } else if s.max > MaxListSize || s.max < 0 {
      return Fail(StatusBadRequest, BadMax);
    }
    if s.page < 0 {
      s := s.(page := 0);
    }
    if s.regex {
      s := s.(searchField := s.searchField + "_kw");
    }
    s := s.(page := MulInt64(s.page, s.max));
    s := s.(indexName := fts);
    r := Ok(s);
    NormalizedSearchIsNormal(sr, fts);
  }

  /**
   * foodsSearchPost: a body that does not bind is a 400; otherwise the
   * request is checked and normalised, run, and a failed search is a 400.
   */
  method FoodsSearchPost<T>(body: Option<SearchRequest>, fts: string,
                            dcSearch: SearchRequest -> Option<(Int64, seq<T>)>)
    returns (issued: Option<SearchRequest>, r: Outcome<BrowseResult<T>>)
    ensures r.Fail? ==> r.status == StatusBadRequest
    ensures body.None? ==> issued.None? && r == Fail(StatusBadRequest, BadJson)
    ensures body.Some? ==> (issued.None? <==> SearchRejection(body.value).Some?)
    ensures body.Some? && issued.None? ==> r == Fail(StatusBadRequest, SearchRejection(body.value).value)
    ensures issued.Some? ==>
      issued.value == NormalizedSearch(body.value, fts) && IsNormalSearch(issued.value)
      && match Search(issued.value, dcSearch)
         case None => r == Fail(StatusBadRequest, StoreError)
         case Some(b) => r == Ok(b)
  {
    if body.None? {
      return None, Fail(StatusBadRequest, BadJson);
    }
    var n := NormalizeSearchRequest(body.value, fts);
    if n.Fail? {
      return None, Fail(n.status, n.cause);
    }
    issued := Some(n.value);
    match Search(n.value, dcSearch) {
      case None =>
        r := Fail(StatusBadRequest, StoreError);
      case Some(b) =>
        r := Ok(b);
    }
  }

  // ---------------------------------------------------------------------
  // nutrientReportPost

  datatype NutrientReportRequest = NutrientReportRequest(
    max: Int64,
    page: Int64,
    sort: string,
    order: string,
    valueGTE: real,
    valueLTE: real)

  datatype BrowseNutrientReport<T> = BrowseNutrientReport(request: NutrientReportRequest, items: seq<T>)

  /**
   * The checks of a nutrient report, in the handler's order: max at most
   * 150, a known sort if any, a known order if any, no negative bound, and
   * bounds in order unless both are 0.
   */
  function ReportRejection(nr: NutrientReportRequest): Option<Cause>
  {
    if nr.max > MaxListSize then Some(BadMax)
    else if nr.sort != "" && !IsReportSort(nr.sort) then Some(BadSort)
    else if nr.order != "" && !IsReportOrder(nr.order) then Some(BadOrder)
    else if nr.valueLTE < 0.0 || nr.valueGTE < 0.0 then Some(BadValueRange)
    else if !(nr.valueGTE == 0.0 && nr.valueLTE == 0.0) && nr.valueGTE > nr.valueLTE then Some(BadValueRange)
    else None
  }

  /**
   * The report a checked request runs: max up to 0 means 50, a negative
   * page means 0 and the page becomes the offset `page * max`, no order
   * means desc, and two zero bounds mean [0, 100000].
   */
  function NormalizedReport(nr: NutrientReportRequest): NutrientReportRequest
  {
    var m := if nr.max <= 0 then DefaultListMax else nr.max;
    var unbounded := nr.valueGTE == 0.0 && nr.valueLTE == 0.0;
    NutrientReportRequest(
      m,
      MulInt64(ClampPage(nr.page), m),
      nr.sort,
      if nr.order == "" then "desc" else nr.order,
      if unbounded then 0.0 else nr.valueGTE,
      if unbounded then ReportValueCeiling else nr.valueLTE)
  }

  /** What every report the server runs satisfies. */
  predicate IsNormalReport(nr: NutrientReportRequest)
  {
    && 1 <= nr.max <= MaxListSize
    && (nr.sort == "" || IsReportSort(nr.sort))
    && IsReportOrder(nr.order)
    && 0.0 <= nr.valueGTE <= nr.valueLTE
  }

  lemma DescIsReportOrder()
    ensures IsReportOrder("desc")
  {
    assert ToLower("desc") == "desc";
  }

  /**
   * The checks reject exactly the requests whose normal form would break
   * IsNormalReport; the normal form keeps the sort and a given order
   * verbatim (the checks ignore case, the datastore gets the original).
   */
  lemma {:induction false} NormalizedReportIsNormal(nr: NutrientReportRequest)
    ensures ReportRejection(nr).None? <==> IsNormalReport(NormalizedReport(nr))
    ensures NormalizedReport(nr).sort == nr.sort
    ensures nr.order != "" ==> NormalizedReport(nr).order == nr.order
  {
    DescIsReportOrder();
  }

  /** nutrientReportPost's checks and rewrites of the bound request, one field at a time. */
  method NormalizeReportRequest(nr: NutrientReportRequest) returns (r: Outcome<NutrientReportRequest>)
    ensures r.Fail? <==> ReportRejection(nr).Some?
    ensures r.Fail? ==> r == Fail(StatusBadRequest, ReportRejection(nr).value)
    ensures r.Ok? ==> r.value == NormalizedReport(nr) && IsNormalReport(r.value)
  {
    var n := nr;
    if n.max <= 0 {
      n := n.(max := 50);
    } else if n.max > MaxListSize || n.max < 0 {
      return Fail(StatusBadRequest, BadMax);
    }
    if n.page < 0 {
      n := n.(page := 0);
    }
    if n.sort != "" {
      if ToLower(n.sort) != "portion" && ToLower(n.sort) != "100value" {
        return Fail(StatusBadRequest, BadSort);
      }
    }
    if n.order != "" {
      if ToLower(n.order) != "asc" && ToLower(n.order) != "desc" {
        return Fail(StatusBadRequest, BadOrder);
      }
    } else {
      n := n.(order := "desc");
    }
    if n.valueLTE < 0.0 || n.valueGTE < 0.0 {
      return Fail(StatusBadRequest, BadValueRange);
    } else if n.valueGTE == 0.0 && n.valueLTE == 0.0 {
      n := n.(valueGTE := 0.0, valueLTE := 100000.0);
    } else if n.valueGTE > n.valueLTE {
      return Fail(StatusBadRequest, BadValueRange);
    }
    n := n.(page := MulInt64(n.page, n.max));
    r := Ok(n);
    NormalizedReportIsNormal(nr);
  }

  /**
   * nutrientReportPost: a body that does not bind is a 400; otherwise the
   * request is checked and normalised and the report run; its failure is a
   * 400.  The bind and the report call assign the package-level `err`.
   */
  method NutrientReportPost<T>(st: PackageState, body: Option<NutrientReportRequest>,
                               report: NutrientReportRequest -> Option<seq<T>>)
    returns (issued: Option<NutrientReportRequest>, r: Outcome<BrowseNutrientReport<T>>)
    modifies st
    ensures r.Fail? ==> r.status == StatusBadRequest
    ensures body.None? ==> issued.None? && r == Fail(StatusBadRequest, BadJson) && st.err
    ensures body.Some? ==> (issued.None? <==> ReportRejection(body.value).Some?)
    ensures body.Some? && issued.None? ==> r == Fail(StatusBadRequest, ReportRejection(body.value).value) && !st.err
    ensures issued.Some? ==>
      issued.value == NormalizedReport(body.value) && IsNormalReport(issued.value)
      && st.err == report(issued.value).None?
      && match report(issued.value)
         case None => r == Fail(StatusBadRequest, StoreError)
         case Some(items) => r == Ok(BrowseNutrientReport(issued.value, items))
  {
    st.err := body.None?;
    if body.None? {
      return None, Fail(StatusBadRequest, BadJson);
    }
    var n := NormalizeReportRequest(body.value);
    if n.Fail? {
      return None, Fail(n.status, n.cause);
    }
    issued := Some(n.value);
    var data := report(n.value);
    st.err := data.None?;
    match data {
      case None =>
        r := Fail(StatusBadRequest, StoreError);
      case Some(items) =>
        r := Ok(BrowseNutrientReport(n.value, items));
    }
  }

  // ---------------------------------------------------------------------
  // foodFdcID, foodFdcIds

  /** The single-id endpoints look an id up as a UPC on its length in bytes alone. */
  function SingleIdKey(id: string, upcToFdcId: string -> UpcLookup): string
  {
    if Utf8Len(id) > 7 then upcToFdcId(id).fdcId else id
  }

  /** The package `err` after a single-id endpoint's lookup, if it made one. */
  function SingleIdErr(err: bool, id: string, upcToFdcId: string -> UpcLookup): bool
  {
    if Utf8Len(id) > 7 && upcToFdcId(id).errWrite.Some? then upcToFdcId(id).errWrite.value else err
  }

  /** Five two-byte letters are ten bytes: such an id is looked up as a UPC although it has five characters. */
  lemma SingleIdCountsBytes(upcToFdcId: string -> UpcLookup)
    ensures SingleIdKey("\U{e9}\U{e9}\U{e9}\U{e9}\U{e9}", upcToFdcId) == upcToFdcId("\U{e9}\U{e9}\U{e9}\U{e9}\U{e9}").fdcId
  {
    var s := "\U{e9}\U{e9}\U{e9}\U{e9}\U{e9}";
    assert Utf8Width(s[0]) == 2;
    assert Utf8Len(s[..1]) == 2 by { assert s[..1][..0] == []; }
    assert Utf8Len(s[..2]) == 4 by { assert s[..2][..1] == s[..1]; }
    assert Utf8Len(s[..3]) == 6 by { assert s[..3][..2] == s[..2]; }
    assert Utf8Len(s[..4]) == 8 by { assert s[..4][..3] == s[..3]; }
    assert s[..|s| - 1] == s[..4];
  }

  /**
   * foodFdcID: no id is a 400.  Otherwise the food is fetched by its key; a
   * failed fetch writes a 404 and the handler carries on, so a 200 envelope
   * holding the zero food follows it (`notFound` records the 404).  The UPC
   * lookup assigns the package `err`.
   */
  method FoodFdcID<T>(st: PackageState, id: string, upcToFdcId: string -> UpcLookup, get: string -> Option<T>, zero: T)
    returns (issued: Option<string>, notFound: bool, r: Outcome<BrowseResult<T>>)
    modifies st
    ensures issued.None? <==> id == ""
    ensures id == "" ==> r == Fail(StatusBadRequest, MissingParameter) && !notFound && st.err == old(st.err)
    ensures id != "" ==>
      issued == Some(SingleIdKey(id, upcToFdcId))
      && notFound == get(issued.value).None?
      && r == Ok(BrowseResult(1, 0, 1, [if notFound then zero else get(issued.value).value]))
      && st.err == SingleIdErr(old(st.err), id, upcToFdcId)
  {
    if id == "" {
      return None, false, Fail(StatusBadRequest, MissingParameter);
    }
    var q := id;
    if Utf8Len(q) > 7 {
      var lookup := upcToFdcId(q);
      q := lookup.fdcId;
      if lookup.errWrite.Some? {
        st.err := lookup.errWrite.value;
      }
    }
    issued := Some(q);
    var f := zero;
    notFound := false;
    match get(q) {
      case None =>
        notFound := true;
      case Some(food) =>
        f := food;
    }
    r := Ok(BrowseResult(1, 0, 1, [f]));
  }

  /**
   * foodFdcIds: the ids, UPCs rewritten, go into one id list; more than 24
   * is a 400.  A failed query leaves the item list empty.  The UPC lookups
   * assign the package `err`.
   */
  method FoodFdcIds<T>(st: PackageState, ids: seq<string>, upcToFdcId: string -> UpcLookup, query: string -> seq<T>)
    returns (issued: Option<string>, r: Outcome<BrowseResult<T>>)
    modifies st
    ensures st.err == ErrAfter(old(st.err), ids, upcToFdcId)
    ensures issued.None? <==> |ids| > MaxIds
    ensures issued.None? ==> r == Fail(StatusBadRequest, TooManyIds)
    ensures issued.Some? ==>
      issued.value == IdListLiteral(ResolveAll(ids, upcToFdcId))
      && var f := query(issued.value);
         r == Ok(BrowseResult(ToInt32(|f|), 0, ToInt32(|f|), f))
  {
    var ids2 := GetFdcIDs(st, ids, upcToFdcId);
    assert ids2 == ResolveAll(ids, upcToFdcId);
    var qids, tooMany := BuildIDList(ids2);
    if tooMany {
      return None, Fail(StatusBadRequest, TooManyIds);
    }
    issued := Some(qids);
    var f := query(qids);
    r := Ok(BrowseResult(ToInt32(|f|), 0, ToInt32(|f|), f));
  }

  // ---------------------------------------------------------------------
  // nutrientFdcID, nutrientFdcIDs

  /** Which nutrient rows a lookup asks for. */
  datatype NutrientQuery =
    | ByKeys(keyList: string)          // rows whose document key is in the list
    | ByKeysOrdered(keyList: string)   // the same rows, ordered by fdcId
    | ByFdcId(fdcId: string)           // every row of one food
    | ByFdcIds(idList: string)         // every row of the listed foods, ordered by fdcId

  /** The id list as the nutrient lookups use it: the >24 error is dropped and the list is empty. */
  function IdListOrEmpty(ids: seq<string>): string
  {
    if |ids| > MaxIds then "" else IdListLiteral(ids)
  }

  /**
   * nutrientFdcID: no id is a 400.  With nutrient numbers the rows are
   * fetched by the food's composite keys, else by its fdcId; the rows make
   * one panel.  The UPC lookup assigns the package `err`.
   */
  method NutrientFdcID(st: PackageState, id: string, ns: seq<string>, upcToFdcId: string -> UpcLookup,
                       query: NutrientQuery -> seq<Row>)
    returns (issued: Option<NutrientQuery>, r: Outcome<NutrientFoodBrowse>)
    modifies st
    ensures issued.None? <==> id == ""
    ensures id == "" ==> r == Fail(StatusBadRequest, MissingParameter) && st.err == old(st.err)
    ensures id != "" ==> st.err == SingleIdErr(old(st.err), id, upcToFdcId)
    ensures id != "" && ns != [] ==> issued == Some(ByKeys(IdListOrEmpty(KeysFor(SingleIdKey(id, upcToFdcId), ns))))
    ensures id != "" && ns == [] ==> issued == Some(ByFdcId(SingleIdKey(id, upcToFdcId)))
    ensures issued.Some? ==>
      var rows := query(issued.value);
      r.Ok? && r.value.nutrients == Items(rows)
      && (rows == [] ==> r.value.food == NoFood)
      && (rows != [] ==> r.value.food == PanelHeader(rows[0].food))
  {
    if id == "" {
      return None, Fail(StatusBadRequest, MissingParameter);
    }
    var q := id;
    if Utf8Len(q) > 7 {
      var lookup := upcToFdcId(q);
      q := lookup.fdcId;
      if lookup.errWrite.Some? {
        st.err := lookup.errWrite.value;
      }
    }
    var nq;
    if |ns| > 0 {
      var nids := NutrientKeys(q, ns);
      assert nids == KeysFor(q, ns);
      var qids, _ := BuildIDList(nids);
      nq := ByKeys(qids);
    } else {
      nq := ByFdcId(q);
    }
    issued := Some(nq);
    var panel := NutrientPanel(query(nq));
    r := Ok(panel);
  }

  /**
   * nutrientFdcIDs: the ids are rewritten first, and their UPC lookups
   * assign the package `err`; if it then holds an error, left there by those
   * lookups or by an earlier request, the answer is a 400 about the id
   * count.  Otherwise the rows, of every food with every nutrient number, or
   * of every food, are grouped into panels.
   */
  method NutrientFdcIDs(st: PackageState, ids: seq<string>, ns: seq<string>, upcToFdcId: string -> UpcLookup,
                        query: NutrientQuery -> seq<Row>)
    returns (issued: Option<NutrientQuery>, r: Outcome<seq<NutrientFoodBrowse>>)
    modifies st
    ensures st.err == ErrAfter(old(st.err), ids, upcToFdcId)
    ensures issued.None? <==> st.err
    ensures st.err ==> r == Fail(StatusBadRequest, TooManyIds)
    ensures !st.err && ns != [] ==> issued == Some(ByKeysOrdered(IdListOrEmpty(CrossKeys(ResolveAll(ids, upcToFdcId), ns))))
    ensures !st.err && ns == [] ==> issued == Some(ByFdcIds(IdListOrEmpty(ResolveAll(ids, upcToFdcId))))
    ensures issued.Some? ==>
      var rows := query(issued.value);
      r.Ok? && |r.value| >= 1 && Flatten(r.value) == Items(rows)
      && (rows == [] ==> r.value == [NutrientFoodBrowse(NoFood, [])])
      && (rows != [] && KeysPresent(rows) ==> r.value == Runs(rows))
  {
    var ids2 := GetFdcIDs(st, ids, upcToFdcId);
    assert ids2 == ResolveAll(ids, upcToFdcId);
    if st.err {
      return None, Fail(StatusBadRequest, TooManyIds);
    }
    var nq;
    if |ns| > 0 {
      var nids := NutrientKeysIdMajor(ids2, ns);
      var qids, _ := BuildIDList(nids);
      nq := ByKeysOrdered(qids);
    } else {
      var qids, _ := BuildIDList(ids2);
      nq := ByFdcIds(qids);
    }
    issued := Some(nq);
    var nfbs := GroupNutrientRows(query(nq));
    r := Ok(nfbs);
  }
}
