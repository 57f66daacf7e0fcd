# fdc-api request and response logic in Dafny

The fdc-api server is a read-mostly REST API over USDA FoodData Central
documents. It runs on gin, with a Couchbase datastore behind it. Its handlers
in `api/routes.go` do three kinds of work:

- They validate and normalise request parameters: ids, UPC codes, sort
  fields and orders, page sizes, pages and nutrient value bounds.
- They turn those parameters into datastore requests: id-list literals,
  composite nutrient keys, where-clause fragments and offsets.
- They reshape what comes back into the JSON envelopes the API returns: the
  paginated `BrowseResult`, the nutrient panels, and the nutrient report.

This project models that logic without the HTTP context and without the
datastore. Each handler is a method:

- It receives the request parameters already extracted. A number that is
  absent or does not parse is `None`, and a body that does not bind is `None`.
- Every datastore call it makes is a function parameter.
- It returns the datastore request it issued, which is `None` when
  validation stopped it first.
- It returns its outcome: the response value, or the client-error status
  together with the check that failed.

The modules follow the source:

- `GoInt`: Go's `int32`/`int64`, the `int32(...)` conversion and the
  wrapping 64-bit product.
- `Outcomes`: the status codes 400 and 404, `Option`, and a handler's
  `Outcome`.
- `ServerState`: the package-level `err` of the server, as the class
  `PackageState`.
- `Text`: the digit test behind the UPC pattern, ASCII `strings.ToLower`,
  `strings.Trim`, `%d` and Go's byte length of a string.
- `Identifiers`: `getFdcIDs`, `buildIDList` with a reader that parses its
  literal back, and the composite keys `<fdcId>_<nutrientNumber>`.
- `Filters`: `sourceFilter`, `sortOrder`, the parameter whitelists and the
  browse where-clause.
- `Aggregation`: the rows-to-panels pass of `nutrientFdcIDs` against its
  reference grouping `Runs`, and the one-panel loop of `nutrientFdcID`.
- `Handlers`: `dictionaryBrowse`, `foodsBrowse`, `search`, `foodsSearchGet`,
  `foodsSearchPost`, `nutrientReportPost`, `foodFdcID`, `foodFdcIds`,
  `nutrientFdcID` and `nutrientFdcIDs`.

The request validators overwrite fields of the bound request one at a time.
Their methods (`NormalizeSearchRequest`, `NormalizeReportRequest`) do the same
to a local copy, and each is proved equal to a function stating the
normal form (`NormalizedSearch`, `NormalizedReport`). The package-level
`err` of the server is a field of the `PackageState` class:

- `dictionaryBrowse` writes it.
- `nutrientReportPost` writes it.
- `upcTofdcid` writes it for every UPC it looks up and finds, so
  `foodFdcID`, `foodFdcIds`, `nutrientFdcID` and `nutrientFdcIDs` write it
  too. The lookup is the function parameter `upcToFdcId`, which gives both
  the fdcId found and that write.
- `nutrientFdcIDs` reads it, after its own lookups have written it.

Some of what the code does is easy to miss, and the model follows it:

- A GET search and a food browse accept a negative `max`, while a posted
  search rejects it and a nutrient report replaces it by 50.
- A GET search and a food browse never reject a page size of 0.
- The single-id endpoints take every id longer than 7 bytes for a UPC,
  digits or not.
- Every failure of a food browse is a 404.

## Model

| member | source | states |
|---|---|---|
| GoInt.ToInt32 | api/routes.go:119 | `int32(x)` agrees with `x` modulo 2^32 and is `x` itself whenever `x` fits in 32 bits |
| GoInt.MulInt64 | api/routes.go:331 | the 64-bit `page * max` agrees with the exact product modulo 2^64 and equals it whenever it fits |
| GoInt.ProductOfInt32Fits | api/routes.go:112 | the product of two values parsed as 32-bit integers never wraps in 64 bits, so the dictionary and browse offsets are exact |
| Text.TrimLeft | api/routes.go:600 | trimming leading commas leaves a suffix of the input that does not start with a comma, and everything cut off is a comma |
| Text.TrimRight | api/routes.go:600 | trimming trailing commas leaves a prefix of the input that does not end in a comma, and everything cut off is a comma |
| Text.Trim | api/routes.go:600 | `strings.Trim` keeps exactly the part between the leading and the trailing run of commas: what it keeps neither starts nor ends with a comma, and everything cut off is a comma |
| Text.NatDecimal | api/routes.go:289 | `%d` of a natural number is a non-empty run of digits that denotes the number, with no leading zero |
| Text.IntDecimal | api/routes.go:289 | `%d` of an integer starts with a minus sign exactly when it is negative, and its digits denote the magnitude with no leading zero |
| Text.Utf8Len | api/routes.go:55 | Go's `len` of a string counts UTF-8 bytes: at least one and at most four times the number of characters, and exactly the number of characters precisely when the string is ASCII |
| Identifiers.GetFdcIDs | api/routes.go:607-621 | the output has the input's length and order. An id longer than 7 bytes and all digits is replaced by its lookup, and every other id is copied unchanged. The package `err` ends up as each lookup, in turn, left it |
| Identifiers.UpcHeuristicExamples | api/routes.go:613 | a nine-digit id is a UPC; a six-digit id and an eight-character id with a letter are not |
| Identifiers.UpcByCharacters | api/routes.go:613 | since digits are one byte each, the UPC test `len > 7` and all digits is the same as more than 7 characters and all digits |
| Identifiers.ErrAfterNoWrite | api/routes.go:637-646 | when no UPC lookup of the rewrite finds a row, the package `err` keeps the value it had |
| Identifiers.ErrAfterLastWrite | api/routes.go:637-646 | otherwise the package `err` holds what the last lookup that found rows left in it |
| Identifiers.StaleErrCleared | api/routes.go:188-189 | an error left in the package `err` is cleared by the lookup of a UPC whose row decodes, before `nutrientFdcIDs` tests it |
| Identifiers.BuildIDList | api/routes.go:588-604 | the error holds exactly when there are more than 24 ids, and the string is then empty; otherwise the string is `[`, each id quoted, comma-separated, in order, then `]` |
| Identifiers.TrimmedTerms | api/routes.go:597-600 | trimming commas from `[` followed by every quoted id plus a comma gives `[` and the comma-joined quoted ids |
| Identifiers.IdListRoundTrip | api/routes.go:588-604 | reading the id-list literal back gives the original ids, in order, when no id contains a quote |
| Identifiers.QuotedIdSplits | api/routes.go:598 | ids are interpolated unescaped: the single id `1","2` gives the same literal as the two ids `1` and `2` |
| Identifiers.NutrientKeys | api/routes.go:146-150 | one key per requested nutrient number, in order, each `<id>_<number>` |
| Identifiers.NutrientKeysIdMajor | api/routes.go:194-200 | the nested loop builds exactly `CrossKeys`: every id with every nutrient number, id-major |
| Identifiers.CrossKeysLength | api/routes.go:194-200 | there are as many composite keys as ids times nutrient numbers |
| Identifiers.CrossKeysAt | api/routes.go:194-200 | key number `a * len(ns) + b` pairs id `a` with nutrient number `b` |
| Filters.SourceFilter | api/routes.go:564-574 | no source gives the empty filter and only then; `BFPD` gives the clause naming both LI and GDSN; any other source gives the exact-match clause on that source |
| Filters.ExactSourceRecovered | api/routes.go:570-572 | the source named in an exact-match clause can be read back from it unchanged |
| Filters.SourceFilterInjective | api/routes.go:564-574 | two different sources never give the same filter |
| Filters.SortOrder | api/routes.go:576-585 | the order is accepted exactly when it is empty, `asc` or `desc`; an accepted order is `asc` or `desc`, a given one is kept, and an empty one becomes `asc` |
| Filters.FoodGroupFilter | api/routes.go:285-292 | no `fg` means no filter and only then; an `fg` that parses as an integer filters by group id, and any other `fg` filters by group description |
| Filters.BrowseWhere | api/routes.go:285-296 | the where-clause is the food type filter, then the food-group filter, then the source filter; it is the type filter alone when there is neither |
| Aggregation.RunLength | api/routes.go:217-229 | the leading run of rows with one key: all of its rows have the key, and the row after it does not |
| Aggregation.GroupNutrientRows | api/routes.go:207-241 | at least one panel is returned; the panels' items, concatenated, are the rows' items in order; no rows give one empty panel; when every row has an fdcId the panels are exactly the reference grouping `Runs` (maximal runs of one key, each headed by its first row's food fields) |
| Aggregation.PassStep | api/routes.go:217-236 | one row of the pass keeps its invariant: items so far are preserved, and the emitted panels plus the working one are the reference grouping of the rows read |
| Aggregation.RunsFlatten | api/routes.go:217-240 | the reference grouping loses, adds and reorders no item |
| Aggregation.RunsShape | api/routes.go:217-229 | every group is non-empty, and neighbouring groups have different keys, so a new group opens only where the key changes |
| Aggregation.RunsCount | api/routes.go:217-229 | the number of groups is one plus the number of key changes between neighbouring rows |
| Aggregation.RunsKeys | api/routes.go:217-236 | the groups' keys are exactly the rows' keys |
| Aggregation.SortedIsClustered | api/routes.go:202-206 | rows ordered by key (as `order by fdcId` delivers them) keep equal keys together |
| Aggregation.ClusteredRunsDistinct | api/routes.go:202-241 | on such rows there is exactly one group per distinct fdcId: group keys are pairwise different and are exactly the row keys |
| Aggregation.SingleKeyOneRun | api/routes.go:207-241 | rows of one food form one group holding all their items |
| Aggregation.SortedKeysExample | api/routes.go:207-241 | keys A,A,A,B,B,C give three groups A, B, C holding 3, 2 and 1 items |
| Aggregation.UnsortedKeysExample | api/routes.go:207-241 | keys A,B,A give three groups A, B, A |
| Aggregation.NutrientPanel | api/routes.go:155-171 | the panel holds every row's item in order; its header is the first row's fdcId, upc, description and portion, or the empty header when there are no rows |
| Handlers.DictionaryBrowse | api/routes.go:89-121 | an unknown type (none means NUT) is a 400 and nothing is asked of the store. Otherwise the store gets the type, `max` (default 300) and offset `page * max` (default page 0, clamped at 0). Its failure is a 404; otherwise the envelope holds the item count, the offset and max. The package `err` ends up saying whether the page failed to parse |
| Handlers.FoodsBrowse | api/routes.go:246-304 | every rejection is a 404. The checks are sort field, sort order, source, then page size. An accepted browse asks for `max` foods (default 50, at most 150) from offset `page * max`, filtered by the where-clause and sorted by a whitelisted field and order. Its envelope's start is the page, not the offset |
| Handlers.Search | api/routes.go:405-416 | the envelope exists exactly when the search succeeds. It holds the datastore's match count and items, with the request's offset and max whenever they fit in 32 bits |
| Handlers.SearchStartWraps | api/routes.go:414 | an offset of 2^31 reaches the envelope as start -2^31 |
| Handlers.FoodsSearchGet | api/routes.go:307-339 | a missing query or a max above 150 is a 400, and only these are rejected. Otherwise the search runs with max (default 50), offset `page * max` (page clamped at 0) and the server's index. A failed search is a 400 |
| Handlers.NormalizedSearchIsNormal | api/routes.go:350-368 | the search checks reject exactly the requests whose normal form would lack a query or have a max outside 1..150. The normal form keeps the query and search type, uses the server's index, and has offset `page * max` whenever that fits |
| Handlers.NormalizeSearchRequest | api/routes.go:350-368 | the field-by-field rewrite fails with a 400 exactly when the checks reject the request; otherwise it gives the normal form: max 0 becomes 50, the page is clamped and multiplied by max, and a REGEX search gets the `_kw` field |
| Handlers.FoodsSearchPost | api/routes.go:342-375 | an unbound body is a 400; a rejected request is a 400 naming the failed check; an accepted one runs its normal form, and a failed search is a 400 |
| Handlers.NormalizedReportIsNormal | api/routes.go:430-467 | the report checks reject exactly the requests whose normal form would break: max in 1..150, a known sort if any, order asc/desc, and 0 <= lower bound <= upper bound. The normal form keeps the sort and any given order verbatim |
| Handlers.NormalizeReportRequest | api/routes.go:430-467 | the field-by-field rewrite fails with a 400 exactly when the checks reject the request. Otherwise it gives the normal form: max <= 0 becomes 50, order defaults to desc, two zero bounds become [0, 100000], and the page is clamped and multiplied by max |
| Handlers.NutrientReportPost | api/routes.go:419-475 | an unbound body and a rejected request are 400s; an accepted request runs its normal form and its failure is a 400. The package `err` ends up saying whether the last of the bind and the report call failed |
| Handlers.SingleIdCountsBytes | api/routes.go:55 | an id of five two-byte letters is ten bytes long, so the single-id endpoints look it up as a UPC |
| Handlers.FoodFdcID | api/routes.go:44-66 | no id is a 400, and the package `err` is untouched. Otherwise an id longer than 7 bytes is looked up as a UPC, with the lookup's write to the package `err`, and the food fetched. A failed fetch records the 404 and still returns a 200 envelope holding the zero food |
| Handlers.FoodFdcIds | api/routes.go:70-86 | the package `err` ends up as the UPC lookups left it. More than 24 ids is a 400; otherwise the query gets the literal of the ids with UPCs rewritten, and the envelope counts the foods returned |
| Handlers.NutrientFdcID | api/routes.go:126-172 | no id is a 400. An id longer than 7 bytes is looked up as a UPC, with the lookup's write to the package `err`. With nutrient numbers the rows are fetched by the food's composite keys, an empty list when over 24; without them, by the food's id. The rows make one panel |
| Handlers.NutrientFdcIDs | api/routes.go:177-243 | the ids' UPC lookups write the package `err` first; the answer is a 400 exactly when it then holds an error, whether from those lookups or left by an earlier request. Otherwise the rows of the ids (UPCs rewritten), crossed with the nutrient numbers if any, are requested ordered by fdcId and grouped into panels as `GroupNutrientRows` states. An id list over 24 becomes empty |

## Left out

- gin plumbing is not modelled: `c.Param`, `c.Query`, `BindJSON`, `c.JSON`, and the XML/JSON negotiation of `errorout`. Handlers return an outcome instead, and error messages are reduced to the check that failed.
- The datastore is not modelled. `dc.Get`, `dc.Query`, `dc.Browse`, `dc.Search`, `dc.GetDictionary` and `dc.NutrientReport` are function parameters. The query text they receive is modelled as the request datatypes `DictionaryQuery`, `BrowseQuery`, `SearchRequest`, `NutrientReportRequest` and `NutrientQuery`, not as N1QL strings. Ignored errors of `dc.Query` are modelled as the rows returned.
- `upcTofdcid` is the function parameter `upcToFdcId`, because it is a datastore query. The parameter gives the fdcId returned and the write to the package `err`. The query text and the row decoding are not modelled. The error results it returns are discarded by every caller.
- The package `err` is modelled sequentially: each handler is one step on `PackageState`. gin serves requests concurrently, and a write by another request between a handler's own writes and its read of `err` (api/routes.go:188-189) is not modelled.
- The JSON re-decoding of rows in the nutrient lookups is not modelled; rows arrive already typed. As a result, fields a row lacks do not carry over from the previous row in the reused `nf`.
- countsGet, specDoc, userAdd, userDelete and userList are not modelled: they are counts, file reads and user-store writes. userDelete's write to the package `err` is therefore not modelled.
- `api/main.go` is not modelled apart from its constants 150 and 50 and its package `err`.
- The document-type names of the model package are not part of this model. The food type is taken to be `FOOD` and the nutrient-data type is left inside `NutrientQuery`. `foodsBrowse` gets the document-type table as the predicate parameter `isDocType`.
- The search type is modelled only as whether it is REGEX. Its JSON zero value is taken not to be REGEX.
- `strconv` parsing is not modelled, including the base-0 parse of `fg`: a parsed number is an `Option`. The numeric request fields of the model package are taken to be 64-bit integers.
- Report value bounds are `real`, because the handler only compares Go floats and never computes with them. NaN is not modelled.
- Text.ToLower: covers ASCII letters only. For the comparisons against `portion`, `100value`, `asc` and `desc` that differs from Go only on the few non-ASCII letters Go lowers onto an ASCII one (U+0130 becomes `i`).
- Aggregation.GroupNutrientRows: equals the reference grouping only when no row has an empty fdcId. The pass uses the empty fdcId to mean "no group yet", so rows with an empty fdcId are merged into the next keyed group. When no keyed row follows them, they form the last panel. That panel is headed by the first of them, or by the zero header when no keyed row precedes them either. Item order is preserved in every case.
- Handlers.NormalizeReportRequest: its `nr.Max < 0` test and the `&nr.Page == nil` test cannot succeed, so they add no branch.
- Handlers.FoodFdcID: the 404 write followed by a 200 is reported as `notFound` beside the 200 envelope, not as two responses.
