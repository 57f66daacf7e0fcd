/**
 * Reshaping the flat nutrient rows of the datastore into nutrient panels.
 *
 * A row is one nutrient value of one food, already decoded into its two
 * views: the food-level fields and the nutrient item.  The multi-food
 * lookup groups consecutive rows with the same fdcId into one
 * NutrientFoodBrowse per run; the single-food lookup makes one panel of all
 * its rows.  `Runs` is the reference grouping: maximal runs of equal keys,
 * each headed by the food fields of its first row.
 */
module Aggregation {

  datatype NutrientItem = NutrientItem(
    nutrientNumber: string,
    nutrientName: string,
    valuePerPortion: real,
    valuePer100UnitServing: real,
    unit: string)

  /** The food-level fields of a panel. */
  datatype FoodHeader = FoodHeader(
    fdcId: string,
    upc: string,
    description: string,
    manufacturer: string,
    category: string,
    portion: string)

  /** The zero value of the header: every field empty. */
  const NoFood: FoodHeader := FoodHeader("", "", "", "", "", "")

  datatype Row = Row(food: FoodHeader, item: NutrientItem)

  datatype NutrientFoodBrowse = NutrientFoodBrowse(food: FoodHeader, nutrients: seq<NutrientItem>)

  /** The grouping key of a row. */
  function Key(r: Row): string
  {
    r.food.fdcId
  }

  /** The nutrient items of the rows, in row order. */
  function Items(rows: seq<Row>): seq<NutrientItem>
  {
    seq(|rows|, i requires 0 <= i < |rows| => rows[i].item)
  }

  /** All the groups' nutrient lists, one after another. */
  function Flatten(groups: seq<NutrientFoodBrowse>): seq<NutrientItem>
  {
    if groups == [] then [] else groups[0].nutrients + Flatten(groups[1..])
  }

  /** No row carries the empty fdcId (the grouping pass uses "" for "no group yet"). */
  predicate KeysPresent(rows: seq<Row>)
  {
    forall i :: 0 <= i < |rows| ==> Key(rows[i]) != ""
  }

  /** The length of the leading run of rows whose key is `k`. */
  function RunLength(rows: seq<Row>, k: string): (n: nat)
    ensures n <= |rows|
    ensures forall i :: 0 <= i < n ==> Key(rows[i]) == k
    ensures n < |rows| ==> Key(rows[n]) != k
  {
    if rows == [] || Key(rows[0]) != k then 0 else 1 + RunLength(rows[1..], k)
  }

  /**
   * The reference grouping: the first group is the maximal run of rows
   * sharing the first row's key, headed by the first row's food fields and
   * holding the run's items; the rest of the rows are grouped the same way.
   */
  function Runs(rows: seq<Row>): seq<NutrientFoodBrowse>
    decreases |rows|
  {
    if rows == [] then []
    else
      var n := RunLength(rows, Key(rows[0]));
      [NutrientFoodBrowse(rows[0].food, Items(rows[..n]))] + Runs(rows[n..])
  }

  /** The group a row opens. */
  function Open(r: Row): NutrientFoodBrowse
  {
    NutrientFoodBrowse(r.food, [r.item])
  }

  // ---------------------------------------------------------------------
  // The grouping pass of the multi-food nutrient lookup

  /**
   * nutrientFdcIDs, rows to panels: one pass keeping a working panel `nfb`,
   * its item buffer `ndb` and the panels emitted so far `nfbs`.  A row whose
   * key differs from the working panel's emits the working panel (unless its
   * key is still "") and takes over the header; every row's item goes to the
   * buffer; the working panel is always emitted at the end.
   */
  method GroupNutrientRows(rows: seq<Row>) returns (nfbs: seq<NutrientFoodBrowse>)
    ensures |nfbs| >= 1
    ensures Flatten(nfbs) == Items(rows)
    ensures rows == [] ==> nfbs == [NutrientFoodBrowse(NoFood, [])]
    ensures rows != [] && KeysPresent(rows) ==> nfbs == Runs(rows)
  {
    var nfb := NutrientFoodBrowse(NoFood, []);
    var ndb: seq<NutrientItem> := [];
    nfbs := [];
    for i := 0 to |rows|
      invariant PassState(rows[..i], KeysPresent(rows), nfbs, nfb.food, ndb)
    {
      var nf := rows[i].food;
      var nfbi := rows[i].item;
      ghost var done, cur, pending := nfbs, nfb.food, ndb;
      if nf.fdcId != nfb.food.fdcId {
        if nfb.food.fdcId != "" {
          nfb := nfb.(nutrients := ndb);
          nfbs := nfbs + [nfb];
          ndb := [];
        }
        nfb := nfb.(food := nf);
      }
      ndb := ndb + [nfbi];
      assert rows[..i + 1] == rows[..i] + [rows[i]];
      PassStep(rows[..i], rows[i], KeysPresent(rows), done, cur, pending, nfbs, nfb.food, ndb);
    }
    assert rows[..|rows|] == rows;
    nfb := nfb.(nutrients := ndb);
    FlattenAppend(nfbs, [nfb]);
    FlattenSingle(nfb);
    nfbs := nfbs + [nfb];
  }

  /**
   * What the pass knows after the rows `p`: the emitted panels and the
   * buffer hold the rows' items in order; before any row nothing is emitted
   * and the header is empty; and, when every row has a key, the emitted
   * panels followed by the working one are the reference grouping of `p`.
   */
  ghost predicate PassState(p: seq<Row>, keyed: bool, done: seq<NutrientFoodBrowse>, cur: FoodHeader, buf: seq<NutrientItem>)
  {
    && Flatten(done) + buf == Items(p)
    && (p == [] ==> done == [] && buf == [] && cur == NoFood)
    && (keyed && p != [] ==> cur.fdcId == Key(p[|p| - 1]) != "" && done + [NutrientFoodBrowse(cur, buf)] == Runs(p))
  }

  /** One step of the pass keeps its state: `done'`, `cur'`, `buf'` are the state after row `r`. */
  lemma {:induction false} PassStep(p: seq<Row>, r: Row, keyed: bool, done: seq<NutrientFoodBrowse>, cur: FoodHeader, buf: seq<NutrientItem>,
                                    done': seq<NutrientFoodBrowse>, cur': FoodHeader, buf': seq<NutrientItem>)
    requires PassState(p, keyed, done, cur, buf)
    requires keyed ==> Key(r) != ""
    requires cur' == if Key(r) != cur.fdcId then r.food else cur
    requires done' == if Key(r) != cur.fdcId && cur.fdcId != "" then done + [NutrientFoodBrowse(cur, buf)] else done
    requires buf' == (if Key(r) != cur.fdcId && cur.fdcId != "" then [] else buf) + [r.item]
    ensures PassState(p + [r], keyed, done', cur', buf')
  {
    ItemsSnoc(p, r);
    if Key(r) != cur.fdcId && cur.fdcId != "" {
      FlattenAppend(done, [NutrientFoodBrowse(cur, buf)]);
      FlattenSingle(NutrientFoodBrowse(cur, buf));
    }
    if keyed {
      if p == [] {
        RunsSingle(r);
        assert p + [r] == [r];
        assert done' == [] && cur' == r.food && buf' == [r.item];
        assert Flatten(done') + buf' == Items(p + [r]);
        assert done' + [NutrientFoodBrowse(cur', buf')] == Runs(p + [r]);
      } else {
        GroupStep(p, r, done, cur, buf, done', cur', buf');
      }
    }
  }

  /**
   * One step of the pass, on rows with keys, against the reference grouping:
   * a row with the working key extends the buffer, any other row closes the
   * working panel and opens its own.
   */
  lemma {:induction false} GroupStep(p: seq<Row>, r: Row, done: seq<NutrientFoodBrowse>, cur: FoodHeader, buf: seq<NutrientItem>,
                                     done': seq<NutrientFoodBrowse>, cur': FoodHeader, buf': seq<NutrientItem>)
    requires p != [] && cur.fdcId == Key(p[|p| - 1])
    requires done + [NutrientFoodBrowse(cur, buf)] == Runs(p)
    requires Key(r) == cur.fdcId ==> done' == done && cur' == cur && buf' == buf + [r.item]
    requires Key(r) != cur.fdcId ==> done' == done + [NutrientFoodBrowse(cur, buf)] && cur' == r.food && buf' == [r.item]
    ensures done' + [NutrientFoodBrowse(cur', buf')] == Runs(p + [r])
  {
    RunsSnoc(p, r);
    var g := done + [NutrientFoodBrowse(cur, buf)];
    assert g[..|g| - 1] == done;
    if Key(r) == cur.fdcId {
      assert Runs(p + [r]) == ExtendLast(g, r.item);
    } else {
      assert Runs(p + [r]) == g + [Open(r)];
    }
  }

  // ---------------------------------------------------------------------
  // Lemmas about Items, Flatten, RunLength and Runs

  lemma {:induction false} ItemsSnoc(rows: seq<Row>, r: Row)
    ensures Items(rows + [r]) == Items(rows) + [r.item]
  {
  }

  lemma {:induction false} ItemsSplit(rows: seq<Row>, n: nat)
    requires n <= |rows|
    ensures Items(rows) == Items(rows[..n]) + Items(rows[n..])
  {
  }

  lemma {:induction false} FlattenSingle(g: NutrientFoodBrowse)
    ensures Flatten([g]) == g.nutrients
  {
    assert [g][1..] == [];
  }

  lemma {:induction false} FlattenAppend(g: seq<NutrientFoodBrowse>, h: seq<NutrientFoodBrowse>)
    ensures Flatten(g + h) == Flatten(g) + Flatten(h)
  {
    if g == [] {
      assert g + h == h;
    } else {
      assert (g + h)[1..] == g[1..] + h;
      FlattenAppend(g[1..], h);
    }
  }

  /** RunLength is determined by where the first other key stands. */
  lemma {:induction false} RunLengthIs(rows: seq<Row>, k: string, n: nat)
    requires n <= |rows|
    requires forall i :: 0 <= i < n ==> Key(rows[i]) == k
    requires n < |rows| ==> Key(rows[n]) != k
    ensures RunLength(rows, k) == n
  {
  }

  lemma {:induction false} RunsSingle(r: Row)
    ensures Runs([r]) == [Open(r)]
  {
    RunLengthIs([r], Key(r), 1);
    assert [r][..1] == [r];
    assert [r][1..] == [];
    assert Items([r]) == [r.item];
  }

  /** The key of the last group. */
  function LastKey(g: seq<NutrientFoodBrowse>): string
    requires g != []
  {
    g[|g| - 1].food.fdcId
  }

  /** The groups with one more item in the last group. */
  function ExtendLast(g: seq<NutrientFoodBrowse>, x: NutrientItem): seq<NutrientFoodBrowse>
    requires g != []
  {
    g[..|g| - 1] + [g[|g| - 1].(nutrients := g[|g| - 1].nutrients + [x])]
  }

  lemma {:induction false} ExtendLastCons(head: NutrientFoodBrowse, g: seq<NutrientFoodBrowse>, x: NutrientItem)
    requires g != []
    ensures ExtendLast([head] + g, x) == [head] + ExtendLast(g, x)
  {
    assert ([head] + g)[..|g|] == [head] + g[..|g| - 1];
  }

  /** What appending a row does to the groups. */
  function Appended(g: seq<NutrientFoodBrowse>, r: Row): seq<NutrientFoodBrowse>
    requires g != []
  {
    if Key(r) == LastKey(g) then ExtendLast(g, r.item) else g + [Open(r)]
  }

  /**
   * Appending a row to a non-empty input either extends the last group (same
   * key as the last row) or opens a new group after it (a different key).
   */
  lemma {:induction false} RunsSnoc(p: seq<Row>, r: Row)
    requires p != []
    ensures Runs(p) != [] && LastKey(Runs(p)) == Key(p[|p| - 1])
    ensures Runs(p + [r]) == Appended(Runs(p), r)
    decreases |p|
  {
    var n := RunLength(p, Key(p[0]));
    if n < |p| {
      RunsSnocLater(p, r, n);
    } else {
      RunsSnocFirst(p, r);
    }
  }

  /** RunsSnoc when the input is one run. */
  lemma {:induction false} RunsSnocFirst(p: seq<Row>, r: Row)
    requires p != [] && RunLength(p, Key(p[0])) == |p|
    ensures Runs(p) != [] && LastKey(Runs(p)) == Key(p[|p| - 1])
    ensures Runs(p + [r]) == Appended(Runs(p), r)
  {
    var k := Key(p[0]);
    var q := p + [r];
    assert p[|p|..] == [] && p[..|p|] == p;
    var head := NutrientFoodBrowse(p[0].food, Items(p));
    assert Runs(p) == [head];
    if Key(r) == k {
      RunLengthIs(q, k, |q|);
      assert q[..|q|] == q && q[|q|..] == [];
      ItemsSnoc(p, r);
      assert Runs(q) == [NutrientFoodBrowse(p[0].food, Items(q))];
    } else {
      RunLengthIs(q, k, |p|);
      assert q[..|p|] == p && q[|p|..] == [r];
      RunsSingle(r);
      assert Runs(q) == [head] + [Open(r)];
    }
  }

  /** RunsSnoc when the first run ends before the last row. */
  lemma {:induction false} RunsSnocLater(p: seq<Row>, r: Row, n: nat)
    requires p != [] && n == RunLength(p, Key(p[0])) && n < |p|
    ensures Runs(p) != [] && LastKey(Runs(p)) == Key(p[|p| - 1])
    ensures Runs(p + [r]) == Appended(Runs(p), r)
    decreases |p|, 0
  {
    var rest := p[n..];
    var head := NutrientFoodBrowse(p[0].food, Items(p[..n]));
    FirstRunKept(p, r, n);
    RunsSnoc(rest, r);
    assert rest[|rest| - 1] == p[|p| - 1];
    AppendedCons(head, Runs(rest), r);
  }

  /** A row appended after the first run leaves that run as it was. */
  lemma {:induction false} FirstRunKept(p: seq<Row>, r: Row, n: nat)
    requires p != [] && n == RunLength(p, Key(p[0])) && n < |p|
    ensures Runs(p) == [NutrientFoodBrowse(p[0].food, Items(p[..n]))] + Runs(p[n..])
    ensures Runs(p + [r]) == [NutrientFoodBrowse(p[0].food, Items(p[..n]))] + Runs(p[n..] + [r])
  {
    var q := p + [r];
    RunLengthIs(q, Key(p[0]), n);
    assert q[..n] == p[..n];
    assert q[n..] == p[n..] + [r];
  }

  /** Appending a row does not touch a group in front. */
  lemma {:induction false} AppendedCons(head: NutrientFoodBrowse, g: seq<NutrientFoodBrowse>, r: Row)
    requires g != []
    ensures LastKey([head] + g) == LastKey(g)
    ensures Appended([head] + g, r) == [head] + Appended(g, r)
  {
    if Key(r) == LastKey(g) {
      ExtendLastCons(head, g, r.item);
    } else {
      assert [head] + g + [Open(r)] == [head] + (g + [Open(r)]);
    }
  }

  /** The groups hold exactly the rows' items, in row order. */
  lemma {:induction false} RunsFlatten(rows: seq<Row>)
    ensures Flatten(Runs(rows)) == Items(rows)
    decreases |rows|
  {
    if rows != [] {
      var n := RunLength(rows, Key(rows[0]));
      var head := NutrientFoodBrowse(rows[0].food, Items(rows[..n]));
      assert ([head] + Runs(rows[n..]))[1..] == Runs(rows[n..]);
      RunsFlatten(rows[n..]);
      ItemsSplit(rows, n);
    }
  }

  /** Every group is non-empty, and neighbouring groups have different keys. */
  lemma {:induction false} RunsShape(rows: seq<Row>)
    ensures forall j :: 0 <= j < |Runs(rows)| ==> |Runs(rows)[j].nutrients| > 0
    ensures forall j :: 0 < j < |Runs(rows)| ==> Runs(rows)[j - 1].food.fdcId != Runs(rows)[j].food.fdcId
    decreases |rows|
  {
    if rows != [] {
      var n := RunLength(rows, Key(rows[0]));
      var rest := rows[n..];
      RunsShape(rest);
      if rest != [] {
        var n2 := RunLength(rest, Key(rest[0]));
        assert Runs(rest)[0].food.fdcId == Key(rest[0]) == Key(rows[n]);
      }
    }
  }

  /** Counting changes of key between neighbouring rows. */
  function KeyChanges(rows: seq<Row>): nat
  {
    if |rows| <= 1 then 0
    else KeyChanges(rows[..|rows| - 1]) + (if Key(rows[|rows| - 1]) != Key(rows[|rows| - 2]) then 1 else 0)
  }

  lemma {:induction false} AppendedLength(g: seq<NutrientFoodBrowse>, r: Row)
    requires g != []
    ensures |Appended(g, r)| == |g| + if Key(r) == LastKey(g) then 0 else 1
  {
  }

  /** A new group opens exactly where the key changes: one group, plus one per change. */
  lemma {:induction false} RunsCount(rows: seq<Row>)
    requires rows != []
    ensures |Runs(rows)| == 1 + KeyChanges(rows)
    decreases |rows|
  {
    if |rows| == 1 {
      RunsSingle(rows[0]);
      assert rows == [rows[0]];
    } else {
      var p, r := rows[..|rows| - 1], rows[|rows| - 1];
      RunsCount(p);
      assert p + [r] == rows;
      RunsCountStep(p, r);
    }
  }

  lemma {:induction false} RunsCountStep(p: seq<Row>, r: Row)
    requires p != [] && |Runs(p)| == 1 + KeyChanges(p)
    ensures |Runs(p + [r])| == 1 + KeyChanges(p + [r])
  {
    var rows := p + [r];
    RunsSnoc(p, r);
    AppendedLength(Runs(p), r);
    assert rows[..|rows| - 1] == p;
    assert rows[|rows| - 2] == p[|p| - 1];
  }

  // ---------------------------------------------------------------------
  // The grouping relies on rows arriving clustered by key

  /** Rows sharing a key stand next to each other. */
  predicate Clustered(rows: seq<Row>)
  {
    forall i, j, k :: 0 <= i < j < k < |rows| && Key(rows[i]) == Key(rows[k]) ==> Key(rows[j]) == Key(rows[i])
  }

  /** Rows in order of `before` (the order of `order by fdcId`) are clustered. */
  lemma {:induction false} SortedIsClustered(rows: seq<Row>, before: (string, string) -> bool)
    requires forall a, b :: before(a, b) && before(b, a) ==> a == b
    requires forall i, j :: 0 <= i < j < |rows| ==> before(Key(rows[i]), Key(rows[j]))
    ensures Clustered(rows)
  {
    forall i, j, k | 0 <= i < j < k < |rows| && Key(rows[i]) == Key(rows[k])
      ensures Key(rows[j]) == Key(rows[i])
    {
      assert before(Key(rows[i]), Key(rows[j]));
      assert before(Key(rows[j]), Key(rows[k]));
    }
  }

  lemma {:induction false} ClusteredAt(rows: seq<Row>, i: nat, j: nat, k: nat)
    requires Clustered(rows) && i < j < k < |rows|
    ensures Key(rows[i]) == Key(rows[k]) ==> Key(rows[j]) == Key(rows[i])
  {
  }

  function RowKeys(rows: seq<Row>): set<string>
  {
    set i | 0 <= i < |rows| :: Key(rows[i])
  }

  function GroupKeys(groups: seq<NutrientFoodBrowse>): set<string>
  {
    set j | 0 <= j < |groups| :: groups[j].food.fdcId
  }

  /** Every group's key is some row's key, and every row's key heads some group. */
  lemma {:induction false} RunsKeys(rows: seq<Row>)
    ensures GroupKeys(Runs(rows)) == RowKeys(rows)
    decreases |rows|
  {
    if rows != [] {
      var n := RunLength(rows, Key(rows[0]));
      var head := NutrientFoodBrowse(rows[0].food, Items(rows[..n]));
      RunsKeys(rows[n..]);
      assert Runs(rows) == [head] + Runs(rows[n..]);
      GroupKeysCons(head, Runs(rows[n..]));
      RowKeysSplit(rows, n);
    }
  }

  lemma {:induction false} GroupKeysCons(head: NutrientFoodBrowse, g: seq<NutrientFoodBrowse>)
    ensures GroupKeys([head] + g) == {head.food.fdcId} + GroupKeys(g)
  {
    forall x | x in GroupKeys([head] + g) ensures x in {head.food.fdcId} + GroupKeys(g) {
      var j :| 0 <= j < |[head] + g| && ([head] + g)[j].food.fdcId == x;
      if j > 0 { assert g[j - 1].food.fdcId == x; }
    }
    forall x | x in GroupKeys(g) ensures x in GroupKeys([head] + g) {
      var j :| 0 <= j < |g| && g[j].food.fdcId == x;
      assert ([head] + g)[j + 1].food.fdcId == x;
    }
    assert ([head] + g)[0].food.fdcId == head.food.fdcId;
  }

  lemma {:induction false} RowKeysSplit(rows: seq<Row>, n: nat)
    requires 0 < n <= |rows| && forall i :: 0 <= i < n ==> Key(rows[i]) == Key(rows[0])
    ensures RowKeys(rows) == {Key(rows[0])} + RowKeys(rows[n..])
  {
    forall x | x in RowKeys(rows) ensures x in {Key(rows[0])} + RowKeys(rows[n..]) {
      var i :| 0 <= i < |rows| && Key(rows[i]) == x;
      if i >= n { assert Key(rows[n..][i - n]) == x; }
    }
    forall x | x in RowKeys(rows[n..]) ensures x in RowKeys(rows) {
      var i :| 0 <= i < |rows[n..]| && Key(rows[n..][i]) == x;
      assert Key(rows[n + i]) == x;
    }
    assert Key(rows[0]) in RowKeys(rows);
  }

  /**
   * On clustered rows (as `order by fdcId` delivers them) the grouping emits
   * exactly one group per distinct fdcId: the groups' keys are pairwise
   * different and are exactly the rows' keys.
   */
  lemma {:induction false} ClusteredRunsDistinct(rows: seq<Row>)
    requires Clustered(rows)
    ensures GroupKeys(Runs(rows)) == RowKeys(rows)
    ensures forall a, b :: 0 <= a < b < |Runs(rows)| ==> Runs(rows)[a].food.fdcId != Runs(rows)[b].food.fdcId
    decreases |rows|
  {
    RunsKeys(rows);
    if rows != [] {
      var k := Key(rows[0]);
      var n := RunLength(rows, k);
      var rest := rows[n..];
      var head := NutrientFoodBrowse(rows[0].food, Items(rows[..n]));
      var g := Runs(rest);
      ClusteredAfterFirstRun(rows, n);
      ClusteredRunsDistinct(rest);
      assert Runs(rows) == [head] + g;
      forall a, b | 0 <= a < b < |Runs(rows)|
        ensures Runs(rows)[a].food.fdcId != Runs(rows)[b].food.fdcId
      {
        if a == 0 {
          assert Runs(rows)[b] == g[b - 1];
          assert g[b - 1].food.fdcId in GroupKeys(g);
        } else {
          assert Runs(rows)[a] == g[a - 1] && Runs(rows)[b] == g[b - 1];
        }
      }
    }
  }

  /** On clustered rows, what follows the first run is clustered and never has the first key again. */
  lemma {:induction false} ClusteredAfterFirstRun(rows: seq<Row>, n: nat)
    requires Clustered(rows) && rows != [] && n == RunLength(rows, Key(rows[0]))
    ensures Clustered(rows[n..])
    ensures Key(rows[0]) !in RowKeys(rows[n..])
  {
    ClusteredSuffix(rows, n);
    FirstKeyGone(rows, n);
  }

  lemma {:induction false} ClusteredSuffix(rows: seq<Row>, n: nat)
    requires Clustered(rows) && n <= |rows|
    ensures Clustered(rows[n..])
  {
    var rest := rows[n..];
    forall i, j, l | 0 <= i < j < l < |rest| && Key(rest[i]) == Key(rest[l])
      ensures Key(rest[j]) == Key(rest[i])
    {
      assert rest[i] == rows[n + i] && rest[j] == rows[n + j] && rest[l] == rows[n + l];
      ClusteredAt(rows, n + i, n + j, n + l);
    }
  }

  lemma {:induction false} FirstKeyGone(rows: seq<Row>, n: nat)
    requires Clustered(rows) && rows != [] && n == RunLength(rows, Key(rows[0]))
    ensures Key(rows[0]) !in RowKeys(rows[n..])
  {
    var rest := rows[n..];
    forall i | 0 <= i < |rest| ensures Key(rest[i]) != Key(rows[0]) {
      assert rest[i] == rows[n + i];
      if i > 0 {
        ClusteredAt(rows, 0, n, n + i);
      }
    }
  }

  /** Rows of one food form a single group holding all their items. */
  lemma {:induction false} SingleKeyOneRun(rows: seq<Row>)
    requires rows != []
    requires forall i :: 0 <= i < |rows| ==> Key(rows[i]) == Key(rows[0])
    ensures Runs(rows) == [NutrientFoodBrowse(rows[0].food, Items(rows))]
  {
    RunLengthIs(rows, Key(rows[0]), |rows|);
    assert rows[..|rows|] == rows;
    assert rows[|rows|..] == [];
  }

  // ---------------------------------------------------------------------
  // Worked examples

  /** One row per key, all carrying the same item. */
  function RowsWithKeys(keys: seq<string>, item: NutrientItem): seq<Row>
  {
    seq(|keys|, i requires 0 <= i < |keys| => Row(FoodHeader(keys[i], "", "", "", "", ""), item))
  }

  /** Keys A,A,A,B,B,C give three groups with 3, 2 and 1 items, in that order. */
  lemma {:induction false} SortedKeysExample(item: NutrientItem)
    ensures var g := Runs(RowsWithKeys(["A", "A", "A", "B", "B", "C"], item));
      |g| == 3 && |g[0].nutrients| == 3 && |g[1].nutrients| == 2 && |g[2].nutrients| == 1
      && g[0].food.fdcId == "A" && g[1].food.fdcId == "B" && g[2].food.fdcId == "C"
  {
    var rows := RowsWithKeys(["A", "A", "A", "B", "B", "C"], item);
    assert Key(rows[0]) == Key(rows[1]) == Key(rows[2]) == "A";
    assert Key(rows[3]) == Key(rows[4]) == "B" && Key(rows[5]) == "C";
    RunLengthIs(rows, "A", 3);
    var r1 := rows[3..];
    assert Key(r1[0]) == Key(r1[1]) == "B" && Key(r1[2]) == "C";
    RunLengthIs(r1, "B", 2);
    var r2 := r1[2..];
    RunLengthIs(r2, "C", 1);
    assert r2[1..] == [];
    var g2 := [NutrientFoodBrowse(r2[0].food, Items(r2[..1]))];
    assert Runs(r2) == g2 + Runs([]);
    var g1 := [NutrientFoodBrowse(r1[0].food, Items(r1[..2]))] + g2;
    assert Runs(r1) == g1;
    assert Runs(rows) == [NutrientFoodBrowse(rows[0].food, Items(rows[..3]))] + g1;
  }

  /** Keys A,B,A are not clustered: the grouping fragments them into three groups. */
  lemma {:induction false} UnsortedKeysExample(item: NutrientItem)
    ensures var g := Runs(RowsWithKeys(["A", "B", "A"], item));
      |g| == 3 && g[0].food.fdcId == "A" && g[1].food.fdcId == "B" && g[2].food.fdcId == "A"
  {
    var rows := RowsWithKeys(["A", "B", "A"], item);
    assert Key(rows[0]) == "A" && Key(rows[1]) == "B" && Key(rows[2]) == "A";
    RunLengthIs(rows, "A", 1);
    var r1 := rows[1..];
    assert Key(r1[0]) == "B" && Key(r1[1]) == "A";
    RunLengthIs(r1, "B", 1);
    var r2 := r1[1..];
    RunLengthIs(r2, "A", 1);
    assert r2[1..] == [];
    var g2 := [NutrientFoodBrowse(r2[0].food, Items(r2[..1]))];
    assert Runs(r2) == g2 + Runs([]);
    var g1 := [NutrientFoodBrowse(r1[0].food, Items(r1[..1]))] + g2;
    assert Runs(r1) == g1;
    assert Runs(rows) == [NutrientFoodBrowse(rows[0].food, Items(rows[..1]))] + g1;
  }

  // ---------------------------------------------------------------------
  // The single-food panel

  /** The header the single-food lookup returns: it copies fdcId, upc, description and portion only. */
  function PanelHeader(h: FoodHeader): FoodHeader
  {
    FoodHeader(h.fdcId, h.upc, h.description, "", "", h.portion)
  }

  /**
   * nutrientFdcID, rows to one panel: the header fields come from the first
   * row (none for no rows), and the panel holds every row's item in order.
   */
  method NutrientPanel(rows: seq<Row>) returns (panel: NutrientFoodBrowse)
    ensures panel.nutrients == Items(rows)
    ensures rows == [] ==> panel.food == NoFood
    ensures rows != [] ==> panel.food == PanelHeader(rows[0].food)
  {
    var haveFood := false;
    var ndd := NoFood;
    var ndb: seq<NutrientItem> := [];
    for i := 0 to |rows|
      invariant haveFood <==> i > 0
      invariant haveFood ==> ndd == rows[0].food
      invariant !haveFood ==> ndd == NoFood
      invariant ndb == Items(rows[..i])
    {
      var ndi := rows[i].item;
      if !haveFood {
        ndd := rows[i].food;
        haveFood := true;
      }
      ndb := ndb + [ndi];
      assert rows[..i + 1] == rows[..i] + [rows[i]];
      ItemsSnoc(rows[..i], rows[i]);
    }
    assert rows[..|rows|] == rows;
    panel := NutrientFoodBrowse(FoodHeader(ndd.fdcId, ndd.upc, ndd.description, "", "", ndd.portion), ndb);
  }
}
