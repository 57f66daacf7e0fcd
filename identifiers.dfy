/**
 * Identifier handling of the food API: the heuristic that recognises a UPC
 * code, the batch rewrite of UPCs to FDC ids, the bounded `["a","b",...]`
 * list literal the queries interpolate, and the composite nutrient-data keys
 * `<fdcId>_<nutrientNumber>`.
 *
 * The UPC-to-FDC-id lookup is a datastore query; here it is a function
 * parameter `upcToFdcId` that says what the lookup returns and what it
 * leaves in the package-level `err`.
 */
module Identifiers {
  import opened Text
  import opened Outcomes
  import opened ServerState

  /** The hard cap of one id-list literal. */
  const MaxIds: nat := 24

  /**
   * One UPC lookup: the fdcId it returns ("" where the store finds nothing or
   * a row does not decode) and its write to the package-level `err`.  The
   * lookup's row loop assigns the package `err` once per decode step, so a
   * lookup that finds rows leaves `Some(false)`, or `Some(true)` when a row
   * does not decode; one that finds no row, or whose query fails, leaves
   * `None`: the package `err` keeps its value.
   */
  datatype UpcLookup = UpcLookup(fdcId: string, errWrite: Option<bool>)

  /** An id is taken for a UPC when it is longer than 7 bytes and all digits. */
  predicate LooksLikeUpc(id: string)
  {
    Utf8Len(id) > 7 && AllDigits(id)
  }

  /** Digits are one byte each, so the UPC test may count characters. */
  lemma UpcByCharacters(id: string)
    ensures LooksLikeUpc(id) <==> |id| > 7 && AllDigits(id)
  {
    if AllDigits(id) {
      assert forall i :: 0 <= i < |id| ==> id[i] as int < 0x80 by {
        forall i | 0 <= i < |id| ensures id[i] as int < 0x80 {
          assert IsDigit(id[i]);
        }
      }
    }
  }

  /** One id after the batch rewrite. */
  function Resolved(id: string, upcToFdcId: string -> UpcLookup): string
  {
    if LooksLikeUpc(id) then upcToFdcId(id).fdcId else id
  }

  function ResolveAll(ids: seq<string>, upcToFdcId: string -> UpcLookup): seq<string>
  {
    seq(|ids|, i requires 0 <= i < |ids| => Resolved(ids[i], upcToFdcId))
  }

  /** Whether rewriting `id` assigns the package `err`. */
  predicate WritesErr(id: string, upcToFdcId: string -> UpcLookup)
  {
    LooksLikeUpc(id) && upcToFdcId(id).errWrite.Some?
  }

  /** The package `err` after rewriting the ids in order, starting from `err`. */
  function ErrAfter(err: bool, ids: seq<string>, upcToFdcId: string -> UpcLookup): bool
  {
    if ids == [] then err
    else
      var last := ids[|ids| - 1];
      var before := ErrAfter(err, ids[..|ids| - 1], upcToFdcId);
      if WritesErr(last, upcToFdcId) then upcToFdcId(last).errWrite.value else before
  }

  /** Rewriting `ids[i]` is the last rewrite of `ids` that assigns the package `err`. */
  predicate LastWriter(ids: seq<string>, i: int, upcToFdcId: string -> UpcLookup)
  {
    0 <= i < |ids| && WritesErr(ids[i], upcToFdcId)
    && forall j :: i < j < |ids| ==> !WritesErr(ids[j], upcToFdcId)
  }

  /** When no lookup assigns the package `err`, the rewrite leaves it as it was. */
  lemma {:induction false} ErrAfterNoWrite(err: bool, ids: seq<string>, upcToFdcId: string -> UpcLookup)
    requires forall i :: 0 <= i < |ids| ==> !WritesErr(ids[i], upcToFdcId)
    ensures ErrAfter(err, ids, upcToFdcId) == err
  {
    if ids != [] {
      var p := ids[..|ids| - 1];
      assert forall i :: 0 <= i < |p| ==> p[i] == ids[i];
      ErrAfterNoWrite(err, p, upcToFdcId);
    }
  }

  /** Otherwise the package `err` is what the last lookup that assigned it left. */
  lemma {:induction false} ErrAfterLastWrite(err: bool, ids: seq<string>, upcToFdcId: string -> UpcLookup, i: int)
    requires LastWriter(ids, i, upcToFdcId)
    ensures ErrAfter(err, ids, upcToFdcId) == upcToFdcId(ids[i]).errWrite.value
  {
    if i < |ids| - 1 {
      var p := ids[..|ids| - 1];
      assert forall j :: 0 <= j < |p| ==> p[j] == ids[j];
      assert LastWriter(p, i, upcToFdcId);
      ErrAfterLastWrite(err, p, upcToFdcId, i);
    }
  }

  /** A stale error is cleared by a UPC whose lookup finds its food. */
  lemma StaleErrCleared(upcToFdcId: string -> UpcLookup)
    requires upcToFdcId("012345678905").errWrite == Some(false)
    ensures !ErrAfter(true, ["012345678905"], upcToFdcId)
  {
    UpcByCharacters("012345678905");
    assert ["012345678905"][..0] == [];
  }

  /**
   * getFdcIDs: rewrite every UPC-looking id, keep every other id, in order;
   * every lookup's write to the package `err` takes effect in turn.
   */
  method GetFdcIDs(st: PackageState, ids: seq<string>, upcToFdcId: string -> UpcLookup) returns (ids2: seq<string>)
    modifies st
    ensures |ids2| == |ids|
    ensures forall i :: 0 <= i < |ids| && LooksLikeUpc(ids[i]) ==> ids2[i] == upcToFdcId(ids[i]).fdcId
    ensures forall i :: 0 <= i < |ids| && !LooksLikeUpc(ids[i]) ==> ids2[i] == ids[i]
    ensures st.err == ErrAfter(old(st.err), ids, upcToFdcId)
  {
    ghost var err0 := st.err;
    ids2 := [];
    for i := 0 to |ids|
      invariant |ids2| == i
      invariant ids2 == ResolveAll(ids[..i], upcToFdcId)
      invariant st.err == ErrAfter(err0, ids[..i], upcToFdcId)
    {
      ErrAfterStep(err0, ids, i, upcToFdcId);
      ResolveAllStep(ids, i, upcToFdcId);
      var id := ids[i];
      if LooksLikeUpc(id) {
        var lookup := upcToFdcId(id);
        if lookup.errWrite.Some? {
          st.err := lookup.errWrite.value;
        }
        ids2 := ids2 + [lookup.fdcId];
      } else {
        ids2 := ids2 + [id];
      }
    }
    assert ids[..|ids|] == ids;
  }

  lemma {:induction false} ResolveAllStep(ids: seq<string>, i: nat, upcToFdcId: string -> UpcLookup)
    requires i < |ids|
    ensures ResolveAll(ids[..i + 1], upcToFdcId) == ResolveAll(ids[..i], upcToFdcId) + [Resolved(ids[i], upcToFdcId)]
  {
  }

  lemma {:induction false} ErrAfterStep(err: bool, ids: seq<string>, i: nat, upcToFdcId: string -> UpcLookup)
    requires i < |ids|
    ensures ErrAfter(err, ids[..i + 1], upcToFdcId)
      == if WritesErr(ids[i], upcToFdcId) then upcToFdcId(ids[i]).errWrite.value else ErrAfter(err, ids[..i], upcToFdcId)
  {
    assert ids[..i + 1][..i] == ids[..i];
  }

  /** A numeric id of nine characters is a UPC; one of six is an FDC id. */
  lemma UpcHeuristicExamples()
    ensures LooksLikeUpc("123456789")
    ensures !LooksLikeUpc("123456")
    ensures !LooksLikeUpc("12345678a")
  {
    UpcByCharacters("123456789");
    UpcByCharacters("123456");
    UpcByCharacters("12345678a");
    assert "12345678a"[8] == 'a';
  }

  // ---------------------------------------------------------------------
  // The id-list literal

  function Quote(id: string): string
  {
    "\"" + id + "\""
  }

  /** The quoted ids joined by commas, in input order. */
  function Elements(ids: seq<string>): string
  {
    if |ids| == 0 then ""
    else if |ids| == 1 then Quote(ids[0])
    else Quote(ids[0]) + "," + Elements(ids[1..])
  }

  /** The literal `["a","b",...]` of an admissible id list. */
  function IdListLiteral(ids: seq<string>): string
  {
    "[" + Elements(ids) + "]"
  }

  /** What the loop of buildIDList has built after the given ids: each quoted, each followed by a comma. */
  function QuotedTerms(ids: seq<string>): string
  {
    if ids == [] then "" else QuotedTerms(ids[..|ids| - 1]) + Quote(ids[|ids| - 1]) + ","
  }

  /**
   * buildIDList: more than 24 ids is an error (and the list is left "");
   * otherwise the literal of the ids, `[]` for none.
   */
  method BuildIDList(ids: seq<string>) returns (qids: string, tooMany: bool)
    ensures tooMany <==> |ids| > MaxIds
    ensures tooMany ==> qids == ""
    ensures !tooMany ==> qids == IdListLiteral(ids)
  {
    if |ids| > MaxIds {
      return "", true;
    }
    qids := "[";
    for i := 0 to |ids|
      invariant qids == "[" + QuotedTerms(ids[..i])
    {
      qids := qids + "\"" + ids[i] + "\",";
      assert ids[..i + 1][..i] == ids[..i];
    }
    assert ids[..|ids|] == ids;
    TrimmedTerms(ids);
    qids := Trim(qids, ',');
    qids := qids + "]";
    tooMany := false;
  }

  lemma {:induction false} ElementsSnoc(s: seq<string>, x: string)
    requires |s| > 0
    ensures Elements(s + [x]) == Elements(s) + "," + Quote(x)
  {
    if |s| > 1 {
      assert (s + [x])[1..] == s[1..] + [x];
      ElementsSnoc(s[1..], x);
      assert Elements(s + [x]) == Quote(s[0]) + "," + Elements(s[1..] + [x]);
      assert Elements(s) == Quote(s[0]) + "," + Elements(s[1..]);
    } else {
      assert (s + [x])[1..] == [x];
    }
  }

  lemma {:induction false} TermsAreElements(ids: seq<string>)
    requires |ids| > 0
    ensures QuotedTerms(ids) == Elements(ids) + ","
  {
    var p, x := ids[..|ids| - 1], ids[|ids| - 1];
    if p != [] {
      TermsAreElements(p);
      ElementsSnoc(p, x);
      assert p + [x] == ids;
    }
  }

  lemma {:induction false} ElementsEndInQuote(ids: seq<string>)
    requires |ids| > 0
    ensures |Elements(ids)| > 0 && Elements(ids)[|Elements(ids)| - 1] == '"'
  {
    if |ids| > 1 {
      ElementsEndInQuote(ids[1..]);
    }
  }

  /** Trimming the commas off what the loop built leaves `[` and the joined elements. */
  lemma TrimmedTerms(ids: seq<string>)
    ensures Trim("[" + QuotedTerms(ids), ',') == "[" + Elements(ids)
  {
    var s := "[" + QuotedTerms(ids);
    assert TrimLeft(s, ',') == s;
    if ids == [] {
      assert s == "[";
    } else {
      TermsAreElements(ids);
      ElementsEndInQuote(ids);
      var e := "[" + Elements(ids);
      assert s == e + ",";
      assert s[..|s| - 1] == e;
      assert TrimRight(s, ',') == TrimRight(e, ',');
      assert e[|e| - 1] == '"';
    }
  }

  // ---------------------------------------------------------------------
  // Reading a literal back: the partner of the list builder

  predicate NoQuote(id: string)
  {
    forall j :: 0 <= j < |id| ==> id[j] != '"'
  }

  /** Reads `"a","b",...` back into its ids. */
  function ParseElements(b: string): Option<seq<string>>
    decreases |b|
  {
    if |b| == 0 || b[0] != '"' then None
    else
      var k := IndexOf(b[1..], '"');
      if k == |b| - 1 then None
      else
        var rest := b[k + 2..];
        if rest == "" then Some([b[1..k + 1]])
        else if rest[0] != ',' then None
        else match ParseElements(rest[1..])
          case None => None
          case Some(more) => Some([b[1..k + 1]] + more)
  }

  /** Reads `[...]` back into its ids. */
  function ParseIdList(s: string): Option<seq<string>>
  {
    if |s| < 2 || s[0] != '[' || s[|s| - 1] != ']' then None
    else if |s| == 2 then Some([])
    else ParseElements(s[1..|s| - 1])
  }

  /** Reading one quoted id free of quotes, then what follows it. */
  lemma {:induction false} ParseFirstElement(x: string, tail: string, b: string)
    requires NoQuote(x) && b == Quote(x) + tail
    requires tail == "" || tail[0] == ','
    ensures tail == "" ==> ParseElements(b) == Some([x])
    ensures tail != "" && ParseElements(tail[1..]).Some? ==>
      ParseElements(b) == Some([x] + ParseElements(tail[1..]).value)
  {
    assert b[1..] == x + ("\"" + tail);
    IndexOfAfter(x, '"', "\"" + tail);
    assert b[1..|x| + 1] == x;
    assert b[|x| + 2..] == tail;
  }

  lemma {:induction false} ParseElementsOfElements(ids: seq<string>)
    requires |ids| > 0
    requires forall i :: 0 <= i < |ids| ==> NoQuote(ids[i])
    ensures ParseElements(Elements(ids)) == Some(ids)
  {
    if |ids| == 1 {
      ParseFirstElement(ids[0], "", Elements(ids));
      assert ids == [ids[0]];
    } else {
      ParseElementsOfElements(ids[1..]);
      ElementsCons(ids);
      ParseNextElement(ids[0], ids[1..], Elements(ids[1..]), Elements(ids));
      assert [ids[0]] + ids[1..] == ids;
    }
  }

  /** The inductive step: a first id in front of a list that reads back. */
  lemma {:induction false} ParseNextElement(x: string, more: seq<string>, e: string, b: string)
    requires NoQuote(x) && ParseElements(e) == Some(more)
    requires b == Quote(x) + ("," + e)
    ensures ParseElements(b) == Some([x] + more)
  {
    var t := "," + e;
    assert t[1..] == e;
    ParseFirstElement(x, t, b);
  }

  lemma {:induction false} ElementsCons(ids: seq<string>)
    requires |ids| > 1
    ensures Elements(ids) == Quote(ids[0]) + ("," + Elements(ids[1..]))
  {
    assert Elements(ids) == Quote(ids[0]) + "," + Elements(ids[1..]);
  }

  /**
   * Ids free of double quotes survive the literal: reading it back gives
   * exactly the ids, same number, same order.
   */
  lemma IdListRoundTrip(ids: seq<string>)
    requires forall i :: 0 <= i < |ids| ==> NoQuote(ids[i])
    ensures ParseIdList(IdListLiteral(ids)) == Some(ids)
  {
    var s := IdListLiteral(ids);
    if ids == [] {
      assert s == "[]";
    } else {
      ParseElementsOfElements(ids);
      assert s[1..|s| - 1] == Elements(ids);
      assert |Elements(ids)| > 0 by { ElementsEndInQuote(ids); }
    }
  }

  /** Ids are interpolated unescaped: one id holding quotes reads as two ids. */
  lemma QuotedIdSplits()
    ensures IdListLiteral(["1\",\"2"]) == IdListLiteral(["1", "2"])
  {
  }

  // ---------------------------------------------------------------------
  // Composite nutrient-data keys

  /** The key of one nutrient row: `<fdcId>_<nutrientNumber>`. */
  function CompositeKey(id: string, n: string): string
  {
    id + "_" + n
  }

  /** The keys of one food for the requested nutrient numbers, in their order. */
  method NutrientKeys(id: string, ns: seq<string>) returns (nids: seq<string>)
    ensures |nids| == |ns|
    ensures forall i :: 0 <= i < |ns| ==> nids[i] == CompositeKey(id, ns[i])
  {
    nids := [];
    for i := 0 to |ns|
      invariant |nids| == i
      invariant forall k :: 0 <= k < i ==> nids[k] == CompositeKey(id, ns[k])
    {
      nids := nids + [CompositeKey(id, ns[i])];
    }
  }

  function KeysFor(id: string, ns: seq<string>): seq<string>
  {
    seq(|ns|, i requires 0 <= i < |ns| => CompositeKey(id, ns[i]))
  }

  /** Every id with every nutrient number, id-major. */
  function CrossKeys(ids: seq<string>, ns: seq<string>): seq<string>
  {
    if ids == [] then [] else CrossKeys(ids[..|ids| - 1], ns) + KeysFor(ids[|ids| - 1], ns)
  }

  /** The keys of a list of foods: the nested loop appends `ids[a]_ns[b]` id by id. */
  method NutrientKeysIdMajor(ids: seq<string>, ns: seq<string>) returns (nids: seq<string>)
    ensures nids == CrossKeys(ids, ns)
  {
    nids := [];
    for a := 0 to |ids|
      invariant nids == CrossKeys(ids[..a], ns)
    {
      ghost var before := nids;
      for b := 0 to |ns|
        invariant nids == before + KeysFor(ids[a], ns[..b])
      {
        nids := nids + [CompositeKey(ids[a], ns[b])];
        assert KeysFor(ids[a], ns[..b + 1]) == KeysFor(ids[a], ns[..b]) + [CompositeKey(ids[a], ns[b])];
      }
      assert ns[..|ns|] == ns;
      assert ids[..a + 1][..a] == ids[..a];
    }
    assert ids[..|ids|] == ids;
  }

  lemma {:induction false} CrossKeysLength(ids: seq<string>, ns: seq<string>)
    ensures |CrossKeys(ids, ns)| == |ids| * |ns|
  {
    if ids != [] {
      CrossKeysLength(ids[..|ids| - 1], ns);
      assert (|ids| - 1) * |ns| + |ns| == |ids| * |ns|;
    }
  }

  /** Id-major order: key number `a * |ns| + b` pairs the a-th id with the b-th nutrient. */
  lemma {:induction false} CrossKeysAt(ids: seq<string>, ns: seq<string>, a: nat, b: nat)
    requires a < |ids| && b < |ns|
    ensures |CrossKeys(ids, ns)| == |ids| * |ns|
    ensures a * |ns| + b < |ids| * |ns|
    ensures CrossKeys(ids, ns)[a * |ns| + b] == CompositeKey(ids[a], ns[b])
  {
    var m := |ns|;
    var p := ids[..|ids| - 1];
    CrossKeysLength(ids, ns);
    CrossKeysLength(p, ns);
    IndexBelow(a, b, m, |ids|);
    var left := CrossKeys(p, ns);
    assert CrossKeys(ids, ns) == left + KeysFor(ids[|ids| - 1], ns);
    if a == |p| {
      assert a * m + b == |left| + b;
    } else {
      IndexBelow(a, b, m, |p|);
      CrossKeysAt(p, ns, a, b);
      assert p[a] == ids[a];
    }
  }

  /** Row-major indices stay inside the table. */
  lemma IndexBelow(a: nat, b: nat, m: nat, n: nat)
    requires a < n && b < m
    ensures a * m + b < n * m
  {
    var k := n - (a + 1);
    assert n * m == a * m + m + k * m;
    assert k * m >= 0;
  }
}
