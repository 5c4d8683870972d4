/** Selecting rows by SKU family: `df[df['databaseSkuName'].str.startswith(p)]`
    (main.py:73 with "Standard", main.py:93 with "GP"). */
module Query {
  import opened Wrappers
  import opened Frame

  const STANDARD: string := "Standard"
  const GENERAL_PURPOSE: string := "GP"

  /** `sku.str.startswith(prefix)` is true for the row. */
  predicate HasPrefix(r: Row, prefix: string)
  {
    r.skuName.Some? && prefix <= r.skuName.value
  }

  /** The rows whose SKU starts with `prefix`, in their original order. */
  function KeepPrefix(rows: seq<Row>, prefix: string): (r: seq<Row>)
    ensures |r| <= |rows|
    ensures forall x :: x in r <==> x in rows && HasPrefix(x, prefix)
  {
    if rows == [] then []
    else
      var init := rows[..|rows| - 1];
      var last := rows[|rows| - 1];
      assert forall x :: x in rows <==> x in init || x == last;
      KeepPrefix(init, prefix) + (if HasPrefix(last, prefix) then [last] else [])
  }

  /** The positions of the rows `KeepPrefix` keeps, in increasing order. */
  function Kept(rows: seq<Row>, prefix: string): (idx: seq<nat>)
    ensures forall j :: 0 <= j < |idx| ==> idx[j] < |rows|
    ensures forall j, k :: 0 <= j < k < |idx| ==> idx[j] < idx[k]
    ensures forall i :: 0 <= i < |rows| ==> (i in idx <==> HasPrefix(rows[i], prefix))
  {
    if rows == [] then []
    else
      var init := rows[..|rows| - 1];
      var i := |rows| - 1;
      Kept(init, prefix) + (if HasPrefix(rows[i], prefix) then [i] else [])
  }

  /** The filter keeps exactly the rows with the prefix, each once, in their
      original order: result j is row `Kept(rows, prefix)[j]`. */
  lemma {:induction false} KeepPrefixSelects(rows: seq<Row>, prefix: string)
    ensures |KeepPrefix(rows, prefix)| == |Kept(rows, prefix)|
    ensures forall j :: 0 <= j < |Kept(rows, prefix)| ==>
      KeepPrefix(rows, prefix)[j] == rows[Kept(rows, prefix)[j]]
  {
    if rows != [] {
      var init := rows[..|rows| - 1];
      KeepPrefixSelects(init, prefix);
      var idx := Kept(init, prefix);
      forall j | 0 <= j < |idx| ensures rows[idx[j]] == init[idx[j]] {
      }
    }
  }

  /** Filtering a second time with the same prefix changes nothing. */
  lemma {:induction false} KeepPrefixIdempotent(rows: seq<Row>, prefix: string)
    ensures KeepPrefix(KeepPrefix(rows, prefix), prefix) == KeepPrefix(rows, prefix)
  {
    if rows != [] {
      var init, last := rows[..|rows| - 1], rows[|rows| - 1];
      var k := KeepPrefix(init, prefix);
      KeepPrefixIdempotent(init, prefix);
      if HasPrefix(last, prefix) {
        var r := k + [last];
        assert KeepPrefix(rows, prefix) == r;
        assert r[..|r| - 1] == k && r[|r| - 1] == last;
        assert KeepPrefix(r, prefix) == KeepPrefix(k, prefix) + [last];
      } else {
        assert KeepPrefix(rows, prefix) == k;
      }
    }
  }

  /** No SKU starts with both "Standard" and "GP": the DTU and vCore
      sections show disjoint sets of rows. */
  lemma StandardAndGeneralPurposeDisjoint(rows: seq<Row>)
    ensures forall x :: x in KeepPrefix(rows, STANDARD) ==> x !in KeepPrefix(rows, GENERAL_PURPOSE)
  {
    forall x | x in KeepPrefix(rows, STANDARD)
      ensures x !in KeepPrefix(rows, GENERAL_PURPOSE)
    {
      assert x.skuName.value[0] == 'S';
    }
  }

  /** `df[df['databaseSkuName'].str.startswith(prefix)]`. A frame without the
      SKU column raises KeyError; a missing SKU gives a NaN in the mask, which
      pandas refuses to index with. Otherwise every column is kept. */
  function Where(t: Table, prefix: string): (r: Result<Table, Fault>)
    ensures r.Ok? <==> SkuName.Header() in t.columns && forall i :: 0 <= i < |t.rows| ==> t.rows[i].skuName.Some?
    ensures r.Err? ==> r.error == if SkuName.Header() !in t.columns then KeyError(SkuName.Header()) else MissingSku
    ensures r.Ok? ==> r.value.columns == t.columns && r.value.rows == KeepPrefix(t.rows, prefix)
  {
    if SkuName.Header() !in t.columns then Err(KeyError(SkuName.Header()))
    else if exists i :: 0 <= i < |t.rows| && t.rows[i].skuName.None? then Err(MissingSku)
    else Ok(Table(t.columns, KeepPrefix(t.rows, prefix)))
  }

  /** Applying the same selection to its own result gives that result again. */
  lemma WhereIdempotent(t: Table, prefix: string)
    requires Where(t, prefix).Ok?
    ensures Where(Where(t, prefix).value, prefix) == Where(t, prefix)
  {
    var s := Where(t, prefix).value;
    forall i | 0 <= i < |s.rows| ensures s.rows[i].skuName.Some? {
      assert s.rows[i] in t.rows;
    }
    KeepPrefixIdempotent(t.rows, prefix);
  }
}
