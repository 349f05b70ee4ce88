/** The part of a pandas DataFrame the engine relies on: rows of optional cells,
    boolean row masks, boolean indexing, column extraction, `notna().sum()`, and
    the two ways a cross-tab splits the filtered rows into groups. */
module Frames {
  import opened Wrappers
  import opened Specs

  /** One respondent; `None` is a missing value (NaN). */
  type Row = seq<Option<Cell>>
  /** A column restricted to some rows, in row order (a Series). */
  type Column = seq<Option<Cell>>
  /** A boolean Series over every row of the dataset. */
  type Mask = seq<bool>

  datatype Frame = Frame(columns: seq<string>, rows: seq<Row>) {
    /** Column names are distinct and every row has one entry per column. */
    ghost predicate Valid() {
      && (forall i, j :: 0 <= i < j < |columns| ==> columns[i] != columns[j])
      && (forall k :: 0 <= k < |rows| ==> |rows[k]| == |columns|)
    }
  }

  /** `pd.Series(True, index=df.index)`. */
  function AllRows(n: nat): (m: Mask)
    ensures |m| == n && forall i :: 0 <= i < n ==> m[i]
  {
    seq(n, _ => true)
  }

  /** `a & b`. */
  function AndMask(a: Mask, b: Mask): (m: Mask)
    requires |a| == |b|
    ensures |m| == |a| && forall i :: 0 <= i < |a| ==> m[i] == (a[i] && b[i])
  {
    seq(|a|, i requires 0 <= i < |a| => a[i] && b[i])
  }

  /** `~a`. */
  function NotMask(a: Mask): (m: Mask)
    ensures |m| == |a| && forall i :: 0 <= i < |a| ==> m[i] == !a[i]
  {
    seq(|a|, i requires 0 <= i < |a| => !a[i])
  }

  /** `int(mask.sum())`. */
  function Count(m: Mask): (c: nat)
    ensures c <= |m|
    decreases |m|
  {
    if m == [] then 0 else Count(m[..|m| - 1]) + if m[|m| - 1] then 1 else 0
  }

  /** A segment and its complement together cover every row exactly once. */
  lemma {:induction false} CountComplement(m: Mask)
    ensures Count(m) + Count(NotMask(m)) == |m|
    decreases |m|
  {
    if m != [] {
      var init := m[..|m| - 1];
      assert NotMask(m)[..|m| - 1] == NotMask(init);
      CountComplement(init);
    }
  }

  /** `xs[mask]`: the entries whose mask entry is true, in order. */
  function Select<T>(xs: seq<T>, m: Mask): (r: seq<T>)
    requires |xs| == |m|
    ensures |r| == Count(m)
    ensures forall x :: x in r ==> x in xs
    decreases |xs|
  {
    if xs == [] then []
    else Select(xs[..|xs| - 1], m[..|m| - 1]) + if m[|m| - 1] then [xs[|xs| - 1]] else []
  }

  function CellAt(r: Row, ci: nat): Option<Cell> {
    if ci < |r| then r[ci] else None
  }

  /** `df[col]` for the column at position `ci`. */
  function ColumnOf(rows: seq<Row>, ci: nat): (c: Column)
    ensures |c| == |rows| && forall i :: 0 <= i < |rows| ==> c[i] == CellAt(rows[i], ci)
  {
    seq(|rows|, i requires 0 <= i < |rows| => CellAt(rows[i], ci))
  }

  /** `int(series.notna().sum())`. */
  function NonMissing(c: Column): (n: nat)
    ensures n <= |c|
    decreases |c|
  {
    if c == [] then 0 else NonMissing(c[..|c| - 1]) + if c[|c| - 1].Some? then 1 else 0
  }

  /** `name in df.columns`, with the position of the column. */
  function ColumnIndex(columns: seq<string>, name: string): (r: Option<nat>)
    ensures r.Some? ==> r.value < |columns| && columns[r.value] == name
    ensures r.None? ==> name !in columns
    decreases |columns|
  {
    if columns == [] then None
    else if columns[|columns| - 1] == name then Some(|columns| - 1)
    else ColumnIndex(columns[..|columns| - 1], name)
  }

  /** Number of rows that `m` selects and whose cell in column `ci` is present. */
  function PresentWhere(rows: seq<Row>, m: Mask, ci: nat): nat
    requires |rows| == |m|
    decreases |rows|
  {
    if rows == [] then 0
    else PresentWhere(rows[..|rows| - 1], m[..|m| - 1], ci)
         + if m[|m| - 1] && CellAt(rows[|rows| - 1], ci).Some? then 1 else 0
  }

  /** The base size of a selection is the number of selected rows with a present value. */
  lemma {:induction false} NonMissingSelected(rows: seq<Row>, m: Mask, ci: nat)
    requires |rows| == |m|
    ensures NonMissing(ColumnOf(Select(rows, m), ci)) == PresentWhere(rows, m, ci)
    decreases |rows|
  {
    if rows != [] {
      var init, mi := rows[..|rows| - 1], m[..|m| - 1];
      NonMissingSelected(init, mi, ci);
      var c := ColumnOf(Select(rows, m), ci);
      var ci0 := ColumnOf(Select(init, mi), ci);
      if m[|m| - 1] {
        assert c[..|c| - 1] == ci0;
      } else {
        assert c == ci0;
      }
    }
  }

  /** Intersecting with a mask and with its complement splits every selection in two. */
  lemma {:induction false} PresentSplit(rows: seq<Row>, base: Mask, seg: Mask, ci: nat)
    requires |rows| == |base| == |seg|
    ensures PresentWhere(rows, AndMask(base, seg), ci) + PresentWhere(rows, AndMask(base, NotMask(seg)), ci)
         == PresentWhere(rows, base, ci)
    decreases |rows|
  {
    if rows != [] {
      var n := |rows|;
      assert AndMask(base, seg)[..n - 1] == AndMask(base[..n - 1], seg[..n - 1]);
      assert NotMask(seg)[..n - 1] == NotMask(seg[..n - 1]);
      assert AndMask(base, NotMask(seg))[..n - 1] == AndMask(base[..n - 1], NotMask(seg[..n - 1]));
      PresentSplit(rows[..n - 1], base[..n - 1], seg[..n - 1], ci);
    }
  }

  /** A mask and its complement within a selection split the selection's rows in two. */
  lemma {:induction false} CountSplit(base: Mask, seg: Mask)
    requires |base| == |seg|
    ensures Count(AndMask(base, seg)) + Count(AndMask(base, NotMask(seg))) == Count(base)
    decreases |base|
  {
    if base != [] {
      var n := |base|;
      assert AndMask(base, seg)[..n - 1] == AndMask(base[..n - 1], seg[..n - 1]);
      assert AndMask(base, NotMask(seg))[..n - 1] == AndMask(base[..n - 1], NotMask(seg[..n - 1]));
      CountSplit(base[..n - 1], seg[..n - 1]);
    }
  }

  /** Selecting by `base & seg` is selecting by `base` and then, among the selected rows,
      by the entries of `seg` that `base` kept. */
  lemma {:induction false} SelectAndIsNested<T>(xs: seq<T>, base: Mask, seg: Mask)
    requires |xs| == |base| == |seg|
    ensures Select(xs, AndMask(base, seg)) == Select(Select(xs, base), Select(seg, base))
    decreases |xs|
  {
    if xs != [] {
      var n := |xs|;
      var xi, bi, si := xs[..n - 1], base[..n - 1], seg[..n - 1];
      var both := AndMask(base, seg);
      assert both[..n - 1] == AndMask(bi, si);
      SelectAndIsNested(xi, bi, si);
      var inner := Select(Select(xi, bi), Select(si, bi));
      assert Select(xs, both) == inner + if both[n - 1] then [xs[n - 1]] else [];
      var sx, ss := Select(xs, base), Select(seg, base);
      if base[n - 1] {
        assert sx == Select(xi, bi) + [xs[n - 1]];
        assert ss == Select(si, bi) + [seg[n - 1]];
        assert sx[..|sx| - 1] == Select(xi, bi);
        assert ss[..|ss| - 1] == Select(si, bi);
        assert Select(sx, ss) == inner + if seg[n - 1] then [xs[n - 1]] else [];
      } else {
        assert sx == Select(xi, bi);
        assert ss == Select(si, bi);
        assert Select(xs, both) == inner;
      }
    }
  }

  /** A cross-tab cell: its key and the metric column of its rows. */
  datatype Group = Group(key: string, column: Column)

  /** Distinct non-missing values of a column, in order of first appearance. */
  function Distinct(c: Column): (vs: seq<Cell>)
    ensures forall i, j :: 0 <= i < j < |vs| ==> vs[i] != vs[j]
    ensures forall v :: v in vs <==> Some(v) in c
    decreases |c|
  {
    if c == [] then []
    else
      var prev := Distinct(c[..|c| - 1]);
      var last := c[|c| - 1];
      assert c == c[..|c| - 1] + [last];
      if last.Some? && last.value !in prev then prev + [last.value] else prev
  }

  /** The rows whose cell in column `di` equals `v`. */
  function RowsWithValue(rows: seq<Row>, di: nat, v: Cell): (r: seq<Row>)
    ensures forall x :: x in r <==> x in rows && CellAt(x, di) == Some(v)
    decreases |rows|
  {
    if rows == [] then []
    else
      var last := rows[|rows| - 1];
      assert rows == rows[..|rows| - 1] + [last];
      RowsWithValue(rows[..|rows| - 1], di, v) + if CellAt(last, di) == Some(v) then [last] else []
  }

  /** `df.groupby(dim_col)`: one group per distinct non-missing dimension value
      (rows with a missing key are dropped), labelled by `show`, holding the metric column. */
  function GroupByValue(show: Cell -> string, rows: seq<Row>, di: nat, ci: nat): (gs: seq<Group>)
    ensures |gs| == |Distinct(ColumnOf(rows, di))|
    ensures forall k :: 0 <= k < |gs| ==>
      var v := Distinct(ColumnOf(rows, di))[k];
      gs[k].key == show(v) && gs[k].column == ColumnOf(RowsWithValue(rows, di, v), ci)
  {
    var vs := Distinct(ColumnOf(rows, di));
    seq(|vs|, k requires 0 <= k < |vs| => Group(show(vs[k]), ColumnOf(RowsWithValue(rows, di, vs[k]), ci)))
  }

  /** The two groups of a segment dimension: the filtered rows inside the segment, under
      the segment id, and the filtered rows outside it, under `not_<id>`. The two split
      the filtered rows, and their non-missing metric values, in two. */
  function SegmentGroups(id: string, rows: seq<Row>, base: Mask, seg: Mask, ci: nat): (gs: seq<Group>)
    requires |rows| == |base| == |seg|
    ensures |gs| == 2 && gs[0].key == id && gs[1].key == "not_" + id
    ensures gs[0].column == ColumnOf(Select(rows, AndMask(base, seg)), ci)
    ensures gs[1].column == ColumnOf(Select(rows, AndMask(base, NotMask(seg))), ci)
    ensures |gs[0].column| + |gs[1].column| == Count(base)
    ensures NonMissing(gs[0].column) + NonMissing(gs[1].column) == NonMissing(ColumnOf(Select(rows, base), ci))
  {
    CountSplit(base, seg);
    NonMissingSelected(rows, AndMask(base, seg), ci);
    NonMissingSelected(rows, AndMask(base, NotMask(seg)), ci);
    NonMissingSelected(rows, base, ci);
    PresentSplit(rows, base, seg, ci);
    [ Group(id, ColumnOf(Select(rows, AndMask(base, seg)), ci)),
      Group("not_" + id, ColumnOf(Select(rows, AndMask(base, NotMask(seg))), ci)) ]
  }

  /** `groupby` drops the rows whose dimension value is missing and puts every other row
      in exactly one group, `k`: the group of its own value. */
  lemma GroupByValuePartition(rows: seq<Row>, di: nat, x: Row) returns (k: nat)
    requires x in rows && CellAt(x, di).Some?
    ensures var vs := Distinct(ColumnOf(rows, di));
            k < |vs| && vs[k] == CellAt(x, di).value && x in RowsWithValue(rows, di, vs[k])
    ensures var vs := Distinct(ColumnOf(rows, di));
            forall q :: 0 <= q < |vs| && x in RowsWithValue(rows, di, vs[q]) ==> q == k
  {
    var c := ColumnOf(rows, di);
    var vs := Distinct(c);
    var i :| 0 <= i < |rows| && rows[i] == x;
    assert c[i] == CellAt(x, di);
    k :| 0 <= k < |vs| && vs[k] == CellAt(x, di).value;
    assert x in RowsWithValue(rows, di, vs[k]);
  }
}
