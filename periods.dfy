/**
 * Periods and flag partitions: a row's period is the year-month prefix of its
 * Fecha text, the periods on offer are the sorted distinct periods of the
 * dataset with the latest one preselected, and the rows of a period split by
 * a boolean flag column (Deducible, Seleccionar) into a True side and a False
 * side.
 */
module Periods {

  import opened Frames

  const FechaCol: string := "Fecha"
  const PeriodCol: string := "Periodo"

  // ---------------------------------------------------------------------
  // The period of a row

  /** `x[:7] if isinstance(x, str) else ""` */
  function Period(c: Cell): string {
    if c.Text? then (if |c.s| <= 7 then c.s else c.s[..7]) else ""
  }

  function RowPeriod(row: Row): string {
    Period(Get(row, FechaCol))
  }

  /** A text date gives its first min(7, length) characters; anything else gives "". */
  lemma PeriodIsDatePrefix(c: Cell)
    ensures |Period(c)| <= 7
    ensures c.Text? ==> Period(c) <= c.s && |Period(c)| == (if |c.s| < 7 then |c.s| else 7)
    ensures !c.Text? ==> Period(c) == ""
  {
  }

  // ---------------------------------------------------------------------
  // Ordering strings (Python's str comparison, by code point)

  predicate LexLess(a: string, b: string) {
    if a == [] then b != []
    else b != [] && (a[0] < b[0] || (a[0] == b[0] && LexLess(a[1..], b[1..])))
  }

  lemma {:induction false} LexLessIrreflexive(a: string)
    ensures !LexLess(a, a)
  {
    if a != [] {
      LexLessIrreflexive(a[1..]);
    }
  }

  lemma {:induction false} LexLessTransitive(a: string, b: string, c: string)
    requires LexLess(a, b) && LexLess(b, c)
    ensures LexLess(a, c)
  {
    if a != [] && a[0] == b[0] && b[0] == c[0] {
      LexLessTransitive(a[1..], b[1..], c[1..]);
    }
  }

  lemma {:induction false} LexLessTotal(a: string, b: string)
    requires a != b
    ensures LexLess(a, b) || LexLess(b, a)
  {
    if a != [] && b != [] && a[0] == b[0] {
      assert a == [a[0]] + a[1..] && b == [b[0]] + b[1..];
      LexLessTotal(a[1..], b[1..]);
    }
  }

  lemma LexLessAsymmetric(a: string, b: string)
    requires LexLess(a, b)
    ensures !LexLess(b, a)
  {
    if LexLess(b, a) {
      LexLessTransitive(a, b, a);
      LexLessIrreflexive(a);
    }
  }

  // ---------------------------------------------------------------------
  // The list of periods: sorted(df["Periodo"].dropna().unique())

  predicate StrictlySorted(xs: seq<string>) {
    forall i, j :: 0 <= i < j < |xs| ==> LexLess(xs[i], xs[j])
  }

  function Elems(xs: seq<string>): (r: set<string>)
    ensures forall q :: q in r <==> q in xs
  {
    set q | q in xs
  }

  /** `p` put in its place in a sorted list of distinct strings. */
  function Insert(p: string, xs: seq<string>): seq<string> {
    if xs == [] then [p]
    else if p == xs[0] then xs
    else if LexLess(p, xs[0]) then [p] + xs
    else [xs[0]] + Insert(p, xs[1..])
  }

  /** The distinct periods of the rows, ascending. */
  function PeriodList(rows: seq<Row>): seq<string> {
    if rows == [] then []
    else Insert(RowPeriod(rows[|rows| - 1]), PeriodList(rows[..|rows| - 1]))
  }

  /** The periods the rows carry, as a set. */
  function PeriodSet(rows: seq<Row>): set<string> {
    set i | 0 <= i < |rows| :: RowPeriod(rows[i])
  }

  lemma SortedTail(xs: seq<string>)
    requires StrictlySorted(xs) && xs != []
    ensures StrictlySorted(xs[1..])
  {
    var tail := xs[1..];
    forall i, j | 0 <= i < j < |tail| ensures LexLess(tail[i], tail[j]) {
      assert tail[i] == xs[i + 1] && tail[j] == xs[j + 1];
    }
  }

  /** A string below every element of a sorted list can be put in front of it. */
  lemma SortedCons(x: string, ys: seq<string>)
    requires StrictlySorted(ys)
    requires forall q :: q in Elems(ys) ==> LexLess(x, q)
    ensures StrictlySorted([x] + ys)
  {
    var r := [x] + ys;
    forall i, j | 0 <= i < j < |r| ensures LexLess(r[i], r[j]) {
      assert r[j] == ys[j - 1];
      assert r[j] in Elems(ys);
      if i > 0 {
        assert r[i] == ys[i - 1];
      }
    }
  }

  /** The head of a sorted list is below everything after it. */
  lemma HeadBelowTail(xs: seq<string>)
    requires StrictlySorted(xs) && xs != []
    ensures forall q :: q in Elems(xs[1..]) ==> LexLess(xs[0], q)
  {
    forall q | q in Elems(xs[1..]) ensures LexLess(xs[0], q) {
      var k :| 0 <= k < |xs[1..]| && xs[1..][k] == q;
      assert xs[k + 1] == q;
    }
  }

  lemma {:induction false} InsertElems(p: string, xs: seq<string>)
    ensures Elems(Insert(p, xs)) == Elems(xs) + {p}
  {
    if xs != [] && p != xs[0] && !LexLess(p, xs[0]) {
      InsertElems(p, xs[1..]);
      assert xs == [xs[0]] + xs[1..];
      assert Elems(xs) == {xs[0]} + Elems(xs[1..]);
      assert Elems(Insert(p, xs)) == {xs[0]} + Elems(Insert(p, xs[1..]));
    }
  }

  lemma {:induction false} InsertSorted(p: string, xs: seq<string>)
    requires StrictlySorted(xs)
    ensures StrictlySorted(Insert(p, xs))
    ensures Elems(Insert(p, xs)) == Elems(xs) + {p}
  {
    InsertElems(p, xs);
    if xs != [] && p != xs[0] {
      if LexLess(p, xs[0]) {
        HeadBelowTail(xs);
        forall q | q in Elems(xs) ensures LexLess(p, q) {
          if q != xs[0] {
            assert xs == [xs[0]] + xs[1..];
            assert q in Elems(xs[1..]);
            LexLessTransitive(p, xs[0], q);
          }
        }
        SortedCons(p, xs);
      } else {
        LexLessTotal(p, xs[0]);
        SortedTail(xs);
        InsertSorted(p, xs[1..]);
        HeadBelowTail(xs);
        SortedCons(xs[0], Insert(p, xs[1..]));
      }
    }
  }

  /** The period list is strictly ascending (so without repeats) and holds exactly the rows' periods. */
  lemma {:induction false} PeriodListSpec(rows: seq<Row>)
    ensures StrictlySorted(PeriodList(rows))
    ensures Elems(PeriodList(rows)) == PeriodSet(rows)
  {
    if rows != [] {
      var init := rows[..|rows| - 1];
      PeriodListSpec(init);
      InsertSorted(RowPeriod(rows[|rows| - 1]), PeriodList(init));
      assert PeriodSet(rows) == PeriodSet(init) + {RowPeriod(rows[|rows| - 1])} by {
        forall q | q in PeriodSet(rows) ensures q in PeriodSet(init) + {RowPeriod(rows[|rows| - 1])} {
          var i :| 0 <= i < |rows| && RowPeriod(rows[i]) == q;
          if i < |rows| - 1 {
            assert init[i] == rows[i];
          }
        }
        forall q | q in PeriodSet(init) ensures q in PeriodSet(rows) {
          var i :| 0 <= i < |init| && RowPeriod(init[i]) == q;
          assert init[i] == rows[i];
        }
      }
    }
  }

  /** A strictly ascending list is fixed by its elements: the period list is the only such list. */
  lemma {:induction false} SortedListUnique(xs: seq<string>, ys: seq<string>)
    requires StrictlySorted(xs) && StrictlySorted(ys)
    requires Elems(xs) == Elems(ys)
    ensures xs == ys
  {
    if xs != [] {
      assert xs[0] in Elems(xs);
    }
    if ys != [] {
      assert ys[0] in Elems(ys);
    }
    if xs != [] && ys != [] {
      assert xs[0] in Elems(xs) && ys[0] in Elems(ys);
      var i :| 0 <= i < |ys| && ys[i] == xs[0];
      var j :| 0 <= j < |xs| && xs[j] == ys[0];
      if i > 0 {
        assert LexLess(ys[0], xs[0]);
        if j > 0 {
          LexLessAsymmetric(xs[0], xs[j]);
        } else {
          LexLessIrreflexive(xs[0]);
        }
      }
      assert xs[0] == ys[0];
      var xt, yt := xs[1..], ys[1..];
      assert StrictlySorted(xt) by {
        forall a, b | 0 <= a < b < |xt| ensures LexLess(xt[a], xt[b]) {
          assert xt[a] == xs[a + 1] && xt[b] == xs[b + 1];
        }
      }
      assert StrictlySorted(yt) by {
        forall a, b | 0 <= a < b < |yt| ensures LexLess(yt[a], yt[b]) {
          assert yt[a] == ys[a + 1] && yt[b] == ys[b + 1];
        }
      }
      assert forall a :: 0 < a < |xs| ==> xs[a] != xs[0] by {
        forall a | 0 < a < |xs| ensures xs[a] != xs[0] {
          LexLessIrreflexive(xs[0]);
        }
      }
      assert forall a :: 0 < a < |ys| ==> ys[a] != ys[0] by {
        forall a | 0 < a < |ys| ensures ys[a] != ys[0] {
          LexLessIrreflexive(ys[0]);
        }
      }
      assert Elems(xt) == Elems(yt) by {
        forall q | q in xt ensures q in yt {
          var a :| 0 <= a < |xt| && xt[a] == q;
          assert xs[a + 1] == q;
          assert q in Elems(xs);
          var b :| 0 <= b < |ys| && ys[b] == q;
          assert b != 0;
          assert yt[b - 1] == q;
        }
        forall q | q in yt ensures q in xt {
          var b :| 0 <= b < |yt| && yt[b] == q;
          assert ys[b + 1] == q;
          assert q in Elems(ys);
          var a :| 0 <= a < |xs| && xs[a] == q;
          assert a != 0;
          assert xt[a - 1] == q;
        }
      }
      SortedListUnique(xt, yt);
      assert xs == [xs[0]] + xt && ys == [ys[0]] + yt;
    }
  }

  /** The preselected period: the last of the list (index len(periodos) - 1). */
  function DefaultPeriod(periods: seq<string>): string
    requires periods != []
  {
    periods[|periods| - 1]
  }

  /** A dataset with rows always offers a period, and the preselected one is the latest of them. */
  lemma DefaultIsLatest(rows: seq<Row>)
    requires rows != []
    ensures PeriodList(rows) != []
    ensures DefaultPeriod(PeriodList(rows)) in PeriodSet(rows)
    ensures forall q :: q in PeriodSet(rows) && q != DefaultPeriod(PeriodList(rows)) ==>
      LexLess(q, DefaultPeriod(PeriodList(rows)))
  {
    PeriodListSpec(rows);
    assert RowPeriod(rows[0]) in PeriodSet(rows);
    var ps := PeriodList(rows);
    assert ps[|ps| - 1] in ps;
    forall q | q in PeriodSet(rows) && q != DefaultPeriod(ps) ensures LexLess(q, DefaultPeriod(ps)) {
      assert q in ps;
      var i :| 0 <= i < |ps| && ps[i] == q;
    }
  }

  /** An empty selection means every available period. */
  function EffectiveSelection(selected: seq<string>, available: seq<string>): (r: seq<string>)
    ensures selected != [] ==> r == selected
    ensures selected == [] ==> r == available
  {
    if selected == [] then available else selected
  }

  // ---------------------------------------------------------------------
  // The rows of one period

  /** The row with its Periodo column filled in. */
  function Tagged(row: Row): Row {
    row[PeriodCol := Text(RowPeriod(row))]
  }

  /** `df[df["Periodo"] == p]` after tagging every row. */
  function RowsInPeriod(rows: seq<Row>, p: string): (r: seq<Row>)
    ensures |r| <= |rows|
  {
    if rows == [] then []
    else if RowPeriod(rows[0]) == p then [Tagged(rows[0])] + RowsInPeriod(rows[1..], p)
    else RowsInPeriod(rows[1..], p)
  }

  /** The period view: the dataset's rows of period `p`, in order, each tagged with it. */
  function PeriodView(f: Frame, p: string): Frame {
    Frame(f.columns + {PeriodCol}, RowsInPeriod(f.rows, p))
  }

  /** A tagged row keeps every other column. */
  lemma TaggedKeepsColumns(row: Row)
    ensures Get(Tagged(row), PeriodCol) == Text(RowPeriod(row))
    ensures forall k :: k != PeriodCol ==> Get(Tagged(row), k) == Get(row, k)
  {
  }

  /**
   * The view is a filter with tagging: one row gives itself tagged or
   * nothing, and the view of two blocks is the two views in order.
   */
  lemma {:induction false} RowsInPeriodConcat(a: seq<Row>, b: seq<Row>, p: string)
    ensures RowsInPeriod([], p) == []
    ensures forall row :: RowsInPeriod([row], p) == if RowPeriod(row) == p then [Tagged(row)] else []
    ensures RowsInPeriod(a + b, p) == RowsInPeriod(a, p) + RowsInPeriod(b, p)
  {
    forall row ensures RowsInPeriod([row], p) == if RowPeriod(row) == p then [Tagged(row)] else [] {
      assert [row][1..] == [];
    }
    if a == [] {
      assert a + b == b;
    } else {
      assert (a + b)[0] == a[0];
      assert (a + b)[1..] == a[1..] + b;
      RowsInPeriodConcat(a[1..], b, p);
    }
  }

  /** The view holds the tagged rows of exactly that period, in dataset order. */
  lemma {:induction false} RowsInPeriodExactly(rows: seq<Row>, p: string)
    ensures forall x :: x in RowsInPeriod(rows, p) <==> exists i :: 0 <= i < |rows| && RowPeriod(rows[i]) == p && x == Tagged(rows[i])
    ensures forall x :: x in RowsInPeriod(rows, p) ==> Get(x, PeriodCol) == Text(p)
    ensures rows != [] && p == DefaultPeriod(PeriodList(rows)) ==> RowsInPeriod(rows, p) != []
  {
    if rows != [] {
      RowsInPeriodExactly(rows[1..], p);
      var r := RowsInPeriod(rows, p);
      forall x | x in r ensures exists i :: 0 <= i < |rows| && RowPeriod(rows[i]) == p && x == Tagged(rows[i]) {
        if RowPeriod(rows[0]) == p && x == Tagged(rows[0]) {
        } else {
          assert x in RowsInPeriod(rows[1..], p);
          var i :| 0 <= i < |rows[1..]| && RowPeriod(rows[1..][i]) == p && x == Tagged(rows[1..][i]);
          assert rows[1..][i] == rows[i + 1];
        }
      }
      forall x | exists i :: 0 <= i < |rows| && RowPeriod(rows[i]) == p && x == Tagged(rows[i]) ensures x in r {
        var i :| 0 <= i < |rows| && RowPeriod(rows[i]) == p && x == Tagged(rows[i]);
        if i > 0 {
          assert rows[1..][i - 1] == rows[i];
        }
      }
      if p == DefaultPeriod(PeriodList(rows)) {
        DefaultIsLatest(rows);
        var i :| 0 <= i < |rows| && RowPeriod(rows[i]) == p;
        assert Tagged(rows[i]) in r;
      }
    }
  }

  // ---------------------------------------------------------------------
  // Splitting by a flag column

  /** `df[col] == b` elementwise: a boolean cell, or the number 1 or 0 (Python's True == 1). */
  predicate FlagIs(c: Cell, b: bool) {
    c == Bool(b) || c == Num(if b then 1.0 else 0.0)
  }

  /** `df[df[col] == b]` */
  function WithFlag(rows: seq<Row>, col: string, b: bool): (r: seq<Row>)
    ensures |r| <= |rows|
    ensures IsSubseq(r, rows)
    ensures forall x :: x in r <==> x in rows && FlagIs(Get(x, col), b)
  {
    if rows == [] then []
    else if FlagIs(Get(rows[0], col), b) then [rows[0]] + WithFlag(rows[1..], col, b)
    else WithFlag(rows[1..], col, b)
  }

  /** Every flag reads as True or as False. */
  predicate AllFlagged(rows: seq<Row>, col: string) {
    forall i :: 0 <= i < |rows| ==> FlagIs(Get(rows[i], col), true) || FlagIs(Get(rows[i], col), false)
  }

  /** The rows whose flag reads as neither True nor False (NaN, text, other numbers). */
  function Unflagged(rows: seq<Row>, col: string): (r: seq<Row>)
    ensures forall x :: x in r <==> x in rows && !FlagIs(Get(x, col), true) && !FlagIs(Get(x, col), false)
  {
    if rows == [] then []
    else if FlagIs(Get(rows[0], col), true) || FlagIs(Get(rows[0], col), false) then Unflagged(rows[1..], col)
    else [rows[0]] + Unflagged(rows[1..], col)
  }

  /** Where no row has the flag column, every flag reads as NaN: no row on either side, all of them unflagged. */
  lemma {:induction false} MissingFlagSelectsNothing(rows: seq<Row>, col: string, b: bool)
    requires forall i :: 0 <= i < |rows| ==> col !in rows[i]
    ensures WithFlag(rows, col, b) == [] && Unflagged(rows, col) == rows
  {
    if rows != [] {
      MissingFlagSelectsNothing(rows[1..], col, b);
      assert rows == [rows[0]] + rows[1..];
    }
  }

  /** Every row lands on exactly one of the True side, the False side and the rest. */
  lemma {:induction false} ThreeWaySplit(rows: seq<Row>, col: string)
    ensures multiset(WithFlag(rows, col, true)) + multiset(WithFlag(rows, col, false)) + multiset(Unflagged(rows, col))
            == multiset(rows)
  {
    if rows != [] {
      ThreeWaySplit(rows[1..], col);
      assert rows == [rows[0]] + rows[1..];
    }
  }

  /**
   * The True side and the False side never share a row, together they are
   * part of the rows, and they cover all of them exactly when every flag
   * reads as True or False.
   */
  lemma FlagPartition(rows: seq<Row>, col: string)
    ensures forall x :: !(x in WithFlag(rows, col, true) && x in WithFlag(rows, col, false))
    ensures multiset(WithFlag(rows, col, true)) + multiset(WithFlag(rows, col, false)) <= multiset(rows)
    ensures |WithFlag(rows, col, true)| + |WithFlag(rows, col, false)| <= |rows|
    ensures |WithFlag(rows, col, true)| + |WithFlag(rows, col, false)| == |rows| <==> AllFlagged(rows, col)
  {
    ThreeWaySplit(rows, col);
    var t, f, u := WithFlag(rows, col, true), WithFlag(rows, col, false), Unflagged(rows, col);
    assert |multiset(t)| + |multiset(f)| + |multiset(u)| == |multiset(rows)|;
    if u != [] {
      assert u[0] in u;
      var i :| 0 <= i < |rows| && rows[i] == u[0];
    }
    if !AllFlagged(rows, col) {
      var i :| 0 <= i < |rows| && !(FlagIs(Get(rows[i], col), true) || FlagIs(Get(rows[i], col), false));
      assert rows[i] in u;
    }
  }

  /**
   * The Deducibles / No Deducibles (or Seleccionados / No Seleccionados)
   * views of a period are disjoint, and each holds only rows of that period
   * with its flag value.
   */
  lemma PeriodSplit(rows: seq<Row>, p: string, col: string, b: bool)
    ensures forall x :: x in WithFlag(RowsInPeriod(rows, p), col, b) ==>
      Get(x, PeriodCol) == Text(p) && FlagIs(Get(x, col), b) && !FlagIs(Get(x, col), !b) &&
      exists i :: 0 <= i < |rows| && RowPeriod(rows[i]) == p && x == Tagged(rows[i])
    ensures forall x :: !(x in WithFlag(RowsInPeriod(rows, p), col, true) && x in WithFlag(RowsInPeriod(rows, p), col, false))
  {
    RowsInPeriodExactly(rows, p);
    FlagPartition(RowsInPeriod(rows, p), col);
  }
}
