/**
 * Column totals (mostrar_sumatorias): each listed column is converted cell by
 * cell to a number, cells that do not convert are skipped, and the rest are
 * added; an empty column, or one where nothing converts, totals 0.
 */
module Summary {

  import opened Wrappers
  import opened Frames
  import opened Amounts
  import Periods

  /** resumen_cols */
  const SummaryColumns: seq<string> := [
    "Sub Total", "Descuento", "Total impuesto Trasladado",
    "Total impuesto Retenido", "Total", "Traslado IVA 0.160000 %"
  ]

  /** pd.to_numeric(cell, errors='coerce'); None is NaN. */
  function ToNumeric(c: Cell): Option<real> {
    match c
    case Text(s) => ParseDecimal(s)
    case Num(x) => Some(x)
    case Bool(_) => None
    case Missing => None
  }

  /** What one cell adds to a total: its value, or nothing when it is NaN. */
  function Contribution(c: Cell): real {
    match ToNumeric(c)
    case None => 0.0
    case Some(x) => x
  }

  /** Series.sum() after coercion: NaN cells are skipped. */
  function ColumnSum(rows: seq<Row>, col: string): real {
    if rows == [] then 0.0 else Contribution(Get(rows[0], col)) + ColumnSum(rows[1..], col)
  }

  /**
   * The totals of `cols` over `f`; None is the KeyError raised by the first
   * listed column the frame does not have.
   */
  method ColumnSums(f: Frame, cols: seq<string>) returns (sums: Option<map<string, real>>)
    ensures sums.None? <==> exists c :: c in cols && c !in f.columns
    ensures sums.Some? ==> sums.value.Keys == (set c | c in cols)
    ensures sums.Some? ==> forall c :: c in sums.value ==> sums.value[c] == ColumnSum(f.rows, c)
  {
    var acc: map<string, real> := map[];
    for i := 0 to |cols|
      invariant forall k :: 0 <= k < i ==> cols[k] in f.columns
      invariant acc.Keys == set k | 0 <= k < i :: cols[k]
      invariant forall c :: c in acc ==> acc[c] == ColumnSum(f.rows, c)
    {
      if cols[i] !in f.columns {
        return None;
      }
      acc := acc[cols[i] := ColumnSum(f.rows, cols[i])];
    }
    assert forall c :: c in cols ==> c in acc by {
      forall c | c in cols ensures c in acc {
        var k :| 0 <= k < |cols| && cols[k] == c;
      }
    }
    sums := Some(acc);
  }

  lemma {:induction false} ColumnSumConcat(a: seq<Row>, b: seq<Row>, col: string)
    ensures ColumnSum(a + b, col) == ColumnSum(a, col) + ColumnSum(b, col)
  {
    if a == [] {
      assert a + b == b;
    } else {
      assert (a + b)[0] == a[0];
      assert (a + b)[1..] == a[1..] + b;
      ColumnSumConcat(a[1..], b, col);
    }
  }

  /** A cell that does not convert adds nothing, wherever it sits. */
  lemma NonNumericSkipped(before: seq<Row>, row: Row, after: seq<Row>, col: string)
    requires ToNumeric(Get(row, col)).None?
    ensures ColumnSum(before + [row] + after, col) == ColumnSum(before, col) + ColumnSum(after, col)
  {
    ColumnSumConcat(before + [row], after, col);
    ColumnSumConcat(before, [row], col);
    assert [row][1..] == [];
  }

  /** A column where nothing converts, an empty one included, totals 0. */
  lemma {:induction false} NothingConvertsSumsZero(rows: seq<Row>, col: string)
    requires forall i :: 0 <= i < |rows| ==> ToNumeric(Get(rows[i], col)).None?
    ensures ColumnSum(rows, col) == 0.0
  {
    if rows != [] {
      assert forall i :: 0 <= i < |rows[1..]| ==> rows[1..][i] == rows[i + 1];
      NothingConvertsSumsZero(rows[1..], col);
    }
  }

  lemma UnreadableExamples()
    ensures Contribution(Text("abc")) == 0.0 && Contribution(Text("")) == 0.0
  {
    assert ParseDecimal("abc") == None by {
      assert !IsDigit('a');
    }
  }

  /** 100.00 + "abc" + "" + 50.00 totals 150: the unreadable and the empty cell are skipped. */
  lemma SumExample()
    ensures ColumnSum([map["Total" := Text("100.00")], map["Total" := Text("abc")],
                       map["Total" := Text("")], map["Total" := Text("50.00")]], "Total") == 150.0
  {
    var a, b, c, d := map["Total" := Text("100.00")], map["Total" := Text("abc")],
                      map["Total" := Text("")], map["Total" := Text("50.00")];
    HundredParses();
    FiftyParses();
    UnreadableExamples();
    assert ColumnSum([d], "Total") == 50.0 by {
      assert [d][1..] == [];
    }
    assert [c, d][1..] == [d];
    assert [b, c, d][1..] == [c, d];
    assert [a, b, c, d][1..] == [b, c, d];
  }

  /** The True, False and unflagged sides of a split total to the whole. */
  lemma {:induction false} SplitSums(rows: seq<Row>, flag: string, col: string)
    ensures ColumnSum(Periods.WithFlag(rows, flag, true), col) + ColumnSum(Periods.WithFlag(rows, flag, false), col) +
            ColumnSum(Periods.Unflagged(rows, flag), col) == ColumnSum(rows, col)
  {
    if rows != [] {
      SplitSums(rows[1..], flag, col);
    }
  }

  /** When every flag reads as True or False, the Deducibles and No Deducibles totals add up to the period's. */
  lemma SplitSumsAllFlagged(rows: seq<Row>, flag: string, col: string)
    requires Periods.AllFlagged(rows, flag)
    ensures ColumnSum(Periods.WithFlag(rows, flag, true), col) + ColumnSum(Periods.WithFlag(rows, flag, false), col)
            == ColumnSum(rows, col)
  {
    SplitSums(rows, flag, col);
  }
}
