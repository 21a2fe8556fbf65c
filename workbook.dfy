/**
 * The workbook export's data rules: spreadsheet column letters
 * (colnum_to_excel), the character filter that prepares amounts for numeric
 * conversion (limpiar_y_convertir_a_numerico), the 31-character sheet-name
 * limit, and which rows go to which sheet in the per-period and the
 * deductible/non-deductible exports.
 */
module Workbook {

  import opened Wrappers
  import opened Frames
  import opened Amounts
  import Periods

  // ---------------------------------------------------------------------
  // Column letters: bijective base 26, A = 1 ... Z = 26, AA = 27

  predicate IsUpper(c: char) {
    'A' <= c <= 'Z'
  }

  predicate AllUpper(s: string) {
    forall i :: 0 <= i < |s| ==> IsUpper(s[i])
  }

  /** The letters of column number `n` (1-based); "" for 0. */
  function Letters(n: nat): string
    decreases n
  {
    if n == 0 then "" else Letters((n - 1) / 26) + [(('A' as int) + (n - 1) % 26) as char]
  }

  /** colnum_to_excel: peel off the last letter while the number is not 0. */
  method ColumnLetters(n: nat) returns (s: string)
    ensures s == Letters(n)
  {
    var m := n;
    s := "";
    while m != 0
      invariant Letters(m) + s == Letters(n)
      decreases m
    {
      var q, r := (m - 1) / 26, (m - 1) % 26;
      var c := (('A' as int) + r) as char;
      assert Letters(m) == Letters(q) + [c];
      assert Letters(q) + ([c] + s) == (Letters(q) + [c]) + s;
      s := [c] + s;
      m := q;
    }
    assert Letters(0) + s == s;
  }

  /** The number a column name stands for. */
  function Decode(s: string): nat
    requires AllUpper(s)
  {
    if s == [] then 0 else Decode(s[..|s| - 1]) * 26 + (s[|s| - 1] as int - 'A' as int + 1)
  }

  /** Column names are upper-case letters, non-empty exactly for n >= 1. */
  lemma {:induction false} LettersShape(n: nat)
    ensures AllUpper(Letters(n))
    ensures Letters(n) == [] <==> n == 0
    decreases n
  {
    if n > 0 {
      LettersShape((n - 1) / 26);
    }
  }

  /** Reading the letters back gives the number. */
  lemma {:induction false} DecodeLetters(n: nat)
    ensures AllUpper(Letters(n))
    ensures Decode(Letters(n)) == n
    decreases n
  {
    LettersShape(n);
    if n > 0 {
      var q := (n - 1) / 26;
      DecodeLetters(q);
      var s := Letters(n);
      assert s[..|s| - 1] == Letters(q);
      assert s[|s| - 1] as int - 'A' as int == (n - 1) % 26;
    }
  }

  /** Division by 26 undoes q * 26 + d for a digit d. */
  lemma DivMod26(q: nat, d: int)
    requires 0 <= d < 26
    ensures (q * 26 + d) / 26 == q && (q * 26 + d) % 26 == d
  {
  }

  /** Every upper-case name is the name of its number. */
  lemma {:induction false} LettersDecode(s: string)
    requires AllUpper(s)
    ensures Letters(Decode(s)) == s
    decreases |s|
  {
    if s != [] {
      var init := s[..|s| - 1];
      var d := s[|s| - 1] as int - 'A' as int;
      assert 0 <= d < 26;
      LettersDecode(init);
      var n := Decode(s);
      assert n - 1 == Decode(init) * 26 + d;
      DivMod26(Decode(init), d);
      assert s == init + [s[|s| - 1]];
    }
  }

  /** Distinct columns get distinct names. */
  lemma LettersInjective(a: nat, b: nat)
    requires Letters(a) == Letters(b)
    ensures a == b
  {
    DecodeLetters(a);
    DecodeLetters(b);
  }

  lemma LettersExamples()
    ensures Letters(1) == "A" && Letters(26) == "Z" && Letters(27) == "AA"
    ensures Letters(52) == "AZ" && Letters(53) == "BA"
  {
    assert Letters(1) == "A";
    assert Letters(2) == "B";
    assert Letters(26) == "Z";
    assert Letters(27) == Letters(1) + "A";
    assert Letters(52) == Letters(1) + "Z";
    assert Letters(53) == Letters(2) + "A";
  }

  // ---------------------------------------------------------------------
  // The character filter: str.replace(r'[^0-9\.\-]', '')

  predicate NumberChar(c: char) {
    '0' <= c <= '9' || c == '.' || c == '-'
  }

  function Clean(s: string): (r: string)
    ensures IsSubseq(r, s)
    ensures forall i :: 0 <= i < |r| ==> NumberChar(r[i])
    ensures forall c :: multiset(r)[c] == if NumberChar(c) then multiset(s)[c] else 0
  {
    if s == [] then ""
    else if NumberChar(s[0]) then
      assert s == [s[0]] + s[1..];
      [s[0]] + Clean(s[1..])
    else
      assert s == [s[0]] + s[1..];
      Clean(s[1..])
  }

  /** A string made only of kept characters comes through cleaning unchanged. */
  lemma {:induction false} CleanKeepsNumber(s: string)
    requires forall i :: 0 <= i < |s| ==> NumberChar(s[i])
    ensures Clean(s) == s
  {
    if s != [] {
      assert NumberChar(s[0]);
      assert forall i :: 0 <= i < |s[1..]| ==> s[1..][i] == s[i + 1];
      CleanKeepsNumber(s[1..]);
      assert s == [s[0]] + s[1..];
    }
  }

  /** Cleaning is the identity exactly on strings made only of kept characters. */
  lemma CleanIdentity(s: string)
    ensures Clean(s) == s <==> forall i :: 0 <= i < |s| ==> NumberChar(s[i])
  {
    if forall i :: 0 <= i < |s| ==> NumberChar(s[i]) {
      CleanKeepsNumber(s);
    }
  }

  /** Cleaning twice is cleaning once. */
  lemma CleanIdempotent(s: string)
    ensures Clean(Clean(s)) == Clean(s)
  {
    CleanIdentity(Clean(s));
  }

  /** Cleaning works piece by piece. */
  lemma {:induction false} CleanConcat(a: string, b: string)
    ensures Clean(a + b) == Clean(a) + Clean(b)
  {
    if a == [] {
      assert a + b == b;
    } else {
      assert (a + b)[0] == a[0];
      assert (a + b)[1..] == a[1..] + b;
      CleanConcat(a[1..], b);
    }
  }

  /** A cell as the export converts it: cleaned text read as a number, NaN when that fails. */
  function ExportNumber(c: Cell): Cell {
    match c
    case Text(s) => (match ParseDecimal(Clean(s)) case Some(v) => Num(v) case None => Missing)
    case Num(x) => Num(x)
    case Bool(_) => Missing
    case Missing => Missing
  }

  /** The numeric columns of an exported sheet. */
  const NumericColumns: set<string> := {
    "Sub Total", "Descuento", "Total impuesto Trasladado", "Total impuesto Retenido", "Total", "Tipo de Cambio"
  }

  /** A row as exported: each numeric column the sheet has is converted; the rest is untouched. */
  function ExportRow(row: Row, columns: set<string>): (r: Row)
    ensures forall k :: k in NumericColumns && k in columns ==> Get(r, k) == ExportNumber(Get(row, k))
    ensures forall k :: !(k in NumericColumns && k in columns) ==> Get(r, k) == Get(row, k)
  {
    map k | k in row.Keys + (NumericColumns * columns) ::
      if k in NumericColumns && k in columns then ExportNumber(Get(row, k)) else row[k]
  }

  /** A converted cell is a number or NaN. */
  lemma ExportNumberIsNumeric(c: Cell)
    ensures ExportNumber(c).Num? || ExportNumber(c).Missing?
    ensures c.Text? && ParseDecimal(Clean(c.s)).Some? ==> ExportNumber(c) == Num(ParseDecimal(Clean(c.s)).value)
  {
  }

  // ---------------------------------------------------------------------
  // Sheets

  /** `name if len(name) <= 31 else name[:31]` */
  function SheetName(name: string): string {
    if |name| <= 31 then name else name[..31]
  }

  lemma SheetNameBounds(name: string)
    ensures |SheetName(name)| <= 31
    ensures SheetName(name) <= name
    ensures |name| <= 31 ==> SheetName(name) == name
    ensures |name| > 31 ==> |SheetName(name)| == 31
  {
  }

  datatype Sheet = Sheet(name: string, rows: seq<Row>)

  /** The by-period export: one sheet per selected period, holding that period's rows. */
  function PeriodSheets(f: Frame, periods: seq<string>): seq<Sheet> {
    seq(|periods|, i requires 0 <= i < |periods| =>
      Sheet(SheetName(periods[i]), ExportRows(Periods.RowsInPeriod(f.rows, periods[i]), f.columns + {Periods.PeriodCol})))
  }

  function ExportRows(rows: seq<Row>, columns: set<string>): seq<Row> {
    seq(|rows|, i requires 0 <= i < |rows| => ExportRow(rows[i], columns))
  }

  const DeductibleLabel: string := " - Deducibles"
  const NonDeductibleLabel: string := " - No Deducibles"

  /** One period's two sheets: its deductible rows, then its non-deductible rows. */
  function PeriodPair(f: Frame, p: string): (Sheet, Sheet) {
    var inPeriod := Periods.RowsInPeriod(f.rows, p);
    var columns := f.columns + {Periods.PeriodCol};
    (Sheet(SheetName(p + DeductibleLabel), ExportRows(Periods.WithFlag(inPeriod, "Deducible", true), columns)),
     Sheet(SheetName(p + NonDeductibleLabel), ExportRows(Periods.WithFlag(inPeriod, "Deducible", false), columns)))
  }

  /** Pairs of sheets laid out one pair after the other. */
  function Flatten(ps: seq<(Sheet, Sheet)>): (r: seq<Sheet>)
    ensures |r| == 2 * |ps|
  {
    if ps == [] then [] else [ps[0].0, ps[0].1] + Flatten(ps[1..])
  }

  /** The deductibles export: the pairs of sheets of the periods, in order. */
  function DeductibleSheets(f: Frame, periods: seq<string>): (r: seq<Sheet>)
    ensures |r| == 2 * |periods|
  {
    Flatten(seq(|periods|, i requires 0 <= i < |periods| => PeriodPair(f, periods[i])))
  }

  /** Strings of one fixed suffix differ exactly where their stems differ. */
  lemma SuffixCancels(a: string, b: string, x: string, y: string)
    requires |x| == |y| && a + x == b + y
    ensures a == b && x == y
  {
    assert a == (a + x)[..|a|];
    assert b == (b + y)[..|b|];
    assert |a| == |b|;
    assert x == (a + x)[|a|..];
    assert y == (b + y)[|b|..];
  }

  /** Strings whose endings differ are different. */
  lemma EndingsDiffer(a: string, b: string, x: string, y: string)
    requires |x| <= |y| && y[|y| - |x|..] != x
    ensures a + x != b + y
  {
    var s, t := a + x, b + y;
    assert s[|s| - |x|..] == x;
    assert t[|t| - |x|..] == y[|y| - |x|..];
  }

  /**
   * With periods of at most 7 characters (every period is), the deductibles
   * export names its sheets `p - Deducibles` and `p - No Deducibles` in full,
   * and distinct periods never produce the same sheet name.
   */
  lemma DeductibleSheetNames(p: string, q: string)
    requires |p| <= 7 && |q| <= 7
    ensures SheetName(p + DeductibleLabel) == p + DeductibleLabel
    ensures SheetName(p + NonDeductibleLabel) == p + NonDeductibleLabel
    ensures p + DeductibleLabel != q + NonDeductibleLabel
    ensures p != q ==> p + DeductibleLabel != q + DeductibleLabel && p + NonDeductibleLabel != q + NonDeductibleLabel
  {
    assert NonDeductibleLabel[3..][0] != DeductibleLabel[0];
    EndingsDiffer(p, q, DeductibleLabel, NonDeductibleLabel);
    if p + DeductibleLabel == q + DeductibleLabel {
      SuffixCancels(p, q, DeductibleLabel, DeductibleLabel);
    }
    if p + NonDeductibleLabel == q + NonDeductibleLabel {
      SuffixCancels(p, q, NonDeductibleLabel, NonDeductibleLabel);
    }
  }

  /** Pair k of a flattened list sits at positions 2k and 2k + 1. */
  lemma {:induction false} FlattenAt(ps: seq<(Sheet, Sheet)>, k: nat)
    requires k < |ps|
    ensures Flatten(ps)[2 * k] == ps[k].0 && Flatten(ps)[2 * k + 1] == ps[k].1
  {
    if k > 0 {
      FlattenAt(ps[1..], k - 1);
      var r := Flatten(ps);
      assert r[2..] == Flatten(ps[1..]);
      assert r[2 * k] == r[2..][2 * (k - 1)];
      assert r[2 * k + 1] == r[2..][2 * (k - 1) + 1];
    }
  }

  /** The two sheets of one period hold disjoint rows of that period, split by the flag. */
  lemma DeductibleSheetsSplit(f: Frame, periods: seq<string>, k: nat)
    requires k < |periods|
    ensures var r := DeductibleSheets(f, periods);
      r[2 * k].name == SheetName(periods[k] + DeductibleLabel) &&
      r[2 * k + 1].name == SheetName(periods[k] + NonDeductibleLabel) &&
      r[2 * k].rows == ExportRows(Periods.WithFlag(Periods.RowsInPeriod(f.rows, periods[k]), "Deducible", true), f.columns + {Periods.PeriodCol}) &&
      r[2 * k + 1].rows == ExportRows(Periods.WithFlag(Periods.RowsInPeriod(f.rows, periods[k]), "Deducible", false), f.columns + {Periods.PeriodCol})
  {
    FlattenAt(seq(|periods|, i requires 0 <= i < |periods| => PeriodPair(f, periods[i])), k);
  }

  /** Exporting leaves every column that is not numeric as it was. */
  lemma ExportRowsKeep(rows: seq<Row>, columns: set<string>, k: string)
    requires k !in NumericColumns
    ensures |ExportRows(rows, columns)| == |rows|
    ensures forall i :: 0 <= i < |rows| ==> Get(ExportRows(rows, columns)[i], k) == Get(rows[i], k)
  {
  }

  /**
   * The by-period export has one sheet per selected period, named by the
   * period when it fits, and every row of a sheet belongs to its period.
   */
  lemma PeriodSheetsSpec(f: Frame, periods: seq<string>)
    ensures |PeriodSheets(f, periods)| == |periods|
    ensures forall i :: 0 <= i < |periods| && |periods[i]| <= 31 ==> PeriodSheets(f, periods)[i].name == periods[i]
    ensures forall i, j :: 0 <= i < |periods| && 0 <= j < |PeriodSheets(f, periods)[i].rows| ==>
      Get(PeriodSheets(f, periods)[i].rows[j], Periods.PeriodCol) == Text(periods[i])
  {
    var r := PeriodSheets(f, periods);
    forall i, j | 0 <= i < |periods| && 0 <= j < |r[i].rows|
      ensures Get(r[i].rows[j], Periods.PeriodCol) == Text(periods[i])
    {
      var inPeriod := Periods.RowsInPeriod(f.rows, periods[i]);
      Periods.RowsInPeriodExactly(f.rows, periods[i]);
      ExportRowsKeep(inPeriod, f.columns + {Periods.PeriodCol}, Periods.PeriodCol);
      assert inPeriod[j] in inPeriod;
    }
  }

  /** On the deductible sheet every row is flagged True, on the other every row False; both rows of the period. */
  lemma DeductibleSheetRows(f: Frame, periods: seq<string>, k: nat)
    requires k < |periods|
    ensures var ded, non := DeductibleSheets(f, periods)[2 * k].rows, DeductibleSheets(f, periods)[2 * k + 1].rows;
      (forall j :: 0 <= j < |ded| ==>
        Get(ded[j], Periods.PeriodCol) == Text(periods[k]) && Periods.FlagIs(Get(ded[j], "Deducible"), true)) &&
      (forall j :: 0 <= j < |non| ==>
        Get(non[j], Periods.PeriodCol) == Text(periods[k]) && Periods.FlagIs(Get(non[j], "Deducible"), false))
  {
    DeductibleSheetsSplit(f, periods, k);
    var inPeriod := Periods.RowsInPeriod(f.rows, periods[k]);
    var columns := f.columns + {Periods.PeriodCol};
    Periods.RowsInPeriodExactly(f.rows, periods[k]);
    var t, n := Periods.WithFlag(inPeriod, "Deducible", true), Periods.WithFlag(inPeriod, "Deducible", false);
    ExportRowsKeep(t, columns, Periods.PeriodCol);
    ExportRowsKeep(t, columns, "Deducible");
    ExportRowsKeep(n, columns, Periods.PeriodCol);
    ExportRowsKeep(n, columns, "Deducible");
    forall j | 0 <= j < |t| ensures t[j] in t { }
    forall j | 0 <= j < |n| ensures n[j] in n { }
  }
}
