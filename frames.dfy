/**
 * The tabular data model shared by every part of the program: a pandas
 * DataFrame is a set of column names and an ordered sequence of rows, each
 * row a map from column name to cell.  A column a row does not carry reads
 * as NaN, which is how pandas fills the gaps after a concatenation.
 */
module Frames {

  /** A cell: a string, an exact number, a boolean, or NaN. */
  datatype Cell = Text(s: string) | Num(x: real) | Bool(b: bool) | Missing

  type Row = map<string, Cell>

  datatype Frame = Frame(columns: set<string>, rows: seq<Row>)

  const UuidCol: string := "UUID"

  function EmptyFrame(): Frame {
    Frame({}, [])
  }

  /** pandas' DataFrame.empty: no rows or no columns. */
  predicate IsEmpty(f: Frame) {
    |f.rows| == 0 || f.columns == {}
  }

  /** The cell of `row` in column `col`, NaN when the row does not carry it. */
  function Get(row: Row, col: string): Cell {
    if col in row then row[col] else Missing
  }

  function Uuid(row: Row): Cell {
    Get(row, UuidCol)
  }

  /** The distinct values of the UUID column (what Series.unique() holds). */
  function UuidsOf(rows: seq<Row>): (u: set<Cell>)
    ensures forall i :: 0 <= i < |rows| ==> Uuid(rows[i]) in u
  {
    if rows == [] then {} else {Uuid(rows[0])} + UuidsOf(rows[1..])
  }

  lemma {:induction false} UuidsOfMember(rows: seq<Row>, u: Cell)
    requires u in UuidsOf(rows)
    ensures exists i :: 0 <= i < |rows| && Uuid(rows[i]) == u
  {
    if Uuid(rows[0]) != u {
      UuidsOfMember(rows[1..], u);
      var i :| 0 <= i < |rows[1..]| && Uuid(rows[1..][i]) == u;
      assert Uuid(rows[i + 1]) == u;
    }
  }

  lemma {:induction false} UuidsOfConcat(a: seq<Row>, b: seq<Row>)
    ensures UuidsOf(a + b) == UuidsOf(a) + UuidsOf(b)
  {
    if a == [] {
      assert a + b == b;
    } else {
      assert (a + b)[1..] == a[1..] + b;
      UuidsOfConcat(a[1..], b);
    }
  }

  /** No two rows share a UUID. */
  predicate UniqueUuids(rows: seq<Row>) {
    forall i, j :: 0 <= i < j < |rows| ==> Uuid(rows[i]) != Uuid(rows[j])
  }

  /** `a` is obtained from `b` by deleting some rows, keeping the order of the rest. */
  predicate IsSubseq<T(==)>(a: seq<T>, b: seq<T>)
    decreases |b|
  {
    if b == [] then a == []
    else (a != [] && a[0] == b[0] && IsSubseq(a[1..], b[1..])) || IsSubseq(a, b[1..])
  }

  /** The rows, in order, whose UUID is not in `drop` (`~df[col].isin(drop)`). */
  function Without(rows: seq<Row>, drop: set<Cell>): (r: seq<Row>)
    ensures |r| <= |rows|
    ensures IsSubseq(r, rows)
    ensures forall x :: x in r <==> x in rows && Uuid(x) !in drop
  {
    if rows == [] then []
    else if Uuid(rows[0]) in drop then Without(rows[1..], drop)
    else [rows[0]] + Without(rows[1..], drop)
  }

  /** The rows, in order, whose UUID is in `keep` (`df[col].isin(keep)`). */
  function Keeping(rows: seq<Row>, keep: set<Cell>): (r: seq<Row>)
    ensures |r| <= |rows|
    ensures IsSubseq(r, rows)
    ensures forall x :: x in r <==> x in rows && Uuid(x) in keep
  {
    if rows == [] then []
    else if Uuid(rows[0]) in keep then [rows[0]] + Keeping(rows[1..], keep)
    else Keeping(rows[1..], keep)
  }

  /** `isin` and its negation split a frame: every row lands on exactly one side. */
  lemma {:induction false} KeepingWithoutSplit(rows: seq<Row>, s: set<Cell>)
    ensures multiset(Keeping(rows, s)) + multiset(Without(rows, s)) == multiset(rows)
    ensures |Keeping(rows, s)| + |Without(rows, s)| == |rows|
  {
    if rows != [] {
      KeepingWithoutSplit(rows[1..], s);
      assert rows == [rows[0]] + rows[1..];
    }
  }

  /** Each row keeps its multiplicity when its UUID is not dropped, and is gone when it is. */
  lemma {:induction false} WithoutCounts(rows: seq<Row>, drop: set<Cell>)
    ensures forall x :: multiset(Without(rows, drop))[x] == if Uuid(x) in drop then 0 else multiset(rows)[x]
  {
    if rows != [] {
      WithoutCounts(rows[1..], drop);
      assert rows == [rows[0]] + rows[1..];
    }
  }

  /** Dropping every UUID that occurs leaves nothing. */
  /** Keeping a set of UUIDs keeps every copy of the rows that carry one and no other. */
  lemma KeepingCounts(rows: seq<Row>, keep: set<Cell>)
    ensures forall x :: multiset(Keeping(rows, keep))[x] == if Uuid(x) in keep then multiset(rows)[x] else 0
  {
    KeepingWithoutSplit(rows, keep);
    WithoutCounts(rows, keep);
  }

  lemma {:induction false} WithoutAll(rows: seq<Row>, drop: set<Cell>)
    requires UuidsOf(rows) <= drop
    ensures Without(rows, drop) == []
  {
    if rows != [] {
      WithoutAll(rows[1..], drop);
    }
  }

  lemma {:induction false} UuidsOfWithout(rows: seq<Row>, drop: set<Cell>)
    ensures UuidsOf(Without(rows, drop)) == UuidsOf(rows) - drop
  {
    if rows != [] {
      UuidsOfWithout(rows[1..], drop);
    }
  }

  lemma {:induction false} IsSubseqTrans<T>(a: seq<T>, b: seq<T>, c: seq<T>)
    requires IsSubseq(a, b) && IsSubseq(b, c)
    ensures IsSubseq(a, c)
    decreases |c|
  {
    if c != [] {
      if b != [] && b[0] == c[0] && IsSubseq(b[1..], c[1..]) {
        if a != [] && a[0] == b[0] && IsSubseq(a[1..], b[1..]) {
          IsSubseqTrans(a[1..], b[1..], c[1..]);
        } else {
          IsSubseqTrans(a, b[1..], c[1..]);
        }
      } else {
        IsSubseqTrans(a, b, c[1..]);
      }
    }
  }

  /** Every sequence is a subsequence of itself. */
  lemma {:induction false} IsSubseqRefl<T>(a: seq<T>)
    ensures IsSubseq(a, a)
    decreases |a|
  {
    if a != [] {
      IsSubseqRefl(a[1..]);
    }
  }

  /** A subsequence holds nothing the original does not. */
  lemma {:induction false} IsSubseqMembers<T>(a: seq<T>, b: seq<T>)
    requires IsSubseq(a, b)
    ensures multiset(a) <= multiset(b)
    decreases |b|
  {
    if b != [] {
      assert b == [b[0]] + b[1..];
      if a != [] && a[0] == b[0] && IsSubseq(a[1..], b[1..]) {
        IsSubseqMembers(a[1..], b[1..]);
        assert a == [a[0]] + a[1..];
      } else {
        IsSubseqMembers(a, b[1..]);
      }
    }
  }

  /** pd.concat([a, b], ignore_index=True): columns united, rows of `b` after those of `a`. */
  function Append(a: Frame, b: Frame): (r: Frame)
    ensures |r.rows| == |a.rows| + |b.rows|
    ensures r.rows[..|a.rows|] == a.rows && r.rows[|a.rows|..] == b.rows
    ensures r.columns == a.columns + b.columns
  {
    Frame(a.columns + b.columns, a.rows + b.rows)
  }
}
