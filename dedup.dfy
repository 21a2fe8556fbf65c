/**
 * Keeping a dataset free of repeated CFDIs: a new batch is filtered against
 * the UUIDs already stored and appended, repeated UUIDs inside one table can
 * be collapsed to their first row, and an audit lists the rows whose UUID
 * repeats so that a selection of them can be deleted.  UUIDs are compared
 * by plain equality, so two empty UUIDs, or two NaN ones, count as the same.
 */
module Dedup {

  import opened Wrappers
  import opened Frames

  // ---------------------------------------------------------------------
  // Filtering a batch and appending it

  /**
   * filtrar_duplicados_por_uuid: the batch unchanged when the dataset has no
   * UUID column; otherwise the batch rows whose UUID is not stored.  None is
   * the KeyError raised when the dataset has the column and the batch does not.
   */
  function FilterNew(batch: Frame, existing: Frame): (r: Option<Frame>)
    ensures r.None? <==> UuidCol in existing.columns && UuidCol !in batch.columns
    ensures UuidCol !in existing.columns ==> r == Some(batch)
    ensures r.Some? ==> r.value.columns == batch.columns
    ensures r.Some? && UuidCol in existing.columns ==> IsSubseq(r.value.rows, batch.rows)
    ensures r.Some? && UuidCol in existing.columns ==>
      forall x :: x in r.value.rows <==> x in batch.rows && Uuid(x) !in UuidsOf(existing.rows)
    ensures r.Some? && UuidCol in existing.columns ==>
      forall x :: multiset(r.value.rows)[x] == if Uuid(x) in UuidsOf(existing.rows) then 0 else multiset(batch.rows)[x]
  {
    if UuidCol !in existing.columns then Some(batch)
    else if UuidCol !in batch.columns then None
    else
      WithoutCounts(batch.rows, UuidsOf(existing.rows));
      Some(Frame(batch.columns, Without(batch.rows, UuidsOf(existing.rows))))
  }

  /**
   * The merge after an upload or a checkpoint load: the filtered batch is
   * appended when it is not empty, and the count reported is its length.
   */
  function Merge(stored: Frame, batch: Frame): Option<(Frame, nat)> {
    match FilterNew(batch, stored)
    case None => None
    case Some(incoming) =>
      if IsEmpty(incoming) then Some((stored, 0)) else Some((Append(stored, incoming), |incoming.rows|))
  }

  /** The stored rows stay an unchanged prefix; the rest is an ordered selection of the batch. */
  lemma MergeKeepsOldPrefix(stored: Frame, batch: Frame)
    requires Merge(stored, batch).Some?
    ensures var (m, added) := Merge(stored, batch).value;
      |m.rows| == |stored.rows| + added &&
      m.rows[..|stored.rows|] == stored.rows &&
      IsSubseq(m.rows[|stored.rows|..], batch.rows) &&
      stored.columns <= m.columns
  {
    var incoming := FilterNew(batch, stored).value;
    IsSubseqRefl(batch.rows);
    if IsEmpty(incoming) {
      var (m, added) := Merge(stored, batch).value;
      assert m == stored && added == 0;
      assert IsSubseq(m.rows[|stored.rows|..], batch.rows) by {
        assert m.rows[|stored.rows|..] == [];
        EmptyIsSubseq(batch.rows);
      }
    }
  }

  /** Nothing appended shares a UUID with a stored row. */
  lemma MergeAddsOnlyNew(stored: Frame, batch: Frame)
    requires UuidCol in stored.columns
    requires Merge(stored, batch).Some?
    ensures var (m, _) := Merge(stored, batch).value;
      forall j :: |stored.rows| <= j < |m.rows| ==> Uuid(m.rows[j]) !in UuidsOf(stored.rows)
  {
    var incoming := FilterNew(batch, stored).value;
    var (m, _) := Merge(stored, batch).value;
    forall j | |stored.rows| <= j < |m.rows| ensures Uuid(m.rows[j]) !in UuidsOf(stored.rows) {
      assert m.rows[j] == incoming.rows[j - |stored.rows|];
      assert m.rows[j] in incoming.rows;
    }
  }

  lemma EmptyIsSubseq<T>(b: seq<T>)
    ensures IsSubseq([], b)
    decreases |b|
  {
    if b != [] {
      EmptyIsSubseq(b[1..]);
    }
  }

  /** Refiltering a batch against the dataset that already took it in leaves nothing. */
  lemma {:induction false} RefilterIsEmpty(batch: Frame, existing: Frame)
    requires UuidCol in batch.columns
    requires FilterNew(batch, existing).Some?
    ensures FilterNew(batch, Append(existing, FilterNew(batch, existing).value)) == Some(Frame(batch.columns, []))
  {
    var incoming := FilterNew(batch, existing).value;
    var grown := Append(existing, incoming);
    UuidsOfConcat(existing.rows, incoming.rows);
    if UuidCol in existing.columns {
      UuidsOfWithout(batch.rows, UuidsOf(existing.rows));
    }
    assert UuidsOf(batch.rows) <= UuidsOf(grown.rows);
    WithoutAll(batch.rows, UuidsOf(grown.rows));
  }

  /** Merging the same batch twice adds nothing the second time. */
  lemma MergeIdempotent(stored: Frame, batch: Frame)
    requires UuidCol in batch.columns
    requires Merge(stored, batch).Some?
    ensures var (m, _) := Merge(stored, batch).value; Merge(m, batch) == Some((m, 0))
  {
    var incoming := FilterNew(batch, stored).value;
    var (m, _) := Merge(stored, batch).value;
    if IsEmpty(incoming) {
      assert m == stored;
      if UuidCol in stored.columns {
        assert incoming.rows == [];
        assert Without(batch.rows, UuidsOf(stored.rows)) == [];
      } else {
        assert incoming == batch;
      }
    } else {
      RefilterIsEmpty(batch, stored);
    }
  }

  /** With a batch that names its UUIDs, the stored UUIDs become the union of both sides. */
  lemma MergeUuids(stored: Frame, batch: Frame)
    requires UuidCol in batch.columns
    ensures Merge(stored, batch).Some?
    ensures UuidsOf(Merge(stored, batch).value.0.rows) == UuidsOf(stored.rows) + UuidsOf(batch.rows)
  {
    var incoming := FilterNew(batch, stored).value;
    if UuidCol in stored.columns {
      UuidsOfWithout(batch.rows, UuidsOf(stored.rows));
    }
    if IsEmpty(incoming) {
      assert incoming.rows == [];
    } else {
      UuidsOfConcat(stored.rows, incoming.rows);
    }
  }

  /** The stored UUIDs after two uploads do not depend on their order. */
  lemma MergeOrderIrrelevantForUuids(stored: Frame, b1: Frame, b2: Frame)
    requires UuidCol in b1.columns && UuidCol in b2.columns
    ensures Merge(stored, b1).Some? && Merge(stored, b2).Some?
    ensures Merge(Merge(stored, b1).value.0, b2).Some? && Merge(Merge(stored, b2).value.0, b1).Some?
    ensures UuidsOf(Merge(Merge(stored, b1).value.0, b2).value.0.rows) ==
            UuidsOf(Merge(Merge(stored, b2).value.0, b1).value.0.rows)
  {
    MergeUuids(stored, b1);
    MergeUuids(stored, b2);
    MergeUuids(Merge(stored, b1).value.0, b2);
    MergeUuids(Merge(stored, b2).value.0, b1);
  }

  lemma {:induction false} UniqueSubseq(a: seq<Row>, b: seq<Row>)
    requires IsSubseq(a, b) && UniqueUuids(b)
    ensures UniqueUuids(a)
    decreases |b|
  {
    if b != [] {
      assert UniqueUuids(b[1..]) by {
        forall i, j | 0 <= i < j < |b[1..]| ensures Uuid(b[1..][i]) != Uuid(b[1..][j]) {
          assert b[1..][i] == b[i + 1] && b[1..][j] == b[j + 1];
        }
      }
      if a != [] && a[0] == b[0] && IsSubseq(a[1..], b[1..]) {
        UniqueSubseq(a[1..], b[1..]);
        IsSubseqMembers(a[1..], b[1..]);
        forall j | 0 < j < |a| ensures Uuid(a[0]) != Uuid(a[j]) {
          assert a[j] == a[1..][j - 1];
          assert a[j] in multiset(a[1..]);
          assert a[j] in b[1..];
          var k :| 0 <= k < |b[1..]| && b[1..][k] == a[j];
          assert b[k + 1] == a[j];
        }
        forall i, j | 0 <= i < j < |a| ensures Uuid(a[i]) != Uuid(a[j]) {
          if i > 0 {
            assert a[i] == a[1..][i - 1] && a[j] == a[1..][j - 1];
          }
        }
      } else {
        UniqueSubseq(a, b[1..]);
      }
    }
  }

  /** Two lists without repeats and without a UUID in common join into one without repeats. */
  lemma UniqueConcat(a: seq<Row>, b: seq<Row>)
    requires UniqueUuids(a) && UniqueUuids(b)
    requires forall x :: x in b ==> Uuid(x) !in UuidsOf(a)
    ensures UniqueUuids(a + b)
  {
    var r, n := a + b, |a|;
    forall i, j | 0 <= i < j < |r| ensures Uuid(r[i]) != Uuid(r[j]) {
      if j < n {
        assert r[i] == a[i] && r[j] == a[j];
      } else if i >= n {
        assert r[i] == b[i - n] && r[j] == b[j - n];
      } else {
        assert r[i] == a[i];
        assert r[j] == b[j - n];
        assert r[j] in b;
      }
    }
  }

  /** A dataset and a batch without repeats merge into a dataset without repeats. */
  lemma MergeKeepsUnique(stored: Frame, batch: Frame)
    requires UniqueUuids(stored.rows) && UniqueUuids(batch.rows)
    requires UuidCol in stored.columns || stored.rows == []
    requires Merge(stored, batch).Some?
    ensures UniqueUuids(Merge(stored, batch).value.0.rows)
  {
    var incoming := FilterNew(batch, stored).value;
    if !IsEmpty(incoming) {
      IsSubseqRefl(batch.rows);
      UniqueSubseq(incoming.rows, batch.rows);
      UniqueConcat(stored.rows, incoming.rows);
      assert Merge(stored, batch).value.0.rows == stored.rows + incoming.rows;
    }
  }

  /**
   * Only the stored UUIDs are filtered out: two rows of one batch sharing a
   * fresh UUID are both appended, so the merged dataset repeats it.
   */
  lemma MergeKeepsBatchRepeats()
    ensures var r := map[UuidCol := Text("A")];
      var m := Merge(Frame({UuidCol}, []), Frame({UuidCol}, [r, r]));
      m.Some? && m.value.0.rows == [r, r] && !UniqueUuids(m.value.0.rows)
  {
    var r := map[UuidCol := Text("A")];
    assert UuidsOf([]) == {};
    assert Without([r, r], {}) == [r, r] by {
      assert [r, r][1..] == [r];
      assert [r][1..] == [];
    }
    var m := Merge(Frame({UuidCol}, []), Frame({UuidCol}, [r, r])).value.0;
    assert m.rows[0] == r && m.rows[1] == r;
  }

  // ---------------------------------------------------------------------
  // Collapsing repeated UUIDs (eliminar_duplicados_en_df)

  /** drop_duplicates(subset=[UUID], keep='first'), with `seen` the UUIDs met so far. */
  function KeepFirst(rows: seq<Row>, seen: set<Cell>): (r: seq<Row>)
    ensures |r| <= |rows|
  {
    if rows == [] then []
    else if Uuid(rows[0]) in seen then KeepFirst(rows[1..], seen)
    else [rows[0]] + KeepFirst(rows[1..], seen + {Uuid(rows[0])})
  }

  /** The table without repeated UUIDs and how many rows went; untouched without a UUID column. */
  function DropDuplicates(f: Frame): (Frame, nat) {
    if UuidCol !in f.columns then (f, 0)
    else
      var kept := KeepFirst(f.rows, {});
      (Frame(f.columns, kept), |f.rows| - |kept|)
  }

  lemma {:induction false} KeepFirstShape(rows: seq<Row>, seen: set<Cell>)
    ensures IsSubseq(KeepFirst(rows, seen), rows)
    ensures UuidsOf(KeepFirst(rows, seen)) == UuidsOf(rows) - seen
    ensures forall x :: x in KeepFirst(rows, seen) ==> Uuid(x) !in seen
    ensures UniqueUuids(KeepFirst(rows, seen))
  {
    if rows != [] {
      var u := Uuid(rows[0]);
      if u in seen {
        KeepFirstShape(rows[1..], seen);
      } else {
        var tail := KeepFirst(rows[1..], seen + {u});
        KeepFirstShape(rows[1..], seen + {u});
        var r := [rows[0]] + tail;
        assert r[1..] == tail;
        forall i, j | 0 <= i < j < |r| ensures Uuid(r[i]) != Uuid(r[j]) {
          assert r[j] == tail[j - 1];
          if i > 0 {
            assert r[i] == tail[i - 1];
          } else {
            assert r[j] in tail;
          }
        }
      }
    }
  }

  /** Each row whose UUID has not appeared before it survives. */
  lemma {:induction false} KeepFirstKeepsFirstOccurrences(rows: seq<Row>, seen: set<Cell>, i: nat)
    requires i < |rows| && Uuid(rows[i]) !in seen
    requires forall j :: 0 <= j < i ==> Uuid(rows[j]) != Uuid(rows[i])
    ensures rows[i] in KeepFirst(rows, seen)
  {
    if i > 0 {
      var s := if Uuid(rows[0]) in seen then seen else seen + {Uuid(rows[0])};
      forall j | 0 <= j < i - 1 ensures Uuid(rows[1..][j]) != Uuid(rows[1..][i - 1]) {
        assert rows[1..][j] == rows[j + 1];
      }
      KeepFirstKeepsFirstOccurrences(rows[1..], s, i - 1);
    }
  }

  /** Distinct UUIDs are counted exactly by the rows that carry them. */
  lemma {:induction false} UniqueCount(rows: seq<Row>)
    requires UniqueUuids(rows)
    ensures |UuidsOf(rows)| == |rows|
  {
    if rows != [] {
      assert UniqueUuids(rows[1..]) by {
        forall i, j | 0 <= i < j < |rows[1..]| ensures Uuid(rows[1..][i]) != Uuid(rows[1..][j]) {
          assert rows[1..][i] == rows[i + 1] && rows[1..][j] == rows[j + 1];
        }
      }
      UniqueCount(rows[1..]);
      if Uuid(rows[0]) in UuidsOf(rows[1..]) {
        UuidsOfMember(rows[1..], Uuid(rows[0]));
        assert false;
      }
    }
  }

  /**
   * eliminar_duplicados_en_df: the result has pairwise distinct UUIDs, the
   * same UUIDs as the input, is an ordered selection of it that keeps every
   * first occurrence, and the count is the number of rows dropped.
   */
  lemma DropDuplicatesSpec(f: Frame)
    ensures var (g, removed) := DropDuplicates(f);
      g.columns == f.columns && IsSubseq(g.rows, f.rows) &&
      |g.rows| + removed == |f.rows| &&
      (UuidCol !in f.columns ==> g == f && removed == 0) &&
      (UuidCol in f.columns ==>
        UniqueUuids(g.rows) && UuidsOf(g.rows) == UuidsOf(f.rows) &&
        removed == |f.rows| - |UuidsOf(f.rows)| &&
        g.rows == FirstOnes(f.rows) &&
        forall i :: 0 <= i < |f.rows| && (forall j :: 0 <= j < i ==> Uuid(f.rows[j]) != Uuid(f.rows[i])) ==>
          f.rows[i] in g.rows)
  {
    if UuidCol in f.columns {
      KeepFirstShape(f.rows, {});
      UniqueCount(KeepFirst(f.rows, {}));
      KeepFirstIsFirstOnes(f.rows);
      forall i | 0 <= i < |f.rows| && (forall j :: 0 <= j < i ==> Uuid(f.rows[j]) != Uuid(f.rows[i]))
        ensures f.rows[i] in KeepFirst(f.rows, {})
      {
        KeepFirstKeepsFirstOccurrences(f.rows, {}, i);
      }
    } else {
      IsSubseqRefl(f.rows);
    }
  }

  /** Collapsing twice is collapsing once. */
  lemma DropDuplicatesIdempotent(f: Frame)
    ensures DropDuplicates(DropDuplicates(f).0) == (DropDuplicates(f).0, 0)
  {
    if UuidCol in f.columns {
      var g := DropDuplicates(f).0;
      KeepFirstShape(f.rows, {});
      KeepFirstOfUnique(g.rows, {});
    }
  }

  /** Rows with distinct UUIDs unseen so far all survive. */
  lemma {:induction false} KeepFirstOfUnique(rows: seq<Row>, seen: set<Cell>)
    requires UniqueUuids(rows)
    requires forall x :: x in rows ==> Uuid(x) !in seen
    ensures KeepFirst(rows, seen) == rows
  {
    if rows != [] {
      assert UniqueUuids(rows[1..]) by {
        forall i, j | 0 <= i < j < |rows[1..]| ensures Uuid(rows[1..][i]) != Uuid(rows[1..][j]) {
          assert rows[1..][i] == rows[i + 1] && rows[1..][j] == rows[j + 1];
        }
      }
      assert rows[0] in rows;
      forall x | x in rows[1..] ensures Uuid(x) !in seen + {Uuid(rows[0])} {
        var k :| 0 <= k < |rows[1..]| && rows[1..][k] == x;
        assert rows[k + 1] == x;
      }
      KeepFirstOfUnique(rows[1..], seen + {Uuid(rows[0])});
    }
  }

  /**
   * keep='first' read independently, from the right end: the last row
   * stays exactly when no earlier row carries its UUID.
   */
  function FirstOnes(rows: seq<Row>): seq<Row>
    decreases |rows|
  {
    if rows == [] then []
    else
      var init := rows[..|rows| - 1];
      var last := rows[|rows| - 1];
      FirstOnes(init) + (if Uuid(last) in UuidsOf(init) then [] else [last])
  }

  /** Scanning one more row at the end appends it exactly when its UUID is new. */
  lemma {:induction false} KeepFirstSnoc(a: seq<Row>, x: Row, seen: set<Cell>)
    ensures KeepFirst(a + [x], seen) == KeepFirst(a, seen) + (if Uuid(x) in seen + UuidsOf(a) then [] else [x])
  {
    if a == [] {
      assert a + [x] == [x] && [x][1..] == [];
    } else {
      assert (a + [x])[0] == a[0];
      assert (a + [x])[1..] == a[1..] + [x];
      var u := Uuid(a[0]);
      if u in seen {
        KeepFirstSnoc(a[1..], x, seen);
        assert seen + UuidsOf(a[1..]) == seen + UuidsOf(a);
      } else {
        KeepFirstSnoc(a[1..], x, seen + {u});
        assert seen + {u} + UuidsOf(a[1..]) == seen + UuidsOf(a);
      }
    }
  }

  /** The left-to-right scan and the right-end reading keep the same rows in the same order. */
  lemma {:induction false} KeepFirstIsFirstOnes(rows: seq<Row>)
    ensures KeepFirst(rows, {}) == FirstOnes(rows)
    decreases |rows|
  {
    if rows != [] {
      var init := rows[..|rows| - 1];
      assert rows == init + [rows[|rows| - 1]];
      KeepFirstIsFirstOnes(init);
      KeepFirstSnoc(init, rows[|rows| - 1], {});
      assert {} + UuidsOf(init) == UuidsOf(init);
    }
  }

  // ---------------------------------------------------------------------
  // The duplicate audit and deleting a selection (mostrar_eliminar_duplicados_ui)

  /** How many rows carry UUID `u`. */
  function Occurrences(rows: seq<Row>, u: Cell): nat {
    if rows == [] then 0
    else (if Uuid(rows[0]) == u then 1 else 0) + Occurrences(rows[1..], u)
  }

  /** A UUID value_counts() reports more than once (it does not count NaN). */
  predicate Repeated(rows: seq<Row>, u: Cell) {
    u != Missing && Occurrences(rows, u) > 1
  }

  function RepeatedUuids(rows: seq<Row>): set<Cell> {
    set u | u in UuidsOf(rows) && Repeated(rows, u)
  }

  /** The rows whose UUID repeats; None when there is no UUID column or no repeat. */
  function DuplicateAudit(f: Frame): Option<seq<Row>> {
    if UuidCol !in f.columns then None
    else
      var dups := Keeping(f.rows, RepeatedUuids(f.rows));
      if dups == [] then None else Some(dups)
  }

  lemma {:induction false} OccursWhenCounted(rows: seq<Row>, u: Cell)
    requires Occurrences(rows, u) > 0
    ensures u in UuidsOf(rows)
  {
    if Uuid(rows[0]) != u {
      OccursWhenCounted(rows[1..], u);
    }
  }

  /** The audit lists, in order, exactly the rows whose UUID occurs at least twice. */
  lemma DuplicateAuditExactly(f: Frame)
    ensures var a := DuplicateAudit(f);
      (a.Some? ==>
        UuidCol in f.columns && IsSubseq(a.value, f.rows) &&
        (forall x :: x in a.value <==> x in f.rows && Repeated(f.rows, Uuid(x))) &&
        (forall x :: multiset(a.value)[x] == if Repeated(f.rows, Uuid(x)) then multiset(f.rows)[x] else 0)) &&
      (a.None? <==> UuidCol !in f.columns || forall x :: x in f.rows ==> !Repeated(f.rows, Uuid(x)))
  {
    if UuidCol in f.columns {
      var keep := RepeatedUuids(f.rows);
      forall x | x in f.rows && Repeated(f.rows, Uuid(x)) ensures Uuid(x) in keep {
        OccursWhenCounted(f.rows, Uuid(x));
      }
      KeepingCounts(f.rows, keep);
      forall x ensures multiset(Keeping(f.rows, keep))[x] == if Repeated(f.rows, Uuid(x)) then multiset(f.rows)[x] else 0 {
        if x in f.rows && Repeated(f.rows, Uuid(x)) {
          OccursWhenCounted(f.rows, Uuid(x));
        }
      }
      if Keeping(f.rows, keep) != [] {
        var x := Keeping(f.rows, keep)[0];
        assert x in Keeping(f.rows, keep);
      }
    }
  }

  /**
   * Deleting the confirmed selection: every row sharing a UUID with a
   * selected row goes, first copy included.  None when there is nothing to
   * audit, the button was not pressed, or nothing was selected.
   */
  function RemoveSelected(f: Frame, selected: seq<Row>, confirmed: bool): Option<Frame> {
    if DuplicateAudit(f).None? || !confirmed || selected == [] then None
    else Some(Frame(f.columns, Without(f.rows, UuidsOf(selected))))
  }

  lemma RemoveSelectedExactly(f: Frame, selected: seq<Row>, confirmed: bool)
    ensures var r := RemoveSelected(f, selected, confirmed);
      (selected == [] ==> r.None?) &&
      (r.Some? ==>
        r.value.columns == f.columns && IsSubseq(r.value.rows, f.rows) &&
        UuidsOf(r.value.rows) == UuidsOf(f.rows) - UuidsOf(selected) &&
        (forall x :: x in r.value.rows <==> x in f.rows && Uuid(x) !in UuidsOf(selected)) &&
        (forall x :: multiset(r.value.rows)[x] == if Uuid(x) in UuidsOf(selected) then 0 else multiset(f.rows)[x]) &&
        (forall s, x :: s in selected && x in f.rows && Uuid(x) == Uuid(s) ==> x !in r.value.rows))
  {
    if RemoveSelected(f, selected, confirmed).Some? {
      UuidsOfWithout(f.rows, UuidsOf(selected));
      WithoutCounts(f.rows, UuidsOf(selected));
      forall s, x | s in selected && x in f.rows && Uuid(x) == Uuid(s)
        ensures Uuid(x) in UuidsOf(selected)
      {
        var k :| 0 <= k < |selected| && selected[k] == s;
      }
    }
  }
}
