/**
 * The application state between interactions: the received and the issued
 * datasets, the stored Recibidos period view and the stored Emitidos period
 * view that "Tabla Actual" exports.  Uploads flag their rows and merge them
 * in, "Aplicar cambios" rewrites the Deducible flags from the edited grid, and
 * a saved checkpoint is merged back into both datasets.
 */
module Session {

  import opened Wrappers
  import opened Frames
  import Dedup
  import Periods
  import Archive
  import Extraction

  const XmlCol: string := "XML"
  const DeductibleCol: string := "Deducible"
  const SelectCol: string := "Seleccionar"

  // ---------------------------------------------------------------------
  // Uploads

  /** The column names the rows carry (pd.DataFrame(rows).columns). */
  function KeysOf(rows: seq<Row>): set<string> {
    set r, k | r in rows && k in r :: k
  }

  /** `new_df = pd.DataFrame(rows); new_df[flag] = True` */
  function FlaggedBatch(rows: seq<Row>, flag: string): Frame {
    Frame(KeysOf(rows) + {flag}, seq(|rows|, i requires 0 <= i < |rows| => rows[i][flag := Bool(true)]))
  }

  /**
   * The dataset after an upload of `rows`: nothing happens for an archive
   * without rows; otherwise the flagged batch is merged.  None is the
   * KeyError of a batch without a UUID column against a dataset with one.
   */
  function Uploaded(stored: Frame, rows: seq<Row>, flag: string): Option<(Frame, nat)> {
    if rows == [] then Some((stored, 0)) else Dedup.Merge(stored, FlaggedBatch(rows, flag))
  }

  /**
   * An upload keeps the stored rows as a prefix, appends only rows of the
   * batch, every one flagged True, and reports how many it appended.
   */
  lemma UploadSpec(stored: Frame, rows: seq<Row>, flag: string)
    requires Uploaded(stored, rows, flag).Some?
    ensures var (m, added) := Uploaded(stored, rows, flag).value;
      |m.rows| == |stored.rows| + added && m.rows[..|stored.rows|] == stored.rows &&
      forall j :: |stored.rows| <= j < |m.rows| ==> Get(m.rows[j], flag) == Bool(true)
  {
    if rows != [] {
      var batch := FlaggedBatch(rows, flag);
      Dedup.MergeKeepsOldPrefix(stored, batch);
      var (m, added) := Uploaded(stored, rows, flag).value;
      var tail := m.rows[|stored.rows|..];
      IsSubseqMembers(tail, batch.rows);
      forall j | |stored.rows| <= j < |m.rows| ensures Get(m.rows[j], flag) == Bool(true) {
        assert m.rows[j] == tail[j - |stored.rows|];
        assert m.rows[j] in multiset(batch.rows);
        var i :| 0 <= i < |batch.rows| && batch.rows[i] == m.rows[j];
      }
    }
  }

  /** What an upload appends is an ordered selection of the flagged batch, none with a stored UUID. */
  lemma UploadAppendsFreshBatchRows(stored: Frame, rows: seq<Row>, flag: string)
    requires Uploaded(stored, rows, flag).Some?
    ensures var (m, _) := Uploaded(stored, rows, flag).value;
      |stored.rows| <= |m.rows| &&
      IsSubseq(m.rows[|stored.rows|..], FlaggedBatch(rows, flag).rows) &&
      (UuidCol in stored.columns ==> forall j :: |stored.rows| <= j < |m.rows| ==> Uuid(m.rows[j]) !in UuidsOf(stored.rows))
  {
    if rows == [] {
      Dedup.EmptyIsSubseq(FlaggedBatch(rows, flag).rows);
      assert stored.rows[|stored.rows|..] == [];
    } else {
      var batch := FlaggedBatch(rows, flag);
      Dedup.MergeKeepsOldPrefix(stored, batch);
      if UuidCol in stored.columns {
        Dedup.MergeAddsOnlyNew(stored, batch);
      }
    }
  }

  /** The rows an archive yields always carry a UUID, so merging them never fails. */
  lemma ArchiveUploadsMerge(stored: Frame, es: seq<Extraction.Entry>, flag: string)
    ensures Uploaded(stored, Archive.BatchRows(es), flag).Some?
  {
    var rows := Archive.BatchRows(es);
    if rows != [] {
      Archive.BatchRowsCarrySchema(es);
      Archive.SchemaHasKeyColumns();
      assert rows[0] in rows;
      assert UuidCol in rows[0];
      assert UuidCol in KeysOf(rows);
    }
  }

  // ---------------------------------------------------------------------
  // Rewriting the Deducible flags from the edited grid

  /** `edited.set_index("XML")["Deducible"].to_dict()`: a later row overrides an earlier one. */
  function FlagUpdates(rows: seq<Row>): map<Cell, Cell> {
    if rows == [] then map[]
    else
      var last := rows[|rows| - 1];
      FlagUpdates(rows[..|rows| - 1])[Get(last, XmlCol) := Get(last, DeductibleCol)]
  }

  /** The new flag of one row: the grid's value for its XML, or its old flag when there is none or it is NaN. */
  function UpdatedFlag(row: Row, updates: map<Cell, Cell>): Cell {
    var x := Get(row, XmlCol);
    if x in updates && updates[x] != Missing then updates[x] else Get(row, DeductibleCol)
  }

  function WithUpdatedFlags(f: Frame, updates: map<Cell, Cell>): Frame {
    Frame(f.columns, seq(|f.rows|, i requires 0 <= i < |f.rows| =>
      f.rows[i][DeductibleCol := UpdatedFlag(f.rows[i], updates)]))
  }

  /** Every XML of the grid has an entry, taken from the last grid row with that XML. */
  lemma {:induction false} FlagUpdatesLastWins(rows: seq<Row>, i: nat)
    requires i < |rows|
    requires forall j :: i < j < |rows| ==> Get(rows[j], XmlCol) != Get(rows[i], XmlCol)
    ensures Get(rows[i], XmlCol) in FlagUpdates(rows)
    ensures FlagUpdates(rows)[Get(rows[i], XmlCol)] == Get(rows[i], DeductibleCol)
  {
    var n := |rows|;
    if i < n - 1 {
      var init := rows[..n - 1];
      forall j | i < j < |init| ensures Get(init[j], XmlCol) != Get(init[i], XmlCol) {
        assert init[j] == rows[j];
      }
      FlagUpdatesLastWins(init, i);
      assert init[i] == rows[i];
    }
  }

  /** The grid only has entries for XMLs it shows. */
  lemma {:induction false} FlagUpdatesKeys(rows: seq<Row>, x: Cell)
    requires x in FlagUpdates(rows)
    ensures exists i :: 0 <= i < |rows| && Get(rows[i], XmlCol) == x
  {
    var n := |rows|;
    if Get(rows[n - 1], XmlCol) != x {
      var init := rows[..n - 1];
      FlagUpdatesKeys(init, x);
      var i :| 0 <= i < |init| && Get(init[i], XmlCol) == x;
      assert init[i] == rows[i];
    }
  }

  /**
   * "Aplicar cambios": the same rows in the same order; a row whose XML the
   * grid shows takes the grid's flag (unless that is NaN), every other row
   * keeps its flag, and no other column changes.
   */
  lemma FlagEditsSpec(f: Frame, updates: map<Cell, Cell>)
    ensures |WithUpdatedFlags(f, updates).rows| == |f.rows|
    ensures WithUpdatedFlags(f, updates).columns == f.columns
    ensures forall i, k :: 0 <= i < |f.rows| && k != DeductibleCol ==>
      Get(WithUpdatedFlags(f, updates).rows[i], k) == Get(f.rows[i], k)
    ensures forall i :: 0 <= i < |f.rows| ==>
      var x := Get(f.rows[i], XmlCol);
      Get(WithUpdatedFlags(f, updates).rows[i], DeductibleCol) ==
        if x in updates && updates[x] != Missing then updates[x] else Get(f.rows[i], DeductibleCol)
  {
  }

  // ---------------------------------------------------------------------
  // Restoring a checkpoint (section_avance / cargar_progreso)

  /** cargar_progreso: the two sheets, or two empty tables when reading fails. */
  function ReadCheckpoint(loaded: Option<(Frame, Frame)>): (Frame, Frame) {
    match loaded
    case None => (EmptyFrame(), EmptyFrame())
    case Some(pair) => pair
  }

  /**
   * One dataset after a checkpoint load: an empty sheet is ignored, otherwise
   * its filtered rows are appended (even when none survive the filter).
   */
  function CheckpointMerge(stored: Frame, sheet: Frame): Option<Frame> {
    if IsEmpty(sheet) then Some(stored)
    else
      match Dedup.FilterNew(sheet, stored)
      case None => None
      case Some(incoming) => Some(Append(stored, incoming))
  }

  /** A checkpoint load keeps every stored row as a prefix and adds no stored UUID. */
  lemma CheckpointMergeSpec(stored: Frame, sheet: Frame)
    requires CheckpointMerge(stored, sheet).Some?
    ensures var m := CheckpointMerge(stored, sheet).value;
      m.rows[..|stored.rows|] == stored.rows && |stored.rows| <= |m.rows| &&
      IsSubseq(m.rows[|stored.rows|..], sheet.rows) &&
      (UuidCol in stored.columns ==> forall j :: |stored.rows| <= j < |m.rows| ==> Uuid(m.rows[j]) !in UuidsOf(stored.rows))
  {
    var m := CheckpointMerge(stored, sheet).value;
    if IsEmpty(sheet) {
      assert m.rows[|stored.rows|..] == [];
      Dedup.EmptyIsSubseq(sheet.rows);
    } else {
      var incoming := Dedup.FilterNew(sheet, stored).value;
      IsSubseqRefl(sheet.rows);
      assert m.rows[|stored.rows|..] == incoming.rows;
      if UuidCol in stored.columns {
        forall j | |stored.rows| <= j < |m.rows| ensures Uuid(m.rows[j]) !in UuidsOf(stored.rows) {
          assert m.rows[j] == incoming.rows[j - |stored.rows|];
          assert m.rows[j] in incoming.rows;
        }
      }
    }
  }

  /** A checkpoint that cannot be read changes neither dataset. */
  lemma UnreadableCheckpointChangesNothing(rec: Frame, emi: Frame)
    ensures CheckpointMerge(rec, ReadCheckpoint(None).0) == Some(rec)
    ensures CheckpointMerge(emi, ReadCheckpoint(None).1) == Some(emi)
  {
  }

  // ---------------------------------------------------------------------
  // Exporting issued CFDIs

  datatype Scope = CurrentTable | WholeSection

  /**
   * What "Exportar Emitidos" writes: None when there is nothing to export;
   * "Tabla Actual" takes the stored view when there is one, else the dataset;
   * "Toda la Sección" takes the dataset.
   */
  function ExportSource(scope: Scope, stored: Option<Frame>, dataset: Frame): (r: Option<Frame>)
    ensures IsEmpty(dataset) <==> r.None?
    ensures r.Some? && scope == WholeSection ==> r.value == dataset
    ensures r.Some? && scope == CurrentTable ==> r.value == (if stored.Some? then stored.value else dataset)
  {
    if IsEmpty(dataset) then None
    else if scope == WholeSection then Some(dataset)
    else if stored.Some? then Some(stored.value)
    else Some(dataset)
  }

  // ---------------------------------------------------------------------
  // The state

  class AppState {
    var recibidos: Frame
    var emitidos: Frame
    /** The last Recibidos period view (filtered_df). */
    var filtered: Frame
    /** The last Emitidos period view (filtered_df_e); None only if it was never initialised. */
    var filteredE: Option<Frame>

    /** A new session: every table starts empty. */
    constructor ()
      ensures recibidos == EmptyFrame() && emitidos == EmptyFrame()
      ensures filtered == EmptyFrame() && filteredE == Some(EmptyFrame())
    {
      recibidos := EmptyFrame();
      emitidos := EmptyFrame();
      filtered := EmptyFrame();
      filteredE := Some(EmptyFrame());
    }

    /** Uploading received CFDIs: flag them Deducible and merge; ok is false on a KeyError. */
    method UploadRecibidos(rows: seq<Row>) returns (ok: bool, added: nat)
      modifies this
      ensures ok <==> Uploaded(old(recibidos), rows, DeductibleCol).Some?
      ensures ok ==> (recibidos, added) == Uploaded(old(recibidos), rows, DeductibleCol).value
      ensures !ok ==> recibidos == old(recibidos) && added == 0
      ensures emitidos == old(emitidos) && filtered == old(filtered) && filteredE == old(filteredE)
    {
      ok, added := true, 0;
      if rows != [] {
        var batch := FlaggedBatch(rows, DeductibleCol);
        var incoming := Dedup.FilterNew(batch, recibidos);
        if incoming.None? {
          ok := false;
        } else if !IsEmpty(incoming.value) {
          recibidos := Append(recibidos, incoming.value);
          added := |incoming.value.rows|;
        }
      }
    }

    /** Uploading issued CFDIs: flag them Seleccionar and merge; ok is false on a KeyError. */
    method UploadEmitidos(rows: seq<Row>) returns (ok: bool, added: nat)
      modifies this
      ensures ok <==> Uploaded(old(emitidos), rows, SelectCol).Some?
      ensures ok ==> (emitidos, added) == Uploaded(old(emitidos), rows, SelectCol).value
      ensures !ok ==> emitidos == old(emitidos) && added == 0
      ensures recibidos == old(recibidos) && filtered == old(filtered) && filteredE == old(filteredE)
    {
      ok, added := true, 0;
      if rows != [] {
        var batch := FlaggedBatch(rows, SelectCol);
        var incoming := Dedup.FilterNew(batch, emitidos);
        if incoming.None? {
          ok := false;
        } else if !IsEmpty(incoming.value) {
          emitidos := Append(emitidos, incoming.value);
          added := |incoming.value.rows|;
        }
      }
    }

    /**
     * "Aplicar cambios": rewrite the Deducible column from the edited grid;
     * ok is false, and nothing changes, on a KeyError for XML or Deducible.
     */
    method ApplyFlagEdits(edited: Frame) returns (ok: bool)
      modifies this
      ensures ok <==> XmlCol in edited.columns && DeductibleCol in edited.columns &&
                      XmlCol in old(recibidos).columns && DeductibleCol in old(recibidos).columns
      ensures ok ==> recibidos == WithUpdatedFlags(old(recibidos), FlagUpdates(edited.rows))
      ensures !ok ==> recibidos == old(recibidos)
      ensures emitidos == old(emitidos) && filtered == old(filtered) && filteredE == old(filteredE)
    {
      ok := XmlCol in edited.columns && DeductibleCol in edited.columns &&
            XmlCol in recibidos.columns && DeductibleCol in recibidos.columns;
      if ok {
        recibidos := WithUpdatedFlags(recibidos, FlagUpdates(edited.rows));
      }
    }

    /** Storing the Recibidos view of period `p` (filtered_df), after any flag edits. */
    method StoreRecibidosView(p: string)
      modifies this
      ensures filtered == Periods.PeriodView(recibidos, p)
      ensures recibidos == old(recibidos) && emitidos == old(emitidos) && filteredE == old(filteredE)
    {
      filtered := Periods.PeriodView(recibidos, p);
    }

    /** Storing the Emitidos view of period `p` for "Tabla Actual" (filtered_df_e). */
    method StoreEmitidosView(p: string)
      modifies this
      ensures filteredE == Some(Periods.PeriodView(emitidos, p))
      ensures recibidos == old(recibidos) && emitidos == old(emitidos) && filtered == old(filtered)
    {
      filteredE := Some(Periods.PeriodView(emitidos, p));
    }

    /**
     * Loading a checkpoint: Recibidos is merged first, then Emitidos; a
     * KeyError stops the load there (ok false), so Recibidos may already have
     * taken its sheet when Emitidos fails.  An unreadable file changes nothing.
     */
    method LoadCheckpoint(loaded: Option<(Frame, Frame)>) returns (ok: bool)
      modifies this
      ensures var (rec, emi) := ReadCheckpoint(loaded);
        var r := CheckpointMerge(old(recibidos), rec);
        var e := CheckpointMerge(old(emitidos), emi);
        (r.None? ==> !ok && recibidos == old(recibidos) && emitidos == old(emitidos)) &&
        (r.Some? ==> (recibidos == r.value &&
                      (e.None? ==> !ok && emitidos == old(emitidos)) &&
                      (e.Some? ==> ok && emitidos == e.value)))
      ensures filtered == old(filtered) && filteredE == old(filteredE)
    {
      var (rec, emi) := ReadCheckpoint(loaded);
      var r := CheckpointMerge(recibidos, rec);
      if r.None? {
        return false;
      }
      recibidos := r.value;
      var e := CheckpointMerge(emitidos, emi);
      if e.None? {
        return false;
      }
      emitidos := e.value;
      ok := true;
    }
  }

  /**
   * Because a new session already stores an empty Emitidos view, "Tabla
   * Actual" exports that empty view, not the dataset, until a period view is
   * stored: the dataset fallback is never reached.
   */
  lemma FreshSessionExportsEmptyView(dataset: Frame)
    requires !IsEmpty(dataset)
    ensures ExportSource(CurrentTable, Some(EmptyFrame()), dataset) == Some(EmptyFrame())
  {
  }

  /** The totals shown above a view: all rows, True rows, False rows. */
  function ViewTotals(view: Frame, flag: string): (t: (nat, nat, nat))
    ensures t.1 + t.2 <= t.0
    ensures t.1 + t.2 == t.0 <==> Periods.AllFlagged(view.rows, flag)
  {
    Periods.FlagPartition(view.rows, flag);
    (|view.rows|, |Periods.WithFlag(view.rows, flag, true)|, |Periods.WithFlag(view.rows, flag, false)|)
  }
}
