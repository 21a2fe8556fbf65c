/**
 * Batch extraction over an archive (procesar_zip): the members are visited in
 * the archive's own order; a member is read when its lower-cased name ends in
 * ".xml", a member that does not parse is skipped, and every other one adds
 * exactly one record row.
 */
module Archive {

  import opened Wrappers
  import opened Frames
  import opened Extraction

  /** ASCII lower-casing of one character. */
  function LowerChar(c: char): char {
    if 'A' <= c <= 'Z' then (c as int + 32) as char else c
  }

  function Lower(s: string): (r: string)
    ensures |r| == |s|
    ensures forall i :: 0 <= i < |s| ==> r[i] == LowerChar(s[i])
  {
    seq(|s|, i requires 0 <= i < |s| => LowerChar(s[i]))
  }

  predicate EndsWith(s: string, suffix: string) {
    |suffix| <= |s| && s[|s| - |suffix|..] == suffix
  }

  /** `filename.lower().endswith(".xml")` */
  predicate IsXmlName(name: string) {
    EndsWith(Lower(name), ".xml")
  }

  /** The extension test ignores the case of the three letters and nothing else. */
  lemma XmlNameExactly(name: string)
    ensures IsXmlName(name) <==>
      |name| >= 4 && name[|name| - 4] == '.' &&
      (name[|name| - 3] == 'x' || name[|name| - 3] == 'X') &&
      (name[|name| - 2] == 'm' || name[|name| - 2] == 'M') &&
      (name[|name| - 1] == 'l' || name[|name| - 1] == 'L')
  {
    var n := |name|;
    if n >= 4 {
      var low := Lower(name);
      assert low[n - 4..] == [low[n - 4], low[n - 3], low[n - 2], low[n - 1]];
    }
  }

  /** A member that yields a record: an ".xml" name whose content parses. */
  predicate Accepted(e: Entry) {
    IsXmlName(e.name) && e.parsed.Some?
  }

  /** The accepted members, in archive order. */
  function AcceptedEntries(es: seq<Entry>): (r: seq<Entry>)
    ensures IsSubseq(r, es)
    ensures forall e :: e in r <==> e in es && Accepted(e)
  {
    if es == [] then []
    else if Accepted(es[0]) then [es[0]] + AcceptedEntries(es[1..])
    else AcceptedEntries(es[1..])
  }

  /** The row of the document parsed from member `name`. */
  function EntryRow(name: string, d: Document): Row {
    ToRow(RecordOf(name, d))
  }

  /**
   * What the member loop appends, whatever `row` makes of one accepted
   * member: a row per accepted member, in archive order.
   */
  function Collect(es: seq<Entry>, row: (string, Document) -> Row): seq<Row> {
    if es == [] then []
    else
      var e := es[|es| - 1];
      Collect(es[..|es| - 1], row) + (if Accepted(e) then [row(e.name, e.parsed.value)] else [])
  }

  /** The rows of an archive, as the member loop appends them. */
  function BatchRows(es: seq<Entry>): seq<Row> {
    Collect(es, EntryRow)
  }

  /** Reading the archive: one BuildRecord per accepted member, appended in order. */
  method ProcessArchive(entries: seq<Entry>) returns (rows: seq<Row>)
    ensures rows == BatchRows(entries)
  {
    rows := [];
    for i := 0 to |entries|
      invariant rows == BatchRows(entries[..i])
    {
      var e := entries[i];
      assert entries[..i + 1][..i] == entries[..i];
      if IsXmlName(e.name) {
        match e.parsed {
          case None =>
          case Some(d) =>
            var record := BuildRecord(e.name, d);
            rows := rows + [ToRow(record)];
        }
      }
    }
    assert entries[..|entries|] == entries;
  }

  lemma {:induction false} AcceptedConcat(a: seq<Entry>, b: seq<Entry>)
    ensures AcceptedEntries(a + b) == AcceptedEntries(a) + AcceptedEntries(b)
  {
    if a != [] {
      assert (a + b)[0] == a[0];
      assert (a + b)[1..] == a[1..] + b;
      AcceptedConcat(a[1..], b);
    } else {
      assert a + b == b;
    }
  }

  lemma {:induction false} CollectConcat(a: seq<Entry>, b: seq<Entry>, row: (string, Document) -> Row)
    ensures Collect(a + b, row) == Collect(a, row) + Collect(b, row)
    decreases |b|
  {
    if b == [] {
      assert a + b == a;
    } else {
      var init, e := b[..|b| - 1], b[|b| - 1];
      assert (a + b)[..|a + b| - 1] == a + init;
      assert (a + b)[|a + b| - 1] == e;
      CollectConcat(a, init, row);
    }
  }

  /** The loop's output corresponds one to one, in order, to the accepted members. */
  lemma {:induction false} CollectMatchesAccepted(es: seq<Entry>, row: (string, Document) -> Row)
    ensures |Collect(es, row)| == |AcceptedEntries(es)|
    ensures forall i :: 0 <= i < |AcceptedEntries(es)| ==>
      AcceptedEntries(es)[i].parsed.Some? &&
      Collect(es, row)[i] == row(AcceptedEntries(es)[i].name, AcceptedEntries(es)[i].parsed.value)
  {
    if es != [] {
      var init, e := es[..|es| - 1], es[|es| - 1];
      assert es == init + [e];
      CollectMatchesAccepted(init, row);
      AcceptedConcat(init, [e]);
      assert [e][1..] == [];
      var acc, rows := AcceptedEntries(init), Collect(init, row);
      if Accepted(e) {
        assert AcceptedEntries([e]) == [e];
        assert AcceptedEntries(es) == acc + [e];
        assert Collect(es, row) == rows + [row(e.name, e.parsed.value)];
      } else {
        assert AcceptedEntries([e]) == [];
      }
    }
  }

  /**
   * The batch corresponds one to one, in order, to the accepted members: the
   * i-th row is the record of the i-th accepted member.
   */
  lemma BatchMatchesAccepted(es: seq<Entry>)
    ensures |BatchRows(es)| == |AcceptedEntries(es)|
    ensures forall i :: 0 <= i < |AcceptedEntries(es)| ==>
      AcceptedEntries(es)[i].parsed.Some? &&
      BatchRows(es)[i] == ToRow(RecordOf(AcceptedEntries(es)[i].name, AcceptedEntries(es)[i].parsed.value))
  {
    CollectMatchesAccepted(es, EntryRow);
  }

  /** Every row names the member it came from in its XML column. */
  lemma RowsNameTheirMembers(es: seq<Entry>, i: nat)
    requires i < |BatchRows(es)|
    ensures i < |AcceptedEntries(es)|
    ensures Get(BatchRows(es)[i], "XML") == Text(AcceptedEntries(es)[i].name)
  {
    BatchMatchesAccepted(es);
  }

  lemma BatchRowsConcat(a: seq<Entry>, b: seq<Entry>)
    ensures BatchRows(a + b) == BatchRows(a) + BatchRows(b)
  {
    CollectConcat(a, b, EntryRow);
  }

  /** A member that does not parse, or is not an ".xml" member, adds nothing; the others still count. */
  lemma SkippedMemberAddsNothing(before: seq<Entry>, e: Entry, after: seq<Entry>)
    requires !Accepted(e)
    ensures BatchRows(before + [e] + after) == BatchRows(before) + BatchRows(after)
  {
    var head := before + [e];
    BatchRowsConcat(head, after);
    BatchRowsConcat(before, [e]);
    assert BatchRows([e]) == [] by {
      assert [e][..0] == [];
    }
    var x := BatchRows(before);
    assert BatchRows(head) == x + [];
    assert x + [] == x;
  }

  /** Every row of a batch carries the full schema. */
  lemma BatchRowsCarrySchema(es: seq<Entry>)
    ensures forall r :: r in BatchRows(es) ==> r.Keys == FieldSet
  {
    BatchMatchesAccepted(es);
    forall r | r in BatchRows(es) ensures r.Keys == FieldSet {
      var i :| 0 <= i < |BatchRows(es)| && BatchRows(es)[i] == r;
    }
  }

  /** The schema holds the UUID and Fecha columns that merging and periods read. */
  lemma SchemaHasKeyColumns()
    ensures UuidCol in FieldSet && "Fecha" in FieldSet
  {
    assert Fields[19] == UuidCol;
    assert Fields[12] == "Fecha";
  }
}
