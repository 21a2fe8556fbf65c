/**
 * Per-document extraction (procesar_zip): an already-parsed CFDI 4.0
 * document becomes one flat record of a fixed schema, and an archive of
 * entries becomes the records of its parseable ".xml" entries, in archive order.
 */
module Extraction {

  import opened Wrappers
  import opened Frames
  import opened Amounts
  import Catalogs

  /** The attributes of one XML element. */
  type Attrs = map<string, string>

  /** `elem.attrib.get(key, default)` */
  function AttrOr(a: Attrs, key: string, default: string): string {
    if key in a then a[key] else default
  }

  /**
   * A parsed document: the attributes of cfdi:Comprobante, of its optional
   * cfdi:Emisor and cfdi:Receptor children, of the first tfd:TimbreFiscalDigital
   * at any depth, of its optional cfdi:Impuestos child, every cfdi:Traslado and
   * every cfdi:Retencion at any depth (document order), and every
   * cfdi:Conceptos/cfdi:Concepto.
   */
  datatype Document = Document(
    root: Attrs,
    emisor: Option<Attrs>,
    receptor: Option<Attrs>,
    stamp: Option<Attrs>,
    taxes: Option<Attrs>,
    transfers: seq<Attrs>,
    withholdings: seq<Attrs>,
    concepts: seq<Attrs>)

  /** One archive member: its name and, when it is parsed, the document (None: malformed XML). */
  datatype Entry = Entry(name: string, parsed: Option<Document>)

  /** The record schema, in the program's order. */
  const Fields: seq<string> := [
    "XML", "Rfc Emisor", "Nombre Emisor", "Régimen Fiscal Emisor",
    "Rfc Receptor", "Nombre Receptor", "CP Receptor", "Régimen Receptor",
    "Uso Cfdi Receptor", "Tipo", "Serie", "Folio", "Fecha",
    "Sub Total", "Descuento", "Total impuesto Trasladado", "Nombre Impuesto",
    "Total impuesto Retenido", "Total", "UUID", "Método de Pago",
    "Forma de Pago", "Moneda", "Tipo de Cambio", "Versión", "Estado",
    "Estatus", "Validación EFOS", "Fecha Consulta", "Conceptos",
    "Relacionados", "Tipo Relación", "Traslado IVA 0.160000 %"
  ]

  const FieldSet: set<string> := set f | f in Fields

  // ---------------------------------------------------------------------
  // Tax aggregation

  /** The TotalImpuestosTrasladados attribute of cfdi:Impuestos, if both exist. */
  function TransferSummary(d: Document): Option<string> {
    match d.taxes
    case None => None
    case Some(a) => if "TotalImpuestosTrasladados" in a then Some(a["TotalImpuestosTrasladados"]) else None
  }

  /** The sum of the Importe of `lines` (absent: "0"), an unparsable one adding nothing. */
  function ImporteSum(lines: seq<Attrs>): real {
    if lines == [] then 0.0
    else
      var last := lines[|lines| - 1];
      ImporteSum(lines[..|lines| - 1])
        + match ParseDecimal(AttrOr(last, "Importe", "0")) case Some(x) => x case None => 0.0
  }

  /** The distinct non-empty Impuesto codes of `lines`, in order of first appearance. */
  function TaxNames(lines: seq<Attrs>): seq<string> {
    if lines == [] then []
    else
      var names := TaxNames(lines[..|lines| - 1]);
      var imp := AttrOr(lines[|lines| - 1], "Impuesto", "");
      if imp != "" && imp !in names then names + [imp] else names
  }

  /** A transfer line of VAT (tax "002") at the 16% rate. */
  predicate IsIva16(line: Attrs) {
    "TasaOCuota" in line && line["TasaOCuota"] == "0.160000" && "Impuesto" in line && line["Impuesto"] == "002"
  }

  /** The Importe of the last VAT-16% line, or "" when there is none. */
  function Iva16(lines: seq<Attrs>): string {
    if lines == [] then ""
    else if IsIva16(lines[|lines| - 1]) then AttrOr(lines[|lines| - 1], "Importe", "")
    else Iva16(lines[..|lines| - 1])
  }

  /** The transferred-tax cell: the summary attribute verbatim, else the itemised sum. */
  function TransferredTotal(d: Document): Cell {
    match TransferSummary(d)
    case Some(s) => Text(s)
    case None => Num(ImporteSum(d.transfers))
  }

  /** One more line of the scan: how the Importe sum of a prefix grows. */
  lemma SumStep(lines: seq<Attrs>, i: nat)
    requires i < |lines|
    ensures ImporteSum(lines[..i + 1]) == ImporteSum(lines[..i])
      + match ParseDecimal(AttrOr(lines[i], "Importe", "0")) case Some(x) => x case None => 0.0
  {
    assert lines[..i + 1][..i] == lines[..i];
  }

  /** One more line of the scan: how the tax names and the VAT-16% amount of a prefix grow. */
  lemma NamesStep(lines: seq<Attrs>, i: nat)
    requires i < |lines|
    ensures var imp := AttrOr(lines[i], "Impuesto", "");
      TaxNames(lines[..i + 1]) ==
        if imp != "" && imp !in TaxNames(lines[..i]) then TaxNames(lines[..i]) + [imp] else TaxNames(lines[..i])
    ensures Iva16(lines[..i + 1]) == if IsIva16(lines[i]) then AttrOr(lines[i], "Importe", "") else Iva16(lines[..i])
  {
    assert lines[..i + 1][..i] == lines[..i];
  }

  /** The one scan over the transfer lines, in both of the program's branches. */
  method ScanTransfers(lines: seq<Attrs>, summary: Option<string>) returns (total: Cell, names: seq<string>, iva: string)
    ensures summary.Some? ==> total == Text(summary.value)
    ensures summary.None? ==> total == Num(ImporteSum(lines))
    ensures names == TaxNames(lines)
    ensures iva == Iva16(lines)
  {
    names, iva := [], "";
    if summary.None? {
      var sum := 0.0;
      for i := 0 to |lines|
        invariant sum == ImporteSum(lines[..i])
        invariant names == TaxNames(lines[..i])
        invariant iva == Iva16(lines[..i])
      {
        var line := lines[i];
        SumStep(lines, i);
        NamesStep(lines, i);
        match ParseDecimal(AttrOr(line, "Importe", "0")) {
          case Some(x) => sum := sum + x;
          case None =>
        }
        var imp := AttrOr(line, "Impuesto", "");
        if imp != "" && imp !in names {
          names := names + [imp];
        }
        if IsIva16(line) {
          iva := AttrOr(line, "Importe", "");
        }
      }
      assert lines[..|lines|] == lines;
      total := Num(sum);
    } else {
      for i := 0 to |lines|
        invariant names == TaxNames(lines[..i])
        invariant iva == Iva16(lines[..i])
      {
        var line := lines[i];
        NamesStep(lines, i);
        var imp := AttrOr(line, "Impuesto", "");
        if imp != "" && imp !in names {
          names := names + [imp];
        }
        if IsIva16(line) {
          iva := AttrOr(line, "Importe", "");
        }
      }
      assert lines[..|lines|] == lines;
      total := Text(summary.value);
    }
  }

  /** The withheld-tax sum: always itemised, there is no summary shortcut. */
  method SumWithheld(lines: seq<Attrs>) returns (total: real)
    ensures total == ImporteSum(lines)
  {
    total := 0.0;
    for i := 0 to |lines|
      invariant total == ImporteSum(lines[..i])
    {
      assert lines[..i + 1][..i] == lines[..i];
      match ParseDecimal(AttrOr(lines[i], "Importe", "0")) {
        case Some(x) => total := total + x;
        case None =>
      }
    }
    assert lines[..|lines|] == lines;
  }

  /** Summing is additive over consecutive runs of lines. */
  lemma {:induction false} ImporteSumConcat(a: seq<Attrs>, b: seq<Attrs>)
    ensures ImporteSum(a + b) == ImporteSum(a) + ImporteSum(b)
    decreases |b|
  {
    if b == [] {
      assert a + b == a;
    } else {
      assert (a + b)[..|a + b| - 1] == a + b[..|b| - 1];
      ImporteSumConcat(a, b[..|b| - 1]);
    }
  }

  /** A line whose Importe does not parse contributes nothing; one with no Importe counts as "0". */
  lemma UnparsableContributesNothing(before: seq<Attrs>, line: Attrs, after: seq<Attrs>)
    requires ParseDecimal(AttrOr(line, "Importe", "0")).None? || "Importe" !in line
    ensures ImporteSum(before + [line] + after) == ImporteSum(before + after)
  {
    ImporteSumConcat(before + [line], after);
    ImporteSumConcat(before, [line]);
    ImporteSumConcat(before, after);
    assert [line][..0] == [];
    if "Importe" !in line {
      PlainInteger("0");
    }
  }

  /** The set of codes TaxNames must hold: every non-empty Impuesto of the lines. */
  function CodesOf(lines: seq<Attrs>): set<string> {
    set i | 0 <= i < |lines| && AttrOr(lines[i], "Impuesto", "") != "" :: AttrOr(lines[i], "Impuesto", "")
  }

  /** "Nombre Impuesto" lists each non-empty code once and nothing else. */
  lemma {:induction false} TaxNamesAreCodes(lines: seq<Attrs>)
    ensures forall i, j :: 0 <= i < j < |TaxNames(lines)| ==> TaxNames(lines)[i] != TaxNames(lines)[j]
    ensures forall i :: 0 <= i < |TaxNames(lines)| ==> TaxNames(lines)[i] != ""
    ensures (set n | n in TaxNames(lines)) == CodesOf(lines)
  {
    if lines != [] {
      var init := lines[..|lines| - 1];
      TaxNamesAreCodes(init);
      var imp := AttrOr(lines[|lines| - 1], "Impuesto", "");
      assert CodesOf(lines) == CodesOf(init) + (if imp != "" then {imp} else {}) by {
        forall c | c in CodesOf(lines) ensures c in CodesOf(init) + (if imp != "" then {imp} else {}) {
          var i :| 0 <= i < |lines| && AttrOr(lines[i], "Impuesto", "") != "" && AttrOr(lines[i], "Impuesto", "") == c;
          if i < |init| {
            assert init[i] == lines[i];
          }
        }
        forall c | c in CodesOf(init) ensures c in CodesOf(lines) {
          var i :| 0 <= i < |init| && AttrOr(init[i], "Impuesto", "") != "" && AttrOr(init[i], "Impuesto", "") == c;
          assert lines[i] == init[i];
        }
        if imp != "" {
          assert AttrOr(lines[|lines| - 1], "Impuesto", "") == imp;
        }
      }
    }
  }

  /** "Traslado IVA 0.160000 %" is the Importe of the last VAT-16% line, or "" if there is none. */
  lemma {:induction false} Iva16IsLastMatch(lines: seq<Attrs>)
    ensures (forall i :: 0 <= i < |lines| ==> !IsIva16(lines[i])) ==> Iva16(lines) == ""
    ensures forall j :: 0 <= j < |lines| && IsIva16(lines[j]) && (forall i :: j < i < |lines| ==> !IsIva16(lines[i]))
                        ==> Iva16(lines) == AttrOr(lines[j], "Importe", "")
  {
    if lines != [] {
      var init := lines[..|lines| - 1];
      Iva16IsLastMatch(init);
      forall j | 0 <= j < |lines| && IsIva16(lines[j]) && (forall i :: j < i < |lines| ==> !IsIva16(lines[i]))
        ensures Iva16(lines) == AttrOr(lines[j], "Importe", "")
      {
        if j < |lines| - 1 {
          assert !IsIva16(lines[|lines| - 1]);
          assert init[j] == lines[j];
          assert forall i :: j < i < |init| ==> init[i] == lines[i];
        }
      }
      if forall i :: 0 <= i < |lines| ==> !IsIva16(lines[i]) {
        assert forall i :: 0 <= i < |init| ==> init[i] == lines[i];
      }
    }
  }

  /**
   * The fallback agrees with the summary: a summary of "160.00" with no lines
   * and no summary with one line of Importe "160.00" both amount to 160.
   */
  lemma FallbackAgreesWithSummary(d1: Document, d2: Document)
    requires d1.taxes == Some(map["TotalImpuestosTrasladados" := "160.00"]) && d1.transfers == []
    requires d2.taxes == None && d2.transfers == [map["Importe" := "160.00"]]
    ensures TransferredTotal(d1) == Text("160.00")
    ensures TransferredTotal(d2) == Num(160.0)
    ensures ParseDecimal("160.00") == Some(160.0)
  {
    HundredSixtyParses();
    var line := d2.transfers[0];
    assert AttrOr(line, "Importe", "0") == "160.00";
    assert d2.transfers[..0] == [];
    assert ImporteSum(d2.transfers) == ImporteSum([]) + 160.0;
  }

  // ---------------------------------------------------------------------
  // The record

  /** Elements are joined with `sep` between consecutive ones (str.join). */
  function Join(parts: seq<string>, sep: string): string {
    if parts == [] then ""
    else if |parts| == 1 then parts[0]
    else Join(parts[..|parts| - 1], sep) + sep + parts[|parts| - 1]
  }

  /** "Descripcion: Importe" per concept, joined by "; ". */
  function ConceptsText(concepts: seq<Attrs>): string {
    Join(seq(|concepts|, i requires 0 <= i < |concepts| =>
           AttrOr(concepts[i], "Descripcion", "") + ": " + AttrOr(concepts[i], "Importe", "")), "; ")
  }

  /** An attribute of an optional element: "" when the element or the attribute is absent. */
  function PartAttr(part: Option<Attrs>, key: string): string {
    match part
    case None => ""
    case Some(a) => AttrOr(a, key, "")
  }

  /** The extracted record, one field per column of the schema. */
  datatype Record = Record(
    xml: string,
    rfcEmisor: string, nombreEmisor: string, regimenFiscalEmisor: string,
    rfcReceptor: string, nombreReceptor: string, cpReceptor: string, regimenReceptor: string,
    usoCfdiReceptor: string,
    tipo: string, serie: string, folio: string, fecha: string,
    subTotal: string, descuento: string, totalTrasladado: Cell, nombreImpuesto: string,
    totalRetenido: Cell, total: string, uuid: string, metodoPago: string,
    formaPago: string, moneda: string, tipoCambio: string, version: string, estado: string,
    estatus: string, validacionEfos: string, fechaConsulta: string, conceptos: string,
    relacionados: string, tipoRelacion: string, trasladoIva16: string)

  /** The record of document `d` read from archive member `name`. */
  function RecordOf(name: string, d: Document): Record {
    var root := d.root;
    Record(
      xml := name,
      rfcEmisor := PartAttr(d.emisor, "Rfc"),
      nombreEmisor := PartAttr(d.emisor, "Nombre"),
      regimenFiscalEmisor := PartAttr(d.emisor, "RegimenFiscal"),
      rfcReceptor := PartAttr(d.receptor, "Rfc"),
      nombreReceptor := PartAttr(d.receptor, "Nombre"),
      cpReceptor := PartAttr(d.receptor, "DomicilioFiscalReceptor"),
      regimenReceptor := PartAttr(d.receptor, "RegimenFiscalReceptor"),
      usoCfdiReceptor := if d.receptor.None? then "" else Catalogs.Describe(Catalogs.UsoCfdi, PartAttr(d.receptor, "UsoCFDI")),
      tipo := AttrOr(root, "TipoDeComprobante", ""),
      serie := AttrOr(root, "Serie", ""),
      folio := AttrOr(root, "Folio", ""),
      fecha := AttrOr(root, "Fecha", ""),
      subTotal := AttrOr(root, "SubTotal", ""),
      descuento := AttrOr(root, "Descuento", ""),
      totalTrasladado := TransferredTotal(d),
      nombreImpuesto := Join(TaxNames(d.transfers), ", "),
      totalRetenido := Num(ImporteSum(d.withholdings)),
      total := AttrOr(root, "Total", ""),
      uuid := PartAttr(d.stamp, "UUID"),
      metodoPago := AttrOr(root, "MetodoPago", ""),
      formaPago := Catalogs.Describe(Catalogs.FormaPagoAsWritten, AttrOr(root, "FormaPago", "")),
      moneda := AttrOr(root, "Moneda", ""),
      tipoCambio := AttrOr(root, "TipoCambio", ""),
      version := AttrOr(root, "Version", ""),
      estado := "", estatus := "", validacionEfos := "", fechaConsulta := "",
      conceptos := ConceptsText(d.concepts),
      relacionados := "", tipoRelacion := "",
      trasladoIva16 := Iva16(d.transfers))
  }

  /** The cell a record holds under column `col` of the schema. */
  function Field(r: Record, col: string): Cell {
    if col == "XML" then Text(r.xml)
    else if col == "Rfc Emisor" then Text(r.rfcEmisor)
    else if col == "Nombre Emisor" then Text(r.nombreEmisor)
    else if col == "Régimen Fiscal Emisor" then Text(r.regimenFiscalEmisor)
    else if col == "Rfc Receptor" then Text(r.rfcReceptor)
    else if col == "Nombre Receptor" then Text(r.nombreReceptor)
    else if col == "CP Receptor" then Text(r.cpReceptor)
    else if col == "Régimen Receptor" then Text(r.regimenReceptor)
    else if col == "Uso Cfdi Receptor" then Text(r.usoCfdiReceptor)
    else if col == "Tipo" then Text(r.tipo)
    else if col == "Serie" then Text(r.serie)
    else if col == "Folio" then Text(r.folio)
    else if col == "Fecha" then Text(r.fecha)
    else if col == "Sub Total" then Text(r.subTotal)
    else if col == "Descuento" then Text(r.descuento)
    else if col == "Total impuesto Trasladado" then r.totalTrasladado
    else if col == "Nombre Impuesto" then Text(r.nombreImpuesto)
    else if col == "Total impuesto Retenido" then r.totalRetenido
    else if col == "Total" then Text(r.total)
    else if col == "UUID" then Text(r.uuid)
    else if col == "Método de Pago" then Text(r.metodoPago)
    else if col == "Forma de Pago" then Text(r.formaPago)
    else if col == "Moneda" then Text(r.moneda)
    else if col == "Tipo de Cambio" then Text(r.tipoCambio)
    else if col == "Versión" then Text(r.version)
    else if col == "Estado" then Text(r.estado)
    else if col == "Estatus" then Text(r.estatus)
    else if col == "Validación EFOS" then Text(r.validacionEfos)
    else if col == "Fecha Consulta" then Text(r.fechaConsulta)
    else if col == "Conceptos" then Text(r.conceptos)
    else if col == "Relacionados" then Text(r.relacionados)
    else if col == "Tipo Relación" then Text(r.tipoRelacion)
    else Text(r.trasladoIva16)
  }

  /** The record as a table row: one cell per column of the schema. */
  function ToRow(r: Record): (row: Row)
    ensures row.Keys == FieldSet
    ensures Get(row, "XML") == Text(r.xml)
  {
    map col | col in FieldSet :: Field(r, col)
  }

  /** A missing Emisor, Receptor or stamp element leaves all of its fields at their initial "". */
  lemma AbsentPartsLeaveDefaults(name: string, d: Document)
    ensures var r := RecordOf(name, d);
      (d.emisor.None? ==> r.rfcEmisor == "" && r.nombreEmisor == "" && r.regimenFiscalEmisor == "") &&
      (d.receptor.None? ==> r.rfcReceptor == "" && r.nombreReceptor == "" && r.cpReceptor == "" &&
                            r.regimenReceptor == "" && r.usoCfdiReceptor == "") &&
      (d.stamp.None? ==> r.uuid == "")
  {
  }

  /** A missing amount, date or payment attribute of the root leaves its field at "", the payment form included. */
  lemma AbsentAttributesLeaveDefaults(name: string, d: Document)
    ensures var r := RecordOf(name, d);
      ("Fecha" !in d.root ==> r.fecha == "") &&
      ("SubTotal" !in d.root ==> r.subTotal == "") &&
      ("Descuento" !in d.root ==> r.descuento == "") &&
      ("Total" !in d.root ==> r.total == "") &&
      ("MetodoPago" !in d.root ==> r.metodoPago == "") &&
      ("FormaPago" !in d.root ==> r.formaPago == "")
  {
    if "FormaPago" !in d.root {
      Catalogs.EmptyCodeUncatalogued();
    }
  }

  /** A missing currency, version or identification attribute of the root leaves its field at "". */
  lemma AbsentIdentityLeavesDefaults(name: string, d: Document)
    ensures var r := RecordOf(name, d);
      ("Moneda" !in d.root ==> r.moneda == "") &&
      ("TipoCambio" !in d.root ==> r.tipoCambio == "") &&
      ("Version" !in d.root ==> r.version == "") &&
      ("Serie" !in d.root ==> r.serie == "") &&
      ("Folio" !in d.root ==> r.folio == "") &&
      ("TipoDeComprobante" !in d.root ==> r.tipo == "")
  {
  }

  /** The status and relation columns are never filled in. */
  lemma UnfilledColumnsStayEmpty(name: string, d: Document)
    ensures var r := RecordOf(name, d);
      r.estado == "" && r.estatus == "" && r.validacionEfos == "" && r.fechaConsulta == "" &&
      r.relacionados == "" && r.tipoRelacion == ""
  {
  }

  /** The payment form reads `code-label` when the code is in the program's table and the bare code otherwise. */
  lemma PaymentFormDescribed(name: string, d: Document)
    ensures var code := AttrOr(d.root, "FormaPago", "");
      var r := RecordOf(name, d);
      (code in Catalogs.FormaPagoAsWritten ==> r.formaPago == code + "-" + Catalogs.FormaPagoAsWritten[code]) &&
      (code !in Catalogs.FormaPagoAsWritten ==> r.formaPago == code)
  {
    Catalogs.PaymentLabelsNonEmpty();
  }

  /** As written, a document carrying the catalogue code "08" gets the bare code, and only "8" gets the label. */
  lemma PaymentFormAsWritten(name: string, d: Document)
    ensures AttrOr(d.root, "FormaPago", "") == "08" ==> RecordOf(name, d).formaPago == "08"
    ensures AttrOr(d.root, "FormaPago", "") == "8" ==> RecordOf(name, d).formaPago == "8" + "-" + "Vales de Despensa"
  {
    Catalogs.AsWrittenMissesVales();
    Catalogs.AsWrittenValesEntry();
  }

  /** The record as the program evidently intends it: the payment form looked up in the catalogue's own table. */
  function CorrectedRecordOf(name: string, d: Document): Record {
    RecordOf(name, d).(formaPago := Catalogs.Describe(Catalogs.FormaPago, AttrOr(d.root, "FormaPago", "")))
  }

  /** The corrected record renders "08" with its label and differs from the program's record in the payment form alone. */
  lemma CorrectedRecordRendersVales(name: string, d: Document)
    ensures AttrOr(d.root, "FormaPago", "") == "08" ==> CorrectedRecordOf(name, d).formaPago == "08" + "-" + "Vales de Despensa"
    ensures CorrectedRecordOf(name, d).(formaPago := RecordOf(name, d).formaPago) == RecordOf(name, d)
  {
    Catalogs.CorrectedLabelsVales();
  }

  /** The CFDI use reads `code-label` when the code is catalogued and the bare code otherwise. */
  lemma CfdiUseDescribed(name: string, d: Document)
    requires d.receptor.Some?
    ensures var code := AttrOr(d.receptor.value, "UsoCFDI", "");
      var r := RecordOf(name, d);
      (code in Catalogs.UsoCfdi ==> r.usoCfdiReceptor == code + "-" + Catalogs.UsoCfdi[code]) &&
      (code !in Catalogs.UsoCfdi ==> r.usoCfdiReceptor == code)
  {
    Catalogs.UseLabelsNonEmpty();
  }

  /** The emisor's Rfc, Nombre and RegimenFiscal; all "" without the element. */
  method ReadEmisor(emisor: Option<Attrs>) returns (rfc: string, nombre: string, regimen: string)
    ensures rfc == PartAttr(emisor, "Rfc") && nombre == PartAttr(emisor, "Nombre")
    ensures regimen == PartAttr(emisor, "RegimenFiscal")
  {
    rfc, nombre, regimen := "", "", "";
    if emisor.Some? {
      rfc := AttrOr(emisor.value, "Rfc", "");
      nombre := AttrOr(emisor.value, "Nombre", "");
      regimen := AttrOr(emisor.value, "RegimenFiscal", "");
    }
  }

  /** The receptor's attributes, the use code described by the catalogue; all "" without the element. */
  method ReadReceptor(receptor: Option<Attrs>) returns (rfc: string, nombre: string, cp: string, regimen: string, uso: string)
    ensures rfc == PartAttr(receptor, "Rfc") && nombre == PartAttr(receptor, "Nombre")
    ensures cp == PartAttr(receptor, "DomicilioFiscalReceptor") && regimen == PartAttr(receptor, "RegimenFiscalReceptor")
    ensures uso == if receptor.None? then "" else Catalogs.Describe(Catalogs.UsoCfdi, PartAttr(receptor, "UsoCFDI"))
  {
    rfc, nombre, cp, regimen, uso := "", "", "", "", "";
    if receptor.Some? {
      var r := receptor.value;
      rfc := AttrOr(r, "Rfc", "");
      nombre := AttrOr(r, "Nombre", "");
      cp := AttrOr(r, "DomicilioFiscalReceptor", "");
      regimen := AttrOr(r, "RegimenFiscalReceptor", "");
      uso := Catalogs.Describe(Catalogs.UsoCfdi, AttrOr(r, "UsoCFDI", ""));
    }
  }

  /** The stamp's UUID; "" without the timbre. */
  method ReadStamp(stamp: Option<Attrs>) returns (uuid: string)
    ensures uuid == PartAttr(stamp, "UUID")
  {
    uuid := "";
    if stamp.Some? {
      uuid := AttrOr(stamp.value, "UUID", "");
    }
  }

  /**
   * The record is filled in the program's order: every field starts as "",
   * the root, emisor, receptor and stamp attributes are copied when present,
   * then the tax scans and the concepts; the record is assembled at the end.
   */
  method BuildRecord(name: string, d: Document) returns (row: Record)
    ensures row == RecordOf(name, d)
  {
    var comp := d.root;
    var fecha := AttrOr(comp, "Fecha", "");
    var subTotal := AttrOr(comp, "SubTotal", "");
    var descuento := AttrOr(comp, "Descuento", "");
    var total := AttrOr(comp, "Total", "");
    var metodoPago := AttrOr(comp, "MetodoPago", "");
    var formaPagoCodigo := AttrOr(comp, "FormaPago", "");
    var formaPago := Catalogs.Describe(Catalogs.FormaPagoAsWritten, formaPagoCodigo);
    var moneda := AttrOr(comp, "Moneda", "");
    var tipoCambio := AttrOr(comp, "TipoCambio", "");
    var version := AttrOr(comp, "Version", "");
    var serie := AttrOr(comp, "Serie", "");
    var folio := AttrOr(comp, "Folio", "");
    var tipo := AttrOr(comp, "TipoDeComprobante", "");

    var rfcEmisor, nombreEmisor, regimenFiscalEmisor := ReadEmisor(d.emisor);
    var rfcReceptor, nombreReceptor, cpReceptor, regimenReceptor, usoCfdiReceptor := ReadReceptor(d.receptor);
    var uuid := ReadStamp(d.stamp);

    var transferred, names, iva := ScanTransfers(d.transfers, TransferSummary(d));
    var withheld := SumWithheld(d.withholdings);
    var conceptos := ConceptsText(d.concepts);

    row := Record(
      name, rfcEmisor, nombreEmisor, regimenFiscalEmisor,
      rfcReceptor, nombreReceptor, cpReceptor, regimenReceptor, usoCfdiReceptor,
      tipo, serie, folio, fecha, subTotal, descuento, transferred, Join(names, ", "),
      Num(withheld), total, uuid, metodoPago, formaPago, moneda, tipoCambio, version,
      "", "", "", "", conceptos, "", "", iva);
  }
}
