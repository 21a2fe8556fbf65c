/**
 * The two code tables of the extractor: payment forms (c_FormaPago) and
 * CFDI uses (c_UsoCFDI), from Annex 20 of the CFDI 4.0 standard.  A code found
 * in its table is rendered as "code-label"; any other code is kept raw.
 */
module Catalogs {

  /** The payment-form table exactly as the program writes it, "8" where the catalogue has "08"; the extractor uses this one. */
  const FormaPagoAsWritten: map<string, string> := map[
    "01" := "Efectivo", "02" := "Cheque Nominativo", "03" := "Transferencia Electrónica de Fondos SPEI",
    "04" := "Tarjeta de Crédito", "05" := "Monedero Electrónico", "06" := "Dinero Electrónico",
    "8" := "Vales de Despensa", "12" := "Dación en Pago", "13" := "Pago por Subrogación",
    "14" := "Pago por Consignación", "15" := "Condonación", "17" := "Compensación", "23" := "Novación",
    "24" := "Confusión", "25" := "Remisión de Deuda", "26" := "Prescripción o Caducidad",
    "27" := "A Satisfacción del Acreedor", "28" := "Tarjeta de Débito", "29" := "Tarjeta de Servicios",
    "30" := "Aplicación de Anticipos", "31" := "Intermediario Pagos", "99" := "Por Definir"
  ]

  /** The payment-form table with the catalogue's own key "08", as the program evidently intends. */
  const FormaPago: map<string, string> := map[
    "01" := "Efectivo", "02" := "Cheque Nominativo", "03" := "Transferencia Electrónica de Fondos SPEI",
    "04" := "Tarjeta de Crédito", "05" := "Monedero Electrónico", "06" := "Dinero Electrónico",
    "08" := "Vales de Despensa", "12" := "Dación en Pago", "13" := "Pago por Subrogación",
    "14" := "Pago por Consignación", "15" := "Condonación", "17" := "Compensación", "23" := "Novación",
    "24" := "Confusión", "25" := "Remisión de Deuda", "26" := "Prescripción o Caducidad",
    "27" := "A Satisfacción del Acreedor", "28" := "Tarjeta de Débito", "29" := "Tarjeta de Servicios",
    "30" := "Aplicación de Anticipos", "31" := "Intermediario Pagos", "99" := "Por Definir"
  ]

  const UsoCfdi: map<string, string> := map[
    "G01" := "Adquisición de mercancías", "G02" := "Devoluciones, descuentos o bonificaciones",
    "G03" := "Gastos en general", "I01" := "Construcciones", "I02" := "Mobiliario y equipo de oficina por inversiones",
    "I03" := "Equipo de transporte", "I04" := "Equipo de computo y accesorios",
    "I05" := "Dados, troqueles, moldes, matrices y herramental",
    "I06" := "Comunicaciones telefónicas", "I07" := "Comunicaciones satelitales", "I08" := "Otra maquinaria y equipo",
    "D01" := "Honorarios médicos, dentales y gastos hospitalarios", "D02" := "Gastos médicos por incapacidad o discapacidad",
    "D03" := "Gastos funerarios", "D04" := "Donativos",
    "D05" := "Intereses reales pagados por créditos hipotecarios (casa habitación)",
    "D06" := "Aportaciones voluntarias al SAR", "D07" := "Primas por seguros de gastos médicos",
    "D08" := "Gastos de transportación escolar obligatoria",
    "D09" := "Depósitos en cuentas para el ahorro, primas que tengan como base planes de pensiones",
    "D10" := "Pagos por servicios educativos (colegiaturas)", "S01" := "Sin efectos fiscales",
    "CP01" := "Pagos", "CN01" := "Nómina"
  ]

  /**
   * `table.get(code, "")` followed by the program's `if desc:` test: a code
   * with a non-empty label becomes "code-label", every other code stays raw.
   */
  function Describe(table: map<string, string>, code: string): (r: string)
    ensures code in table && table[code] != "" ==> r == code + "-" + table[code]
    ensures code !in table ==> r == code
    ensures |code| <= |r| && r[..|code|] == code
  {
    if code in table && table[code] != "" then code + "-" + table[code] else code
  }

  predicate NonEmptyLabels(table: map<string, string>) {
    forall code :: code in table ==> table[code] != ""
  }

  /** Every payment-form label is non-empty, so `if desc:` is exactly "the code is in the table". */
  lemma PaymentLabelsNonEmpty()
    ensures NonEmptyLabels(FormaPagoAsWritten) && NonEmptyLabels(FormaPago)
  {
  }

  /** Every CFDI-use label is non-empty. */
  lemma UseLabelsNonEmpty()
    ensures NonEmptyLabels(UsoCfdi)
  {
  }

  /** The corrected table has the keys as written, with "08" in place of "8"... */
  lemma CorrectionIsOneKey()
    ensures FormaPago.Keys == FormaPagoAsWritten.Keys - {"8"} + {"08"}
  {
  }

  /** ...and the same label under every key. */
  lemma CorrectionKeepsLabels()
    ensures FormaPago["08"] == FormaPagoAsWritten["8"]
    ensures forall code :: code in FormaPago && code != "08" ==> code in FormaPagoAsWritten && FormaPago[code] == FormaPagoAsWritten[code]
  {
  }

  /** A catalogue code of c_FormaPago is two decimal digits. */
  predicate TwoDigitKeys(table: map<string, string>) {
    forall code :: code in table ==> |code| == 2 && '0' <= code[0] <= '9' && '0' <= code[1] <= '9'
  }

  /** As written, the key "8" is not a catalogue code, and the code "08" that documents carry stays raw. */
  lemma AsWrittenMissesVales()
    ensures !TwoDigitKeys(FormaPagoAsWritten)
    ensures Describe(FormaPagoAsWritten, "08") == "08"
  {
    assert "8" in FormaPagoAsWritten && |"8"| == 1;
    assert "08" !in FormaPagoAsWritten;
  }

  /** With the catalogue's key, every key is a two-digit code... */
  lemma CorrectedKeysTwoDigit()
    ensures TwoDigitKeys(FormaPago)
  {
  }

  /** No payment-form table has the empty code, so a missing attribute is rendered as "". */
  lemma EmptyCodeUncatalogued()
    ensures "" !in FormaPagoAsWritten && "" !in FormaPago
  {
  }

  /** Nor has the CFDI-use table. */
  lemma EmptyUseUncatalogued()
    ensures "" !in UsoCfdi
  {
  }

  /** ...and the code "08" gets its label. */
  lemma CorrectedLabelsVales()
    ensures Describe(FormaPago, "08") == "08" + "-" + "Vales de Despensa"
  {
    ValesEntry();
  }

  /** As written, the label sits under the one-digit key. */
  lemma AsWrittenValesEntry()
    ensures "8" in FormaPagoAsWritten && FormaPagoAsWritten["8"] == "Vales de Despensa"
  {
  }

  lemma ValesEntry()
    ensures "08" in FormaPago && FormaPago["08"] == "Vales de Despensa"
  {
  }
}
