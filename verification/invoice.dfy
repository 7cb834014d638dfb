/** The record `extract_info` returns: six text fields keyed by the table's column
    names, each filled by one pattern over the space-joined OCR fragments. */
module Invoice {
  import opened Text
  import opened Scan
  import opened Fields

  /** One invoice, one field per column of the table. */
  datatype Record = Record(
    sellerId: string,
    invoiceDate: string,
    invoiceNumber: string,
    item: string,
    salesAmount: string,
    taxAmount: string)

  /** The table's column names, in display order (seller id, invoice date, invoice
      number, item, voucher amount, tax amount). */
  const Columns: seq<string> := ["賣方統編", "發票日期", "發票號碼", "項目", "憑證金額", "原幣稅額"]

  /** A row holds a cell for each of the six columns. */
  predicate HasColumns(m: map<string, string>)
  {
    forall k :: 0 <= k < |Columns| ==> Columns[k] in m
  }

  /** A row holds only cells for the six columns. */
  predicate OnlyColumns(m: map<string, string>)
  {
    forall c :: c in m ==> c in Columns
  }

  /** The fixed item text around the litres: "95汽油 <litres> L". */
  predicate IsItem(t: string)
  {
    && |t| >= |FuelLabel| + 7
    && t[..|FuelLabel|] == FuelLabel && t[|t| - 2..] == " L"
    && IsLiters(t[|FuelLabel|..|t| - 2])
  }

  /** What each field can hold: its default "" or the shape its pattern guarantees;
      the item is never empty. */
  predicate WellFormed(r: Record)
  {
    && (r.sellerId == "" || (|r.sellerId| == 8 && AllDigits(r.sellerId)))
    && (r.invoiceDate == "" || IsSlashDate(r.invoiceDate))
    && (r.invoiceNumber == "" || IsInvoiceNumber(r.invoiceNumber))
    && IsItem(r.item)
    && (r.salesAmount == "" || AllDigits(r.salesAmount))
    && (r.taxAmount == "" || AllDigits(r.taxAmount))
  }

  /** The OCR fragments joined with single spaces, then the six searches, each over the
      same text and independent of the others. `w` is the engine's word-character class. */
  function ExtractInfo(w: char -> bool, fragments: seq<string>): (r: Record)
    requires WordClass(w)
    ensures WellFormed(r)
    ensures r.item == FuelLabel + Liters(Join(fragments)) + " L"
  {
    var text := Join(fragments);
    Record(
      SellerId(w, text),
      InvoiceDate(text),
      InvoiceNumber(text),
      ItemDescription(text),
      SalesAmount(text),
      TaxAmount(text))
  }

  /** Fragments without line feeds: the item holds the first `digits.ddd` after the first
      "95" of the joined text, or the default litres. */
  lemma ItemWithoutNewlines(w: char -> bool, fragments: seq<string>)
    requires WordClass(w)
    requires forall k :: 0 <= k < |fragments| ==> '\n' !in fragments[k]
    ensures ExtractInfo(w, fragments).item == FuelLabel + LitersAfterFirst95(Join(fragments)) + " L"
  {
    JoinWithoutNewline(fragments);
    LitersWithoutNewline(Join(fragments));
  }

  /** Nothing recognised: every field takes its default, and the item still names 95
      fuel with "00.000" litres. */
  lemma ExtractInfoOfNothing(w: char -> bool)
    requires WordClass(w)
    ensures ExtractInfo(w, []) == Record("", "", "", "95汽油 00.000 L", "", "")
  {
    var text := Join([]);
    assert text == "";
    assert forall i: nat :: i <= |text| ==> !StandaloneRun(w, text, i);
    assert forall i: nat :: i <= |text| ==> DateAt(text, i).None?;
    assert forall i: nat :: i <= |text| ==> InvoiceAt(text, i).None?;
    assert forall i: nat :: i <= |text| ==> FuelAt(text, i).None?;
    assert Liters(text) == DefaultLiters;
    assert forall i: nat :: i <= |text| ==> KeywordAmountAt(SalesKeywords, text, i).None?;
    assert forall i: nat :: i <= |text| ==> KeywordAmountAt(TaxKeywords, text, i).None?;
  }

  /** Lines 63-70: the record as the dictionary handed to the table, keyed by column. */
  function ToRow(r: Record): (m: map<string, string>)
    ensures HasColumns(m) && OnlyColumns(m)
  {
    map[
      Columns[0] := r.sellerId,
      Columns[1] := r.invoiceDate,
      Columns[2] := r.invoiceNumber,
      Columns[3] := r.item,
      Columns[4] := r.salesAmount,
      Columns[5] := r.taxAmount]
  }

  /** A row keyed by the six column names, read back as a record. */
  function FromRow(m: map<string, string>): (r: Record)
    requires HasColumns(m)
  {
    Record(m[Columns[0]], m[Columns[1]], m[Columns[2]], m[Columns[3]], m[Columns[4]], m[Columns[5]])
  }

  lemma ColumnsDistinct()
    ensures forall i, j :: 0 <= i < j < |Columns| ==> Columns[i] != Columns[j]
  {
  }

  /** Reading a record's row back by column gives the record: no field lands in
      another field's column. */
  lemma RowRoundTrip(r: Record)
    ensures FromRow(ToRow(r)) == r
  {
    ColumnsDistinct();
  }

  /** A row with exactly the six columns is the row of the record read from it. */
  lemma RowFromColumns(m: map<string, string>)
    requires HasColumns(m) && OnlyColumns(m)
    ensures ToRow(FromRow(m)) == m
  {
    var m' := ToRow(FromRow(m));
    assert forall c :: c in m' <==> c in m;
    forall c | c in m ensures m'[c] == m[c] {
      ColumnsDistinct();
    }
  }
}
