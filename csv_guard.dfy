/** The formula-injection guard applied to every field before the rows are
    written as CSV: a value whose first character a spreadsheet would read
    as the start of a formula gets a single quote in front of it. */
module CsvGuard {
  import opened Transactions

  /** `CSV_INJECTION_CHARS`. */
  const InjectionChars: seq<char> := ['=', '+', '-', '@', '\t', '\r', '\n']

  /** The CSV header, `FIELDNAMES`, in column order. */
  const FieldNames: seq<string> :=
    ["", "Detajet", "Perfituesi", "Referenca", "Nr i Kartes", "Data/Ora", "Terminali", "Debi", "Kredi", "Balanca"]

  /** A spreadsheet would take the value for a formula. */
  predicate StartsWithInjection(value: string) {
    value != [] && value[0] in InjectionChars
  }

  /** `sanitize_csv_field`: the result never starts a formula, and it is the
      value itself or the value behind one added quote. */
  function SanitizeField(value: string): (r: string)
    ensures !StartsWithInjection(r)
    ensures |value| <= |r| <= |value| + 1 && r[|r| - |value|..] == value
    ensures |r| == |value| + 1 ==> r[0] == '\''
  {
    if StartsWithInjection(value) then "'" + value else value
  }

  /** The guard changes a value exactly when it starts with one of the
      injection characters. */
  lemma SanitizeChangesIff(value: string)
    ensures SanitizeField(value) != value <==> StartsWithInjection(value)
  {
    if StartsWithInjection(value) {
      assert |SanitizeField(value)| == |value| + 1;
    }
  }

  /** Sanitizing a sanitized value changes nothing. */
  lemma SanitizeIdempotent(value: string)
    ensures SanitizeField(SanitizeField(value)) == SanitizeField(value)
  {
    SanitizeChangesIff(SanitizeField(value));
  }

  /** No field of the row starts a formula. */
  predicate RowIsSafe(row: Row) {
    !StartsWithInjection(row.prefix) && !StartsWithInjection(row.detajet)
    && !StartsWithInjection(row.perfituesi) && !StartsWithInjection(row.referenca)
    && !StartsWithInjection(row.nrKartes) && !StartsWithInjection(row.dataOra)
    && !StartsWithInjection(row.terminali) && !StartsWithInjection(row.debi)
    && !StartsWithInjection(row.kredi) && !StartsWithInjection(row.balanca)
  }

  /** Every field of a row passed through the guard. */
  function SanitizeRow(row: Row): (r: Row)
    ensures RowIsSafe(r)
  {
    Row(SanitizeField(row.prefix), SanitizeField(row.detajet), SanitizeField(row.perfituesi),
        SanitizeField(row.referenca), SanitizeField(row.nrKartes), SanitizeField(row.dataOra),
        SanitizeField(row.terminali), SanitizeField(row.debi), SanitizeField(row.kredi),
        SanitizeField(row.balanca))
  }

  /** A row that is already safe passes through the guard unchanged. */
  lemma SafeRowIsStable(row: Row)
    requires RowIsSafe(row)
    ensures SanitizeRow(row) == row
  {
    SanitizeChangesIff(row.prefix);
    SanitizeChangesIff(row.detajet);
    SanitizeChangesIff(row.perfituesi);
    SanitizeChangesIff(row.referenca);
    SanitizeChangesIff(row.nrKartes);
    SanitizeChangesIff(row.dataOra);
    SanitizeChangesIff(row.terminali);
    SanitizeChangesIff(row.debi);
    SanitizeChangesIff(row.kredi);
    SanitizeChangesIff(row.balanca);
  }

  /** The sanitizing loop of `rows_to_csv`: each row, in order, with every
      field passed through the guard. */
  method SanitizeRows(rows: seq<Row>) returns (sanitizedRows: seq<Row>)
    ensures |sanitizedRows| == |rows|
    ensures forall k :: 0 <= k < |rows| ==> sanitizedRows[k] == SanitizeRow(rows[k])
    ensures forall k :: 0 <= k < |rows| ==> RowIsSafe(sanitizedRows[k])
  {
    hide SanitizeRow, SanitizeField;
    sanitizedRows := [];
    for k := 0 to |rows|
      invariant |sanitizedRows| == k
      invariant forall m :: 0 <= m < k ==> sanitizedRows[m] == SanitizeRow(rows[m])
    {
      sanitizedRows := sanitizedRows + [SanitizeRow(rows[k])];
    }
  }

  /** The header row, written without the guard, cannot start a formula
      either. */
  lemma HeaderIsSafe()
    ensures |FieldNames| == 10
    ensures forall k :: 0 <= k < |FieldNames| ==> !StartsWithInjection(FieldNames[k])
  {
  }
}
