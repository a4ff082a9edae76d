/**
 * The spreadsheet export: each of the four report queries yields rows
 * whose columns keep the order of the SELECT list; `convert_data` turns
 * them into a header row followed by one row of values per result row,
 * and the four tables become the sheets of one workbook.
 */
module Export {
  import opened Common

  /** A value a report column can hold; dates arrive already formatted as text. */
  datatype Cell = Null | Int(i: int) | Text(s: string)

  /** A result row: column labels with their values, in SELECT-list order. */
  type Row = seq<(string, Cell)>

  /** The column labels of a row, as header cells. */
  function Labels(row: Row): (h: seq<Cell>)
    ensures |h| == |row|
  {
    seq(|row|, i requires 0 <= i < |row| => Text(row[i].0))
  }

  /** The values of a row, in column order. */
  function Values(row: Row): (v: seq<Cell>)
    ensures |v| == |row|
  {
    seq(|row|, i requires 0 <= i < |row| => row[i].1)
  }

  /** `table` is the header row of `rows[0]` followed by the values of each row, in order. */
  predicate Tabulates(table: seq<seq<Cell>>, rows: seq<Row>) {
    && |rows| >= 1
    && |table| == |rows| + 1
    && table[0] == Labels(rows[0])
    && forall i :: 0 <= i < |rows| ==> table[i + 1] == Values(rows[i])
  }

  datatype ExportError =
    | NoRows                   // `data[0]` on an empty result set
    | EmptySheet(name: string) // the sheet whose query returned nothing

  /**
   * `convert_data`: the first row's labels, then every row's values. An
   * empty result set has no first row, and indexing it raises.
   */
  method ConvertData(rows: seq<Row>) returns (r: Result<seq<seq<Cell>>, ExportError>)
    ensures r.Failure? <==> rows == []
    ensures r.Failure? ==> r.error == NoRows
    ensures r.Success? ==> Tabulates(r.value, rows)
  {
    if |rows| == 0 {
      return Failure(NoRows);
    }
    var table: seq<seq<Cell>> := [];
    var headers := Labels(rows[0]);
    table := table + [headers];
    var i := 0;
    while i < |rows|
      invariant 0 <= i <= |rows|
      invariant |table| == i + 1 && table[0] == headers
      invariant forall k :: 0 <= k < i ==> table[k + 1] == Values(rows[k])
    {
      table := table + [Values(rows[i])];
      i := i + 1;
    }
    return Success(table);
  }

  /**
   * When every row has the first row's columns (as rows of one query do),
   * cell `k` of value row `i + 1` sits under header `k`, and that header
   * names the column the value came from.
   */
  lemma TableIsAligned(table: seq<seq<Cell>>, rows: seq<Row>, i: nat, k: nat)
    requires Tabulates(table, rows) && SameColumns(rows)
    requires i < |rows| && k < |table[0]|
    ensures |table[i + 1]| == |table[0]|
    ensures table[0][k] == Text(rows[i][k].0) && table[i + 1][k] == rows[i][k].1
  {
  }

  /** Every row carries the first row's column labels, in the same order. */
  predicate SameColumns(rows: seq<Row>) {
    forall j :: 0 <= j < |rows| ==> Labels(rows[j]) == Labels(rows[0])
  }

  const SheetNames: seq<string> := ["Clinics", "Patients", "Appointments", "Scheduled Tests"]

  /**
   * The `/export` workbook: the four report tables as sheets, in this
   * order. Any report with no rows makes `convert_data` raise, and the
   * route then redirects home without a file.
   */
  method ExportWorkbook(clinics: seq<Row>, patients: seq<Row>, appointments: seq<Row>, scheduled: seq<Row>)
    returns (r: Result<seq<(string, seq<seq<Cell>>)>, ExportError>)
    ensures var reports := [clinics, patients, appointments, scheduled];
      && (r.Success? <==> forall k :: 0 <= k < 4 ==> reports[k] != [])
      && (r.Success? ==> |r.value| == 4
                         && forall k :: 0 <= k < 4 ==> r.value[k].0 == SheetNames[k] && Tabulates(r.value[k].1, reports[k]))
      && (r.Failure? ==> exists k :: 0 <= k < 4 && reports[k] == [] && r.error == EmptySheet(SheetNames[k])
                                     && forall j :: 0 <= j < k ==> reports[j] != [])
  {
    var reports := [clinics, patients, appointments, scheduled];
    var clinicSheet := ConvertData(clinics);
    if clinicSheet.Failure? {
      assert reports[0] == [];
      return Failure(EmptySheet(SheetNames[0]));
    }
    var patientSheet := ConvertData(patients);
    if patientSheet.Failure? {
      assert reports[0] != [] && reports[1] == [];
      return Failure(EmptySheet(SheetNames[1]));
    }
    var appointmentSheet := ConvertData(appointments);
    if appointmentSheet.Failure? {
      assert reports[0] != [] && reports[1] != [] && reports[2] == [];
      return Failure(EmptySheet(SheetNames[2]));
    }
    var scheduledSheet := ConvertData(scheduled);
    if scheduledSheet.Failure? {
      assert reports[..3] == [clinics, patients, appointments] && reports[3] == [];
      return Failure(EmptySheet(SheetNames[3]));
    }
    r := Success([(SheetNames[0], clinicSheet.value), (SheetNames[1], patientSheet.value),
                  (SheetNames[2], appointmentSheet.value), (SheetNames[3], scheduledSheet.value)]);
  }
}
