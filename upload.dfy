/**
 The spreadsheet importer (src/types/components/ExcelUpload.tsx): once the
 file reader has produced the file's bytes and the codec has turned the first
 sheet into rows, every row becomes one record.
 */
module ExcelUpload {
  import opened PortTypes
  import opened Sheet

  /** The headers the importer looks up, one per record field. */
  const PortNoHeader := "Port No"
  const ProjectHeader := "Proje Adı"
  const ApplicationHeader := "Uygulama Adı"
  const DescriptionHeader := "Açıklama"

  /** `row[header] || ""`: a missing cell and an empty cell both read as `""`. */
  function CellOrEmpty(row: Row, header: string): (s: string)
    ensures header in row ==> s == row[header]
    ensures header !in row ==> s == ""
  {
    if header in row && row[header] != "" then row[header] else ""
  }

  /** The four fields of one row. */
  function RowFields(row: Row): PortFields {
    PortFields(
      CellOrEmpty(row, PortNoHeader),
      CellOrEmpty(row, ProjectHeader),
      CellOrEmpty(row, ApplicationHeader),
      CellOrEmpty(row, DescriptionHeader))
  }

  /** `jsonData.map((row, index) => ({ id: index + 1, ... }))` */
  function MapRows(rows: seq<Row>): (ports: seq<Port>)
    ensures |ports| == |rows|
    ensures DenseIds(ports)
    ensures forall i :: 0 <= i < |rows| ==> FieldsOf(ports[i]) == RowFields(rows[i])
  {
    seq(|rows|, i requires 0 <= i < |rows| => WithId(RowFields(rows[i]), i + 1))
  }

  /** The reader's `onload`: with no result nothing is imported (`None`);
      otherwise `onImport` receives the mapped rows. */
  function HandleLoad(result: Option<seq<Row>>): (imported: Option<seq<Port>>)
    ensures imported.None? <==> result.None?
    ensures result.Some? ==> imported.value == MapRows(result.value)
  {
    match result
    case None => None
    case Some(rows) => Some(MapRows(rows))
  }

  /** No row is dropped, not even a blank one: it becomes a record of empty
      strings. */
  lemma BlankRowKept(rows: seq<Row>, i: nat)
    requires i < |rows| && rows[i] == map[]
    ensures MapRows(rows)[i] == Port(i + 1, "", "", "", "")
  {
  }

  /** Ids depend on row positions only: the rows after a prefix `a` are the
      rows' own records renumbered by `|a|`, and the prefix is mapped as if
      alone. */
  lemma MapRowsConcat(a: seq<Row>, b: seq<Row>)
    ensures MapRows(a + b)[..|a|] == MapRows(a)
    ensures forall j :: 0 <= j < |b| ==>
      MapRows(a + b)[|a| + j] == WithId(FieldsOf(MapRows(b)[j]), |a| + j + 1)
  {
    var r := MapRows(a + b);
    forall j | 0 <= j < |b|
      ensures r[|a| + j] == WithId(FieldsOf(MapRows(b)[j]), |a| + j + 1)
    {
      assert (a + b)[|a| + j] == b[j];
    }
  }

  /** A row whose headers are the ones the importer looks up. */
  function ImportableRow(f: PortFields): Row {
    map[PortNoHeader := f.portNumber, ProjectHeader := f.projectName,
        ApplicationHeader := f.applicationName, DescriptionHeader := f.description]
  }

  /** Such a row reads back as the fields it was built from. */
  lemma ImportableRowRoundTrip(f: PortFields)
    ensures RowFields(ImportableRow(f)) == f
  {
  }

  /** The exporter's headers are the record field names, none of which the
      importer looks up: an exported row comes back as a blank record. */
  lemma ExportedRowReadsBlank(f: PortFields)
    ensures RowFields(ExportedRow(f)) == BlankFields
  {
    var row := ExportedRow(f);
    assert PortNoHeader !in row && ProjectHeader !in row;
    assert ApplicationHeader !in row && DescriptionHeader !in row;
  }
}
