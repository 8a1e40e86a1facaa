/**
 The spreadsheet side as the components see it. The binary workbook codec
 is not modelled: a sheet read on import is the list of its data rows, each a
 header-to-cell map, and a workbook written on export is its file name, its
 one sheet's name and the row objects handed to the codec.
 */
module Sheet {
  import opened PortTypes

  /** One data row of the first sheet, keyed by the header row's cells. A
      blank cell has no entry. */
  type Row = map<string, string>

  /** The name of the single sheet both exporters write. */
  const SheetName := "Portlar"

  /** A workbook handed to the writer. */
  datatype Workbook = Workbook(fileName: string, sheetName: string, rows: seq<PortFields>)

  /** What pressing an export button leads to. */
  datatype ExportOutcome =
    | NoData            // "nothing to export" alert, nothing written
    | InvalidFileName   // "file name not valid" alert, nothing written
    | Written(book: Workbook)

  /** `ports.map(({ id, ...rest }) => rest)` */
  function StripIds(ports: seq<Port>): (rows: seq<PortFields>)
    ensures |rows| == |ports|
    ensures forall i :: 0 <= i < |ports| ==> WithId(rows[i], ports[i].id) == ports[i]
  {
    seq(|ports|, i requires 0 <= i < |ports| => FieldsOf(ports[i]))
  }

  /** Stripping works row by row, so it commutes with concatenation. */
  lemma StripIdsConcat(a: seq<Port>, b: seq<Port>)
    ensures StripIds(a + b) == StripIds(a) + StripIds(b)
  {
  }

  /** The ids are the only thing lost: putting them back restores the list. */
  lemma StripIdsLosesOnlyIds(ports: seq<Port>)
    ensures seq(|ports|, i requires 0 <= i < |ports| => WithId(StripIds(ports)[i], ports[i].id)) == ports
  {
  }

  /** The header row the codec writes for exported rows: the record's own
      field names, which is what `json_to_sheet` takes from the object keys. */
  function ExportedRow(f: PortFields): (row: Row)
    ensures row.Keys == {"portNumber", "projectName", "applicationName", "description"}
  {
    map["portNumber" := f.portNumber, "projectName" := f.projectName,
        "applicationName" := f.applicationName, "description" := f.description]
  }
}
