/**
 The stand-alone exporter (src/utils/excelExport.ts): no prompt, a fixed
 file name.
 */
module ExportUtil {
  import opened PortTypes
  import opened Sheet
  import ExcelExport

  const DefaultFileName := "Port_Listesi.xlsx"

  /** `exportToExcel` */
  function ExportToExcel(ports: seq<Port>): (out: ExportOutcome)
    ensures out.NoData? <==> |ports| == 0
    ensures !out.InvalidFileName?
    ensures out.Written? ==>
      && out.book.fileName == "Port_Listesi.xlsx"
      && out.book.sheetName == "Portlar"
      && out.book.rows == StripIds(ports)
  {
    if |ports| == 0 then NoData
    else Written(Workbook(DefaultFileName, SheetName, StripIds(ports)))
  }

  /** The fixed-name exporter writes exactly what the export button writes
      when the user accepts the prompt's default answer "Port_Listesi". */
  lemma AgreesWithDefaultPrompt(ports: seq<Port>)
    ensures ExportToExcel(ports) == ExcelExport.HandleExport(ports, Some("Port_Listesi"))
  {
    var stem := "Port_Listesi";
    ExcelExport.TrimOfTrimmed(stem);
  }
}
