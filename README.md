# Port registry: a Dafny model

This project models the record-keeping core of a small single-page app that
keeps a registry of network ports. Each record has an id, a port number, a
project name, an application name and a description. The model covers:

- the list of records held by the top-level component and its four
  transitions: add, update, delete and import;
- the component's dialog state (`isDialogVisible`, `editingPort`) and how
  the handlers open and close it;
- the port form's initial values, its validation rules, and its choice
  between calling add or update on submit;
- the spreadsheet importer's mapping from header-keyed rows to records;
- the two exporters: the button that prompts for a file name, and the
  stand-alone utility with a fixed file name.

Modules:

| module | file | models |
|---|---|---|
| `PortTypes` | types.dfy | `Port`, the id-less field bundle, id predicates |
| `Sheet` | sheet.dfy | header-keyed rows, the written workbook, id stripping |
| `PortStore` | store.dfy | the pure list transitions of `src/App.tsx` |
| `PortApp` | app.dfy | the component as a class `App`; the delete wiring |
| `PortForm` | form.dfy | `src/types/components/PortForm.tsx` |
| `ExcelUpload` | upload.dfy | `src/types/components/ExcelUpload.tsx` |
| `ExcelExport` | export.dfy | `src/types/components/ExcelExport.tsx`, JavaScript `trim` |
| `ExportUtil` | export_util.dfy | `src/utils/excelExport.ts` |
| `Scenarios` | scenarios.dfy | walkthroughs that use several modules together |

The component's state lives in `PortApp.App`. Its methods replace the fields
with the results of the pure `PortStore` functions, and the lemmas about the
list are stated on those functions.

The model follows the code as written, including where it falls short of
what a record registry usually promises:

- A new record's id is the list length plus one, not the largest id plus one.
  After a delete this can repeat an id that is still in use
  (`DeleteThenAddCollides`).
- Imported records are numbered 1..n by row position. They are appended
  without renumbering, so they can repeat existing ids
  (`UploadIntoListWithIdOneCollides`).
- Updating or deleting an id that no record has leaves the list unchanged.
  No not-found error is raised.
- No confirmation step guards update or delete.
- Export writes the record field names as column headers. Import reads the
  Turkish headers "Port No", "Proje Adı", "Uygulama Adı" and "Açıklama".
  So an exported file does not read back into the same records: every field
  comes back empty (`ExportedRowReadsBlank`).

## Model

| member | source | states |
|---|---|---|
| `PortStore.AddPort` | src/App.tsx:15-20 | the result is the old list plus one record at the end; earlier records are unchanged; the new record has the submitted fields and id `length + 1` |
| `PortStore.UpdatePort` | src/App.tsx:24-25 | length and order are kept; every record whose id equals the update's id becomes the update; every other record is unchanged |
| `PortStore.DeletePort` | src/App.tsx:31-32 | the result is no longer than the input; every surviving record was in the input and has a different id |
| `PortStore.ImportPorts` | src/App.tsx:35-36 | the result is the old list followed by the imported list, both unchanged; its length is the sum of the two |
| `PortStore.AddKeepsDenseIds` | src/App.tsx:18 | if the ids are 1..n, an add makes them 1..n+1, all distinct; a run of adds from empty never repeats an id |
| `PortStore.AddCollidesWhenIdTaken` | src/App.tsx:18 | if some record already has id `length + 1`, the add produces a duplicate id |
| `PortStore.DeleteThenAddCollides` | src/App.tsx:15-33 | with ids 1..n, deleting any id below n and then adding gives two records with id n |
| `PortStore.UpdateKeepsIds` | src/App.tsx:25 | an update keeps every position's id, so it keeps ids distinct if they were |
| `PortStore.UpdateAbsentIsNoOp` | src/App.tsx:25 | an update whose id no record has leaves the list unchanged |
| `PortStore.UpdateIdempotent` | src/App.tsx:25 | applying the same update twice gives the same list as applying it once |
| `PortStore.UpdateThenRead` | src/App.tsx:25 | after an update, the new record is in the list if and only if its id was in the list |
| `PortStore.UpdateWithStoredRecordIsNoOp` | src/App.tsx:25 | with distinct ids, updating with a record already stored changes nothing |
| `PortStore.DeleteMembership` | src/App.tsx:32 | a record survives a delete if and only if it was in the list and has a different id |
| `PortStore.DeleteConcat` | src/App.tsx:32 | deleting from a concatenation is the concatenation of the deletes, so survivors keep their relative order |
| `PortStore.DeleteRemovesId` | src/App.tsx:32 | no record with the deleted id remains |
| `PortStore.DeleteAbsentIsNoOp` | src/App.tsx:32 | deleting an id that no record has leaves the list unchanged |
| `PortStore.DeleteIdempotent` | src/App.tsx:32 | deleting the same id twice gives the same list as deleting it once |
| `PortStore.DeleteOneWhenUnique` | src/App.tsx:32 | with distinct ids, deleting an id that is present removes exactly one record |
| `PortStore.ImportKeepsIds` | src/App.tsx:36 | the ids after an import are the old ids followed by the imported ids; none is reassigned |
| `PortStore.ImportCollidesOnSharedId` | src/App.tsx:36 | if an imported record has an id already in the list, the result has a duplicate id |
| `PortApp.App.constructor` | src/App.tsx:11-13 | the component starts with an empty list, the add dialog closed and nothing being edited |
| `PortApp.App.AddPort` | src/App.tsx:15-22 | the list becomes `AddPort` of the old list; the add dialog is closed; the edit selection is unchanged |
| `PortApp.App.UpdatePort` | src/App.tsx:24-29 | the list becomes `UpdatePort` of the old list; the edit selection is cleared and the dialog is not visible |
| `PortApp.App.DeletePort` | src/App.tsx:31-33 | the list becomes `DeletePort` of the old list, and no record has the deleted id; the dialog state is unchanged |
| `PortApp.App.ImportPorts` | src/App.tsx:35-37 | the list becomes the old list followed by the imported records; the dialog state is unchanged |
| `PortApp.App.ShowAddDialog` | src/App.tsx:45 | the "new port" button opens the add dialog, so the dialog is visible |
| `PortApp.App.EditPort` | src/App.tsx:51 | choosing a record to edit selects it, so the dialog is visible |
| `PortApp.App.HideDialog` | src/App.tsx:55-59 | hiding the dialog clears both the add flag and the edit selection |
| `PortApp.App.SubmitForm` | src/App.tsx:61-65 | a submit does what the form's dispatch says: invalid values change nothing; an add happens only when nothing is being edited; an update keeps the edited record's id; any accepted submit leaves the dialog closed |
| `PortApp.App.FileLoaded` | src/App.tsx:49 | a load with no result changes nothing; otherwise the mapped rows are appended to the list |
| `PortApp.App.DeleteRow` | src/App.tsx:51 | corrected delete wiring: the row's id is passed, and the row is no longer in the list |
| `PortApp.DeleteAsWired` | src/App.tsx:32 | the delete filter applied to whatever value arrives as its argument never lengthens the list |
| `PortApp.DeleteAsWiredById` | src/App.tsx:32 | given a number, the filter is exactly `DeletePort` |
| `PortApp.DeleteAsWiredWithRowKeepsAll` | src/types/components/PortList.tsx:24 | given the row object, as the list's delete button passes it, the filter keeps every record |
| `PortApp.DeleteButtonLeavesRow` | src/types/components/PortList.tsx:24 | with one record, delete pressed on it leaves it in place; the by-id delete removes it |
| `PortForm.InitialValues` | src/types/components/PortForm.tsx:16-21 | the form starts with the edited port's fields, or `""` in every field when no port is given |
| `PortForm.Submit` | src/types/components/PortForm.tsx:22-44 | submit is refused exactly when validation fails; it updates exactly when the values are valid and both a port and `onUpdate` are present; an update carries the form values and the port's own id; an add carries exactly the four values |
| `PortForm.PortNumberRule` | src/types/components/PortForm.tsx:23-25 | a port number is accepted if and only if it is non-empty and every character is an ASCII digit 0-9 |
| `PortForm.RequiredNamesBlockSubmit` | src/types/components/PortForm.tsx:23-27 | an empty port number, project name or application name blocks the submit |
| `PortForm.DescriptionUnconstrained` | src/types/components/PortForm.tsx:22-28 | changing the description never changes validity or which callback runs |
| `PortForm.UnchangedEditSubmitsSamePort` | src/types/components/PortForm.tsx:16-36 | submitting an untouched edit form of a valid record calls `onUpdate` with that same record |
| `PortForm.BlankFormIsRejected` | src/types/components/PortForm.tsx:16-28 | a new form left blank fails validation |
| `ExcelUpload.CellOrEmpty` | src/types/components/ExcelUpload.tsx:26-29 | a cell reads as its text when the header is present, and as `""` when it is missing |
| `ExcelUpload.MapRows` | src/types/components/ExcelUpload.tsx:24-30 | one record per row in the same order; the ids are 1..n whatever the list holds; each record's fields come from its row's headed cells |
| `ExcelUpload.HandleLoad` | src/types/components/ExcelUpload.tsx:15-32 | nothing is imported if and only if the reader produced no result; otherwise the import is the mapped rows |
| `ExcelUpload.BlankRowKept` | src/types/components/ExcelUpload.tsx:24-30 | a row with no cells is kept as a record of empty strings with its positional id |
| `ExcelUpload.MapRowsConcat` | src/types/components/ExcelUpload.tsx:24-25 | ids depend only on row position: a prefix maps as if alone, and later rows are their own records renumbered by the prefix length |
| `ExcelUpload.ImportableRowRoundTrip` | src/types/components/ExcelUpload.tsx:26-29 | a row built with the importer's headers reads back as the fields it was built from |
| `ExcelUpload.ExportedRowReadsBlank` | src/types/components/ExcelUpload.tsx:26-29 | a row headed with the exporter's field names reads back with every field empty |
| `Sheet.StripIds` | src/types/components/ExcelExport.tsx:27 | one row per record in the same order; putting back each record's id gives the record |
| `Sheet.StripIdsConcat` | src/utils/excelExport.ts:11 | stripping ids commutes with concatenation |
| `Sheet.StripIdsLosesOnlyIds` | src/utils/excelExport.ts:11 | the id is the only thing the exported rows lose |
| `Sheet.ExportedRow` | src/types/components/ExcelExport.tsx:27-28 | an exported row's headers are the four record field names |
| `ExcelExport.TrimStart` | src/types/components/ExcelExport.tsx:21 | the result is a suffix of the input; everything cut is JavaScript whitespace; the result does not start with whitespace |
| `ExcelExport.TrimEnd` | src/types/components/ExcelExport.tsx:21 | the result is a prefix of the input; everything cut is JavaScript whitespace; the result does not end with whitespace |
| `ExcelExport.TrimCutsWhitespace` | src/types/components/ExcelExport.tsx:34 | the input is the leading cut, then the trimmed string, then the trailing cut, and both cuts are all whitespace |
| `ExcelExport.TrimmedEnds` | src/types/components/ExcelExport.tsx:34 | a non-empty trimmed string neither starts nor ends with whitespace |
| `ExcelExport.TrimEndKeepsStart` | src/types/components/ExcelExport.tsx:34 | cutting trailing whitespace keeps a non-whitespace first character |
| `ExcelExport.BlankIffAllWhitespace` | src/types/components/ExcelExport.tsx:21 | a name is blank if and only if every character is whitespace |
| `ExcelExport.TrimOfTrimmed` | src/types/components/ExcelExport.tsx:34 | a string without whitespace at either end is its own trim |
| `ExcelExport.TrimIdempotent` | src/types/components/ExcelExport.tsx:34 | trimming twice is trimming once |
| `ExcelExport.HandleExport` | src/types/components/ExcelExport.tsx:11-35 | an empty list is refused; otherwise a cancelled, empty or whitespace-only name is refused; otherwise the file is the trimmed name plus ".xlsx", the sheet is "Portlar", and the rows are the records without ids |
| `ExcelExport.ExportFileName` | src/types/components/ExcelExport.tsx:34 | a written file name ends in ".xlsx" after a non-empty stem that neither starts nor ends with whitespace |
| `ExcelExport.ExportIgnoresSurroundingWhitespace` | src/types/components/ExcelExport.tsx:21-34 | padding the answer with whitespace does not change the outcome |
| `ExportUtil.ExportToExcel` | src/utils/excelExport.ts:5-17 | an empty list is refused and a name is never refused; the file is "Port_Listesi.xlsx", the sheet is "Portlar", and the rows are the records without ids |
| `ExportUtil.AgreesWithDefaultPrompt` | src/utils/excelExport.ts:5-17 | the utility produces exactly what the export button produces when the user accepts the default "Port_Listesi" |
| `Scenarios.UploadIntoListWithIdOneCollides` | src/types/components/ExcelUpload.tsx:24-32 | importing a non-empty sheet into a list that holds id 1 gives a duplicate id |
| `Scenarios.AddDeleteImportWalkthrough` | src/App.tsx:15-37 | add two records (ids 1 and 2), delete id 1, import one row: the imported record gets id 1, and the list holds two records |
| `Scenarios.AddDeleteAddWalkthrough` | src/App.tsx:15-33 | add two records, delete id 1, add again: the list holds two records, both with id 2 |

## Findings

| source | as written | input that shows it | evidently intended | confidence | as-written member | corrected member |
|---|---|---|---|---|---|---|
| src/types/components/PortList.tsx:24 | the delete button passes the whole row to `onDelete`, which is `deletePort(id: number)` (src/App.tsx:51); its filter `p.id !== id` compares a number with an object, which is always true | a list `[p]`, delete pressed on `p`: the list stays `[p]` | remove the records whose id is the row's id | high for the code as written, not executed; a strict TypeScript build may reject the wiring before it runs | `PortApp.DeleteAsWiredWithRowKeepsAll` | `PortApp.App.DeleteRow` |

## Left out

- Rendering: the JSX layout, styling, the data table's pagination, sorting and filtering, and `src/index.tsx`.
- The file reader and the spreadsheet codec (`XLSX.read`, `sheet_to_json`, `json_to_sheet`, `book_new`, `writeFile`). A sheet is modelled as its data rows, each a header-to-text map. A written workbook is its file name, sheet name and rows.
- The `alert` and `prompt` dialogs. The prompt's answer is an input (`None` when cancelled). An alert is an outcome constructor (`NoData`, `InvalidFileName`). The alert texts are not modelled.
- The form library's touched/error bookkeeping, its error messages and `enableReinitialize`. Only per-field validity and the submit dispatch are modelled. The library's rule that submit runs only when validation passes is part of `PortForm.Submit`.
- ExcelUpload.CellOrEmpty: treats every cell as text. The codec can also yield numbers and booleans for numeric and boolean cells. Those are stored untyped, and falsy ones (0, false) become `""`. This is not captured.
- Ids are JavaScript numbers; the model uses unbounded integers and ignores floating point.
- Each handler reads the state of the last render. The model applies events one after another to the latest state, which is the same for one event per render.
- Backend sync, confirmation dialogs and not-found errors do not exist in this code, so they are not modelled.
