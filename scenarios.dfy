/**
 Whole-component walkthroughs: the store, the importer and the form used
 together, as the component wires them.
 */
module Scenarios {
  import opened PortTypes
  import opened Sheet
  import opened PortStore
  import opened ExcelUpload
  import PortForm

  /** Importing a non-empty sheet into a list that already holds id 1
      duplicates id 1: imported ids always restart at 1. */
  lemma UploadIntoListWithIdOneCollides(ports: seq<Port>, rows: seq<Row>)
    requires HasId(ports, 1) && |rows| > 0
    ensures !UniqueIds(ImportPorts(ports, MapRows(rows)))
  {
    var imported := MapRows(rows);
    assert imported[0].id == 1;
    ImportCollidesOnSharedId(ports, imported, 1);
  }

  /** Add two ports, delete the first, import a one-row sheet: the imported
      record gets id 1, not an id above 2, and the list holds two records. */
  lemma AddDeleteImportWalkthrough()
    ensures
      var alpha := PortFields("8080", "Alpha", "Web", "");
      var beta := PortFields("9090", "Beta", "API", "");
      var gamma := map[PortNoHeader := "7000", ProjectHeader := "Gamma", ApplicationHeader := "Batch"];
      var s1 := AddPort([], alpha);
      var s2 := AddPort(s1, beta);
      var s3 := DeletePort(s2, 1);
      var s4 := ImportPorts(s3, MapRows([gamma]));
      && PortForm.FormValid(alpha) && PortForm.FormValid(beta)
      && s2 == [WithId(alpha, 1), WithId(beta, 2)]
      && s3 == [WithId(beta, 2)]
      && s4 == [WithId(beta, 2), Port(1, "7000", "Gamma", "Batch", "")]
  {
    var alpha := PortFields("8080", "Alpha", "Web", "");
    var beta := PortFields("9090", "Beta", "API", "");
    var s2 := AddPort(AddPort([], alpha), beta);
    assert s2 == [WithId(alpha, 1), WithId(beta, 2)];
    assert s2[1..][1..] == [];
  }

  /** Add two ports, delete the first, add again: the third add reuses id 2. */
  lemma AddDeleteAddWalkthrough(a: PortFields, b: PortFields, c: PortFields)
    ensures
      var s := AddPort(DeletePort(AddPort(AddPort([], a), b), 1), c);
      s == [WithId(b, 2), WithId(c, 2)] && !UniqueIds(s)
  {
    var s2 := AddPort(AddPort([], a), b);
    assert s2 == [WithId(a, 1), WithId(b, 2)];
    assert s2[1..][1..] == [];
    assert DeletePort(s2, 1) == [WithId(b, 2)];
    var s := AddPort(DeletePort(s2, 1), c);
    assert s[0].id == s[1].id;
  }
}
