/**
 The port record and the id-less field bundle that the form, the importer
 and the exporter pass around (the `Port` type and `Omit<Port, "id">`).
 */
module PortTypes {

  datatype Option<+T> = None | Some(value: T)

  /** One registry entry. `id` is a JavaScript number; the model uses `int`. */
  datatype Port = Port(
    id: int,
    portNumber: string,
    projectName: string,
    applicationName: string,
    description: string)

  /** A port record without its id: what the form submits for an add and
      what one exported spreadsheet row holds. */
  datatype PortFields = PortFields(
    portNumber: string,
    projectName: string,
    applicationName: string,
    description: string)

  /** The four fields every empty form starts from. */
  const BlankFields := PortFields("", "", "", "")

  /** `({ id, ...rest }) => rest` */
  function FieldsOf(p: Port): PortFields {
    PortFields(p.portNumber, p.projectName, p.applicationName, p.description)
  }

  /** `{ ...fields, id }` */
  function WithId(f: PortFields, id: int): Port {
    Port(id, f.portNumber, f.projectName, f.applicationName, f.description)
  }

  lemma FieldsOfWithId(f: PortFields, id: int)
    ensures FieldsOf(WithId(f, id)) == f
    ensures WithId(f, id).id == id
  {
  }

  lemma WithIdFieldsOf(p: Port)
    ensures WithId(FieldsOf(p), p.id) == p
  {
  }

  /** The ids of a record list, position by position. */
  function Ids(ports: seq<Port>): (ids: seq<int>)
    ensures |ids| == |ports|
    ensures forall i :: 0 <= i < |ports| ==> ids[i] == ports[i].id
  {
    seq(|ports|, i requires 0 <= i < |ports| => ports[i].id)
  }

  /** True iff `id` is carried by some record. */
  predicate HasId(ports: seq<Port>, id: int) {
    exists i :: 0 <= i < |ports| && ports[i].id == id
  }

  /** No two positions carry the same id. The source does not maintain this. */
  predicate UniqueIds(ports: seq<Port>) {
    forall i, j :: 0 <= i < j < |ports| ==> ports[i].id != ports[j].id
  }

  /** Ids are exactly 1, 2, ..., |ports| in list order. */
  predicate DenseIds(ports: seq<Port>) {
    forall i :: 0 <= i < |ports| ==> ports[i].id == i + 1
  }

  lemma DenseIdsAreUnique(ports: seq<Port>)
    requires DenseIds(ports)
    ensures UniqueIds(ports)
  {
  }
}
