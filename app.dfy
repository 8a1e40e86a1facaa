/**
 The top-level component (src/App.tsx): its three pieces of state and the
 handlers that overwrite them. Each handler runs to completion before the
 next event, so the component is a class whose methods replace fields.
 */
module PortApp {
  import opened PortTypes
  import opened Sheet
  import PortStore
  import PortForm
  import ExcelUpload

  class App {
    /** `ports` */
    var ports: seq<Port>
    /** `isDialogVisible`: the add dialog was opened with the "new port" button. */
    var isDialogVisible: bool
    /** `editingPort`: the record chosen for editing, if any. */
    var editingPort: Option<Port>

    /** The three `useState` initial values. */
    constructor ()
      ensures ports == [] && !isDialogVisible && editingPort == None
    {
      ports := [];
      isDialogVisible := false;
      editingPort := None;
    }

    /** The dialog's `visible` prop. */
    predicate DialogVisible()
      reads this
    {
      isDialogVisible || editingPort.Some?
    }

    /** `addPort` */
    method AddPort(f: PortFields)
      modifies this`ports, this`isDialogVisible
      ensures ports == PortStore.AddPort(old(ports), f)
      ensures !isDialogVisible && editingPort == old(editingPort)
    {
      ports := PortStore.AddPort(ports, f);
      isDialogVisible := false;
    }

    /** `updatePort` */
    method UpdatePort(u: Port)
      modifies this
      ensures ports == PortStore.UpdatePort(old(ports), u)
      ensures editingPort == None && !isDialogVisible && !DialogVisible()
    {
      ports := PortStore.UpdatePort(ports, u);
      editingPort := None;
      isDialogVisible := false;
    }

    /** `deletePort`, by id. */
    method DeletePort(id: int)
      modifies this`ports
      ensures ports == PortStore.DeletePort(old(ports), id)
      ensures !HasId(ports, id)
    {
      ports := PortStore.DeletePort(ports, id);
      PortStore.DeleteRemovesId(old(ports), id);
    }

    /** `importPorts` */
    method ImportPorts(imported: seq<Port>)
      modifies this`ports
      ensures ports == PortStore.ImportPorts(old(ports), imported)
    {
      ports := PortStore.ImportPorts(ports, imported);
    }

    /** The "new port" button: `setDialogVisible(true)`. */
    method ShowAddDialog()
      modifies this`isDialogVisible
      ensures isDialogVisible && DialogVisible()
    {
      isDialogVisible := true;
    }

    /** The list's edit button: `onEdit={setEditingPort}`. */
    method EditPort(p: Port)
      modifies this`editingPort
      ensures editingPort == Some(p) && DialogVisible()
    {
      editingPort := Some(p);
    }

    /** The dialog's `onHide`: both ways of opening it are reset. */
    method HideDialog()
      modifies this`isDialogVisible, this`editingPort
      ensures !isDialogVisible && editingPort == None && !DialogVisible()
    {
      isDialogVisible := false;
      editingPort := None;
    }

    /** A submit of the dialog's form, wired as the component wires it:
        `port={editingPort ?? undefined}`, `onAdd={addPort}`,
        `onUpdate={updatePort}`. A successful submit always closes the dialog. */
    method SubmitForm(values: PortFields) returns (action: PortForm.SubmitAction)
      modifies this
      ensures action == PortForm.Submit(old(editingPort), true, values)
      ensures action.Rejected? ==>
        ports == old(ports) && isDialogVisible == old(isDialogVisible) && editingPort == old(editingPort)
      ensures action.CallAdd? ==> old(editingPort) == None && ports == PortStore.AddPort(old(ports), values)
      ensures action.CallUpdate? ==>
        && old(editingPort).Some?
        && ports == PortStore.UpdatePort(old(ports), WithId(values, old(editingPort).value.id))
      ensures !action.Rejected? ==> !DialogVisible()
    {
      action := PortForm.Submit(editingPort, true, values);
      match action
      case Rejected =>
      case CallAdd(f) => AddPort(f);
      case CallUpdate(u) => UpdatePort(u);
    }

    /** The importer's `onImport={importPorts}` after the file reader fires. */
    method FileLoaded(result: Option<seq<Row>>)
      modifies this`ports
      ensures result.None? ==> ports == old(ports)
      ensures result.Some? ==>
        ports == PortStore.ImportPorts(old(ports), ExcelUpload.MapRows(result.value))
    {
      match ExcelUpload.HandleLoad(result)
      case None =>
      case Some(imported) => ImportPorts(imported);
    }

    /** The delete button wired by id: the record shown in the row is removed. */
    method DeleteRow(row: Port)
      modifies this`ports
      ensures ports == PortStore.DeletePort(old(ports), row.id)
      ensures row !in ports
    {
      DeletePort(row.id);
    }
  }

  /** What the list's delete button hands to `onDelete`: the component
      declares a number, the list passes the whole row. */
  datatype DeleteArg = IdArg(id: int) | RowArg(row: Port)

  /** JavaScript `p.id !== arg`: a number is never strictly equal to an object. */
  predicate StrictNotEqual(n: int, arg: DeleteArg) {
    match arg
    case IdArg(m) => n != m
    case RowArg(_) => true
  }

  /** `ports.filter((p) => p.id !== arg)` with whatever value arrives. */
  function DeleteAsWired(ports: seq<Port>, arg: DeleteArg): (r: seq<Port>)
    ensures |r| <= |ports|
  {
    if ports == [] then []
    else if StrictNotEqual(ports[0].id, arg) then [ports[0]] + DeleteAsWired(ports[1..], arg)
    else DeleteAsWired(ports[1..], arg)
  }

  /** Given a number, the filter is `PortStore.DeletePort`. */
  lemma {:induction false} DeleteAsWiredById(ports: seq<Port>, id: int)
    ensures DeleteAsWired(ports, IdArg(id)) == PortStore.DeletePort(ports, id)
  {
    if ports != [] {
      DeleteAsWiredById(ports[1..], id);
    }
  }

  /** Given the row, as the list calls it, the filter keeps every record:
      pressing delete removes nothing. */
  lemma {:induction false} DeleteAsWiredWithRowKeepsAll(ports: seq<Port>, row: Port)
    ensures DeleteAsWired(ports, RowArg(row)) == ports
  {
    if ports != [] {
      DeleteAsWiredWithRowKeepsAll(ports[1..], row);
      assert ports == [ports[0]] + ports[1..];
    }
  }

  /** The smallest case: one record, delete pressed on it, it stays. */
  lemma DeleteButtonLeavesRow(p: Port)
    ensures DeleteAsWired([p], RowArg(p)) == [p]
    ensures PortStore.DeletePort([p], p.id) == []
  {
    DeleteAsWiredWithRowKeepsAll([p], p);
  }
}
