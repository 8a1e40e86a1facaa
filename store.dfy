/**
 The record-list transitions of the top-level component (src/App.tsx):
 each handler builds a new list from the old one. These are the pure
 parts; `PortApp.App` holds the state they are applied to.
 */
module PortStore {
  import opened PortTypes

  /** `addPort`: append the submitted fields with id `ports.length + 1`. */
  function AddPort(ports: seq<Port>, f: PortFields): (r: seq<Port>)
    ensures |r| == |ports| + 1
    ensures r[..|ports|] == ports
    ensures r[|ports|].id == |ports| + 1 && FieldsOf(r[|ports|]) == f
  {
    ports + [WithId(f, |ports| + 1)]
  }

  /** `updatePort`: every record whose id equals `u.id` is replaced by `u`. */
  function UpdatePort(ports: seq<Port>, u: Port): (r: seq<Port>)
    ensures |r| == |ports|
    ensures forall i :: 0 <= i < |ports| && ports[i].id == u.id ==> r[i] == u
    ensures forall i :: 0 <= i < |ports| && ports[i].id != u.id ==> r[i] == ports[i]
  {
    seq(|ports|, i requires 0 <= i < |ports| => if ports[i].id == u.id then u else ports[i])
  }

  /** `deletePort`: keep the records whose id differs from `id`. */
  function DeletePort(ports: seq<Port>, id: int): (r: seq<Port>)
    ensures |r| <= |ports|
    ensures forall p :: p in r ==> p in ports && p.id != id
  {
    if ports == [] then []
    else if ports[0].id != id then [ports[0]] + DeletePort(ports[1..], id)
    else DeletePort(ports[1..], id)
  }

  /** `importPorts`: append the imported records as they are. */
  function ImportPorts(ports: seq<Port>, imported: seq<Port>): (r: seq<Port>)
    ensures |r| == |ports| + |imported|
    ensures r[..|ports|] == ports && r[|ports|..] == imported
  {
    ports + imported
  }

  // ---- addPort ----

  /** Adding to a list whose ids are 1..n yields ids 1..n+1: a run of adds
      from the empty list never duplicates an id. */
  lemma AddKeepsDenseIds(ports: seq<Port>, f: PortFields)
    requires DenseIds(ports)
    ensures DenseIds(AddPort(ports, f)) && UniqueIds(AddPort(ports, f))
  {
  }

  /** The new id is the list length plus one, not a fresh id: whenever some
      record already carries that number the result holds it twice. */
  lemma AddCollidesWhenIdTaken(ports: seq<Port>, f: PortFields)
    requires HasId(ports, |ports| + 1)
    ensures !UniqueIds(AddPort(ports, f))
  {
    var k :| 0 <= k < |ports| && ports[k].id == |ports| + 1;
    var r := AddPort(ports, f);
    assert r[k] == ports[k];
    assert r[k].id == r[|ports|].id;
  }

  // ---- updatePort ----

  /** Updating keeps every position's id. */
  lemma UpdateKeepsIds(ports: seq<Port>, u: Port)
    ensures Ids(UpdatePort(ports, u)) == Ids(ports)
    ensures UniqueIds(ports) ==> UniqueIds(UpdatePort(ports, u))
  {
  }

  /** An id that no record carries leaves the list unchanged. */
  lemma UpdateAbsentIsNoOp(ports: seq<Port>, u: Port)
    requires !HasId(ports, u.id)
    ensures UpdatePort(ports, u) == ports
  {
  }

  /** Applying the same update twice is applying it once. */
  lemma UpdateIdempotent(ports: seq<Port>, u: Port)
    ensures UpdatePort(UpdatePort(ports, u), u) == UpdatePort(ports, u)
  {
  }

  /** After an update the new record is in the list iff its id was. */
  lemma UpdateThenRead(ports: seq<Port>, u: Port)
    ensures u in UpdatePort(ports, u) <==> HasId(ports, u.id)
  {
    var r := UpdatePort(ports, u);
    if HasId(ports, u.id) {
      var k :| 0 <= k < |ports| && ports[k].id == u.id;
      assert r[k] == u;
    }
  }

  /** With unique ids, writing back a stored record unchanged changes nothing. */
  lemma UpdateWithStoredRecordIsNoOp(ports: seq<Port>, u: Port)
    requires UniqueIds(ports) && u in ports
    ensures UpdatePort(ports, u) == ports
  {
    var k :| 0 <= k < |ports| && ports[k] == u;
    assert forall i :: 0 <= i < |ports| && ports[i].id == ports[k].id ==> i == k;
  }

  // ---- deletePort ----

  /** A record survives a delete iff it was there and has another id. */
  lemma {:induction false} DeleteMembership(ports: seq<Port>, id: int, p: Port)
    ensures p in DeletePort(ports, id) <==> p in ports && p.id != id
  {
    if ports != [] {
      DeleteMembership(ports[1..], id, p);
      assert ports == [ports[0]] + ports[1..];
    }
  }

  /** Delete distributes over concatenation: the survivors keep their
      relative order. */
  lemma {:induction false} DeleteConcat(a: seq<Port>, b: seq<Port>, id: int)
    ensures DeletePort(a + b, id) == DeletePort(a, id) + DeletePort(b, id)
  {
    if a == [] {
      assert a + b == b;
    } else {
      assert (a + b)[0] == a[0];
      assert (a + b)[1..] == a[1..] + b;
      DeleteConcat(a[1..], b, id);
    }
  }

  /** A delete never leaves a record with that id behind. */
  lemma DeleteRemovesId(ports: seq<Port>, id: int)
    ensures !HasId(DeletePort(ports, id), id)
  {
    var r := DeletePort(ports, id);
    forall k | 0 <= k < |r|
      ensures r[k].id != id
    {
      assert r[k] in r;
    }
  }

  /** Deleting an id no record carries leaves the list unchanged. */
  lemma {:induction false} DeleteAbsentIsNoOp(ports: seq<Port>, id: int)
    requires !HasId(ports, id)
    ensures DeletePort(ports, id) == ports
  {
    if ports != [] {
      assert ports[0].id != id;
      forall k | 0 <= k < |ports[1..]|
        ensures ports[1..][k].id != id
      {
        assert ports[1..][k] == ports[k + 1];
      }
      DeleteAbsentIsNoOp(ports[1..], id);
      assert ports == [ports[0]] + ports[1..];
    }
  }

  /** Deleting the same id twice is deleting it once. */
  lemma DeleteIdempotent(ports: seq<Port>, id: int)
    ensures DeletePort(DeletePort(ports, id), id) == DeletePort(ports, id)
  {
    DeleteRemovesId(ports, id);
    DeleteAbsentIsNoOp(DeletePort(ports, id), id);
  }

  /** With unique ids, deleting a present id removes exactly one record. */
  lemma {:induction false} DeleteOneWhenUnique(ports: seq<Port>, id: int)
    requires UniqueIds(ports) && HasId(ports, id)
    ensures |DeletePort(ports, id)| == |ports| - 1
  {
    var tail := ports[1..];
    assert UniqueIds(tail) by {
      forall i, j | 0 <= i < j < |tail| ensures tail[i].id != tail[j].id {
        assert tail[i] == ports[i + 1] && tail[j] == ports[j + 1];
      }
    }
    if ports[0].id == id {
      forall k | 0 <= k < |tail|
        ensures tail[k].id != id
      {
        assert tail[k] == ports[k + 1];
      }
      DeleteAbsentIsNoOp(tail, id);
    } else {
      var k :| 0 <= k < |ports| && ports[k].id == id;
      assert tail[k - 1].id == id;
      DeleteOneWhenUnique(tail, id);
    }
  }

  // ---- add after delete ----

  /** Ids 1..n, delete any id but the last, then add: the new record gets id
      n, which the last record still carries. */
  lemma DeleteThenAddCollides(ports: seq<Port>, k: int, f: PortFields)
    requires DenseIds(ports) && 1 <= k < |ports|
    ensures !UniqueIds(AddPort(DeletePort(ports, k), f))
  {
    var n := |ports|;
    DenseIdsAreUnique(ports);
    assert ports[k - 1].id == k;
    DeleteOneWhenUnique(ports, k);
    var d := DeletePort(ports, k);
    DeleteMembership(ports, k, ports[n - 1]);
    var j :| 0 <= j < |d| && d[j] == ports[n - 1];
    assert HasId(d, |d| + 1);
    AddCollidesWhenIdTaken(d, f);
  }

  // ---- importPorts ----

  /** Import keeps both lists' ids as they are: nothing is renumbered. */
  lemma ImportKeepsIds(ports: seq<Port>, imported: seq<Port>)
    ensures Ids(ImportPorts(ports, imported)) == Ids(ports) + Ids(imported)
  {
  }

  /** Imported records whose ids are already present duplicate them. */
  lemma ImportCollidesOnSharedId(ports: seq<Port>, imported: seq<Port>, id: int)
    requires HasId(ports, id) && HasId(imported, id)
    ensures !UniqueIds(ImportPorts(ports, imported))
  {
    var r := ImportPorts(ports, imported);
    var i :| 0 <= i < |ports| && ports[i].id == id;
    var j :| 0 <= j < |imported| && imported[j].id == id;
    assert r[i] == ports[i];
    assert r[|ports| + j] == imported[j];
  }
}
