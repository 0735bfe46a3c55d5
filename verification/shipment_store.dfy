/** The shipment repository interface that the shipment service depends on, realised as an
    in-memory store: a map from id to record plus the order in which ids were first saved.
    Every call is also appended to a ghost log, so that contracts can say which repository
    operations a service method performed, with which arguments and how many times. */
module ShipmentStores {
  import opened Wrappers
  import opened Seqs
  import opened ShipmentEntities

  /** One call made on the repository. */
  datatype RepositoryCall =
    | SaveCall(shipment: Shipment)
    | FindByIdCall(id: string)
    | FindByUserIdCall(userId: string)
    | UpdateStatusCall(id: string, status: ShipmentStatus)
    | DeleteCall(id: string)

  datatype StoreError = UnknownShipment(id: string)

  /** The records stored under `ids`, in that order. */
  function Lookup(records: map<string, Shipment>, ids: seq<string>): (ss: seq<Shipment>)
    requires forall id :: id in ids ==> id in records
    ensures |ss| == |ids|
    ensures forall k :: 0 <= k < |ids| ==> ss[k] == records[ids[k]]
  {
    if ids == [] then [] else [records[ids[0]]] + Lookup(records, ids[1..])
  }

  /** The shipments of `ss` that belong to `userId`, in their order in `ss`. */
  function OwnedBy(ss: seq<Shipment>, userId: string): (r: seq<Shipment>)
    ensures forall s :: s in r <==> s in ss && s.userId == userId
    ensures |r| <= |ss|
  {
    if ss == [] then []
    else if ss[0].userId == userId then [ss[0]] + OwnedBy(ss[1..], userId)
    else OwnedBy(ss[1..], userId)
  }

  class ShipmentStore {
    var records: map<string, Shipment>
    var order: seq<string>
    ghost var calls: seq<RepositoryCall>

    /** Each record is stored under its own id, and `order` lists every stored id once. */
    ghost predicate Valid()
      reads this
    {
      && Distinct(order)
      && (forall id :: id in records <==> id in order)
      && (forall id :: id in records ==> records[id].id == id)
    }

    constructor()
      ensures Valid()
      ensures records == map[] && order == [] && calls == []
    {
      records := map[];
      order := [];
      calls := [];
    }

    /** Every stored shipment, in the order of first save. */
    function Listing(): (ss: seq<Shipment>)
      reads this
      requires Valid()
      ensures forall s :: s in ss <==> s in records.Values
    {
      var ss := Lookup(records, order);
      assert forall s :: s in records.Values ==> s in ss by {
        forall s | s in records.Values ensures s in ss {
          var id :| id in records && records[id] == s;
          var k :| 0 <= k < |order| && order[k] == id;
          assert ss[k] == s;
        }
      }
      ss
    }

    /** Stores `s` under its id, replacing any record with that id, and returns it. */
    method Save(s: Shipment) returns (saved: Shipment)
      requires Valid()
      modifies this
      ensures Valid()
      ensures saved == s
      ensures records == old(records)[s.id := s]
      ensures order == if s.id in old(records) then old(order) else old(order) + [s.id]
      ensures calls == old(calls) + [SaveCall(s)]
    {
      if s.id !in records {
        DistinctAppend(order, s.id);
        order := order + [s.id];
      }
      records := records[s.id := s];
      calls := calls + [SaveCall(s)];
      saved := s;
    }

    /** The record stored under `id`, or nothing (the interface's `null`). */
    method FindById(id: string) returns (found: Option<Shipment>)
      modifies this`calls
      ensures found == if id in records then Some(records[id]) else None
      ensures calls == old(calls) + [FindByIdCall(id)]
    {
      found := if id in records then Some(records[id]) else None;
      calls := calls + [FindByIdCall(id)];
    }

    /** The stored shipments owned by `userId`, in the order of first save. */
    method FindByUserId(userId: string) returns (owned: seq<Shipment>)
      requires Valid()
      modifies this`calls
      ensures owned == OwnedBy(Listing(), userId)
      ensures forall s :: s in owned <==> s in records.Values && s.userId == userId
      ensures calls == old(calls) + [FindByUserIdCall(userId)]
    {
      owned := OwnedBy(Listing(), userId);
      calls := calls + [FindByUserIdCall(userId)];
    }

    /** Overwrites the status of a stored shipment and stamps it with `now`; fails on an unknown id. */
    method UpdateStatus(id: string, status: ShipmentStatus, now: Instant) returns (r: Result<Shipment, StoreError>)
      requires Valid()
      modifies this
      ensures Valid() && order == old(order)
      ensures id in old(records) ==>
        && r == Success(old(records)[id].(status := status, updatedAt := now))
        && records == old(records)[id := r.value]
      ensures id !in old(records) ==> r == Failure(UnknownShipment(id)) && records == old(records)
      ensures calls == old(calls) + [UpdateStatusCall(id, status)]
    {
      if id in records {
        var updated := records[id].(status := status, updatedAt := now);
        records := records[id := updated];
        r := Success(updated);
      } else {
        r := Failure(UnknownShipment(id));
      }
      calls := calls + [UpdateStatusCall(id, status)];
    }

    /** Removes the record stored under `id`, if any; never fails. */
    method Delete(id: string)
      requires Valid()
      modifies this
      ensures Valid()
      ensures records == old(records) - {id}
      ensures order == Without(old(order), id)
      ensures calls == old(calls) + [DeleteCall(id)]
    {
      records := records - {id};
      WithoutRemovesExactly(order, id);
      order := Without(order, id);
      calls := calls + [DeleteCall(id)];
    }
  }
}
