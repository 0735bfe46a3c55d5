/** The shipment service: builds new shipments, marks them as being processed, and otherwise
    hands each request to the repository with the same arguments. */
module ShipmentServices {
  import opened Wrappers
  import opened ShipmentEntities
  import opened Seqs
  import opened ShipmentStores

  /** A rejection of a service call: the `Shipment not found` error thrown by the service itself,
      or a rejection that came from the repository. */
  datatype ServiceError = ShipmentNotFound | StoreFailure(cause: StoreError)

  /** The record `createShipment` saves: the caller's fields, a fresh id, the status CREATED
      whatever status the caller sent, and one clock reading for each timestamp. */
  function NewShipment(data: ShipmentData, id: string, createdAt: Instant, updatedAt: Instant): (s: Shipment)
    ensures s.id == id && s.status == Created
    ensures s.userId == data.userId && s.origin == data.origin && s.destination == data.destination
    ensures s.weight == data.weight && s.dimensions == data.dimensions
    ensures s.createdAt == createdAt && s.updatedAt == updatedAt
  {
    Shipment(id, data.userId, Created, data.origin, data.destination, data.weight, data.dimensions, createdAt, updatedAt)
  }

  /** The status a caller puts into `createShipment` has no effect on the saved record. */
  lemma NewShipmentIgnoresRequestedStatus(data: ShipmentData, requested: ShipmentStatus, id: string, createdAt: Instant, updatedAt: Instant)
    ensures NewShipment(data.(status := requested), id, createdAt, updatedAt) == NewShipment(data, id, createdAt, updatedAt)
  {
  }

  /** The record `processShipment` saves: status PROCESSING and a new `updatedAt`. */
  function MarkProcessing(s: Shipment, now: Instant): (p: Shipment)
    ensures p.status == Processing && p.updatedAt == now
    ensures p.(status := s.status, updatedAt := s.updatedAt) == s
  {
    s.(status := Processing, updatedAt := now)
  }

  class ShipmentService {
    const repository: ShipmentStore

    constructor(repository: ShipmentStore)
      ensures this.repository == repository
    {
      this.repository := repository;
    }

    /** Saves the new record once and answers what `save` answered. */
    method CreateShipment(data: ShipmentData, freshId: string, createdAt: Instant, updatedAt: Instant) returns (r: Shipment)
      requires repository.Valid()
      modifies repository
      ensures repository.Valid()
      ensures r == NewShipment(data, freshId, createdAt, updatedAt)
      ensures repository.records == old(repository.records)[freshId := r]
      ensures repository.order == if freshId in old(repository.records) then old(repository.order) else old(repository.order) + [freshId]
      ensures repository.calls == old(repository.calls) + [SaveCall(r)]
    {
      var shipment := NewShipment(data, freshId, createdAt, updatedAt);
      r := repository.Save(shipment);
    }

    /** An unknown id is rejected with no save; a known one is saved once, marked PROCESSING. */
    method ProcessShipment(id: string, now: Instant) returns (r: Result<Shipment, ServiceError>)
      requires repository.Valid()
      modifies repository
      ensures repository.Valid() && repository.order == old(repository.order)
      ensures id !in old(repository.records) ==>
        && r == Failure(ShipmentNotFound)
        && repository.records == old(repository.records)
        && repository.calls == old(repository.calls) + [FindByIdCall(id)]
      ensures id in old(repository.records) ==>
        var processed := MarkProcessing(old(repository.records)[id], now);
        && r == Success(processed)
        && repository.records == old(repository.records)[id := processed]
        && repository.calls == old(repository.calls) + [FindByIdCall(id), SaveCall(processed)]
    {
      var found := repository.FindById(id);
      if found.None? {
        return Failure(ShipmentNotFound);
      }
      var shipment := MarkProcessing(found.value, now);
      var saved := repository.Save(shipment);
      r := Success(saved);
    }

    /** The stored record, unchanged, or `Shipment not found`. */
    method GetShipment(id: string) returns (r: Result<Shipment, ServiceError>)
      modifies repository`calls
      ensures r == if id in repository.records then Success(repository.records[id]) else Failure(ShipmentNotFound)
      ensures repository.calls == old(repository.calls) + [FindByIdCall(id)]
    {
      var found := repository.FindById(id);
      if found.None? {
        return Failure(ShipmentNotFound);
      }
      r := Success(found.value);
    }

    method GetUserShipments(userId: string) returns (r: seq<Shipment>)
      requires repository.Valid()
      modifies repository`calls
      ensures r == OwnedBy(repository.Listing(), userId)
      ensures forall s :: s in r <==> s in repository.records.Values && s.userId == userId
      ensures repository.calls == old(repository.calls) + [FindByUserIdCall(userId)]
    {
      r := repository.FindByUserId(userId);
    }

    /** Hands any status to the repository: no transition between statuses is refused. */
    method UpdateShipmentStatus(id: string, status: ShipmentStatus, now: Instant) returns (r: Result<Shipment, ServiceError>)
      requires repository.Valid()
      modifies repository
      ensures repository.Valid() && repository.order == old(repository.order)
      ensures id in old(repository.records) ==>
        && r == Success(old(repository.records)[id].(status := status, updatedAt := now))
        && repository.records == old(repository.records)[id := r.value]
      ensures id !in old(repository.records) ==>
        r == Failure(StoreFailure(UnknownShipment(id))) && repository.records == old(repository.records)
      ensures repository.calls == old(repository.calls) + [UpdateStatusCall(id, status)]
    {
      var updated := repository.UpdateStatus(id, status, now);
      r := match updated
        case Success(s) => Success(s)
        case Failure(e) => Failure(StoreFailure(e));
    }

    method DeleteShipment(id: string)
      requires repository.Valid()
      modifies repository
      ensures repository.Valid()
      ensures repository.records == old(repository.records) - {id}
      ensures repository.order == Without(old(repository.order), id)
      ensures repository.calls == old(repository.calls) + [DeleteCall(id)]
    {
      repository.Delete(id);
    }
  }
}
