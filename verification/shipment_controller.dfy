/** The HTTP handlers for shipments. Each one awaits one service call inside a `try` and writes
    exactly one response: the result on success, a fixed status and error text on any failure,
    whatever the failure was. */
module ShipmentControllers {
  import opened Wrappers
  import opened ShipmentEntities
  import opened Seqs
  import opened ShipmentStores
  import opened ShipmentServices
  import opened HttpResponses

  function CreateShipmentResponse<E>(outcome: Result<Shipment, E>): (r: HttpResponse)
    ensures IsSuccess(r.status) <==> outcome.Success?
    ensures outcome.Success? ==> r == HttpResponse(201, ShipmentJson(outcome.value))
    ensures outcome.Failure? ==> r == HttpResponse(400, ErrorJson("Error creating shipment"))
  {
    match outcome
    case Success(s) => HttpResponse(201, ShipmentJson(s))
    case Failure(_) => HttpResponse(400, ErrorJson("Error creating shipment"))
  }

  function GetShipmentResponse<E>(outcome: Result<Shipment, E>): (r: HttpResponse)
    ensures IsSuccess(r.status) <==> outcome.Success?
    ensures outcome.Success? ==> r == HttpResponse(Ok, ShipmentJson(outcome.value))
    ensures outcome.Failure? ==> r == HttpResponse(404, ErrorJson("Shipment not found"))
  {
    match outcome
    case Success(s) => HttpResponse(Ok, ShipmentJson(s))
    case Failure(_) => HttpResponse(404, ErrorJson("Shipment not found"))
  }

  function GetUserShipmentsResponse<E>(outcome: Result<seq<Shipment>, E>): (r: HttpResponse)
    ensures IsSuccess(r.status) <==> outcome.Success?
    ensures outcome.Success? ==> r == HttpResponse(Ok, ShipmentListJson(outcome.value))
    ensures outcome.Failure? ==> r == HttpResponse(400, ErrorJson("Error fetching shipments"))
  {
    match outcome
    case Success(ss) => HttpResponse(Ok, ShipmentListJson(ss))
    case Failure(_) => HttpResponse(400, ErrorJson("Error fetching shipments"))
  }

  function UpdateShipmentStatusResponse<E>(outcome: Result<Shipment, E>): (r: HttpResponse)
    ensures IsSuccess(r.status) <==> outcome.Success?
    ensures outcome.Success? ==> r == HttpResponse(Ok, ShipmentJson(outcome.value))
    ensures outcome.Failure? ==> r == HttpResponse(400, ErrorJson("Error updating shipment status"))
  {
    match outcome
    case Success(s) => HttpResponse(Ok, ShipmentJson(s))
    case Failure(_) => HttpResponse(400, ErrorJson("Error updating shipment status"))
  }

  function DeleteShipmentResponse<E>(outcome: Result<(), E>): (r: HttpResponse)
    ensures IsSuccess(r.status) <==> outcome.Success?
    ensures outcome.Success? ==> r == HttpResponse(204, NoBody)
    ensures outcome.Failure? ==> r == HttpResponse(400, ErrorJson("Error deleting shipment"))
  {
    match outcome
    case Success(_) => HttpResponse(204, NoBody)
    case Failure(_) => HttpResponse(400, ErrorJson("Error deleting shipment"))
  }

  class ShipmentController {
    const service: ShipmentService

    constructor(service: ShipmentService)
      ensures this.service == service
    {
      this.service := service;
    }

    /** POST /: the request body goes to the service as it is. */
    method CreateShipment(body: ShipmentData, freshId: string, createdAt: Instant, updatedAt: Instant) returns (response: HttpResponse)
      requires service.repository.Valid()
      modifies service.repository
      ensures service.repository.Valid()
      ensures response == CreateShipmentResponse<ServiceError>(Success(NewShipment(body, freshId, createdAt, updatedAt)))
      ensures service.repository.records == old(service.repository.records)[freshId := response.body.shipment]
      ensures service.repository.order ==
        if freshId in old(service.repository.records) then old(service.repository.order) else old(service.repository.order) + [freshId]
      ensures service.repository.calls == old(service.repository.calls) + [SaveCall(response.body.shipment)]
    {
      var created := service.CreateShipment(body, freshId, createdAt, updatedAt);
      response := CreateShipmentResponse<ServiceError>(Success(created));
    }

    /** GET /:id */
    method GetShipment(id: string) returns (response: HttpResponse)
      modifies service.repository`calls
      ensures response == GetShipmentResponse(
        if id in service.repository.records then Success(service.repository.records[id]) else Failure(ShipmentNotFound))
      ensures service.repository.calls == old(service.repository.calls) + [FindByIdCall(id)]
    {
      var found := service.GetShipment(id);
      response := GetShipmentResponse(found);
    }

    /** GET /user/:userId */
    method GetUserShipments(userId: string) returns (response: HttpResponse)
      requires service.repository.Valid()
      modifies service.repository`calls
      ensures response == HttpResponse(Ok, ShipmentListJson(OwnedBy(service.repository.Listing(), userId)))
      ensures response.status == Ok && response.body.ShipmentListJson?
      ensures forall s :: s in response.body.shipments <==> s in service.repository.records.Values && s.userId == userId
      ensures service.repository.calls == old(service.repository.calls) + [FindByUserIdCall(userId)]
    {
      var owned := service.GetUserShipments(userId);
      response := GetUserShipmentsResponse<ServiceError>(Success(owned));
    }

    /** PATCH /:id/status: the path id and the body's status are forwarded unchanged. */
    method UpdateShipmentStatus(id: string, status: ShipmentStatus, now: Instant) returns (response: HttpResponse)
      requires service.repository.Valid()
      modifies service.repository
      ensures service.repository.Valid() && service.repository.order == old(service.repository.order)
      ensures id in old(service.repository.records) ==>
        response == UpdateShipmentStatusResponse<ServiceError>(Success(old(service.repository.records)[id].(status := status, updatedAt := now)))
      ensures id !in old(service.repository.records) ==>
        response == HttpResponse(400, ErrorJson("Error updating shipment status"))
      ensures service.repository.calls == old(service.repository.calls) + [UpdateStatusCall(id, status)]
    {
      var updated := service.UpdateShipmentStatus(id, status, now);
      response := UpdateShipmentStatusResponse(updated);
    }

    /** DELETE /:id */
    method DeleteShipment(id: string) returns (response: HttpResponse)
      requires service.repository.Valid()
      modifies service.repository
      ensures service.repository.Valid()
      ensures response == HttpResponse(204, NoBody)
      ensures service.repository.records == old(service.repository.records) - {id}
      ensures service.repository.order == Without(old(service.repository.order), id)
      ensures service.repository.calls == old(service.repository.calls) + [DeleteCall(id)]
    {
      service.DeleteShipment(id);
      response := DeleteShipmentResponse<ServiceError>(Success(()));
    }
  }
}
