/** The part of an Express response the shipping service's handlers write: a status code and
    a JSON body. */
module HttpResponses {
  import opened ShipmentEntities

  datatype JsonBody =
    | ShipmentJson(shipment: Shipment)        // a serialised shipment
    | ShipmentListJson(shipments: seq<Shipment>)
    | ErrorJson(error: string)                // { error: ... }
    | MessageJson(message: string)            // { message: ... }
    | TokenJson(token: string)                // { token: ... }
    | NoBody                                  // `res.send()` with nothing

  datatype HttpResponse = HttpResponse(status: int, body: JsonBody)

  /** `res.json(x)` without an explicit status answers 200. */
  const Ok := 200

  predicate IsSuccess(status: int)
  {
    200 <= status < 300
  }
}
