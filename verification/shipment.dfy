/** The shipment entity of the shipping service: the record, its status enumeration with
    the strings that stand for each status in JSON, and the address and dimension records. */
module ShipmentEntities {
  import opened Wrappers

  /** A JavaScript `Date`, as milliseconds since the epoch. No arithmetic is done on it. */
  type Instant = int

  /** The five lifecycle states. Nothing in the service restricts which one may follow which. */
  datatype ShipmentStatus = Created | Processing | InTransit | Delivered | Failed

  /** Every status, once each, in declaration order. */
  const AllStatuses: seq<ShipmentStatus> := [Created, Processing, InTransit, Delivered, Failed]

  /** The enum's string value: each status is spelled as its own upper-case member name. */
  function StatusWire(s: ShipmentStatus): (w: string)
    ensures |w| >= 6
    ensures 'A' <= w[0] <= 'Z'
  {
    match s
    case Created => "CREATED"
    case Processing => "PROCESSING"
    case InTransit => "IN_TRANSIT"
    case Delivered => "DELIVERED"
    case Failed => "FAILED"
  }

  /** Reading a status back from its string; any other string is not a status. */
  function ParseStatus(w: string): (r: Option<ShipmentStatus>)
    ensures r.Some? ==> StatusWire(r.value) == w
    ensures r.None? <==> forall s :: StatusWire(s) != w
  {
    if w == "CREATED" then Some(Created)
    else if w == "PROCESSING" then Some(Processing)
    else if w == "IN_TRANSIT" then Some(InTransit)
    else if w == "DELIVERED" then Some(Delivered)
    else if w == "FAILED" then Some(Failed)
    else None
  }

  lemma StatusesAreFive()
    ensures |AllStatuses| == 5
    ensures forall s :: s in AllStatuses
    ensures forall i, j :: 0 <= i < j < |AllStatuses| ==> AllStatuses[i] != AllStatuses[j]
  {
    forall s: ShipmentStatus ensures s in AllStatuses {
      var k := match s
        case Created => 0
        case Processing => 1
        case InTransit => 2
        case Delivered => 3
        case Failed => 4;
      assert AllStatuses[k] == s;
    }
  }

  /** Two statuses with the same string are the same status. */
  lemma StatusWireInjective(a: ShipmentStatus, b: ShipmentStatus)
    ensures StatusWire(a) == StatusWire(b) ==> a == b
  {
  }

  /** Parsing undoes printing. */
  lemma StatusWireRoundTrip(s: ShipmentStatus)
    ensures ParseStatus(StatusWire(s)) == Some(s)
  {
  }

  datatype Address = Address(street: string, city: string, state: string, country: string, postalCode: string)

  /** JavaScript numbers, taken as exact reals. */
  datatype Dimensions = Dimensions(length: real, width: real, height: real)

  datatype Shipment = Shipment(
    id: string,
    userId: string,
    status: ShipmentStatus,
    origin: Address,
    destination: Address,
    weight: real,
    dimensions: Dimensions,
    createdAt: Instant,
    updatedAt: Instant)

  /** What a caller hands to `createShipment`: a shipment without its id and its two timestamps. */
  datatype ShipmentData = ShipmentData(
    userId: string,
    status: ShipmentStatus,
    origin: Address,
    destination: Address,
    weight: real,
    dimensions: Dimensions)

  const BlankAddress := Address("", "", "", "", "")

  const ZeroDimensions := Dimensions(0.0, 0.0, 0.0)
}
