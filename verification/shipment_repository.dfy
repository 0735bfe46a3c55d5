/** The repository the shipping service ships with. Saving sends the shipment to an SQS queue;
    the queue is modelled as the log of messages sent so far. Every other operation is a stub
    that answers a constant without touching the queue. */
module ShipmentRepositories {
  import opened Wrappers
  import opened ShipmentEntities
  import opened Configuration

  /** A `SendMessageCommand`: the queue it targets and the shipment its JSON body encodes. */
  datatype QueueMessage = QueueMessage(queueUrl: string, body: Shipment)

  /** The SQS client's `send` rejected. */
  datatype TransportError = SendFailed

  class ShipmentRepository {
    const queueUrl: string
    /** Every message the SQS client has accepted, oldest first. */
    var sent: seq<QueueMessage>

    constructor(config: AppConfig)
      ensures queueUrl == config.aws.sqsQueueUrl
      ensures sent == []
    {
      queueUrl := config.aws.sqsQueueUrl;
      sent := [];
    }

    /** Sends exactly one message carrying `shipment` and resolves to the same shipment;
        when the transport rejects (`delivered` false), the rejection propagates and nothing is sent. */
    method Save(shipment: Shipment, delivered: bool) returns (r: Result<Shipment, TransportError>)
      modifies this
      ensures delivered ==> r == Success(shipment) && sent == old(sent) + [QueueMessage(queueUrl, shipment)]
      ensures !delivered ==> r == Failure(SendFailed) && sent == old(sent)
    {
      if delivered {
        sent := sent + [QueueMessage(queueUrl, shipment)];
        r := Success(shipment);
      } else {
        r := Failure(SendFailed);
      }
    }

    /** Never finds anything. */
    method FindById(id: string) returns (found: Option<Shipment>)
      ensures found == None
    {
      found := None;
    }

    /** Never lists anything. */
    method FindByUserId(userId: string) returns (owned: seq<Shipment>)
      ensures owned == []
    {
      owned := [];
    }

    /** Answers a fabricated record that carries only the requested id and status: empty user
        and addresses, zero weight and dimensions, and two fresh clock readings. */
    method UpdateStatus(id: string, status: ShipmentStatus, createdAt: Instant, updatedAt: Instant) returns (r: Shipment)
      ensures r.id == id && r.status == status
      ensures r.userId == "" && r.origin == BlankAddress && r.destination == BlankAddress
      ensures r.weight == 0.0 && r.dimensions == ZeroDimensions
      ensures r.createdAt == createdAt && r.updatedAt == updatedAt
    {
      r := Shipment(id, "", status, BlankAddress, BlankAddress, 0.0, ZeroDimensions, createdAt, updatedAt);
    }

    /** Does nothing and always resolves; having no modifies clause, it cannot touch the queue log. */
    method Delete(id: string) returns (r: Result<(), TransportError>)
      ensures r == Success(())
    {
      r := Success(());
    }
  }
}
