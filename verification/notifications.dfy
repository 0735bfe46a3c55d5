/** Shipment notifications published to an SNS topic. The three `notifyShipment*` helpers build
    a message with a fixed status and text; `sendNotification` publishes it with one message
    attribute and re-throws a publish failure. The topic is modelled as the log of the publish
    requests it has accepted. */
module Notifications {
  import opened Wrappers
  import opened Configuration

  datatype NotificationMessage = NotificationMessage(shipmentId: string, status: string, message: string, timestamp: string)

  datatype MessageAttribute = MessageAttribute(dataType: string, stringValue: string)

  /** A `PublishCommand`: the topic, the message its JSON text encodes, and its attributes. */
  datatype PublishRequest = PublishRequest(topicArn: string, message: NotificationMessage, attributes: map<string, MessageAttribute>)

  /** The SNS client's `send` rejected. */
  datatype PublishError = PublishFailed

  const EventTypeAttributes := map["event_type" := MessageAttribute("String", "SHIPMENT_STATUS_UPDATE")]

  const ErrorPrefix := "Error en el envío: "

  /** `timestamp` is the clock's reading as an ISO-8601 string. */
  function CreatedNotification(shipmentId: string, timestamp: string): (m: NotificationMessage)
    ensures m.shipmentId == shipmentId && m.timestamp == timestamp
    ensures m.status == "CREATED" && m.message == "Envío creado exitosamente"
  {
    NotificationMessage(shipmentId, "CREATED", "Envío creado exitosamente", timestamp)
  }

  function ProcessedNotification(shipmentId: string, timestamp: string): (m: NotificationMessage)
    ensures m.shipmentId == shipmentId && m.timestamp == timestamp
    ensures m.status == "PROCESSED" && m.message == "Envío procesado exitosamente"
  {
    NotificationMessage(shipmentId, "PROCESSED", "Envío procesado exitosamente", timestamp)
  }

  /** The message text is the fixed prefix followed by the error text. */
  function ErrorNotification(shipmentId: string, error: string, timestamp: string): (m: NotificationMessage)
    ensures m.shipmentId == shipmentId && m.status == "ERROR" && m.timestamp == timestamp
    ensures |m.message| == |ErrorPrefix| + |error|
    ensures m.message[..|ErrorPrefix|] == ErrorPrefix && m.message[|ErrorPrefix|..] == error
  {
    NotificationMessage(shipmentId, "ERROR", ErrorPrefix + error, timestamp)
  }

  /** Messages built by two different helpers are never equal, whatever their arguments, so a
      publish request in the topic's log names the helper that built it. */
  lemma HelpersNeverCollide(id1: string, id2: string, error: string, ts1: string, ts2: string, arn: string)
    ensures CreatedNotification(id1, ts1) != ProcessedNotification(id2, ts2)
    ensures CreatedNotification(id1, ts1) != ErrorNotification(id2, error, ts2)
    ensures ProcessedNotification(id1, ts1) != ErrorNotification(id2, error, ts2)
    ensures PublishRequest(arn, CreatedNotification(id1, ts1), EventTypeAttributes)
         != PublishRequest(arn, ProcessedNotification(id2, ts2), EventTypeAttributes)
  {
  }

  /** Each helper's message determines the arguments it was built from: the shipment id and
      timestamp for all three, and the error text as well for an error notification. */
  lemma NotificationsDetermineTheirArguments(id1: string, id2: string, e1: string, e2: string, ts1: string, ts2: string)
    ensures CreatedNotification(id1, ts1) == CreatedNotification(id2, ts2) ==> id1 == id2 && ts1 == ts2
    ensures ProcessedNotification(id1, ts1) == ProcessedNotification(id2, ts2) ==> id1 == id2 && ts1 == ts2
    ensures ErrorNotification(id1, e1, ts1) == ErrorNotification(id2, e2, ts2) ==> id1 == id2 && e1 == e2 && ts1 == ts2
  {
    if ErrorNotification(id1, e1, ts1) == ErrorNotification(id2, e2, ts2) {
      ErrorTextInjective(id1, e1, e2, ts1);
    }
  }

  /** Two error notifications with the same text were built from the same error. */
  lemma ErrorTextInjective(id: string, e1: string, e2: string, ts: string)
    requires ErrorNotification(id, e1, ts).message == ErrorNotification(id, e2, ts).message
    ensures e1 == e2
  {
    assert e1 == ErrorNotification(id, e1, ts).message[|ErrorPrefix|..];
  }

  class NotificationService {
    const topicArn: string
    /** Every publish request the topic has accepted, oldest first. */
    var published: seq<PublishRequest>

    constructor(config: AppConfig)
      ensures topicArn == config.aws.snsTopicArn
      ensures published == []
    {
      topicArn := config.aws.snsTopicArn;
      published := [];
    }

    /** Publishes exactly one request carrying `message` and the `event_type` attribute; when the
        topic rejects (`delivered` false), nothing is published and the failure is re-thrown. */
    method SendNotification(message: NotificationMessage, delivered: bool) returns (r: Result<(), PublishError>)
      modifies this
      ensures delivered ==> r == Success(()) && published == old(published) + [PublishRequest(topicArn, message, EventTypeAttributes)]
      ensures !delivered ==> r == Failure(PublishFailed) && published == old(published)
    {
      if delivered {
        published := published + [PublishRequest(topicArn, message, EventTypeAttributes)];
        r := Success(());
      } else {
        r := Failure(PublishFailed);
      }
    }

    method NotifyShipmentCreated(shipmentId: string, timestamp: string, delivered: bool) returns (r: Result<(), PublishError>)
      modifies this
      ensures delivered ==> r == Success(()) && published == old(published) + [PublishRequest(topicArn, CreatedNotification(shipmentId, timestamp), EventTypeAttributes)]
      ensures !delivered ==> r == Failure(PublishFailed) && published == old(published)
    {
      r := SendNotification(CreatedNotification(shipmentId, timestamp), delivered);
    }

    method NotifyShipmentProcessed(shipmentId: string, timestamp: string, delivered: bool) returns (r: Result<(), PublishError>)
      modifies this
      ensures delivered ==> r == Success(()) && published == old(published) + [PublishRequest(topicArn, ProcessedNotification(shipmentId, timestamp), EventTypeAttributes)]
      ensures !delivered ==> r == Failure(PublishFailed) && published == old(published)
    {
      r := SendNotification(ProcessedNotification(shipmentId, timestamp), delivered);
    }

    method NotifyShipmentError(shipmentId: string, error: string, timestamp: string, delivered: bool) returns (r: Result<(), PublishError>)
      modifies this
      ensures delivered ==> r == Success(()) && published == old(published) + [PublishRequest(topicArn, ErrorNotification(shipmentId, error, timestamp), EventTypeAttributes)]
      ensures !delivered ==> r == Failure(PublishFailed) && published == old(published)
    {
      r := SendNotification(ErrorNotification(shipmentId, error, timestamp), delivered);
    }
  }
}
