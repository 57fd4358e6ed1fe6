/**
 * `ProductEventService`: the three operations `create`, `update` and `delete`, which build
 * an event with their own kind and publish it to the service's topic.
 *
 * The broker is an append-only ghost log of (topic, event) records; the Kafka producer,
 * its mutex, the JSON encoding of the payload and the wait for the acknowledgement are
 * not part of this model.
 */
module Publisher {
  import opened Wrappers
  import opened ProductEvents

  /** The event kinds the service emits, one per operation. */
  datatype EventType = Created | Updated | Deleted

  /** The literal each operation passes to `create_event`. */
  function Literal(t: EventType): string {
    match t
    case Created => "CREATED"
    case Updated => "UPDATED"
    case Deleted => "DELETED"
  }

  /** Reading a kind back off a published event. */
  function EventTypeOf(literal: string): Option<EventType> {
    if literal == "CREATED" then Some(Created)
    else if literal == "UPDATED" then Some(Updated)
    else if literal == "DELETED" then Some(Deleted)
    else None
  }

  /** The three literals are distinct, so a consumer can tell from an event which operation made it. */
  lemma LiteralRoundTrip(t: EventType)
    ensures EventTypeOf(Literal(t)) == Some(t)
  {
  }

  /** A string reads back as a kind exactly when it is that kind's literal. */
  lemma EventTypeOfOnlyLiterals(literal: string, t: EventType)
    ensures EventTypeOf(literal) == Some(t) <==> literal == Literal(t)
  {
  }

  /** One message as the broker holds it: the topic it was sent to and its payload. */
  datatype Record = Record(topic: string, event: ProductEvent)

  class ProductEventService {
    /** The destination topic, fixed when the service is built. */
    const topic: string
    /** Every record sent so far, oldest first. */
    ghost var published: seq<Record>

    /** `ProductEventService::new`, without the producer it connects to `broker`. */
    constructor (topic: string)
      ensures this.topic == topic && published == []
    {
      this.topic := topic;
      published := [];
    }

    /** `publish`: send the event to this service's topic. */
    method Publish(event: ProductEvent)
      modifies this
      ensures published == old(published) + [Record(topic, event)]
    {
      published := published + [Record(topic, event)];
    }

    /** `create`: a panic in `create_event` publishes nothing; otherwise exactly one record goes out. */
    method Create(product: Product, freshId: string) returns (r: Result<ProductEvent, Panic>)
      modifies this
      ensures r == CreateEvent(product, Literal(Created), freshId)
      ensures published == old(published) + if r.Ok? then [Record(topic, r.value)] else []
    {
      r := CreateEvent(product, Literal(Created), freshId);
      if r.Ok? {
        Publish(r.value);
      }
    }

    /** `update`: as `create`, with the kind "UPDATED". */
    method Update(product: Product, freshId: string) returns (r: Result<ProductEvent, Panic>)
      modifies this
      ensures r == CreateEvent(product, Literal(Updated), freshId)
      ensures published == old(published) + if r.Ok? then [Record(topic, r.value)] else []
    {
      r := CreateEvent(product, Literal(Updated), freshId);
      if r.Ok? {
        Publish(r.value);
      }
    }

    /** `delete`: as `create`, with the kind "DELETED". */
    method Delete(product: Product, freshId: string) returns (r: Result<ProductEvent, Panic>)
      modifies this
      ensures r == CreateEvent(product, Literal(Deleted), freshId)
      ensures published == old(published) + if r.Ok? then [Record(topic, r.value)] else []
    {
      r := CreateEvent(product, Literal(Deleted), freshId);
      if r.Ok? {
        Publish(r.value);
      }
    }
  }

  /**
   * Three calls on one service, as a client sees them: the log grows by one record per
   * call, in call order, all on the service's topic, with the versions and kinds that
   * the factory promises.
   */
  method ThreeCalls(freshId: string)
  {
    var service := new ProductEventService("products");
    var widget := Product(None, "Widget", "Gadget", None);
    var created := service.Create(widget, freshId);
    FirstVersions();
    assert created == Ok(ProductEvent(freshId, "Widget", "Gadget", "v1", "CREATED"));

    var p1 := Product(Some("p1"), "Widget", "Gadget", Some("v3"));
    LaterVersions();
    var updated := service.Update(p1, freshId);
    assert updated == Ok(ProductEvent("p1", "Widget", "Gadget", "v4", "UPDATED"));

    var p9 := Product(Some("p1"), "Widget", "Gadget", Some("v9"));
    var deleted := service.Delete(p9, freshId);
    assert deleted == Ok(ProductEvent("p1", "Widget", "Gadget", "v10", "DELETED"));

    assert service.published == [
      Record("products", created.value),
      Record("products", updated.value),
      Record("products", deleted.value)
    ];
  }
}
