/**
 The `order.created` message body: how order-service builds it and how notification-worker reads it back
 (services/notification-worker/src/messaging/order-created.event.ts).
 JSON text is represented by the value it parses to.
 */
module OrderEvent {
  import opened Common
  import opened Uuid

  datatype Json =
    | Null
    | Bool(b: bool)
    | Number(n: int)
    | String(s: string)
    | Array(items: seq<Json>)
    | Object(fields: map<string, Json>)

  /** A message body: the parsed value, or None when the bytes are not JSON. */
  type Content = Option<Json>

  datatype Event = Event(eventId: string, correlationId: string, orderId: string, userId: string)

  /** Every constructor is a permanent failure: retrying the same bytes cannot help. */
  datatype ParseError = NotJson | NotAnObject | WrongType | NotAUuid(field: string)

  const ORDER_CREATED := "order.created"
  const UNKNOWN := "unknown"

  /** Property access on an arbitrary value: only objects have the properties of interest. */
  function Field(j: Json, name: string): Option<Json> {
    if j.Object? && name in j.fields then Some(j.fields[name]) else None
  }

  function OptionalField(j: Option<Json>, name: string): Option<Json> {
    if j.Some? then Field(j.value, name) else None
  }

  function UuidField(value: Option<Json>, field: string): (r: Result<string, ParseError>)
    ensures r.Ok? <==> value.Some? && value.value.String? && IsUuid(value.value.s)
    ensures r.Ok? ==> Some(String(r.value)) == value
    ensures r.Err? ==> r.error == NotAUuid(field)
  {
    if value.Some? && value.value.String? && IsUuid(value.value.s) then Ok(value.value.s) else Err(NotAUuid(field))
  }

  /** parseOrderCreated: the checks run in this order and the first one that fails is reported. */
  function ParseOrderCreated(content: Content): Result<Event, ParseError> {
    if content.None? then Err(NotJson)
    else
      var body := content.value;
      if !body.Object? && !body.Array? then Err(NotAnObject)
      else if Field(body, "type") != Some(String(ORDER_CREATED)) then Err(WrongType)
      else
        var correlation := Field(body, "correlationId");
        var data := Field(body, "data");
        var eventId := UuidField(Field(body, "eventId"), "eventId");
        if eventId.Err? then Err(eventId.error)
        else
          var orderId := UuidField(OptionalField(data, "orderId"), "data.orderId");
          if orderId.Err? then Err(orderId.error)
          else
            var userId := UuidField(OptionalField(data, "userId"), "data.userId");
            if userId.Err? then Err(userId.error)
            else
              Ok(Event(eventId.value,
                       if correlation.Some? && correlation.value.String? then correlation.value.s else UNKNOWN,
                       orderId.value, userId.value))
  }

  predicate WellFormed(content: Content) {
    ParseOrderCreated(content).Ok?
  }

  /** The body order-service publishes for a stored order. */
  function Encode(e: Event, occurredAt: string, amount: int, description: string): Content {
    Some(Object(map[
      "eventId" := String(e.eventId),
      "type" := String(ORDER_CREATED),
      "occurredAt" := String(occurredAt),
      "correlationId" := String(e.correlationId),
      "data" := Object(map[
        "orderId" := String(e.orderId),
        "userId" := String(e.userId),
        "amount" := Number(amount),
        "description" := String(description)])]))
  }

  /** `content` carries event `e`: the declarative reading of the message schema. */
  ghost predicate Carries(content: Content, e: Event) {
    && content.Some? && content.value.Object?
    && var fields := content.value.fields;
    && "type" in fields && fields["type"] == String("order.created")
    && "eventId" in fields && fields["eventId"] == String(e.eventId) && IsUuid(e.eventId)
    && "data" in fields && fields["data"].Object?
    && var data := fields["data"].fields;
    && "orderId" in data && data["orderId"] == String(e.orderId) && IsUuid(e.orderId)
    && "userId" in data && data["userId"] == String(e.userId) && IsUuid(e.userId)
    && e.correlationId ==
       if "correlationId" in fields && fields["correlationId"].String? then fields["correlationId"].s else "unknown"
  }

  /** The worker accepts exactly the bodies that carry an event, and reads that event. */
  lemma ParseMeansCarries(content: Content, e: Event)
    ensures ParseOrderCreated(content) == Ok(e) <==> Carries(content, e)
  {
    if content.Some? && content.value.Object? {
      var fields := content.value.fields;
      var data := Field(content.value, "data");
      assert OptionalField(data, "orderId").Some? ==> "data" in fields && fields["data"].Object?;
    }
  }

  /** `fields` has no UUID under `name`. */
  ghost predicate LacksUuid(fields: map<string, Json>, name: string) {
    !exists s :: IsUuid(s) && name in fields && fields[name] == String(s)
  }

  ghost predicate DataLacksUuid(fields: map<string, Json>, name: string) {
    "data" !in fields || !fields["data"].Object? || LacksUuid(fields["data"].fields, name)
  }

  /** Which fault of a body is reported: the first in the order of the checks. An array is an object without a type. */
  lemma WhyRejected(content: Content)
    ensures content == None ==> ParseOrderCreated(content) == Err(NotJson)
    ensures content.Some? && (content.value.Null? || content.value.Bool? || content.value.Number? || content.value.String?) ==>
              ParseOrderCreated(content) == Err(NotAnObject)
    ensures content.Some? && content.value.Array? ==> ParseOrderCreated(content) == Err(WrongType)
    ensures content.Some? && content.value.Object? ==>
              var fields := content.value.fields;
              var r := ParseOrderCreated(content);
              if "type" !in fields || fields["type"] != String("order.created") then r == Err(WrongType)
              else if LacksUuid(fields, "eventId") then r == Err(NotAUuid("eventId"))
              else if DataLacksUuid(fields, "orderId") then r == Err(NotAUuid("data.orderId"))
              else if DataLacksUuid(fields, "userId") then r == Err(NotAUuid("data.userId"))
              else r.Ok?
  {
    if content.Some? && content.value.Object? {
      var fields := content.value.fields;
      FieldLacksUuid(fields, "eventId", "eventId");
      if "data" in fields && fields["data"].Object? {
        FieldLacksUuid(fields["data"].fields, "orderId", "data.orderId");
        FieldLacksUuid(fields["data"].fields, "userId", "data.userId");
      }
    }
  }

  lemma FieldLacksUuid(fields: map<string, Json>, name: string, field: string)
    ensures LacksUuid(fields, name) <==> UuidField(Field(Object(fields), name), field) == Err(NotAUuid(field))
  {
    hide IsUuid;
  }

  /** The published body holds, under the names of the message contract, exactly the values it was built from. */
  ghost predicate Publishes(content: Content, e: Event, occurredAt: string, amount: int, description: string) {
    && content.Some? && content.value.Object?
    && var fields := content.value.fields;
    && fields.Keys == {"eventId", "type", "occurredAt", "correlationId", "data"}
    && fields["eventId"] == String(e.eventId) && fields["type"] == String("order.created")
    && fields["occurredAt"] == String(occurredAt) && fields["correlationId"] == String(e.correlationId)
    && fields["data"].Object?
    && var data := fields["data"].fields;
    && data.Keys == {"orderId", "userId", "amount", "description"}
    && data["orderId"] == String(e.orderId) && data["userId"] == String(e.userId)
    && data["amount"] == Number(amount) && data["description"] == String(description)
  }

  lemma EncodePublishes(e: Event, occurredAt: string, amount: int, description: string)
    ensures Publishes(Encode(e, occurredAt, amount, description), e, occurredAt, amount, description)
  {
  }

  /** What order-service publishes, the worker reads back unchanged, provided the three ids are UUIDs; and only then. */
  lemma EncodeThenParse(e: Event, occurredAt: string, amount: int, description: string)
    ensures ParseOrderCreated(Encode(e, occurredAt, amount, description)) == Ok(e)
      <==> IsUuid(e.eventId) && IsUuid(e.orderId) && IsUuid(e.userId)
  {
    var content := Encode(e, occurredAt, amount, description);
    ParseMeansCarries(content, e);
    var fields := content.value.fields;
    assert fields["data"].fields["orderId"] == String(e.orderId);
    assert fields["data"].fields["userId"] == String(e.userId);
  }
}
