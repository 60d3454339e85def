/**
 The whole pipeline: order-service publishes into the broker the worker consumes from. Steps of both services, the
 broker and the replay interleave freely. order-service is the only publisher to the `orders` exchange.
 */
module Pipeline {
  import opened Common
  import opened Uuid
  import opened OrderEvent
  import opened Messages
  import Consumer
  import O = Orders
  import OI = OrdersInvariant
  import B = Broker
  import BI = BrokerInvariant

  datatype State = State(orders: O.State, broker: B.State)

  datatype Action =
    | OrderStep(a: O.Action)
    | PublishStep(rid: O.Rid, eventId: string, occurredAt: string, origin: B.Origin, routed: bool)
    | WorkerStep(w: B.Action)

  /** The message publishCreated builds for the order its request just stored. */
  function EventMessage(s: State, rid: O.Rid, eventId: string, occurredAt: string): Message
    requires O.Enabled(s.orders, O.Publish(rid, eventId))
  {
    var req := s.orders.reqs[rid];
    var order := req.pc.order;
    var event := Event(eventId, req.call.correlationId, order.id, order.userId);
    Message(Encode(event, occurredAt, order.amount, order.description), None, None, None, map[])
  }

  predicate Enabled(s: State, a: Action) {
    match a
    case OrderStep(o) => !o.Publish? && O.Enabled(s.orders, o)
    case PublishStep(rid, eventId, occurredAt, origin, routed) =>
      && O.Enabled(s.orders, O.Publish(rid, eventId))
      && (routed ==> B.Enabled(s.broker, B.Arrive(origin, EventMessage(s, rid, eventId, occurredAt))))
    case WorkerStep(w) => !w.Arrive? && B.Enabled(s.broker, w)
  }

  function Apply(s: State, a: Action): State
    requires Enabled(s, a)
  {
    match a
    case OrderStep(o) => s.(orders := O.Apply(s.orders, o))
    case PublishStep(rid, eventId, occurredAt, origin, routed) =>
      State(O.Apply(s.orders, O.Publish(rid, eventId)),
            if routed then B.Apply(s.broker, B.Arrive(origin, EventMessage(s, rid, eventId, occurredAt))) else s.broker)
    case WorkerStep(w) => s.(broker := B.Apply(s.broker, w))
  }

  predicate Init(s: State) {
    O.Init(s.orders) && B.Init(s.broker)
  }

  predicate Runs(s: State, acts: seq<Action>)
    decreases |acts|
  {
    acts == [] || (Enabled(s, acts[0]) && Runs(Apply(s, acts[0]), acts[1..]))
  }

  function Final(s: State, acts: seq<Action>): State
    requires Runs(s, acts)
    decreases |acts|
  {
    if acts == [] then s else Final(Apply(s, acts[0]), acts[1..])
  }

  /** The body is one that order-service published, with the order and user of that publish. */
  ghost predicate FromOrders(o: O.State, content: Content) {
    && WellFormed(content)
    && var event := ParseOrderCreated(content).value;
    && event.eventId in o.events
    && o.events[event.eventId].orderId == event.orderId && o.events[event.eventId].userId == event.userId
  }

  ghost predicate Inv(s: State) {
    && OI.Inv(s.orders) && BI.Inv(s.broker)
    && forall origin :: origin in s.broker.arrived ==> FromOrders(s.orders, s.broker.arrived[origin])
  }

  /** The pipeline restrains neither side: each takes all its own steps, and a publish may or may not be routed. */
  lemma BothSidesAreFree(s: State, o: O.Action, w: B.Action, occurredAt: string, origin: B.Origin)
    ensures O.Enabled(s.orders, o) && !o.Publish? ==>
              Enabled(s, OrderStep(o)) && Apply(s, OrderStep(o)) == State(O.Apply(s.orders, o), s.broker)
    ensures B.Enabled(s.broker, w) && !w.Arrive? ==>
              Enabled(s, WorkerStep(w)) && Apply(s, WorkerStep(w)) == State(s.orders, B.Apply(s.broker, w))
    ensures O.Enabled(s.orders, o) && o.Publish? ==>
              && Enabled(s, PublishStep(o.rid, o.eventId, occurredAt, origin, false))
              && Apply(s, PublishStep(o.rid, o.eventId, occurredAt, origin, false)) == State(O.Apply(s.orders, o), s.broker)
              && (origin !in s.broker.arrived ==>
                    var s' := Apply(s, PublishStep(o.rid, o.eventId, occurredAt, origin, true));
                    && s'.orders == O.Apply(s.orders, o) && origin in s'.broker.arrived
                    && s'.broker.arrived[origin] == EventMessage(s, o.rid, o.eventId, occurredAt).content)
  {
    hide O.Apply, Encode, ParseOrderCreated;
  }

  lemma EventsStay(o: O.State, a: O.Action)
    requires O.Enabled(o, a)
    ensures forall e :: e in o.events ==> e in O.Apply(o, a).events && O.Apply(o, a).events[e] == o.events[e]
  {
    hide IsUuid, Canonical, IsCanonical;
  }

  lemma ArrivalsStay(b: B.State, w: B.Action)
    requires B.Enabled(b, w) && !w.Arrive?
    ensures B.Apply(b, w).arrived == b.arrived
  {
    hide ParseOrderCreated;
  }

  /**
   What is published parses back to the event that was recorded for it, and carries the amount and description of the
   call, its correlation id, and the id and user of the order stored for it. It starts without any header of the broker.
   */
  lemma PublishedIsFromOrders(s: State, rid: O.Rid, eventId: string, occurredAt: string)
    requires OI.Inv(s.orders) && O.Enabled(s.orders, O.Publish(rid, eventId))
    ensures FromOrders(O.Apply(s.orders, O.Publish(rid, eventId)), EventMessage(s, rid, eventId, occurredAt).content)
    ensures var call := s.orders.reqs[rid].call;
            var id := s.orders.reqs[rid].pc.order.id;
            && id in s.orders.db.orders
            && Publishes(EventMessage(s, rid, eventId, occurredAt).content,
                         Event(eventId, call.correlationId, id, call.dto.userId), occurredAt, call.dto.amount, call.dto.description)
    ensures EventMessage(s, rid, eventId, occurredAt).deaths == None
  {
    hide IsUuid, Canonical, IsCanonical, ParseOrderCreated, Encode, Publishes,
      OI.KeyOk, OI.EventOk, OI.KeyLocked, OI.OneOrderPerRequest, OI.OneEventPerRequest, OI.CacheOk, OI.IssuedOk;
    var req := s.orders.reqs[rid];
    assert OI.RequestOk(s.orders, rid);
    assert OI.OrderOk(s.orders, req.pc.order.id);
    EncodePublishes(Event(eventId, req.call.correlationId, req.pc.order.id, req.pc.order.userId), occurredAt,
                    req.pc.order.amount, req.pc.order.description);
    EncodeThenParse(Event(eventId, req.call.correlationId, req.pc.order.id, req.pc.order.userId), occurredAt,
                    req.pc.order.amount, req.pc.order.description);
  }

  lemma InvStep(s: State, a: Action)
    requires Inv(s) && Enabled(s, a)
    ensures Inv(Apply(s, a))
  {
    hide OI.Inv, BI.Inv, ParseOrderCreated, Encode, O.Enabled, O.Apply, B.Enabled;
    match a
    case OrderStep(o) =>
      OI.InvStep(s.orders, o);
      EventsStay(s.orders, o);
    case WorkerStep(w) =>
      BI.InvStep(s.broker, w);
      ArrivalsStay(s.broker, w);
    case PublishStep(rid, eventId, occurredAt, origin, routed) =>
      OI.InvStep(s.orders, O.Publish(rid, eventId));
      EventsStay(s.orders, O.Publish(rid, eventId));
      PublishedIsFromOrders(s, rid, eventId, occurredAt);
      if routed {
        BI.InvStep(s.broker, B.Arrive(origin, EventMessage(s, rid, eventId, occurredAt)));
      }
  }

  lemma {:induction false} InvRun(s: State, acts: seq<Action>)
    requires Inv(s) && Runs(s, acts)
    ensures Inv(Final(s, acts))
    decreases |acts|
  {
    hide Inv;
    if acts != [] {
      InvStep(s, acts[0]);
      InvRun(Apply(s, acts[0]), acts[1..]);
    }
  }

  ghost predicate Reachable(s: State) {
    exists init, acts :: Init(init) && Runs(init, acts) && s == Final(init, acts)
  }

  lemma ReachableInv(s: State)
    requires Reachable(s)
    ensures Inv(s)
  {
    var init, acts :| Init(init) && Runs(init, acts) && s == Final(init, acts);
    OI.InitInv(init.orders);
    BI.InitInv(init.broker);
    InvRun(init, acts);
  }

  /** A row stores an event order-service published, the committed order it was published for, and that order's user. */
  lemma RowBelongsToOrder(s: State, e: string)
    requires Inv(s) && e in s.broker.rows
    ensures e in s.orders.events
    ensures var row := s.broker.rows[e];
            && row.orderId == s.orders.events[e].orderId
            && row.orderId in s.orders.db.orders && row.userId == s.orders.db.orders[row.orderId].userId
  {
    hide IsUuid, Canonical, ParseOrderCreated,
      OI.KeyOk, OI.KeyLocked, OI.OneOrderPerRequest, OI.OneEventPerRequest, OI.CacheOk, OI.IssuedOk, BI.CopyOk, BI.Kept;
    assert BI.RowOk(s.broker, e);
    var origin :| BI.RowOf(s.broker, e, origin);
    var event := ParseOrderCreated(s.broker.arrived[origin]).value;
    assert FromOrders(s.orders, s.broker.arrived[origin]);
    assert OI.EventOk(s.orders, event.eventId);
    assert OI.RequestOk(s.orders, s.orders.events[event.eventId].rid);
    assert OI.OrderOk(s.orders, event.orderId);
  }

  /**
   In every run, with any interleaving of requests, redeliveries, retries, crashes and replays, each notification row
   belongs to a committed order with the same user, and no order has two rows.
   */
  lemma AtMostOneNotificationPerOrder(s: State)
    requires Reachable(s)
    ensures forall e :: e in s.broker.rows ==>
              var row := s.broker.rows[e];
              row.orderId in s.orders.db.orders && row.userId == s.orders.db.orders[row.orderId].userId
    ensures forall e, f :: e in s.broker.rows && f in s.broker.rows && s.broker.rows[e].orderId == s.broker.rows[f].orderId ==> e == f
  {
    hide IsUuid, Canonical, IsCanonical, OI.KeyOk, OI.KeyLocked, OI.OneOrderPerRequest, OI.CacheOk, OI.OrderOk, OI.IssuedOk, BI.Inv;
    ReachableInv(s);
    forall e | e in s.broker.rows
      ensures e in s.orders.events && s.broker.rows[e].orderId == s.orders.events[e].orderId
      ensures s.broker.rows[e].orderId in s.orders.db.orders
              && s.broker.rows[e].userId == s.orders.db.orders[s.broker.rows[e].orderId].userId
      ensures OI.EventOk(s.orders, e) && OI.RequestOk(s.orders, s.orders.events[e].rid)
    {
      RowBelongsToOrder(s, e);
    }
  }

  lemma KeptMeansHeld(b: B.State, origin: B.Origin)
    requires BI.Inv(b) && origin in b.arrived
    ensures || BI.HasRow(b, b.arrived[origin])
            || exists c :: c in b.copies && b.copies[c].origin == origin && b.copies[c].msg.content == b.arrived[origin]
  {
    hide ParseOrderCreated, BI.RowOk, BI.HasRow, BI.CountsOk, BI.PlaceOk;
    assert BI.Kept(b, origin);
    if !BI.HasRow(b, b.arrived[origin]) {
      var c :| BI.FirmAt(b, c, origin);
      assert BI.CopyOk(b, c);
    }
  }

  lemma PublishedOrderExists(o: O.State, content: Content)
    requires OI.Inv(o) && FromOrders(o, content)
    ensures ParseOrderCreated(content).value.orderId in o.db.orders
  {
    hide IsUuid, Canonical, IsCanonical, ParseOrderCreated,
      OI.KeyOk, OI.KeyLocked, OI.OneOrderPerRequest, OI.OneEventPerRequest, OI.CacheOk, OI.OrderOk, OI.IssuedOk;
    var event := ParseOrderCreated(content).value;
    assert OI.EventOk(o, event.eventId);
    assert OI.RequestOk(o, o.events[event.eventId].rid);
  }

  /** Every published event that reached the main queue is recorded, or a copy of it is still in some queue. */
  lemma PublishedIsKept(s: State, origin: B.Origin)
    requires Reachable(s) && origin in s.broker.arrived
    ensures WellFormed(s.broker.arrived[origin])
    ensures var event := ParseOrderCreated(s.broker.arrived[origin]).value;
            && event.orderId in s.orders.db.orders
            && (|| Consumer.EventKey(event) in s.broker.rows
                || exists c :: c in s.broker.copies && s.broker.copies[c].origin == origin
                               && s.broker.copies[c].msg.content == s.broker.arrived[origin])
  {
    hide Canonical, ParseOrderCreated, OI.Inv, BI.Inv, Reachable;
    ReachableInv(s);
    assert FromOrders(s.orders, s.broker.arrived[origin]);
    PublishedOrderExists(s.orders, s.broker.arrived[origin]);
    KeptMeansHeld(s.broker, origin);
  }
}
