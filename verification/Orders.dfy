/**
 Concurrent order creation (services/order-service/src/orders/orders.service.ts, `create`, `replay`, `findByKey` and
 `publishCreated`), one action per awaited operation. Any number of requests interleave; every action carries its own
 nondeterminism (replies, faults, generated ids), so a run is a sequence of actions.
 */
module Orders {
  import opened Common
  import opened Uuid
  import Directory

  type Rid = nat

  datatype Dto = Dto(userId: string, amount: int, description: string)

  datatype Call = Call(dto: Dto, key: Option<string>, correlationId: string)

  datatype Order = Order(id: string, userId: string, amount: int, description: string)

  /** HTTP 201, 200, 409, 422, and every 5xx or dropped connection. */
  datatype Response = Created(order: Order) | Replayed(order: Order) | Conflict | NoUser | Failed

  /** An empty key is falsy and counts as no key. */
  predicate Keyed(call: Call) {
    call.key.Some? && call.key.value != ""
  }

  /** The entity `save` returns: the caller's own spelling of the user id. */
  function Saved(id: string, dto: Dto): Order {
    Order(id, dto.userId, dto.amount, dto.description)
  }

  /** The row as the database reads it back. */
  function Stored(order: Order): Order {
    order.(userId := Canonical(order.userId))
  }

  function Replay(existing: Order, dto: Dto): Response {
    if existing.userId != dto.userId then Conflict else Replayed(existing)
  }

  /** The committed rows of user-service and order-service. */
  datatype Tables = Tables(users: set<string>, orders: map<string, Order>, keys: map<string, string>)

  /** The awaited operation a request is about to perform. `retry` marks the second key lookup, after a lost race. */
  datatype Pc =
    | AtKey(retry: bool)
    | AtOrder(orderId: string, retry: bool)
    | AtCache
    | AtFetch(attempt: nat)
    | AtFill
    | AtInsertOrder
    | AtInsertKey(order: Order)
    | AtCommit(order: Order)
    | AtPublish(order: Order)
    | Done(response: Response)

  datatype Request = Request(call: Call, pc: Pc)

  datatype Published = Published(rid: Rid, orderId: string, userId: string)

  /** `issued` remembers which request each generated order id was generated for; `events` the publish attempts. */
  datatype State = State(
    db: Tables,
    cached: set<string>,
    reqs: map<Rid, Request>,
    issued: map<string, Rid>,
    events: map<string, Published>)

  /**
   `Fail` ends a request at any await: a database operation that throws, or a client or process that goes away. Only
   the latter can happen once the order is committed.
   */
  datatype Action =
    | Register(user: string)
    | Expire(userId: string)
    | Invoke(rid: Rid, call: Call)
    | ReadKey(rid: Rid)
    | ReadOrder(rid: Rid)
    | CacheGet(rid: Rid, fault: bool)
    | Fetch(rid: Rid, reply: Directory.Reply)
    | Fill(rid: Rid, applied: bool)
    | InsertOrder(rid: Rid, id: string)
    | InsertKey(rid: Rid)
    | Commit(rid: Rid, acknowledged: bool)
    | Publish(rid: Rid, eventId: string)
    | NotPublished(rid: Rid)
    | Fail(rid: Rid)

  predicate Fresh(s: State, id: string) {
    IsUuid(id) && IsCanonical(id) && id !in s.issued && id !in s.events && id !in s.db.orders
  }

  /** `rid` has inserted idempotency key `key` in a transaction that is still open. */
  predicate HoldsKey(s: State, rid: Rid, key: string) {
    rid in s.reqs && s.reqs[rid].pc.AtCommit? && s.reqs[rid].call.key == Some(key)
  }

  predicate Enabled(s: State, a: Action) {
    match a
    case Register(user) => IsCanonical(user)
    case Expire(_) => true
    case Invoke(rid, call) => rid !in s.reqs && IsUuid(call.dto.userId)
    case ReadKey(rid) => rid in s.reqs && s.reqs[rid].pc.AtKey? && Keyed(s.reqs[rid].call)
    case ReadOrder(rid) => rid in s.reqs && s.reqs[rid].pc.AtOrder?
    case CacheGet(rid, _) => rid in s.reqs && s.reqs[rid].pc.AtCache?
    case Fetch(rid, reply) =>
      && rid in s.reqs && s.reqs[rid].pc.AtFetch?
      && Directory.Truthful(reply, s.reqs[rid].call.dto.userId, s.db.users)
    case Fill(rid, _) => rid in s.reqs && s.reqs[rid].pc.AtFill?
    case InsertOrder(rid, id) => rid in s.reqs && s.reqs[rid].pc.AtInsertOrder? && Fresh(s, id)
    case InsertKey(rid) =>
      // The unique index makes a second inserter wait for the transaction that holds the key.
      && rid in s.reqs && s.reqs[rid].pc.AtInsertKey? && Keyed(s.reqs[rid].call)
      && forall other :: other in s.reqs ==> !HoldsKey(s, other, s.reqs[rid].call.key.value)
    case Commit(rid, _) => rid in s.reqs && s.reqs[rid].pc.AtCommit?
    case Publish(rid, eventId) => rid in s.reqs && s.reqs[rid].pc.AtPublish? && Fresh(s, eventId)
    case NotPublished(rid) => rid in s.reqs && s.reqs[rid].pc.AtPublish?
    case Fail(rid) => rid in s.reqs && !s.reqs[rid].pc.Done?
  }

  function Goto(s: State, rid: Rid, pc: Pc): State
    requires rid in s.reqs
  {
    s.(reqs := s.reqs[rid := s.reqs[rid].(pc := pc)])
  }

  /** The tables after a transaction that stores `order` for `call`. */
  function AfterCommit(db: Tables, call: Call, order: Order): Tables {
    db.(orders := db.orders[order.id := Stored(order)],
        keys := if Keyed(call) then db.keys[call.key.value := order.id] else db.keys)
  }

  function AfterFetch(attempt: nat, reply: Directory.Reply): Pc {
    match Directory.Judge(reply)
    case Found => AtFill
    case Missing => Done(NoUser)
    case GiveUp => Done(Failed)
    case TryAgain => if attempt < Directory.ATTEMPTS then AtFetch(attempt + 1) else Done(Failed)
  }

  function Apply(s: State, a: Action): State
    requires Enabled(s, a)
  {
    match a
    case Register(user) => s.(db := s.db.(users := s.db.users + {user}))
    case Expire(userId) => s.(cached := s.cached - {userId})
    case Invoke(rid, call) =>
      s.(reqs := s.reqs[rid := Request(call, if Keyed(call) then AtKey(false) else AtCache)])
    case ReadKey(rid) =>
      var req := s.reqs[rid];
      if req.call.key.value in s.db.keys then Goto(s, rid, AtOrder(s.db.keys[req.call.key.value], req.pc.retry))
      else Goto(s, rid, if req.pc.retry then Done(Failed) else AtCache)
    case ReadOrder(rid) =>
      var req := s.reqs[rid];
      if req.pc.orderId in s.db.orders then Goto(s, rid, Done(Replay(s.db.orders[req.pc.orderId], req.call.dto)))
      else Goto(s, rid, if req.pc.retry then Done(Failed) else AtCache)
    case CacheGet(rid, fault) =>
      Goto(s, rid, if !fault && s.reqs[rid].call.dto.userId in s.cached then AtInsertOrder else AtFetch(1))
    case Fetch(rid, reply) => Goto(s, rid, AfterFetch(s.reqs[rid].pc.attempt, reply))
    case Fill(rid, applied) =>
      var s' := Goto(s, rid, AtInsertOrder);
      if applied then s'.(cached := s.cached + {s.reqs[rid].call.dto.userId}) else s'
    case InsertOrder(rid, id) =>
      var order := Saved(id, s.reqs[rid].call.dto);
      Goto(s, rid, if Keyed(s.reqs[rid].call) then AtInsertKey(order) else AtCommit(order)).(issued := s.issued[id := rid])
    case InsertKey(rid) =>
      var req := s.reqs[rid];
      Goto(s, rid, if req.call.key.value in s.db.keys then AtKey(true) else AtCommit(req.pc.order))
    case Commit(rid, acknowledged) =>
      var req := s.reqs[rid];
      Goto(s, rid, if acknowledged then AtPublish(req.pc.order) else Done(Failed))
      .(db := AfterCommit(s.db, req.call, req.pc.order))
    case Publish(rid, eventId) =>
      var order := s.reqs[rid].pc.order;
      Goto(s, rid, Done(Created(order))).(events := s.events[eventId := Published(rid, order.id, order.userId)])
    case NotPublished(rid) => Goto(s, rid, Done(Created(s.reqs[rid].pc.order)))
    case Fail(rid) => Goto(s, rid, Done(Failed))
  }

  predicate Init(s: State) {
    && s.db.orders == map[] && s.db.keys == map[] && s.cached == {}
    && s.reqs == map[] && s.issued == map[] && s.events == map[]
  }

  /** `acts` can be performed one after the other from `s`. */
  predicate Runs(s: State, acts: seq<Action>)
    decreases |acts|
  {
    acts == [] || (Enabled(s, acts[0]) && Runs(Apply(s, acts[0]), acts[1..]))
  }

  function Final(s: State, acts: seq<Action>): State
    requires Runs(s, acts)
    decreases |acts|
  {
    if acts == [] then s else Final(Apply(s, acts[0]), acts[1..])
  }
}

/** What every reachable state of order creation satisfies. */
module OrdersInvariant {
  import opened Common
  import opened Uuid
  import opened Orders
  import Directory

  ghost predicate UserKnown(s: State, call: Call) {
    Canonical(call.dto.userId) in s.db.users
  }

  /** `order` was written by `rid` in a transaction that has not committed. */
  ghost predicate Pending(s: State, rid: Rid, order: Order)
    requires rid in s.reqs
  {
    && order == Saved(order.id, s.reqs[rid].call.dto)
    && order.id in s.issued && s.issued[order.id] == rid
    && order.id !in s.db.orders
  }

  /** `order` is committed, belongs to `rid`, and `rid`'s key (if any) points at it. */
  ghost predicate Committed(s: State, rid: Rid, order: Order)
    requires rid in s.reqs
  {
    var call := s.reqs[rid].call;
    && order == Saved(order.id, call.dto)
    && order.id in s.issued && s.issued[order.id] == rid
    && order.id in s.db.orders && s.db.orders[order.id] == Stored(order)
    && (Keyed(call) ==> call.key.value in s.db.keys && s.db.keys[call.key.value] == order.id)
  }

  /** The answer `response` is the one the committed order behind the request's key dictates. */
  ghost predicate AnsweredByKey(s: State, call: Call, response: Response) {
    && Keyed(call) && call.key.value in s.db.keys && s.db.keys[call.key.value] in s.db.orders
    && response == Replay(s.db.orders[s.db.keys[call.key.value]], call.dto)
  }

  ghost predicate RequestOk(s: State, rid: Rid)
    requires rid in s.reqs
  {
    var call := s.reqs[rid].call;
    && IsUuid(call.dto.userId)
    && match s.reqs[rid].pc
       case AtKey(retry) => Keyed(call) && (retry ==> call.key.value in s.db.keys)
       case AtOrder(orderId, _) => Keyed(call) && call.key.value in s.db.keys && s.db.keys[call.key.value] == orderId
       case AtCache => true
       case AtFetch(_) => true
       case AtFill => UserKnown(s, call)
       case AtInsertOrder => UserKnown(s, call)
       case AtInsertKey(order) => UserKnown(s, call) && Pending(s, rid, order) && Keyed(call)
       case AtCommit(order) =>
         && UserKnown(s, call) && Pending(s, rid, order)
         && (Keyed(call) ==> call.key.value !in s.db.keys)
       case AtPublish(order) => Committed(s, rid, order)
       case Done(response) =>
         match response
         case Created(order) => Committed(s, rid, order)
         case Replayed(_) => AnsweredByKey(s, call, response)
         case Conflict => AnsweredByKey(s, call, response)
         case NoUser => true
         case Failed => true
  }

  /** Two open transactions never hold the same key. */
  ghost predicate KeyLocked(s: State) {
    forall r1, r2 | r1 in s.reqs && r2 in s.reqs && s.reqs[r1].pc.AtCommit? && s.reqs[r2].pc.AtCommit?
                    && Keyed(s.reqs[r1].call) && s.reqs[r1].call.key == s.reqs[r2].call.key
      :: r1 == r2
  }

  /** The request got past its commit, and committed exactly order `id` (a lost acknowledgement fails the request). */
  ghost predicate PastCommit(pc: Pc, id: string) {
    || (pc.AtPublish? && pc.order.id == id)
    || (pc.Done? && pc.response.Created? && pc.response.order.id == id)
    || pc == Done(Failed)
  }

  /** A committed order belongs to the request that generated it, which holds its key and did not lose a race. */
  ghost predicate OrderOk(s: State, id: string)
    requires id in s.db.orders
  {
    && IsUuid(id) && IsCanonical(id)
    && id in s.issued && s.issued[id] in s.reqs
    && var req := s.reqs[s.issued[id]];
    && s.db.orders[id] == Stored(Saved(id, req.call.dto))
    && Canonical(req.call.dto.userId) in s.db.users
    && PastCommit(req.pc, id)
    && (Keyed(req.call) ==> req.call.key.value in s.db.keys && s.db.keys[req.call.key.value] == id)
  }

  ghost predicate OneOrderPerRequest(s: State) {
    forall i, j :: i in s.db.orders && j in s.db.orders && i in s.issued && j in s.issued && s.issued[i] == s.issued[j] ==> i == j
  }

  /** A key points at an existing order, created by the request that carried this key. */
  ghost predicate KeyOk(s: State, key: string)
    requires key in s.db.keys
  {
    && key != "" && s.db.keys[key] in s.db.orders && s.db.keys[key] in s.issued
    && s.issued[s.db.keys[key]] in s.reqs
    && s.reqs[s.issued[s.db.keys[key]]].call.key == Some(key)
  }

  /** A published event belongs to a request that answered 201 with the order the event names. */
  ghost predicate EventOk(s: State, e: string)
    requires e in s.events
  {
    && IsUuid(e) && IsCanonical(e)
    && s.events[e].rid in s.reqs
    && s.reqs[s.events[e].rid].pc.Done? && s.reqs[s.events[e].rid].pc.response.Created?
    && var order := s.reqs[s.events[e].rid].pc.response.order;
    && s.events[e].orderId == order.id && s.events[e].userId == order.userId
  }

  ghost predicate OneEventPerRequest(s: State) {
    forall e, f :: e in s.events && f in s.events && s.events[e].rid == s.events[f].rid ==> e == f
  }

  ghost predicate CacheOk(s: State) {
    forall u :: u in s.cached ==> Canonical(u) in s.db.users
  }

  /** The request has generated its order id. */
  predicate PastInsert(pc: Pc) {
    match pc
    case AtKey(retry) => retry
    case AtOrder(_, retry) => retry
    case AtCache => false
    case AtFetch(_) => false
    case AtFill => false
    case AtInsertOrder => false
    case _ => true
  }

  ghost predicate IssuedOk(s: State, id: string)
    requires id in s.issued
  {
    IsUuid(id) && IsCanonical(id) && s.issued[id] in s.reqs && PastInsert(s.reqs[s.issued[id]].pc)
  }

  ghost predicate Inv(s: State) {
    && (forall rid :: rid in s.reqs ==> RequestOk(s, rid))
    && KeyLocked(s)
    && (forall id :: id in s.db.orders ==> OrderOk(s, id))
    && OneOrderPerRequest(s)
    && (forall key :: key in s.db.keys ==> KeyOk(s, key))
    && (forall e :: e in s.events ==> EventOk(s, e))
    && OneEventPerRequest(s)
    && CacheOk(s)
    && (forall id :: id in s.issued ==> IssuedOk(s, id))
  }

  lemma InitInv(s: State)
    requires Init(s)
    ensures Inv(s)
  {
  }

  // Tables, key records and issued ids only ever grow.
  ghost predicate Grows(s: State, s': State) {
    && s.db.users <= s'.db.users
    && (forall id :: id in s.db.orders ==> id in s'.db.orders && s'.db.orders[id] == s.db.orders[id])
    && (forall key :: key in s.db.keys ==> key in s'.db.keys && s'.db.keys[key] == s.db.keys[key])
    && (forall id :: id in s.issued ==> id in s'.issued && s'.issued[id] == s.issued[id])
  }

  /** A request keeps its invariant when the tables grow without colliding with its open transaction. */
  lemma RequestFrame(s: State, s': State, r: Rid)
    requires r in s.reqs && r in s'.reqs && s'.reqs[r] == s.reqs[r] && RequestOk(s, r) && Grows(s, s')
    requires s.reqs[r].pc.AtInsertKey? || s.reqs[r].pc.AtCommit? ==> s.reqs[r].pc.order.id !in s'.db.orders
    requires s.reqs[r].pc.AtCommit? && Keyed(s.reqs[r].call) ==> s.reqs[r].call.key.value !in s'.db.keys
    ensures RequestOk(s', r)
  {
    hide IsUuid, Canonical;
  }

  lemma OrderFrame(s: State, s': State, id: string)
    requires id in s.db.orders && OrderOk(s, id) && Grows(s, s')
    requires var r := s.issued[id]; r in s'.reqs && s'.reqs[r].call == s.reqs[r].call && PastCommit(s'.reqs[r].pc, id)
    ensures OrderOk(s', id)
  {
    hide IsUuid, Canonical, IsCanonical;
  }

  /** What a step of request `rid` may do: advance it, add at most its own order, key and event, and fill the cache. */
  ghost predicate StepOf(s: State, s': State, rid: Rid) {
    && rid in s.reqs && rid in s'.reqs && !s.reqs[rid].pc.Done?
    && s'.reqs == s.reqs[rid := s.reqs[rid].(pc := s'.reqs[rid].pc)]
    && Grows(s, s')
    && (forall id :: id in s'.db.orders && id !in s.db.orders ==> s.reqs[rid].pc.AtCommit? && id == s.reqs[rid].pc.order.id)
    && (forall key :: key in s'.db.keys && key !in s.db.keys ==>
          s.reqs[rid].pc.AtCommit? && s.reqs[rid].call.key == Some(key) && key != "")
    && (forall id :: PastCommit(s.reqs[rid].pc, id) ==> PastCommit(s'.reqs[rid].pc, id))
    && (s'.reqs[rid].pc.AtCommit? && Keyed(s.reqs[rid].call) ==>
          forall other :: other in s.reqs ==> !HoldsKey(s, other, s.reqs[rid].call.key.value))
    && (forall e :: e in s.events ==> e in s'.events && s'.events[e] == s.events[e])
    && (forall e :: e in s'.events && e !in s.events ==> s.reqs[rid].pc.AtPublish? && s'.events[e].rid == rid)
    && (forall e, f :: e in s'.events && e !in s.events && f in s'.events && f !in s.events ==> e == f)
    && (forall u :: u in s'.cached && u !in s.cached ==> Canonical(u) in s'.db.users)
    && (PastInsert(s.reqs[rid].pc) ==> PastInsert(s'.reqs[rid].pc))
    && (forall id :: id in s'.issued && id !in s.issued ==>
          IsUuid(id) && IsCanonical(id) && s'.issued[id] == rid && PastInsert(s'.reqs[rid].pc))
  }

  /** The rows a step of `rid` added satisfy their invariants, and so does `rid` itself. */
  ghost predicate AdditionsOk(s: State, s': State, rid: Rid)
    requires rid in s'.reqs
  {
    && RequestOk(s', rid)
    && (forall id :: id in s'.db.orders && id !in s.db.orders ==> OrderOk(s', id))
    && (forall key :: key in s'.db.keys && key !in s.db.keys ==> KeyOk(s', key))
    && (forall e :: e in s'.events && e !in s.events ==> EventOk(s', e))
  }

  lemma OtherRequestsKeep(s: State, s': State, rid: Rid, r: Rid)
    requires Inv(s) && StepOf(s, s', rid) && r in s.reqs && r != rid
    ensures RequestOk(s', r)
  {
    hide IsUuid, Canonical, IsCanonical, OrderOk, KeyOk, EventOk, OneOrderPerRequest, OneEventPerRequest, CacheOk, IssuedOk;
    assert RequestOk(s, r) && RequestOk(s, rid);
    RequestFrame(s, s', r);
  }

  lemma OldOrdersKeep(s: State, s': State, rid: Rid, id: string)
    requires Inv(s) && StepOf(s, s', rid) && id in s.db.orders
    ensures OrderOk(s', id)
  {
    hide IsUuid, Canonical, IsCanonical, RequestOk, KeyOk, EventOk, OneOrderPerRequest, OneEventPerRequest, CacheOk, IssuedOk;
    assert OrderOk(s, id);
    OrderFrame(s, s', id);
  }

  lemma OldKeysAndEventsKeep(s: State, s': State, rid: Rid)
    requires Inv(s) && StepOf(s, s', rid)
    ensures forall key :: key in s.db.keys ==> KeyOk(s', key)
    ensures forall e :: e in s.events ==> EventOk(s', e)
  {
    hide IsUuid, Canonical, IsCanonical, RequestOk, OrderOk, OneOrderPerRequest, OneEventPerRequest, CacheOk, IssuedOk;
    forall key | key in s.db.keys
      ensures KeyOk(s', key)
    {
      assert KeyOk(s, key);
    }
    forall e | e in s.events
      ensures EventOk(s', e)
    {
      assert EventOk(s, e);
    }
  }

  lemma PendingIsIssued(s: State, rid: Rid)
    requires rid in s.reqs && RequestOk(s, rid) && s.reqs[rid].pc.AtCommit?
    ensures s.reqs[rid].pc.order.id in s.issued && s.issued[s.reqs[rid].pc.order.id] == rid
  {
    hide IsUuid, Canonical, IsCanonical;
  }

  /** At most one order and one event per request, and exclusive keys, survive a step of `rid`. */
  lemma OneOrderKeeps(s: State, s': State, rid: Rid)
    requires Inv(s) && StepOf(s, s', rid)
    ensures OneOrderPerRequest(s')
  {
    hide IsUuid, Canonical, IsCanonical, RequestOk, KeyOk, EventOk, KeyLocked, OneEventPerRequest, CacheOk, IssuedOk;
    if s.reqs[rid].pc.AtCommit? {
      PendingIsIssued(s, rid);
      forall id | id in s.db.orders
        ensures id in s.issued && s.issued[id] != rid
      {
        assert OrderOk(s, id);
      }
    }
    assert forall id :: id in s.db.orders ==> OrderOk(s, id);
  }

  lemma IssuedKeeps(s: State, s': State, rid: Rid)
    requires Inv(s) && StepOf(s, s', rid)
    ensures forall id :: id in s'.issued ==> IssuedOk(s', id)
  {
    hide IsUuid, Canonical, IsCanonical, RequestOk, OrderOk, KeyOk, EventOk, OneOrderPerRequest, OneEventPerRequest, KeyLocked, CacheOk;
    forall id | id in s'.issued
      ensures IssuedOk(s', id)
    {
      assert id in s.issued ==> IssuedOk(s, id);
    }
  }

  lemma OneEventKeeps(s: State, s': State, rid: Rid)
    requires Inv(s) && StepOf(s, s', rid)
    ensures OneEventPerRequest(s')
  {
    hide IsUuid, Canonical, IsCanonical, RequestOk, OrderOk, KeyOk, OneOrderPerRequest, KeyLocked, CacheOk;
    forall e | e in s.events
      ensures s.events[e].rid != rid || !s.reqs[rid].pc.AtPublish?
    {
      assert EventOk(s, e);
    }
  }

  lemma KeysStayExclusive(s: State, s': State, rid: Rid)
    requires Inv(s) && StepOf(s, s', rid)
    ensures KeyLocked(s') && CacheOk(s')
  {
    hide IsUuid, Canonical, IsCanonical, RequestOk, OrderOk, KeyOk, EventOk, OneOrderPerRequest, OneEventPerRequest;
  }

  lemma StepKeepsInv(s: State, s': State, rid: Rid)
    requires Inv(s) && StepOf(s, s', rid) && AdditionsOk(s, s', rid)
    ensures Inv(s')
  {
    hide IsUuid, Canonical, IsCanonical, RequestOk, OrderOk, KeyOk, EventOk, KeyLocked, OneOrderPerRequest, OneEventPerRequest, CacheOk, IssuedOk;
    forall r | r in s'.reqs
      ensures RequestOk(s', r)
    {
      if r != rid {
        OtherRequestsKeep(s, s', rid, r);
      }
    }
    forall id | id in s'.db.orders
      ensures OrderOk(s', id)
    {
      if id in s.db.orders {
        OldOrdersKeep(s, s', rid, id);
      }
    }
    OldKeysAndEventsKeep(s, s', rid);
    IssuedKeeps(s, s', rid);
    OneOrderKeeps(s, s', rid);
    OneEventKeeps(s, s', rid);
    KeysStayExclusive(s, s', rid);
  }

  /** Actions of one request that leave the tables alone: only its own program point has to be checked. */
  lemma GotoInv(s: State, rid: Rid, pc: Pc)
    requires Inv(s) && rid in s.reqs && !s.reqs[rid].pc.Done?
    requires RequestOk(Goto(s, rid, pc), rid)
    requires PastInsert(s.reqs[rid].pc) ==> PastInsert(pc)
    requires !s.reqs[rid].pc.AtPublish? || pc == Done(Failed) || pc == Done(Created(s.reqs[rid].pc.order))
    requires pc.AtCommit? && Keyed(s.reqs[rid].call) ==>
               forall other :: other in s.reqs ==> !HoldsKey(s, other, s.reqs[rid].call.key.value)
    ensures Inv(Goto(s, rid, pc))
  {
    hide IsUuid, Canonical, IsCanonical, RequestOk, OrderOk, KeyOk, EventOk, KeyLocked, OneOrderPerRequest, OneEventPerRequest, CacheOk, IssuedOk;
    StepKeepsInv(s, Goto(s, rid, pc), rid);
  }

  lemma FillStep(s: State, rid: Rid, applied: bool)
    requires rid in s.reqs && RequestOk(s, rid) && Enabled(s, Fill(rid, applied))
    ensures StepOf(s, Apply(s, Fill(rid, applied)), rid)
    ensures AdditionsOk(s, Apply(s, Fill(rid, applied)), rid)
  {
    hide IsUuid, Canonical, IsCanonical, OrderOk, KeyOk, EventOk;
  }

  lemma FillInv(s: State, rid: Rid, applied: bool)
    requires Inv(s) && Enabled(s, Fill(rid, applied))
    ensures Inv(Apply(s, Fill(rid, applied)))
  {
    hide IsUuid, Canonical, IsCanonical, RequestOk, OrderOk, KeyOk, EventOk, KeyLocked, OneOrderPerRequest, OneEventPerRequest, CacheOk, IssuedOk;
    FillStep(s, rid, applied);
    StepKeepsInv(s, Apply(s, Fill(rid, applied)), rid);
  }

  lemma InsertOrderStep(s: State, rid: Rid, id: string)
    requires rid in s.reqs && RequestOk(s, rid) && Enabled(s, InsertOrder(rid, id))
    ensures StepOf(s, Apply(s, InsertOrder(rid, id)), rid)
    ensures AdditionsOk(s, Apply(s, InsertOrder(rid, id)), rid)
  {
    hide IsUuid, Canonical, IsCanonical, OrderOk, KeyOk, EventOk;
  }

  lemma InsertOrderInv(s: State, rid: Rid, id: string)
    requires Inv(s) && Enabled(s, InsertOrder(rid, id))
    ensures Inv(Apply(s, InsertOrder(rid, id)))
  {
    hide IsUuid, Canonical, IsCanonical, RequestOk, OrderOk, KeyOk, EventOk, KeyLocked, OneOrderPerRequest, OneEventPerRequest, CacheOk, IssuedOk;
    InsertOrderStep(s, rid, id);
    StepKeepsInv(s, Apply(s, InsertOrder(rid, id)), rid);
  }

  lemma CommitStep(s: State, rid: Rid, acknowledged: bool)
    requires rid in s.reqs && RequestOk(s, rid) && Enabled(s, Commit(rid, acknowledged))
    ensures StepOf(s, Apply(s, Commit(rid, acknowledged)), rid)
  {
    hide IsUuid, Canonical, IsCanonical;
  }

  lemma CommitAdditions(s: State, rid: Rid, acknowledged: bool)
    requires rid in s.reqs && RequestOk(s, rid) && Enabled(s, Commit(rid, acknowledged))
    requires forall id :: id in s.issued ==> IssuedOk(s, id)
    ensures AdditionsOk(s, Apply(s, Commit(rid, acknowledged)), rid)
  {
    hide IsUuid, Canonical, IsCanonical;
  }

  lemma CommitInv(s: State, rid: Rid, acknowledged: bool)
    requires Inv(s) && Enabled(s, Commit(rid, acknowledged))
    ensures Inv(Apply(s, Commit(rid, acknowledged)))
  {
    hide IsUuid, Canonical, IsCanonical, RequestOk, OrderOk, KeyOk, EventOk, KeyLocked, OneOrderPerRequest, OneEventPerRequest, CacheOk, IssuedOk;
    CommitStep(s, rid, acknowledged);
    CommitAdditions(s, rid, acknowledged);
    StepKeepsInv(s, Apply(s, Commit(rid, acknowledged)), rid);
  }

  lemma PublishStep(s: State, rid: Rid, eventId: string)
    requires rid in s.reqs && RequestOk(s, rid) && Enabled(s, Publish(rid, eventId))
    ensures StepOf(s, Apply(s, Publish(rid, eventId)), rid)
    ensures AdditionsOk(s, Apply(s, Publish(rid, eventId)), rid)
  {
    hide IsUuid, Canonical, IsCanonical, OrderOk, KeyOk;
  }

  lemma PublishInv(s: State, rid: Rid, eventId: string)
    requires Inv(s) && Enabled(s, Publish(rid, eventId))
    ensures Inv(Apply(s, Publish(rid, eventId)))
  {
    hide IsUuid, Canonical, IsCanonical, RequestOk, OrderOk, KeyOk, EventOk, KeyLocked, OneOrderPerRequest, OneEventPerRequest, CacheOk, IssuedOk;
    PublishStep(s, rid, eventId);
    StepKeepsInv(s, Apply(s, Publish(rid, eventId)), rid);
  }

  /** Actions of the environment and new requests. */
  lemma RequestsKeepInEnvironment(s: State, a: Action, r: Rid)
    requires Inv(s) && Enabled(s, a) && (a.Register? || a.Expire? || a.Invoke?) && r in Apply(s, a).reqs
    ensures RequestOk(Apply(s, a), r)
  {
    hide IsUuid, Canonical, IsCanonical, OrderOk, KeyOk, EventOk, KeyLocked, OneOrderPerRequest, OneEventPerRequest, CacheOk, IssuedOk;
    if r in s.reqs {
      RequestFrame(s, Apply(s, a), r);
    }
  }

  lemma OrdersKeepInEnvironment(s: State, a: Action, id: string)
    requires Inv(s) && Enabled(s, a) && (a.Register? || a.Expire? || a.Invoke?) && id in s.db.orders
    ensures OrderOk(Apply(s, a), id)
  {
    hide IsUuid, Canonical, IsCanonical, RequestOk, KeyOk, EventOk, KeyLocked, OneOrderPerRequest, OneEventPerRequest, CacheOk, IssuedOk;
    assert OrderOk(s, id);
    OrderFrame(s, Apply(s, a), id);
  }

  lemma RowsKeepInEnvironment(s: State, a: Action)
    requires Inv(s) && Enabled(s, a) && (a.Register? || a.Expire? || a.Invoke?)
    ensures forall key :: key in s.db.keys ==> KeyOk(Apply(s, a), key)
    ensures forall e :: e in s.events ==> EventOk(Apply(s, a), e)
    ensures forall id :: id in s.issued ==> IssuedOk(Apply(s, a), id)
  {
    hide IsUuid, Canonical, IsCanonical, RequestOk, OrderOk, KeyLocked, OneOrderPerRequest, OneEventPerRequest, CacheOk;
    assert forall key :: key in s.db.keys ==> KeyOk(s, key);
    assert forall e :: e in s.events ==> EventOk(s, e);
    assert forall id :: id in s.issued ==> IssuedOk(s, id);
  }

  lemma EnvironmentInv(s: State, a: Action)
    requires Inv(s) && Enabled(s, a) && (a.Register? || a.Expire? || a.Invoke?)
    ensures Inv(Apply(s, a))
  {
    hide IsUuid, Canonical, IsCanonical, RequestOk, OrderOk, KeyOk, EventOk, IssuedOk;
    RowsKeepInEnvironment(s, a);
    forall id | id in s.db.orders {
      OrdersKeepInEnvironment(s, a, id);
    }
    forall r | r in Apply(s, a).reqs {
      RequestsKeepInEnvironment(s, a, r);
    }
  }

  lemma FetchInv(s: State, rid: Rid, reply: Directory.Reply)
    requires Inv(s) && Enabled(s, Fetch(rid, reply))
    ensures Inv(Apply(s, Fetch(rid, reply)))
  {
    hide IsUuid, Canonical, IsCanonical, OrderOk, KeyOk, EventOk, KeyLocked, OneOrderPerRequest, OneEventPerRequest, CacheOk, IssuedOk;
    assert RequestOk(s, rid);
    GotoInv(s, rid, AfterFetch(s.reqs[rid].pc.attempt, reply));
  }

  lemma CacheGetInv(s: State, rid: Rid, fault: bool)
    requires Inv(s) && Enabled(s, CacheGet(rid, fault))
    ensures Inv(Apply(s, CacheGet(rid, fault)))
  {
    hide IsUuid, Canonical, IsCanonical, OrderOk, KeyOk, EventOk, KeyLocked, OneOrderPerRequest, OneEventPerRequest;
    assert RequestOk(s, rid);
    GotoInv(s, rid, Apply(s, CacheGet(rid, fault)).reqs[rid].pc);
  }

  /** Where the remaining actions of a request take it. */
  lemma LookupStep(s: State, a: Action)
    requires Enabled(s, a) && (a.ReadKey? || a.ReadOrder? || a.InsertKey? || a.NotPublished? || a.Fail?)
    requires a.rid in s.reqs && RequestOk(s, a.rid)
    requires s.reqs[a.rid].pc.AtOrder? ==> KeyOk(s, s.reqs[a.rid].call.key.value)
    ensures a.rid in Apply(s, a).reqs
    ensures var pc := Apply(s, a).reqs[a.rid].pc;
            && Apply(s, a) == Goto(s, a.rid, pc) && RequestOk(Goto(s, a.rid, pc), a.rid)
            && (PastInsert(s.reqs[a.rid].pc) ==> PastInsert(pc))
            && (!s.reqs[a.rid].pc.AtPublish? || pc == Done(Failed) || pc == Done(Created(s.reqs[a.rid].pc.order)))
            && (pc.AtCommit? ==> a.InsertKey?) && !s.reqs[a.rid].pc.Done?
  {
    hide IsUuid, Canonical, IsCanonical;
  }

  lemma LookupInv(s: State, a: Action)
    requires Inv(s) && Enabled(s, a) && (a.ReadKey? || a.ReadOrder? || a.InsertKey? || a.NotPublished? || a.Fail?)
    ensures Inv(Apply(s, a))
  {
    hide IsUuid, Canonical, IsCanonical, OrderOk, KeyOk, EventOk, KeyLocked, OneOrderPerRequest, OneEventPerRequest, CacheOk, IssuedOk, Apply;
    assert RequestOk(s, a.rid);
    LookupStep(s, a);
    GotoInv(s, a.rid, Apply(s, a).reqs[a.rid].pc);
  }

  lemma InvStep(s: State, a: Action)
    requires Inv(s) && Enabled(s, a)
    ensures Inv(Apply(s, a))
  {
    hide Inv;
    match a
    case CacheGet(rid, fault) => CacheGetInv(s, rid, fault);
    case Fetch(rid, reply) => FetchInv(s, rid, reply);
    case Fill(rid, applied) => FillInv(s, rid, applied);
    case InsertOrder(rid, id) => InsertOrderInv(s, rid, id);
    case Commit(rid, acknowledged) => CommitInv(s, rid, acknowledged);
    case Publish(rid, eventId) => PublishInv(s, rid, eventId);
    case Register(_) => EnvironmentInv(s, a);
    case Expire(_) => EnvironmentInv(s, a);
    case Invoke(_, _) => EnvironmentInv(s, a);
    case _ => LookupInv(s, a);
  }

  lemma {:induction false} InvRun(s: State, acts: seq<Action>)
    requires Inv(s) && Runs(s, acts)
    ensures Inv(Final(s, acts))
    decreases |acts|
  {
    hide Inv;
    if acts != [] {
      InvStep(s, acts[0]);
      InvRun(Apply(s, acts[0]), acts[1..]);
    }
  }
}
