/**
 `create` in the shape of its source (services/order-service/src/orders/orders.service.ts): one method that awaits one
 operation after the other, with other requests acting at every await. Each call is a run of the transition system, so
 everything proved about runs holds for it.
 */
module OrderService {
  import opened Common
  import opened Uuid
  import opened Orders
  import opened OrdersInvariant
  import opened Linearizability
  import OrderGuarantees
  import Directory

  /**
   The environment of one call: what the others attempt during await `k`, whether the database fails at await `k`, how
   Redis, user-service, the commit and the publish behave, and the generated ids. `failure(n)` is an answer of attempt
   `n` that is neither 200 nor 404; without one, user-service answers from its table.
   */
  datatype World = World(
    others: nat -> seq<Action>,
    fault: nat -> bool,
    cacheFault: bool,
    failure: nat -> Option<Directory.Reply>,
    cacheApplied: bool,
    orderId: string,
    acknowledged: bool,
    eventId: string,
    published: bool)

  /** The await a request stands at; each is passed at most once by a call. */
  function AwaitOf(pc: Pc): nat {
    match pc
    case AtKey(retry) => if retry then 1 else 0
    case AtOrder(_, retry) => if retry then 3 else 2
    case AtCache => 4
    case AtFill => 5
    case AtInsertOrder => 6
    case AtInsertKey(_) => 7
    case AtCommit(_) => 8
    case AtPublish(_) => 9
    case AtFetch(attempt) => 10 + attempt
    case Done(_) => 10
  }

  function ReplyOf(w: World, attempt: nat, userId: string, users: set<string>): Directory.Reply {
    var failure := w.failure(attempt);
    if failure.Some? && failure.value != Directory.Status(200) && failure.value != Directory.Status(404) then failure.value
    else if Canonical(userId) in users then Directory.Status(200) else Directory.Status(404)
  }

  /** The reply to attempt `n` was one worth a retry. */
  predicate Retried(w: World, n: nat) {
    w.failure(n).Some? && Inconclusive(w.failure(n).value)
  }

  /** No reply at all, or a server error. */
  predicate Inconclusive(reply: Directory.Reply) {
    reply.NetworkError? || reply.code >= 500
  }

  /**
   What makes a call fail that stands at its current await in state `s`: the database fails there; user-service gave a
   reply that ends the lookup without an answer; the generated id is not fresh; another open transaction still holds
   the key; or the commit is not acknowledged. Redis and the publish never fail a call.
   */
  ghost predicate Breaks(w: World, s: State, rid: Rid)
    requires rid in s.reqs
  {
    var req := s.reqs[rid];
    match req.pc
    case AtKey(_) => w.fault(AwaitOf(req.pc))
    case AtOrder(_, _) => w.fault(AwaitOf(req.pc))
    case AtFetch(attempt) =>
      var reply := ReplyOf(w, attempt, req.call.dto.userId, s.db.users);
      reply != Directory.Status(200) && reply != Directory.Status(404) && (Inconclusive(reply) ==> attempt >= 2)
    case AtInsertOrder => w.fault(AwaitOf(req.pc)) || !Fresh(s, w.orderId)
    case AtInsertKey(_) =>
      w.fault(AwaitOf(req.pc)) || (Keyed(req.call) && exists other :: HoldsKey(s, other, req.call.key.value))
    case AtCommit(_) => w.fault(AwaitOf(req.pc)) || !w.acknowledged
    case _ => false
  }

  /** A key lookup finds the order, or, on the first try, moves on to the user check. */
  lemma LookupOutcome(s: State, rid: Rid)
    requires Inv(s) && rid in s.reqs && s.reqs[rid].pc.AtKey?
    ensures Enabled(s, ReadKey(rid))
    ensures var s' := Apply(s, ReadKey(rid));
            && rid in s'.reqs && s'.reqs[rid].call == s.reqs[rid].call
            && (s'.reqs[rid].pc.AtOrder? || (s'.reqs[rid].pc == AtCache && !s.reqs[rid].pc.retry))
  {
    hide IsUuid, Canonical, IsCanonical, OrderOk, KeyOk, EventOk, KeyLocked, OneOrderPerRequest, OneEventPerRequest, CacheOk, IssuedOk;
    assert RequestOk(s, rid);
  }

  /** A request answered 201 has its order and its key in the tables. */
  lemma CreatedIsStored(s: State, rid: Rid)
    requires Inv(s) && rid in s.reqs && s.reqs[rid].pc.Done? && s.reqs[rid].pc.response.Created?
    ensures var call := s.reqs[rid].call;
            var id := s.reqs[rid].pc.response.order.id;
            && id in s.db.orders
            && s.db.orders[id] == Order(id, Canonical(call.dto.userId), call.dto.amount, call.dto.description)
            && (call.key.Some? && call.key.value != "" ==> call.key.value in s.db.keys && s.db.keys[call.key.value] == id)
  {
    hide IsUuid, Canonical, IsCanonical, OrderOk, KeyOk, EventOk, KeyLocked, OneOrderPerRequest, OneEventPerRequest, CacheOk, IssuedOk;
    assert RequestOk(s, rid);
  }

  lemma ReplayOutcome(s: State, rid: Rid)
    requires Inv(s) && rid in s.reqs && s.reqs[rid].pc.AtOrder?
    ensures Enabled(s, ReadOrder(rid))
    ensures var s' := Apply(s, ReadOrder(rid));
            && rid in s'.reqs && s'.reqs[rid].call == s.reqs[rid].call && s'.reqs[rid].pc.Done?
            && s'.reqs[rid].pc.response != Failed && AnsweredByKey(s', s.reqs[rid].call, s'.reqs[rid].pc.response)
  {
    hide IsUuid, Canonical, IsCanonical, OrderOk, EventOk, KeyLocked, OneOrderPerRequest, OneEventPerRequest, CacheOk, IssuedOk;
    assert RequestOk(s, rid);
    assert KeyOk(s, s.reqs[rid].call.key.value);
  }

  ghost predicate LedTo(start: State, acts: seq<Action>, s: State) {
    Runs(start, acts) && Final(start, acts) == s
  }

  class OrdersService {
    var st: State
    ghost var start: State
    ghost var trace: seq<Action>
    /** The state before the last action. */
    ghost var before: State

    /** The states are the ones the recorded actions lead to. */
    ghost predicate Valid()
      reads this
    {
      && Inv(start) && Runs(start, trace) && Final(start, trace) == st && Inv(st)
      && (trace != [] ==> LedTo(start, trace[..|trace| - 1], before))
    }

    constructor (initial: State)
      requires Inv(initial)
      ensures Valid() && st == initial && start == initial && trace == []
    {
      st, start, trace, before := initial, initial, [], initial;
    }

    /** One action of anybody. */
    method Do(a: Action)
      requires Valid() && Enabled(st, a)
      modifies this`st, this`trace, this`before
      ensures Valid() && st == Apply(old(st), a) && trace == old(trace) + [a] && before == old(st)
    {
      hide Inv, Enabled, Apply;
      OrderGuarantees.RunsConcat(start, trace, [a]) by {
        assert [a][1..] == [];
      }
      assert [a][1..] == [];
      InvStep(st, a);
      st, trace, before := Apply(st, a), trace + [a], st;
      assert trace[..|trace| - 1] == old(trace);
    }

    /** Whatever of `acts` the others can do, they do; this request is left alone. */
    method Interfere(rid: Rid, acts: seq<Action>)
      requires Valid()
      modifies this`st, this`trace, this`before
      ensures Valid() && old(trace) <= trace
      ensures rid in old(st).reqs ==> rid in st.reqs && st.reqs[rid] == old(st).reqs[rid]
      ensures rid !in old(st).reqs ==> rid !in st.reqs
    {
      hide Inv, Enabled, Apply, Runs, Final, Effect;
      for i := 0 to |acts|
        invariant Valid() && old(trace) <= trace
        invariant rid in old(st).reqs ==> rid in st.reqs && st.reqs[rid] == old(st).reqs[rid]
        invariant rid !in old(st).reqs ==> rid !in st.reqs
      {
        var a := acts[i];
        if Enabled(st, a) && (a.Register? || a.Expire? || a.rid != rid) {
          OthersAct(st, a, st, rid);
          Do(a);
        }
      }
    }

    /** A database await: the others act, and the operation may fail, which ends the request. */
    method Await(rid: Rid, w: World) returns (ok: bool)
      requires Valid() && rid in st.reqs && !st.reqs[rid].pc.Done?
      modifies this`st, this`trace, this`before
      ensures Valid() && old(trace) <= trace && rid in st.reqs
      ensures ok == !w.fault(AwaitOf(old(st).reqs[rid].pc))
      ensures ok ==> st.reqs[rid] == old(st).reqs[rid]
      ensures !ok ==> st.reqs[rid] == old(st).reqs[rid].(pc := Done(Failed))
      ensures !ok ==> rid in before.reqs && before.reqs[rid] == old(st).reqs[rid]
    {
      hide Inv, Runs, Final;
      Interfere(rid, w.others(AwaitOf(st.reqs[rid].pc)));
      ok := !w.fault(AwaitOf(st.reqs[rid].pc));
      if !ok {
        Do(Fail(rid));
      }
    }

    /** The request ended with `response` at an await of its own: with a failure exactly when that await broke. */
    ghost predicate Ended(w: World, rid: Rid, call: Call, response: Response)
      reads this
    {
      && rid in st.reqs && st.reqs[rid] == Request(call, Done(response))
      && rid in before.reqs && before.reqs[rid].call == call
      && (response == Failed <==> Breaks(w, before, rid))
    }

    /** findByKey and replay: None when the key is unknown. */
    method FindByKey(rid: Rid, w: World) returns (response: Option<Response>)
      requires Valid() && rid in st.reqs && st.reqs[rid].pc.AtKey? && Keyed(st.reqs[rid].call)
      modifies this`st, this`trace, this`before
      ensures Valid() && old(trace) <= trace && rid in st.reqs && st.reqs[rid].call == old(st).reqs[rid].call
      ensures response.Some? ==> Ended(w, rid, old(st).reqs[rid].call, response.value)
      ensures response.Some? && response != Some(Failed) ==> AnsweredByKey(st, old(st).reqs[rid].call, response.value)
      ensures response.Some? ==> !response.value.Created?
      ensures response.None? ==> st.reqs[rid].pc == AtCache && !old(st).reqs[rid].pc.retry
    {
      hide Inv, Runs, Final, Enabled, Apply;
      var ok := Await(rid, w);
      if !ok {
        return Some(Failed);
      }
      LookupOutcome(st, rid);
      Do(ReadKey(rid));
      if st.reqs[rid].pc.AtOrder? {
        ok := Await(rid, w);
        if !ok {
          return Some(Failed);
        }
        ReplayOutcome(st, rid);
        Do(ReadOrder(rid));
        return Some(st.reqs[rid].pc.response);
      }
      response := None;
    }

    /**
     fetchExists: the attempts of the lookup. All replies before the decisive one were network or server errors; a 200
     or 404 answers, and anything else fails the request, a network or server error only at the second attempt.
     */
    method FetchExists(rid: Rid, w: World)
      requires Valid() && rid in st.reqs && st.reqs[rid].pc.AtFetch?
      modifies this`st, this`trace, this`before
      ensures Valid() && old(trace) <= trace && rid in st.reqs && st.reqs[rid].call == old(st).reqs[rid].call
      ensures st.reqs[rid].pc.AtFill? || st.reqs[rid].pc.Done?
      ensures Fetched(rid, w, old(st).reqs[rid].pc.attempt)
    {
      hide Inv, Runs, Final, IsUuid, Canonical, IsCanonical;
      ghost var first := st.reqs[rid].pc.attempt;
      while st.reqs[rid].pc.AtFetch?
        invariant Valid() && old(trace) <= trace && rid in st.reqs && st.reqs[rid].call == old(st).reqs[rid].call
        invariant st.reqs[rid].pc.AtFetch? || st.reqs[rid].pc.AtFill? || st.reqs[rid].pc.Done?
        invariant st.reqs[rid].pc.AtFetch? ==>
                    first <= st.reqs[rid].pc.attempt && forall n :: first <= n < st.reqs[rid].pc.attempt ==> Retried(w, n)
        invariant !st.reqs[rid].pc.AtFetch? ==> Fetched(rid, w, first)
        decreases if st.reqs[rid].pc.AtFetch? then 1 + Directory.ATTEMPTS - Min(st.reqs[rid].pc.attempt, Directory.ATTEMPTS) else 0
      {
        var attempt := st.reqs[rid].pc.attempt;
        Interfere(rid, w.others(AwaitOf(st.reqs[rid].pc)));
        Do(Fetch(rid, ReplyOf(w, attempt, st.reqs[rid].call.dto.userId, st.db.users)));
      }
    }

    /** The last action was the decisive attempt of the lookup that began with attempt `first`. */
    ghost predicate Fetched(rid: Rid, w: World, first: nat)
      reads this
    {
      && rid in st.reqs && rid in before.reqs && before.reqs[rid].call == st.reqs[rid].call
      && before.reqs[rid].pc.AtFetch?
      && var attempt := before.reqs[rid].pc.attempt;
      && first <= attempt && (forall n :: first <= n < attempt ==> Retried(w, n))
      && var reply := ReplyOf(w, attempt, st.reqs[rid].call.dto.userId, before.db.users);
      && (Inconclusive(reply) ==> attempt >= 2)
      && st.reqs[rid].pc == (if reply == Directory.Status(200) then AtFill
                             else if reply == Directory.Status(404) then Done(NoUser)
                             else Done(Failed))
    }

    /**
     users.exists: None when the user exists, otherwise the answer the request ends with. `at` is the position of the
     cache read in the run; a user cached there is not looked up.
     */
    method CheckUser(rid: Rid, w: World) returns (response: Option<Response>, ghost at: nat)
      requires Valid() && rid in st.reqs && st.reqs[rid].pc.AtCache?
      modifies this`st, this`trace, this`before
      ensures Valid() && old(trace) <= trace && rid in st.reqs && st.reqs[rid].call == old(st).reqs[rid].call
      ensures response.Some? ==> Ended(w, rid, old(st).reqs[rid].call, response.value) && Fetched(rid, w, 1)
      ensures response.Some? ==> response.value == Failed || response.value == NoUser
      ensures response == Some(NoUser) ==> Canonical(st.reqs[rid].call.dto.userId) !in before.db.users
      ensures response.None? ==> st.reqs[rid].pc == AtInsertOrder
      ensures |old(trace)| <= at < |trace| && trace[at] == CacheGet(rid, w.cacheFault) && Runs(start, trace[..at])
      ensures !w.cacheFault && st.reqs[rid].call.dto.userId in Final(start, trace[..at]).cached ==> response.None? && at == |trace| - 1
    {
      hide Inv, Runs, Final, IsUuid, Canonical, IsCanonical, Enabled, Apply;
      AskCache(rid, w);
      at := |trace| - 1;
      ghost var read := trace;
      response := None;
      if st.reqs[rid].pc.AtFetch? {
        FetchExists(rid, w);
        if st.reqs[rid].pc.Done? {
          response := Some(st.reqs[rid].pc.response);
        } else {
          FillCache(rid, w);
        }
      }
      assert trace[..at] == read[..at];
    }

    method FillCache(rid: Rid, w: World)
      requires Valid() && rid in st.reqs && st.reqs[rid].pc.AtFill?
      modifies this`st, this`trace, this`before
      ensures Valid() && old(trace) <= trace
      ensures rid in st.reqs && st.reqs[rid] == old(st).reqs[rid].(pc := AtInsertOrder)
      ensures st.cached == before.cached + if w.cacheApplied then {st.reqs[rid].call.dto.userId} else {}
    {
      hide Inv, Runs, Final, IsUuid, Canonical, IsCanonical;
      Interfere(rid, w.others(AwaitOf(st.reqs[rid].pc)));
      Do(Fill(rid, w.cacheApplied));
    }

    method AskCache(rid: Rid, w: World)
      requires Valid() && rid in st.reqs && st.reqs[rid].pc.AtCache?
      modifies this`st, this`trace, this`before
      ensures Valid() && old(trace) <= trace
      ensures rid in st.reqs && st.reqs[rid].call == old(st).reqs[rid].call
      ensures |old(trace)| < |trace| && trace[|trace| - 1] == CacheGet(rid, w.cacheFault)
      ensures rid in before.reqs && before.reqs[rid] == old(st).reqs[rid]
      ensures st.reqs[rid].pc ==
                if !w.cacheFault && st.reqs[rid].call.dto.userId in before.cached then AtInsertOrder else AtFetch(1)
    {
      hide Inv, Runs, Final, IsUuid, Canonical, IsCanonical;
      Interfere(rid, w.others(AwaitOf(st.reqs[rid].pc)));
      Do(CacheGet(rid, w.cacheFault));
    }

    /** The key insert: None when the key is claimed, otherwise the answer the request ends with. */
    method ClaimKey(rid: Rid, w: World) returns (response: Option<Response>)
      requires Valid() && rid in st.reqs && st.reqs[rid].pc.AtInsertKey? && Keyed(st.reqs[rid].call)
      modifies this`st, this`trace, this`before
      ensures Valid() && old(trace) <= trace && rid in st.reqs && st.reqs[rid].call == old(st).reqs[rid].call
      ensures response.Some? ==> Ended(w, rid, old(st).reqs[rid].call, response.value)
      ensures response.Some? && response != Some(Failed) ==> AnsweredByKey(st, old(st).reqs[rid].call, response.value)
      ensures response.None? ==> st.reqs[rid].pc == AtCommit(old(st).reqs[rid].pc.order)
    {
      hide Inv, Runs, Final, IsUuid, Canonical, IsCanonical;
      var ok := Await(rid, w);
      if !ok {
        return Some(Failed);
      }
      if !Enabled(st, InsertKey(rid)) {
        Do(Fail(rid));
        return Some(Failed);
      }
      Do(InsertKey(rid));
      response := None;
      if st.reqs[rid].pc.AtKey? {
        // Somebody else committed this key first, so the second lookup decides.
        response := FindByKey(rid, w);
      }
    }

    /** The transaction: None when it committed, otherwise the answer the request ends with. */
    method Store(rid: Rid, w: World) returns (response: Option<Response>)
      requires Valid() && rid in st.reqs && st.reqs[rid].pc.AtInsertOrder?
      modifies this`st, this`trace, this`before
      ensures Valid() && old(trace) <= trace && rid in st.reqs && st.reqs[rid].call == old(st).reqs[rid].call
      ensures response.Some? ==> Ended(w, rid, old(st).reqs[rid].call, response.value)
      ensures response.Some? ==> !response.value.Created?
      ensures response.None? ==> st.reqs[rid].pc == AtPublish(Saved(w.orderId, st.reqs[rid].call.dto))
    {
      hide Inv, Runs, Final, IsUuid, Canonical, IsCanonical;
      var ok := Await(rid, w);
      if !ok {
        return Some(Failed);
      }
      if !Fresh(st, w.orderId) {
        Do(Fail(rid));
        return Some(Failed);
      }
      Do(InsertOrder(rid, w.orderId));
      if Keyed(st.reqs[rid].call) {
        response := ClaimKey(rid, w);
        if response.Some? {
          return;
        }
      }
      response := Finish(rid, w);
    }

    /** COMMIT; a lost acknowledgement fails the request although the rows are stored. */
    method Finish(rid: Rid, w: World) returns (response: Option<Response>)
      requires Valid() && rid in st.reqs && st.reqs[rid].pc.AtCommit?
      modifies this`st, this`trace, this`before
      ensures Valid() && old(trace) <= trace && rid in st.reqs && st.reqs[rid].call == old(st).reqs[rid].call
      ensures response.Some? ==> response.value == Failed && Ended(w, rid, old(st).reqs[rid].call, Failed)
      ensures response.None? ==> st.reqs[rid].pc == AtPublish(old(st).reqs[rid].pc.order)
    {
      hide Inv, Runs, Final, IsUuid, Canonical, IsCanonical;
      var ok := Await(rid, w);
      if !ok {
        return Some(Failed);
      }
      Do(Commit(rid, w.acknowledged));
      response := if w.acknowledged then None else Some(Failed);
    }

    /** publishCreated: whatever happens to the publish, the committed order is answered with a 201. */
    method PublishCreated(rid: Rid, w: World) returns (response: Response)
      requires Valid() && rid in st.reqs && st.reqs[rid].pc.AtPublish?
      modifies this`st, this`trace, this`before
      ensures Valid() && old(trace) <= trace
      ensures response == Created(old(st).reqs[rid].pc.order) && Ended(w, rid, old(st).reqs[rid].call, response)
      ensures before.reqs[rid] == old(st).reqs[rid]
      ensures w.published && Fresh(before, w.eventId) ==>
                w.eventId in st.events && st.events[w.eventId] == Published(rid, response.order.id, response.order.userId)
      ensures !(w.published && Fresh(before, w.eventId)) ==> st.events == before.events
    {
      hide Inv, Runs, Final, IsUuid, Canonical, IsCanonical;
      Interfere(rid, w.others(AwaitOf(st.reqs[rid].pc)));
      if w.published && Fresh(st, w.eventId) {
        Do(Publish(rid, w.eventId));
      } else {
        Do(NotPublished(rid));
      }
      response := st.reqs[rid].pc.response;
    }

    method Begin(rid: Rid, call: Call)
      requires Valid() && rid !in st.reqs && IsUuid(call.dto.userId)
      modifies this`st, this`trace, this`before
      ensures Valid() && old(trace) < trace
      ensures rid in st.reqs && st.reqs[rid] == Request(call, if Keyed(call) then AtKey(false) else AtCache)
    {
      hide Inv, Runs, Final, IsUuid, Canonical, IsCanonical;
      Do(Invoke(rid, call));
    }

    /**
     create: for every environment the call extends the run by its own actions and those of the others and ends with
     exactly the response recorded for the request; it fails exactly when the await it ended at broke, which is never
     the one after the commit.
     */
    method Create(rid: Rid, call: Call, w: World) returns (response: Response)
      requires Valid() && rid !in st.reqs && IsUuid(call.dto.userId)
      modifies this`st, this`trace, this`before
      ensures Valid() && old(trace) < trace
      ensures Ended(w, rid, call, response)
      ensures response.Created? ==>
                && response.order == Order(w.orderId, call.dto.userId, call.dto.amount, call.dto.description)
                && before.reqs[rid].pc == AtPublish(response.order)
                && w.orderId in st.db.orders
                && st.db.orders[w.orderId] == Order(w.orderId, Canonical(call.dto.userId), call.dto.amount, call.dto.description)
                && (call.key.Some? && call.key.value != "" ==> call.key.value in st.db.keys && st.db.keys[call.key.value] == w.orderId)
    {
      hide Inv, Runs, Final, IsUuid, Canonical, IsCanonical, LedTo, Breaks, Fetched, Enabled, Apply, AnsweredByKey;
      Begin(rid, call);
      var early: Option<Response>;
      if Keyed(call) {
        early := FindByKey(rid, w);
        if early.Some? {
          return early.value;
        }
      }
      ghost var at;
      early, at := CheckUser(rid, w);
      if early.Some? {
        return early.value;
      }
      early := Store(rid, w);
      if early.Some? {
        return early.value;
      }
      response := PublishCreated(rid, w);
      CreatedIsStored(st, rid);
    }
  }
}
